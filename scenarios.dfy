/**
 Small files worked through the model: each lemma fixes the physical lines
 and a syntax tree for them, and states the analysis results. The NoEnd and
 NoneEnd trees are built by hand to exercise the paths for missing and None
 end positions.
 */
module Scenarios {
  import opened Syntax
  import opened Text
  import opened Docstrings
  import opened LineCounter
  import opened Extraction
  import opened HealthChecker

  /** Statements that are neither definitions nor hold statements add no
      docstring lines. */
  lemma {:induction false} LeavesHaveNoDocLines(s: seq<Node>, total: nat)
    requires forall k :: 0 <= k < |s| ==> !HasDocSlot(s[k]) && Children(s[k]) == []
    decreases |s|
    ensures ForestDocLines(s, total) == {}
  {
    if s != [] {
      LeavesHaveNoDocLines(s[..|s| - 1], total);
      var last := s[|s| - 1];
      assert TreeDocLines(last, total) == {} by {
        assert !last.Expr? ==> last.body == [];
      }
    }
  }

  /** Statements that are neither definitions nor hold statements add no
      records. */
  lemma {:induction false} LeavesHaveNoRecords(s: seq<Node>, currentClass: Option<string>, lines: seq<string>, docs: set<int>)
    requires forall k :: 0 <= k < |s| ==> !HasDocSlot(s[k]) && Children(s[k]) == []
    decreases |s|
    ensures ExtractAll(s, currentClass, lines, docs) == []
  {
    if s != [] {
      LeavesHaveNoRecords(s[..|s| - 1], currentClass, lines, docs);
      var last := s[|s| - 1];
      assert last.Other? || last.Expr?;
      if last.Other? {
        assert last.body == [];
        assert Extract(last, currentClass, lines, docs) == ExtractAll([], currentClass, lines, docs);
      }
    }
  }

  /** `n` spaces of indentation. */
  function Pad(n: nat): (r: string)
    ensures |r| == n && forall j :: 0 <= j < n ==> r[j] == ' '
  {
    seq(n, _ => ' ')
  }

  /** An indented line of code. */
  lemma PaddedCode(n: nat, rest: string)
    requires rest != [] && !IsSpace(rest[0]) && rest[0] != '#'
    ensures IsCodeText(Pad(n) + rest)
  {
    CodeLine(Pad(n) + rest, n);
  }

  /** An indented comment line. */
  lemma PaddedComment(n: nat, rest: string)
    requires rest != [] && rest[0] == '#'
    ensures !IsCodeText(Pad(n) + rest)
  {
    CommentLine(Pad(n) + rest, n);
  }

  /** A line whose first non-blank character, at `k`, is code. */
  lemma CodeLine(s: string, k: nat)
    requires k < |s| && !IsSpace(s[k]) && s[k] != '#'
    requires forall j :: 0 <= j < k ==> IsSpace(s[j])
    ensures IsCodeText(s)
  {
    IsCodeTextIff(s);
  }

  /** A line whose first non-blank character, at `k`, opens a comment. */
  lemma CommentLine(s: string, k: nat)
    requires k < |s| && s[k] == '#'
    requires forall j :: 0 <= j < k ==> IsSpace(s[j])
    ensures !IsCodeText(s)
  {
    IsCodeTextIff(s);
  }

  /** A line of whitespace only. */
  lemma BlankLine(s: string)
    requires forall j :: 0 <= j < |s| ==> IsSpace(s[j])
    ensures !IsCodeText(s)
  {
    IsCodeTextIff(s);
  }

  /** A ten-line file: a module docstring on lines 1-3, a blank line, a
      comment, four statements and a trailing blank line. */
  const ModuleFileLines: seq<string> :=
    ["\"\"\"Module docstring.", "More text.", "\"\"\"", "", "# comment",
     "import os", "x = 1", "y = 2", "print(x)", ""]
  const ModuleFileTree: Node :=
    Module([Expr(1, At(3), StrConst("Module docstring.\nMore text.\n")),
            Other(6, At(6), []), Other(7, At(7), []),
            Other(8, At(8), []), Other(9, At(9), [])])

  /** The module docstring occupies the first three lines. */
  lemma ModuleFileDocLines()
    ensures DocLines(Some(ModuleFileTree), |ModuleFileLines|) == {0, 1, 2}
  {
    assert OwnDocLines(ModuleFileTree, 10) == {0, 1, 2};
    LeavesHaveNoDocLines(ModuleFileTree.body, 10);
  }

  /** Four of the ten lines are effective: the docstring, the blank lines
      and the comment are not. */
  lemma ModuleFileCount()
    ensures EffectiveCount(ModuleFileLines, DocLines(Some(ModuleFileTree), |ModuleFileLines|), 0, None) == 4
  {
    ModuleFileDocLines();
    var lines := ModuleFileLines;
    BlankLine(lines[3]);
    CommentLine(lines[4], 0);
    CodeLine(lines[5], 0);
    CodeLine(lines[6], 0);
    CodeLine(lines[7], 0);
    CodeLine(lines[8], 0);
    BlankLine(lines[9]);
    assert |lines| == 10;
    assert CountIn(lines, {0, 1, 2}, 0, 10) == 4;
  }

  /** A function whose docstring spans its lines 2-3. */
  const DocFunctionLines: seq<string> :=
    ["def f():", Pad(4) + "\"\"\"Doc.", Pad(4) + "\"\"\"", Pad(4) + "a = 1", "", Pad(4) + "# note", Pad(4) + "return a"]
  const DocFunction: Node :=
    FunctionDef("f", false, 1, At(7), [Expr(2, At(3), StrConst("Doc.\n    ")), Other(4, At(4), []), Other(7, At(7), [])])

  lemma DocFunctionDocLines()
    ensures DocLines(Some(Module([DocFunction])), |DocFunctionLines|) == {1, 2}
  {
    var f := DocFunction;
    assert OwnDocLines(Module([f]), 7) == {};
    assert OwnDocLines(f, 7) == {1, 2};
    LeavesHaveNoDocLines(f.body, 7);
    assert TreeDocLines(f, 7) == {1, 2};
    assert ForestDocLines([f], 7) == TreeDocLines(f, 7) by { assert [f][..0] == []; }
  }

  /** The docstring lines are left out of the function's count, the blank
      line and the comment too, and the `def` line itself counts. */
  lemma DocFunctionRecords()
    ensures ExtractedFunctions(DocFunctionLines, Some(Module([DocFunction]))) ==
            [FunctionRecord("f", Function, None, 1, Some(7), 3)]
  {
    DocFunctionDocLines();
    var lines := DocFunctionLines;
    var f := DocFunction;
    var docs := {1, 2};
    assert CountIn(lines, docs, 0, 7) == 3 by {
      CodeLine(lines[0], 0);
      PaddedCode(4, "a = 1");
      BlankLine(lines[4]);
      PaddedComment(4, "# note");
      PaddedCode(4, "return a");
    }
    assert |lines| == 7;
    assert RecordFor(f, None, lines, docs) == FunctionRecord("f", Function, None, 1, Some(7), 3);
    LeavesHaveNoRecords(f.body, None, lines, docs);
    assert Extract(f, None, lines, docs) == [RecordFor(f, None, lines, docs)];
    assert ExtractAll([f], None, lines, docs) == [RecordFor(f, None, lines, docs)] by { assert [f][..0] == []; }
    assert ExtractedFunctions(lines, Some(Module([f]))) == ExtractAll([f], None, lines, docs);
  }

  /** A class without a docstring holding an assignment and one method. */
  const ClassFileLines: seq<string> :=
    ["class A:", Pad(4) + "x = 1", "", Pad(4) + "def m(self):", Pad(8) + "return 1"]
  const ClassMethod: Node := FunctionDef("m", false, 4, At(5), [Other(5, At(5), [])])
  const ClassA: Node := ClassDef("A", 1, At(5), [Other(2, At(2), []), ClassMethod])

  lemma ClassFileDocLines()
    ensures DocLines(Some(Module([ClassA])), |ClassFileLines|) == {}
  {
    var m := ClassMethod;
    var a := ClassA;
    LeavesHaveNoDocLines(m.body, 5);
    assert TreeDocLines(m, 5) == {};
    LeavesHaveNoDocLines(a.body[..1], 5);
    assert ForestDocLines(a.body, 5) == {};
    assert TreeDocLines(a, 5) == {};
    assert ForestDocLines([a], 5) == TreeDocLines(a, 5) by { assert [a][..0] == []; }
  }

  /** The method is recorded with kind `'method'` and the class's name. */
  lemma ClassFileRecords()
    ensures ExtractedFunctions(ClassFileLines, Some(Module([ClassA]))) ==
            [FunctionRecord("m", Method, Some("A"), 4, Some(5), 2)]
  {
    ClassFileDocLines();
    var lines := ClassFileLines;
    var m := ClassMethod;
    var a := ClassA;
    var docs: set<int> := {};
    assert CountIn(lines, docs, 3, 5) == 2 by {
      PaddedCode(4, "def m(self):");
      PaddedCode(8, "return 1");
    }
    assert |lines| == 5;
    assert RecordFor(m, Some("A"), lines, docs) == FunctionRecord("m", Method, Some("A"), 4, Some(5), 2);
    LeavesHaveNoRecords(m.body, Some("A"), lines, docs);
    LeavesHaveNoRecords(a.body[..1], Some("A"), lines, docs);
    assert Extract(m, Some("A"), lines, docs) == [RecordFor(m, Some("A"), lines, docs)];
    assert ExtractAll(a.body, Some("A"), lines, docs) == [RecordFor(m, Some("A"), lines, docs)];
    assert ExtractAll([a], None, lines, docs) == Extract(a, None, lines, docs) by { assert [a][..0] == []; }
    assert ExtractedFunctions(lines, Some(Module([a]))) == ExtractAll([a], None, lines, docs);
  }

  /** A function nested in a method. */
  const NestedLines: seq<string> :=
    ["class A:", Pad(4) + "def outer(self):", Pad(8) + "def inner():", Pad(12) + "return 1", Pad(8) + "return inner"]
  const NestedInner: Node := FunctionDef("inner", false, 3, At(4), [Other(4, At(4), [])])
  const NestedOuter: Node := FunctionDef("outer", false, 2, At(5), [NestedInner, Other(5, At(5), [])])
  const NestedClass: Node := ClassDef("A", 1, At(5), [NestedOuter])

  lemma NestedDocLines()
    ensures DocLines(Some(Module([NestedClass])), |NestedLines|) == {}
  {
    var inner := NestedInner;
    var outer := NestedOuter;
    var a := NestedClass;
    LeavesHaveNoDocLines(inner.body, 5);
    assert TreeDocLines(inner, 5) == {};
    LeavesHaveNoDocLines(outer.body[1..], 5);
    ForestDocLinesCons(inner, outer.body[1..], 5);
    assert [inner] + outer.body[1..] == outer.body;
    assert TreeDocLines(outer, 5) == {};
    assert ForestDocLines([outer], 5) == TreeDocLines(outer, 5) by { assert [outer][..0] == []; }
    assert TreeDocLines(a, 5) == {};
    assert ForestDocLines([a], 5) == TreeDocLines(a, 5) by { assert [a][..0] == []; }
  }

  /** The inner function is a method of the class too: the rule looks at
      the current class only, not at the nearest enclosing scope. Records
      come in pre-order. */
  lemma NestedRecords()
    ensures ExtractedFunctions(NestedLines, Some(Module([NestedClass]))) ==
            [FunctionRecord("outer", Method, Some("A"), 2, Some(5), 4),
             FunctionRecord("inner", Method, Some("A"), 3, Some(4), 2)]
  {
    NestedDocLines();
    var lines := NestedLines;
    var inner := NestedInner;
    var outer := NestedOuter;
    var a := NestedClass;
    var docs: set<int> := {};
    assert CountIn(lines, docs, 1, 5) == 4 && CountIn(lines, docs, 2, 4) == 2 by {
      PaddedCode(4, "def outer(self):");
      PaddedCode(8, "def inner():");
      PaddedCode(12, "return 1");
      PaddedCode(8, "return inner");
    }
    assert |lines| == 5;
    assert RecordFor(outer, Some("A"), lines, docs) == FunctionRecord("outer", Method, Some("A"), 2, Some(5), 4);
    assert RecordFor(inner, Some("A"), lines, docs) == FunctionRecord("inner", Method, Some("A"), 3, Some(4), 2);
    LeavesHaveNoRecords(inner.body, Some("A"), lines, docs);
    LeavesHaveNoRecords(outer.body[1..], Some("A"), lines, docs);
    assert Extract(inner, Some("A"), lines, docs) == [RecordFor(inner, Some("A"), lines, docs)];
    assert outer.body[..1] == [inner];
    assert [inner][..0] == [];
    assert ExtractAll(outer.body, Some("A"), lines, docs) == [RecordFor(inner, Some("A"), lines, docs)];
    assert ExtractAll([outer], Some("A"), lines, docs) == Extract(outer, Some("A"), lines, docs) by { assert [outer][..0] == []; }
    assert ExtractAll([a], None, lines, docs) == Extract(a, None, lines, docs) by { assert [a][..0] == []; }
    assert ExtractedFunctions(lines, Some(Module([a]))) == ExtractAll([a], None, lines, docs);
  }

  /** A function with a string statement in the middle of its body. */
  const MidStringLines: seq<string> :=
    ["def f():", Pad(4) + "x = 1", Pad(4) + "\"not a docstring\"", Pad(4) + "return x"]
  const MidStringFunction: Node :=
    FunctionDef("f", false, 1, At(4), [Other(2, At(2), []), Expr(3, At(3), StrConst("not a docstring")), Other(4, At(4), [])])

  /** Only a leading string is a docstring. */
  lemma MidStringDocLines()
    ensures DocLines(Some(Module([MidStringFunction])), |MidStringLines|) == {}
  {
    var f := MidStringFunction;
    LeavesHaveNoDocLines(f.body, 4);
    assert OwnDocLines(f, 4) == {};
    assert TreeDocLines(f, 4) == {};
    assert ForestDocLines([f], 4) == TreeDocLines(f, 4) by { assert [f][..0] == []; }
  }

  /** The string statement counts as a line of code. */
  lemma MidStringRecords()
    ensures ExtractedFunctions(MidStringLines, Some(Module([MidStringFunction]))) ==
            [FunctionRecord("f", Function, None, 1, Some(4), 4)]
  {
    MidStringDocLines();
    var lines := MidStringLines;
    var f := MidStringFunction;
    var docs: set<int> := {};
    assert CountIn(lines, docs, 0, 4) == 4 by {
      CodeLine(lines[0], 0);
      PaddedCode(4, "x = 1");
      PaddedCode(4, "\"not a docstring\"");
      PaddedCode(4, "return x");
    }
    assert |lines| == 4;
    assert RecordFor(f, None, lines, docs) == FunctionRecord("f", Function, None, 1, Some(4), 4);
    LeavesHaveNoRecords(f.body, None, lines, docs);
    assert Extract(f, None, lines, docs) == [RecordFor(f, None, lines, docs)];
    assert ExtractAll([f], None, lines, docs) == [RecordFor(f, None, lines, docs)] by { assert [f][..0] == []; }
    assert ExtractedFunctions(lines, Some(Module([f]))) == ExtractAll([f], None, lines, docs);
  }

  /** The same kind of file given as a tree without end positions: no node
      has an `end_lineno` attribute. */
  const NoEndLines: seq<string> :=
    ["def f():", Pad(4) + "\"\"\"Doc", Pad(4) + "more\"\"\"", Pad(4) + "return 1", "x = 2"]
  const NoEndText: string := "Doc\n    more"
  const NoEndFunction: Node :=
    FunctionDef("f", false, 1, NoAttr, [Expr(2, NoAttr, StrConst(NoEndText)), Other(4, NoAttr, [])])
  const NoEndTree: Node := Module([NoEndFunction, Other(5, NoAttr, [])])

  /** The docstring span is estimated from its one line break. */
  lemma NoEndDocLines()
    ensures DocLines(Some(NoEndTree), |NoEndLines|) == {1, 2}
  {
    var f := NoEndFunction;
    var tree := NoEndTree;
    assert CountNewlines(NoEndText) == 1 by {
      assert NoEndText == "Doc" + "\n" + "    more";
      CountNewlinesConcat("Doc" + "\n", "    more");
      CountNewlinesConcat("Doc", "\n");
      CountNewlinesZeroIff("Doc");
      CountNewlinesZeroIff("    more");
      assert CountNewlines("\n") == 1 by { assert "\n"[..0] == []; }
    }
    assert OwnDocLines(f, 5) == {1, 2};
    LeavesHaveNoDocLines(f.body, 5);
    assert TreeDocLines(f, 5) == {1, 2};
    LeavesHaveNoDocLines(tree.body[1..], 5);
    ForestDocLinesCons(f, tree.body[1..], 5);
    assert [f] + tree.body[1..] == tree.body;
    assert OwnDocLines(tree, 5) == {};
  }

  /** The function ends at the line of its last statement. */
  lemma NoEndRecords()
    ensures ExtractedFunctions(NoEndLines, Some(NoEndTree)) == [FunctionRecord("f", Function, None, 1, Some(4), 2)]
  {
    NoEndDocLines();
    var lines := NoEndLines;
    var f := NoEndFunction;
    var tree := NoEndTree;
    var docs := {1, 2};
    assert CountIn(lines, docs, 0, 4) == 2 by {
      CodeLine(lines[0], 0);
      PaddedCode(4, "return 1");
    }
    assert |lines| == 5;
    assert FunctionEnd(f) == Some(4);
    assert RecordFor(f, None, lines, docs) == FunctionRecord("f", Function, None, 1, Some(4), 2);
    LeavesHaveNoRecords(f.body, None, lines, docs);
    assert Extract(f, None, lines, docs) == [RecordFor(f, None, lines, docs)];
    assert ExtractAll([f], None, lines, docs) == [RecordFor(f, None, lines, docs)] by { assert [f][..0] == []; }
    assert tree.body[..1] == [f];
    assert Extract(tree.body[1], None, lines, docs) == [];
    assert ExtractedFunctions(lines, Some(tree)) == ExtractAll(tree.body, None, lines, docs);
  }

  /** A tree whose `end_lineno` attributes are present but None. */
  const NoneEndLines: seq<string> := ["def f():", Pad(4) + "return 1", "x = 2"]
  const NoneEndFunction: Node := FunctionDef("f", false, 1, NoneValue, [Other(2, NoneValue, [])])
  const NoneEndTree: Node := Module([NoneEndFunction, Other(3, NoneValue, [])])

  /** The end line is None and the count runs to the end of the file, past
      the function. */
  lemma NoneEndRecords()
    ensures ExtractedFunctions(NoneEndLines, Some(NoneEndTree)) == [FunctionRecord("f", Function, None, 1, None, 3)]
  {
    var lines := NoneEndLines;
    var f := NoneEndFunction;
    var tree := NoneEndTree;
    assert DocLines(Some(tree), 3) == {} by {
      LeavesHaveNoDocLines(f.body, 3);
      assert TreeDocLines(f, 3) == {};
      LeavesHaveNoDocLines(tree.body[1..], 3);
      ForestDocLinesCons(f, tree.body[1..], 3);
      assert [f] + tree.body[1..] == tree.body;
    }
    var docs: set<int> := {};
    assert CountIn(lines, docs, 0, 3) == 3 by {
      CodeLine(lines[0], 0);
      PaddedCode(4, "return 1");
      CodeLine(lines[2], 0);
    }
    assert |lines| == 3;
    assert FunctionEnd(f) == None;
    assert RecordFor(f, None, lines, docs) == FunctionRecord("f", Function, None, 1, None, 3);
    LeavesHaveNoRecords(f.body, None, lines, docs);
    assert Extract(f, None, lines, docs) == [RecordFor(f, None, lines, docs)];
    assert ExtractAll([f], None, lines, docs) == [RecordFor(f, None, lines, docs)] by { assert [f][..0] == []; }
    assert tree.body[..1] == [f];
    assert Extract(tree.body[1], None, lines, docs) == [];
    assert ExtractedFunctions(lines, Some(tree)) == ExtractAll(tree.body, None, lines, docs);
  }

  /** A file that does not parse. */
  const BrokenLines: seq<string> := ["def f(:", Pad(4) + "\"\"\"text\"\"\"", "", "# c"]

  /** No docstring lines are excluded and no function is recorded: the
      count is that of the non-blank, non-comment lines, the would-be
      docstring included. */
  lemma BrokenFile()
    ensures ExtractedFunctions(BrokenLines, None) == []
    ensures EffectiveCount(BrokenLines, DocLines(None, |BrokenLines|), 0, None) == 2
  {
    var lines := BrokenLines;
    CodeLine(lines[0], 0);
    PaddedCode(4, "\"\"\"text\"\"\"");
    BlankLine(lines[2]);
    CommentLine(lines[3], 0);
  }
}
