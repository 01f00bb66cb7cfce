/**
 `FunctionExtractor`: a walk over the syntax tree that keeps the name of the
 class being visited in a field, saved and restored around every class, and
 records every `def` and `async def` it meets, with its line span and its
 effective line count.
 */
module Extraction {
  import opened Syntax
  import opened Docstrings
  import opened LineCounter

  /** The `'type'` entry of a record. */
  datatype Kind = Function | Method

  /** One entry of `FunctionExtractor.functions`. */
  datatype FunctionRecord = FunctionRecord(
    name: string,
    kind: Kind,
    enclosingClass: Option<string>,
    startLine: int,
    endLine: Option<int>,
    effectiveLines: nat)

  /** `'method'` exactly when the current class is set and not empty: the
      test is Python's truthiness of `self.current_class`. */
  function KindFor(currentClass: Option<string>): Kind
  {
    if currentClass.Some? && currentClass.value != "" then Method else Function
  }

  /** The end line `_process_function` settles on for a definition: its own
      `end_lineno`; failing that, the last body statement's `end_lineno`
      attribute, which is taken even when it holds None, or that statement's
      line number when it has no such attribute (a module as the last
      statement has neither and falls back to the definition's own line);
      and the definition's own line when the body is empty. */
  function FunctionEnd(d: Node): Option<int>
    requires d.FunctionDef?
  {
    if d.endLine.At? then Some(d.endLine.line)
    else if |d.body| > 0 then
      var last := d.body[|d.body| - 1];
      match EndOf(last)
      case At(e) => Some(e)
      case NoneValue => None
      case NoAttr => Some(if last.Module? then d.lineno else last.lineno)
    else Some(d.lineno)
  }

  /** The record `_process_function` appends for definition `d` while the
      current class is `currentClass`. */
  function RecordFor(d: Node, currentClass: Option<string>, lines: seq<string>, docs: set<int>): FunctionRecord
    requires d.FunctionDef?
  {
    var endLine := FunctionEnd(d);
    FunctionRecord(d.name, KindFor(currentClass), currentClass, d.lineno, endLine,
                   EffectiveCount(lines, docs, d.lineno - 1, endLine))
  }

  /** The records that visiting `n` appends, when the current class is
      `currentClass` on entry. */
  function Extract(n: Node, currentClass: Option<string>, lines: seq<string>, docs: set<int>): seq<FunctionRecord>
    decreases n
  {
    match n
    case ClassDef(name, _, _, body) => ExtractAll(body, Some(name), lines, docs)
    case FunctionDef(_, _, _, _, body) => [RecordFor(n, currentClass, lines, docs)] + ExtractAll(body, currentClass, lines, docs)
    case Expr(_, _, _) => []
    case _ => ExtractAll(n.body, currentClass, lines, docs)
  }

  /** The records that visiting the statements of `s` in turn appends. */
  function ExtractAll(s: seq<Node>, currentClass: Option<string>, lines: seq<string>, docs: set<int>): seq<FunctionRecord>
    decreases s
  {
    if s == [] then []
    else ExtractAll(s[..|s| - 1], currentClass, lines, docs) + Extract(s[|s| - 1], currentClass, lines, docs)
  }

  // ---------------------------------------------------------------------
  // A reference description of the output that does not thread a current
  // class: the definitions of the tree in pre-order, each with the chain of
  // nodes above it.

  /** A definition together with its ancestors, outermost first. */
  datatype Site = Site(def: Node, ancestors: seq<Node>)

  /** Every `def` and `async def` in the tree rooted at `n`, in pre-order
      (a definition before the definitions nested inside it, siblings in
      source order), where `above` are the ancestors of `n`. */
  function Defs(n: Node, above: seq<Node>): (r: seq<Site>)
    decreases n
    ensures forall k :: 0 <= k < |r| ==> r[k].def.FunctionDef?
    ensures forall k :: 0 <= k < |r| ==> r[k].def in SubNodes(n)
  {
    (if n.FunctionDef? then [Site(n, above)] else [])
    + (if n.Expr? then [] else DefsAll(n.body, above + [n]))
  }

  function DefsAll(s: seq<Node>, above: seq<Node>): (r: seq<Site>)
    decreases s
    ensures forall k :: 0 <= k < |r| ==> r[k].def.FunctionDef?
    ensures forall k :: 0 <= k < |r| ==> r[k].def in ForestNodes(s)
  {
    if s == [] then [] else DefsAll(s[..|s| - 1], above) + Defs(s[|s| - 1], above)
  }

  /** Every `def` and `async def` the walk of `n` meets is listed. */
  lemma {:induction false} DefsComplete(n: Node, above: seq<Node>, d: Node)
    requires d in SubNodes(n) && d.FunctionDef?
    decreases n
    ensures exists k :: 0 <= k < |Defs(n, above)| && Defs(n, above)[k].def == d
  {
    var head := if n.FunctionDef? then [Site(n, above)] else [];
    if d == n {
      assert Defs(n, above)[0] == Site(n, above);
    } else {
      assert !n.Expr?;
      DefsAllComplete(n.body, above + [n], d);
      var inner := DefsAll(n.body, above + [n]);
      var k :| 0 <= k < |inner| && inner[k].def == d;
      assert Defs(n, above)[|head| + k] == inner[k];
    }
  }

  lemma {:induction false} DefsAllComplete(s: seq<Node>, above: seq<Node>, d: Node)
    requires d in ForestNodes(s) && d.FunctionDef?
    decreases s
    ensures exists k :: 0 <= k < |DefsAll(s, above)| && DefsAll(s, above)[k].def == d
  {
    var init := s[..|s| - 1];
    var last := s[|s| - 1];
    if d in ForestNodes(init) {
      DefsAllComplete(init, above, d);
      var k :| 0 <= k < |DefsAll(init, above)| && DefsAll(init, above)[k].def == d;
      assert DefsAll(s, above)[k] == DefsAll(init, above)[k];
    } else {
      DefsComplete(last, above, d);
      var k :| 0 <= k < |Defs(last, above)| && Defs(last, above)[k].def == d;
      assert DefsAll(s, above)[|DefsAll(init, above)| + k] == Defs(last, above)[k];
    }
  }

  /** The name of the nearest class among `ancestors`, whatever functions
      stand between it and the definition. */
  function NearestClass(ancestors: seq<Node>): Option<string>
  {
    if ancestors == [] then None
    else if ancestors[|ancestors| - 1].ClassDef? then Some(ancestors[|ancestors| - 1].name)
    else NearestClass(ancestors[..|ancestors| - 1])
  }

  /** The records of the sites, each with the enclosing class its ancestors
      give it. */
  function Records(sites: seq<Site>, lines: seq<string>, docs: set<int>): (r: seq<FunctionRecord>)
    requires forall k :: 0 <= k < |sites| ==> sites[k].def.FunctionDef?
  {
    seq(|sites|, k requires 0 <= k < |sites| =>
      RecordFor(sites[k].def, NearestClass(sites[k].ancestors), lines, docs))
  }

  lemma RecordsConcat(a: seq<Site>, b: seq<Site>, lines: seq<string>, docs: set<int>)
    requires forall k :: 0 <= k < |a| ==> a[k].def.FunctionDef?
    requires forall k :: 0 <= k < |b| ==> b[k].def.FunctionDef?
    ensures Records(a + b, lines, docs) == Records(a, lines, docs) + Records(b, lines, docs)
  {
  }

  /** The walk yields one record per definition, in pre-order, and the
      enclosing class of each record is the nearest class above the
      definition: the saved-and-restored field computes exactly that. */
  lemma {:induction false} ExtractIsRecordsOfDefs(n: Node, above: seq<Node>, lines: seq<string>, docs: set<int>)
    decreases n
    ensures Extract(n, NearestClass(above), lines, docs) == Records(Defs(n, above), lines, docs)
  {
    var cls := NearestClass(above);
    if n.Expr? {
    } else {
      ExtractAllIsRecordsOfDefs(n.body, above + [n], lines, docs);
      var inner := DefsAll(n.body, above + [n]);
      assert NearestClass(above + [n]) == if n.ClassDef? then Some(n.name) else cls by {
        assert (above + [n])[..|above + [n]| - 1] == above;
      }
      if n.FunctionDef? {
        RecordsConcat([Site(n, above)], inner, lines, docs);
      } else {
        assert Defs(n, above) == inner;
      }
    }
  }

  lemma {:induction false} ExtractAllIsRecordsOfDefs(s: seq<Node>, above: seq<Node>, lines: seq<string>, docs: set<int>)
    decreases s
    ensures ExtractAll(s, NearestClass(above), lines, docs) == Records(DefsAll(s, above), lines, docs)
  {
    if s != [] {
      ExtractAllIsRecordsOfDefs(s[..|s| - 1], above, lines, docs);
      ExtractIsRecordsOfDefs(s[|s| - 1], above, lines, docs);
      RecordsConcat(DefsAll(s[..|s| - 1], above), Defs(s[|s| - 1], above), lines, docs);
    }
  }

  /** What each record of a whole-module walk says about its definition:
      the name and start line are the definition's, the kind is `'method'`
      exactly when some class (non-empty name) encloses the definition at
      any depth, and the effective count is that of the lines from the
      `def` line to the end line `_process_function` settled on. */
  lemma ModuleRecords(tree: Node, lines: seq<string>, docs: set<int>, k: int)
    requires 0 <= k < |Extract(tree, None, lines, docs)|
    ensures |Defs(tree, [])| == |Extract(tree, None, lines, docs)|
    ensures var r := Extract(tree, None, lines, docs)[k];
            var site := Defs(tree, [])[k];
            && r.name == site.def.name
            && r.startLine == site.def.lineno
            && r.enclosingClass == NearestClass(site.ancestors)
            && (r.kind == Method <==> NearestClass(site.ancestors).Some? && NearestClass(site.ancestors).value != "")
            && r.endLine == FunctionEnd(site.def)
            && r.effectiveLines == EffectiveCount(lines, docs, r.startLine - 1, r.endLine)
  {
    ExtractIsRecordsOfDefs(tree, [], lines, docs);
  }

  /** The effective count of a record never exceeds the number of lines of
      its span, `end_line - start_line + 1`, and with no end line it never
      exceeds the lines from its start to the end of the file. */
  lemma RecordBound(d: Node, currentClass: Option<string>, lines: seq<string>, docs: set<int>)
    requires d.FunctionDef?
    ensures var r := RecordFor(d, currentClass, lines, docs);
            && r.startLine >= 1
            && (r.endLine.Some? ==> r.effectiveLines <= Max(0, r.endLine.value - r.startLine + 1))
            && r.effectiveLines <= Max(0, |lines| - r.startLine + 1)
  {
    var r := RecordFor(d, currentClass, lines, docs);
    EffectiveCountBound(lines, docs, d.lineno - 1, r.endLine);
  }

  /** Every record of a walk, whatever the tree, obeys the span bound. */
  lemma {:induction false} ExtractBound(n: Node, currentClass: Option<string>, lines: seq<string>, docs: set<int>)
    decreases n
    ensures forall r :: r in Extract(n, currentClass, lines, docs) ==>
      && r.startLine >= 1
      && (r.endLine.Some? ==> r.effectiveLines <= Max(0, r.endLine.value - r.startLine + 1))
      && r.effectiveLines <= Max(0, |lines| - r.startLine + 1)
  {
    match n
    case ClassDef(name, _, _, body) => ExtractAllBound(body, Some(name), lines, docs);
    case FunctionDef(_, _, _, _, body) =>
      RecordBound(n, currentClass, lines, docs);
      ExtractAllBound(body, currentClass, lines, docs);
    case Expr(_, _, _) =>
    case _ => ExtractAllBound(n.body, currentClass, lines, docs);
  }

  lemma {:induction false} ExtractAllBound(s: seq<Node>, currentClass: Option<string>, lines: seq<string>, docs: set<int>)
    decreases s
    ensures forall r :: r in ExtractAll(s, currentClass, lines, docs) ==>
      && r.startLine >= 1
      && (r.endLine.Some? ==> r.effectiveLines <= Max(0, r.endLine.value - r.startLine + 1))
      && r.effectiveLines <= Max(0, |lines| - r.startLine + 1)
  {
    if s != [] {
      ExtractAllBound(s[..|s| - 1], currentClass, lines, docs);
      ExtractBound(s[|s| - 1], currentClass, lines, docs);
    }
  }

  /** The records of one file: none when parsing failed, otherwise those of
      a walk of the module that starts outside every class. */
  function ExtractedFunctions(lines: seq<string>, parsed: Option<Node>): seq<FunctionRecord>
  {
    match parsed
    case None => []
    case Some(tree) => Extract(tree, None, lines, DocLines(parsed, |lines|))
  }

  class FunctionExtractor {
    /** The records appended so far. */
    var functions: seq<FunctionRecord>
    /** The counter that measures each definition. */
    const counter: LineCounter.CodeLineCounter
    /** The name of the class being visited, if any. */
    var currentClass: Option<string>

    constructor (lines: seq<string>, parsed: Option<Node>)
      ensures functions == [] && currentClass == None
      ensures counter.lines == lines && counter.parsed == parsed
      ensures counter.docstringRanges == DocLines(parsed, |lines|)
    {
      functions := [];
      counter := new LineCounter.CodeLineCounter(lines, parsed);
      currentClass := None;
    }

    /** `NodeVisitor.visit`: dispatch on the kind of node. */
    method Visit(node: Node)
      modifies this
      decreases node, 2
      ensures currentClass == old(currentClass)
      ensures functions == old(functions) + Extract(node, old(currentClass), counter.lines, counter.docstringRanges)
    {
      match node
      case ClassDef(_, _, _, _) => VisitClassDef(node);
      case FunctionDef(_, isAsync, _, _, _) =>
        if isAsync {
          VisitAsyncFunctionDef(node);
        } else {
          VisitFunctionDef(node);
        }
      case _ => GenericVisit(node);
    }

    /** `NodeVisitor.generic_visit`: visit the nested statements in order. */
    method GenericVisit(node: Node)
      modifies this
      decreases node, 0
      ensures currentClass == old(currentClass)
      ensures functions == old(functions) + ExtractAll(Children(node), old(currentClass), counter.lines, counter.docstringRanges)
    {
      if node.Expr? {
        return;
      }
      var body := node.body;
      for i := 0 to |body|
        invariant currentClass == old(currentClass)
        invariant functions == old(functions) + ExtractAll(body[..i], currentClass, counter.lines, counter.docstringRanges)
      {
        assert body[..i + 1][..i] == body[..i];
        Visit(body[i]);
      }
      assert body[..|body|] == body;
    }

    /** `visit_ClassDef`: set the current class for the body, then restore
        the one saved on entry. */
    method VisitClassDef(node: Node)
      requires node.ClassDef?
      modifies this
      decreases node, 1
      ensures currentClass == old(currentClass)
      ensures functions == old(functions) + Extract(node, old(currentClass), counter.lines, counter.docstringRanges)
    {
      var oldClass := currentClass;
      currentClass := Some(node.name);
      GenericVisit(node);
      currentClass := oldClass;
    }

    /** `visit_FunctionDef`: record the definition, then visit its body. */
    method VisitFunctionDef(node: Node)
      requires node.FunctionDef? && !node.isAsync
      modifies this
      decreases node, 1
      ensures currentClass == old(currentClass)
      ensures functions == old(functions) + Extract(node, old(currentClass), counter.lines, counter.docstringRanges)
    {
      ProcessFunction(node);
      GenericVisit(node);
    }

    /** `visit_AsyncFunctionDef`: handled exactly as a plain definition. */
    method VisitAsyncFunctionDef(node: Node)
      requires node.FunctionDef? && node.isAsync
      modifies this
      decreases node, 1
      ensures currentClass == old(currentClass)
      ensures functions == old(functions) + Extract(node, old(currentClass), counter.lines, counter.docstringRanges)
    {
      ProcessFunction(node);
      GenericVisit(node);
    }

    /** `_process_function`: work out the end line, count the effective
        lines from the `def` line on, and append the record. */
    method ProcessFunction(node: Node)
      requires node.FunctionDef?
      modifies this`functions
      ensures functions == old(functions) + [RecordFor(node, currentClass, counter.lines, counter.docstringRanges)]
    {
      var startLine := node.lineno - 1;
      var endLine: Option<int>;
      if node.endLine.At? {
        endLine := Some(node.endLine.line);
      } else if |node.body| > 0 {
        var last := node.body[|node.body| - 1];
        match EndOf(last)
        case At(e) => endLine := Some(e);
        case NoneValue => endLine := None;
        case NoAttr => endLine := Some(if last.Module? then startLine + 1 else last.lineno);
      } else {
        endLine := Some(startLine + 1);
      }
      var effectiveLines := counter.CountEffectiveLines(startLine, endLine);
      var funcType := if currentClass.Some? && currentClass.value != "" then Method else Function;
      functions := functions + [FunctionRecord(node.name, funcType, currentClass, node.lineno, endLine, effectiveLines)];
    }
  }
}
