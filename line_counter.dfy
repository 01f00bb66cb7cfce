/**
 `CodeLineCounter`: the physical lines of one file, the set of docstring
 line indices found in its syntax tree, and the count of effective lines in
 a range of lines.
 */
module LineCounter {
  import opened Syntax
  import opened Text
  import opened Docstrings

  /** Line `i` is effective: not a docstring line, not blank after
      stripping, and not a comment line. */
  predicate IsEffective(lines: seq<string>, docs: set<int>, i: int)
    requires 0 <= i < |lines|
  {
    i !in docs && IsCodeText(lines[i])
  }

  /** The exclusive end of the counted range: `min(end_line, len(lines))`,
      where a missing end line means the whole file. */
  function RangeEnd(lines: seq<string>, endLine: Option<int>): (r: int)
    ensures r <= |lines|
    ensures endLine.None? ==> r == |lines|
  {
    Min(if endLine.None? then |lines| else endLine.value, |lines|)
  }

  /** The number of effective lines among the indices `[lo, hi)`. */
  function CountIn(lines: seq<string>, docs: set<int>, lo: nat, hi: int): (r: nat)
    requires hi <= |lines|
    decreases hi - lo
  {
    if hi <= lo then 0
    else CountIn(lines, docs, lo, hi - 1) + (if IsEffective(lines, docs, hi - 1) then 1 else 0)
  }

  /** What `count_effective_lines(start, end)` returns. */
  function EffectiveCount(lines: seq<string>, docs: set<int>, start: nat, endLine: Option<int>): nat
  {
    CountIn(lines, docs, start, RangeEnd(lines, endLine))
  }

  /** The effective line indices among `[lo, hi)`. */
  function EffectiveSet(lines: seq<string>, docs: set<int>, lo: nat, hi: int): set<int>
    requires hi <= |lines|
  {
    set i | lo <= i < hi && IsEffective(lines, docs, i)
  }

  /** The count is exactly the number of effective indices in the range. */
  lemma {:induction false} CountInIsCardinality(lines: seq<string>, docs: set<int>, lo: nat, hi: int)
    requires hi <= |lines|
    decreases hi - lo
    ensures CountIn(lines, docs, lo, hi) == |EffectiveSet(lines, docs, lo, hi)|
  {
    var cur := EffectiveSet(lines, docs, lo, hi);
    if hi <= lo {
      assert cur == {} by {
        forall j | j in cur ensures false {}
      }
    } else {
      CountInIsCardinality(lines, docs, lo, hi - 1);
      var prev := EffectiveSet(lines, docs, lo, hi - 1);
      var last := if IsEffective(lines, docs, hi - 1) then {hi - 1} else {};
      assert cur == prev + last by {
        forall j | j in cur ensures j in prev + last {}
        forall j | j in prev + last ensures j in cur {}
      }
      assert prev !! last;
    }
  }

  /** The whole rule of `count_effective_lines(s, e)`: it counts exactly the
      indices of `[s, min(e, len(lines)))`, with `len(lines)` for a missing
      end, that are not docstring lines and hold code. */
  lemma EffectiveCountIs(lines: seq<string>, docs: set<int>, s: nat, e: Option<int>)
    ensures EffectiveCount(lines, docs, s, e) ==
            |set i | s <= i < Min(if e.None? then |lines| else e.value, |lines|) && i !in docs && IsCodeText(lines[i])|
  {
    var hi := RangeEnd(lines, e);
    CountInIsCardinality(lines, docs, s, hi);
    assert EffectiveSet(lines, docs, s, hi) ==
           set i | s <= i < Min(if e.None? then |lines| else e.value, |lines|) && i !in docs && IsCodeText(lines[i]);
  }

  /** The count never exceeds the length of the range. */
  lemma {:induction false} CountInBound(lines: seq<string>, docs: set<int>, lo: nat, hi: int)
    requires hi <= |lines|
    decreases hi - lo
    ensures CountIn(lines, docs, lo, hi) <= Max(0, hi - lo)
  {
    if hi > lo {
      CountInBound(lines, docs, lo, hi - 1);
    }
  }

  /** `count_effective_lines(start, end)` is at most
      `max(0, min(end, len(lines)) - start)`, and the whole-file count is at
      most the number of lines. */
  lemma EffectiveCountBound(lines: seq<string>, docs: set<int>, start: nat, endLine: Option<int>)
    ensures EffectiveCount(lines, docs, start, endLine) <= Max(0, RangeEnd(lines, endLine) - start)
    ensures EffectiveCount(lines, docs, 0, None) <= |lines|
  {
    CountInBound(lines, docs, start, RangeEnd(lines, endLine));
    CountInBound(lines, docs, 0, |lines|);
  }

  /** Excluding more lines as docstrings never raises the count. In
      particular the count without any docstring lines, as after a parse
      failure, is an upper bound of the count with them. */
  lemma {:induction false} CountInAntitone(lines: seq<string>, fewer: set<int>, more: set<int>, lo: nat, hi: int)
    requires hi <= |lines|
    requires fewer <= more
    decreases hi - lo
    ensures CountIn(lines, more, lo, hi) <= CountIn(lines, fewer, lo, hi)
  {
    if hi > lo {
      CountInAntitone(lines, fewer, more, lo, hi - 1);
    }
  }

  /** One step of the breadth-first walk: the first node of the work list
      is replaced by its children at the back, and what is still to be
      recorded loses exactly that node's own docstring lines. */
  lemma WorklistStep(node: Node, rest: seq<Node>, total: nat)
    ensures ForestDocLines([node] + rest, total) == OwnDocLines(node, total) + ForestDocLines(rest + Children(node), total)
    ensures ForestSize(rest + Children(node)) < ForestSize([node] + rest)
  {
    ForestDocLinesCons(node, rest, total);
    ForestDocLinesConcat(rest, Children(node), total);
    ForestSizeCons(node, rest);
    ForestSizeConcat(rest, Children(node));
  }

  class CodeLineCounter {
    /** The physical lines of the source, `source_code.splitlines()`. */
    const lines: seq<string>
    /** The outcome of `ast.parse(source_code)`: `None` on a syntax error. */
    const parsed: Option<Node>
    /** 0-based indices of the lines that belong to docstrings. */
    var docstringRanges: set<int>

    constructor (lines: seq<string>, parsed: Option<Node>)
      ensures this.lines == lines && this.parsed == parsed
      ensures docstringRanges == DocLines(parsed, |lines|)
      ensures forall i :: i in docstringRanges ==> 0 <= i < |lines|
    {
      this.lines := lines;
      this.parsed := parsed;
      docstringRanges := {};
      new;
      IdentifyDocstrings();
    }

    /** `_identify_docstrings`: walk the tree breadth first, as `ast.walk`
        does, and add the span of every docstring found, clipped to the
        file. */
    method IdentifyDocstrings()
      modifies this
      ensures docstringRanges == old(docstringRanges) + DocLines(parsed, |lines|)
    {
      if parsed.None? {
        return;
      }
      var tree := parsed.value;
      var total := |lines|;
      var todo := [tree];
      assert ForestDocLines(todo, total) == TreeDocLines(tree, total) by {
        ForestDocLinesCons(tree, [], total);
      }
      while todo != []
        invariant docstringRanges + ForestDocLines(todo, total) == old(docstringRanges) + TreeDocLines(tree, total)
        decreases ForestSize(todo)
      {
        var node := todo[0];
        var rest := todo[1..];
        assert todo == [node] + rest;
        WorklistStep(node, rest, total);
        todo := rest + Children(node);
        ghost var own := OwnDocLines(node, total);
        if !HasDocSlot(node) || |node.body| == 0 {
          assert own == {};
          continue;
        }
        var first := node.body[0];
        if !first.Expr? {
          assert own == {};
          continue;
        }
        var docstring := GetDocstring(node);
        if docstring.None? {
          assert own == {};
          continue;
        }
        var start := first.lineno - 1;
        var end := if first.endLine.At? then first.endLine.line else start + CountNewlines(docstring.value) + 1;
        var stop := Min(end, total);
        ghost var before := docstringRanges;
        var i := start;
        while i < stop
          invariant start <= i && (i <= stop || i == start)
          invariant docstringRanges == before + Span(start, i)
        {
          assert Span(start, i + 1) == Span(start, i) + {i};
          docstringRanges := docstringRanges + {i};
          i := i + 1;
        }
        assert docstringRanges == before + own;
      }
    }

    /** `count_effective_lines(start_line, end_line)`, where `None` for the
        end line means the end of the file. */
    method CountEffectiveLines(startLine: nat, endLine: Option<int>) returns (count: nat)
      ensures count == EffectiveCount(lines, docstringRanges, startLine, endLine)
    {
      var stop := RangeEnd(lines, endLine);
      count := 0;
      var i := startLine;
      while i < stop
        invariant startLine <= i
        invariant count == CountIn(lines, docstringRanges, startLine, Min(i, stop))
      {
        var line := lines[i];
        var stripped := Strip(line);
        if i in docstringRanges {
          // a docstring line
        } else if |stripped| == 0 {
          // a blank line
        } else if stripped[0] == '#' {
          // a comment line
        } else {
          count := count + 1;
        }
        i := i + 1;
      }
    }
  }
}
