/**
 Which physical lines belong to docstrings: the leading plain-string
 expression statement of a module, class or function body. These are the
 specification functions of `CodeLineCounter._identify_docstrings`; the
 method itself is in module LineCounter.
 */
module Docstrings {
  import opened Syntax

  /** The node kinds whose docstring is looked for: module, class, function
      and async function. */
  predicate HasDocSlot(n: Node)
  {
    n.Module? || n.ClassDef? || n.FunctionDef?
  }

  /** `ast.get_docstring(n, clean=False)`: the text of the first body
      statement when it is an expression statement holding a plain string
      constant. */
  function GetDocstring(n: Node): Option<string>
  {
    if HasDocSlot(n) && |n.body| > 0 && n.body[0].Expr? && n.body[0].value.StrConst?
    then Some(n.body[0].value.text)
    else None
  }

  /** `s.count("\n")`. */
  function CountNewlines(s: string): (r: nat)
    ensures r <= |s|
  {
    if s == [] then 0 else CountNewlines(s[..|s| - 1]) + (if s[|s| - 1] == '\n' then 1 else 0)
  }

  /** Counting line breaks distributes over concatenation. */
  lemma {:induction false} CountNewlinesConcat(a: string, b: string)
    decreases |b|
    ensures CountNewlines(a + b) == CountNewlines(a) + CountNewlines(b)
  {
    if b == [] {
      assert a + b == a;
    } else {
      assert (a + b)[..|a + b| - 1] == a + b[..|b| - 1];
      CountNewlinesConcat(a, b[..|b| - 1]);
    }
  }

  /** A text has no line break exactly when its count is zero. */
  lemma {:induction false} CountNewlinesZeroIff(s: string)
    decreases |s|
    ensures CountNewlines(s) == 0 <==> '\n' !in s
  {
    if s != [] {
      CountNewlinesZeroIff(s[..|s| - 1]);
      assert s == s[..|s| - 1] + [s[|s| - 1]];
    }
  }

  /** The exclusive 0-based end of a docstring statement's span before
      clipping: its `end_lineno` when there is one, otherwise its start plus
      the number of line breaks in its text plus one. */
  function DocEnd(first: Node, text: string): int
    requires first.Expr?
  {
    match first.endLine
    case At(e) => e
    case _ => first.lineno - 1 + CountNewlines(text) + 1
  }

  /** The integers of `[lo, hi)`, as `range(lo, hi)` yields them. */
  function Span(lo: int, hi: int): (r: set<int>)
    decreases hi - lo
    ensures forall i :: i in r <==> lo <= i < hi
  {
    if hi <= lo then {} else Span(lo, hi - 1) + {hi - 1}
  }

  /** The 0-based line indices that the docstring of `n` itself contributes
      in a file of `total` lines. */
  function OwnDocLines(n: Node, total: nat): (r: set<int>)
    ensures forall i :: i in r ==>
      && HasDocSlot(n) && |n.body| > 0 && n.body[0].Expr? && n.body[0].value.StrConst?
      && n.body[0].lineno - 1 <= i < total
    ensures GetDocstring(n).Some? && n.body[0].endLine.At? ==>
      forall i :: i in r <==> n.body[0].lineno - 1 <= i < Min(n.body[0].endLine.line, total)
    ensures GetDocstring(n).Some? && !n.body[0].endLine.At? ==>
      forall i :: i in r <==> n.body[0].lineno - 1 <= i < Min(n.body[0].lineno + CountNewlines(n.body[0].value.text), total)
  {
    match GetDocstring(n)
    case None => {}
    case Some(text) =>
      var first := n.body[0];
      Span(first.lineno - 1, Min(DocEnd(first, text), total))
  }

  /** The docstring lines of every node of the tree rooted at `n`. */
  function TreeDocLines(n: Node, total: nat): (r: set<int>)
    decreases n
    ensures forall i :: i in r ==> 0 <= i < total
  {
    OwnDocLines(n, total) + (if n.Expr? then {} else ForestDocLines(n.body, total))
  }

  /** The docstring lines of every node of the trees in `s`. */
  function ForestDocLines(s: seq<Node>, total: nat): (r: set<int>)
    decreases s
    ensures forall i :: i in r ==> 0 <= i < total
  {
    if s == [] then {} else ForestDocLines(s[..|s| - 1], total) + TreeDocLines(s[|s| - 1], total)
  }

  /** The final value of `docstring_ranges`: nothing when parsing failed. */
  function DocLines(parsed: Option<Node>, total: nat): set<int>
  {
    match parsed
    case None => {}
    case Some(tree) => TreeDocLines(tree, total)
  }

  /** The nodes `ast.walk` visits in the tree rooted at `n` (statements
      only: expressions hold no definitions). */
  function SubNodes(n: Node): set<Node>
    decreases n
  {
    {n} + (if n.Expr? then {} else ForestNodes(n.body))
  }

  function ForestNodes(s: seq<Node>): set<Node>
    decreases s
  {
    if s == [] then {} else ForestNodes(s[..|s| - 1]) + SubNodes(s[|s| - 1])
  }

  lemma {:induction false} ForestDocLinesConcat(a: seq<Node>, b: seq<Node>, total: nat)
    ensures ForestDocLines(a + b, total) == ForestDocLines(a, total) + ForestDocLines(b, total)
    decreases |b|
  {
    if b == [] {
      assert a + b == a;
    } else {
      assert (a + b)[..|a + b| - 1] == a + b[..|b| - 1];
      ForestDocLinesConcat(a, b[..|b| - 1], total);
    }
  }

  /** Taking the first tree off a work list. */
  lemma ForestDocLinesCons(x: Node, s: seq<Node>, total: nat)
    ensures ForestDocLines([x] + s, total) == TreeDocLines(x, total) + ForestDocLines(s, total)
  {
    ForestDocLinesConcat([x], s, total);
    assert [x][..0] == [];
  }

  /** A line is recorded exactly when some node that the walk visits
      records it as its own docstring line. Together with the contract of
      OwnDocLines: a line is recorded only on account of the leading
      plain-string statement of a module, class or function body. */
  lemma {:induction false} TreeDocLinesIsWalk(n: Node, total: nat, i: int)
    decreases n
    ensures i in TreeDocLines(n, total) <==> exists d :: d in SubNodes(n) && i in OwnDocLines(d, total)
  {
    if !n.Expr? {
      ForestDocLinesIsWalk(n.body, total, i);
    }
  }

  lemma {:induction false} ForestDocLinesIsWalk(s: seq<Node>, total: nat, i: int)
    decreases s
    ensures i in ForestDocLines(s, total) <==> exists d :: d in ForestNodes(s) && i in OwnDocLines(d, total)
  {
    if s != [] {
      ForestDocLinesIsWalk(s[..|s| - 1], total, i);
      TreeDocLinesIsWalk(s[|s| - 1], total, i);
    }
  }

  /** A node whose body is empty, or whose first statement is not a plain
      string expression, contributes nothing of its own. */
  lemma NoDocstringNoLines(n: Node, total: nat)
    requires HasDocSlot(n)
    requires |n.body| == 0 || !n.body[0].Expr? || !n.body[0].value.StrConst?
    ensures OwnDocLines(n, total) == {}
  {
  }
}
