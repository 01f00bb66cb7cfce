/**
 The syntax tree that the analysis works on: the part of a Python module's
 abstract syntax tree that the line counter and the function extractor look
 at. Parsing itself is outside the model; a parse is represented by an
 `Option<Node>` that is `None` when the source has a syntax error.
 */
module Syntax {

  datatype Option<+T> = None | Some(value: T)

  /** A 1-based line number, as the parser reports it for a statement. */
  type LineNo = n: int | n >= 1 witness 1

  /** The `end_lineno` attribute of a statement: missing altogether (parsers
      before Python 3.8), present but holding None, or a line number. */
  datatype EndLine = NoAttr | NoneValue | At(line: int)

  /** The value held by an expression statement: a plain string constant
      (what `ast.get_docstring` accepts), or anything else (numbers, bytes,
      f-strings, calls, concatenations, ...). */
  datatype Value = StrConst(text: string) | NonStr

  /** A statement, or the module itself. `Other` stands for every compound or
      simple statement that is neither a definition nor an expression
      statement; its `body` lists the statements nested in it, block after
      block (an `if` statement's body followed by its `else` block, say). */
  datatype Node =
    | Module(body: seq<Node>)
    | ClassDef(name: string, lineno: LineNo, endLine: EndLine, body: seq<Node>)
    | FunctionDef(name: string, isAsync: bool, lineno: LineNo, endLine: EndLine, body: seq<Node>)
    | Expr(lineno: LineNo, endLine: EndLine, value: Value)
    | Other(lineno: LineNo, endLine: EndLine, body: seq<Node>)

  function Min(a: int, b: int): int
  {
    if a <= b then a else b
  }

  function Max(a: int, b: int): int
  {
    if a >= b then a else b
  }

  /** The statements directly nested in `n`, in the order a tree walk visits them. */
  function Children(n: Node): seq<Node>
  {
    if n.Expr? then [] else n.body
  }

  /** The `end_lineno` attribute of a node; a module has none. */
  function EndOf(n: Node): EndLine
  {
    if n.Module? then NoAttr else n.endLine
  }

  /** The number of nodes in the tree rooted at `n`. */
  function Size(n: Node): (r: nat)
    decreases n
    ensures r >= 1
  {
    1 + (if n.Expr? then 0 else ForestSize(n.body))
  }

  /** The number of nodes in all the trees of `s`. */
  function ForestSize(s: seq<Node>): nat
    decreases s
  {
    if s == [] then 0 else ForestSize(s[..|s| - 1]) + Size(s[|s| - 1])
  }

  lemma {:induction false} ForestSizeConcat(a: seq<Node>, b: seq<Node>)
    ensures ForestSize(a + b) == ForestSize(a) + ForestSize(b)
    decreases |b|
  {
    if b != [] {
      assert (a + b)[..|a + b| - 1] == a + b[..|b| - 1];
      ForestSizeConcat(a, b[..|b| - 1]);
    } else {
      assert a + b == a;
    }
  }

  lemma ForestSizeCons(x: Node, s: seq<Node>)
    ensures ForestSize([x] + s) == Size(x) + ForestSize(s)
  {
    ForestSizeConcat([x], s);
    assert [x][..0] == [];
  }
}
