# Code health checker: the analysis core

This project models, in Dafny, how the Python code health checker turns one
source file into figures, and proves properties of that model. The checker
finds files and functions whose *effective* line count is over a threshold.
A line is effective when it is not part of a docstring, not blank after
stripping, and not a comment line.

The model has six modules:

- `Syntax` is the part of a Python syntax tree the analysis looks at:
  modules, classes, `def` and `async def` definitions, and expression
  statements. It also has an `Other` node for every other statement, which
  holds the statements nested in it. A node's `end_lineno` has three states:
  absent (parsers before Python 3.8), present but None, or a line number.
  Parsing is not modelled. A parse is given as an `Option<Node>`, and `None`
  means a syntax error.
- `Text` models `str.strip()` and the blank-line and comment-line tests.
- `Docstrings` holds the specification functions for the docstring line set.
  It contains `ast.get_docstring(node, clean=False)` and each node's own
  docstring span. It also gives the span over the whole tree, and the set of
  nodes `ast.walk` visits.
- `LineCounter` has the class `CodeLineCounter`:
  - `IdentifyDocstrings` is the breadth-first walk of `ast.walk`, as a
    work-list loop.
  - `CountEffectiveLines` is the counting loop.
  - Both are proved against the functions `DocLines` and `EffectiveCount`.
- `Extraction` has the class `FunctionExtractor`. Its visitor methods save,
  set and restore `current_class`, and `ProcessFunction` builds one record
  per definition. The walk is proved equal to a reference description:
  - the definitions of the tree are listed in pre-order;
  - each record takes the nearest enclosing class as its class.
- `HealthChecker` has the class `CodeHealthChecker`:
  - `CheckFile` is the part of `_check_file` after the file has been read.
    It counts, extracts and applies the two thresholds.
  - The summary counts of the reports are also here.
- `Scenarios` works small concrete files through the model.

A function's effective count runs from its `def` line (`lineno - 1` as a
0-based index) up to its end line. So the `def` line is counted unless it
is itself a docstring line (a one-line `def f(): """doc"""` counts 0), and
the docstring lines inside the function are not.

## Model

| member | source | states |
|---|---|---|
| Text.TrimLeftSpec | src/code_health_checker.py:101 | stripping on the left drops exactly the leading whitespace: a suffix remains, all that was dropped is whitespace, and what remains starts with a non-space |
| Text.TrimRightSpec | src/code_health_checker.py:101 | stripping on the right drops exactly the trailing whitespace: a prefix remains, all that was dropped is whitespace, and what remains ends with a non-space |
| Text.StripEmptyIff | src/code_health_checker.py:107-109 | a stripped line is empty exactly when every character of the line is whitespace |
| Text.StripStartIff | src/code_health_checker.py:111-113 | a stripped line starts with a given non-space character exactly when that character is the line's first non-whitespace character |
| Text.IsCodeTextIff | src/code_health_checker.py:100-115 | a line passes the blank and comment tests exactly when its first non-whitespace character exists and is not `#` |
| Docstrings.CountNewlines | src/code_health_checker.py:87 | `docstring.count("\n")` is at most the length of the text |
| Docstrings.CountNewlinesConcat | src/code_health_checker.py:87 | counting line breaks distributes over concatenation |
| Docstrings.CountNewlinesZeroIff | src/code_health_checker.py:87 | the count is zero exactly when the text has no line break |
| Docstrings.Span | src/code_health_checker.py:90 | `range(lo, hi)` holds exactly the integers `lo <= i < hi` |
| Docstrings.OwnDocLines | src/code_health_checker.py:64-91 | a node adds lines only when it is a module, class or function whose body starts with a plain-string expression, and the lines start at that statement; with `end_lineno` it adds exactly `[lineno-1, min(end_lineno, len(lines)))`, and without it exactly `[lineno-1, min(lineno + newlines, len(lines)))` |
| Docstrings.TreeDocLines | src/code_health_checker.py:89-91 | every docstring line found in a tree is a valid index of the file |
| Docstrings.ForestDocLines | src/code_health_checker.py:89-91 | every docstring line found in a list of trees is a valid index of the file |
| Docstrings.ForestDocLinesConcat | src/code_health_checker.py:63 | the lines found in a list of trees are the union of those found in its parts, so walk order does not matter |
| Docstrings.ForestDocLinesCons | src/code_health_checker.py:63 | taking the first tree off a work list splits the lines found into that tree's and the rest's |
| Docstrings.TreeDocLinesIsWalk | src/code_health_checker.py:63-91 | a line is in the tree's docstring set exactly when some node the walk visits contributes it as its own docstring line |
| Docstrings.ForestDocLinesIsWalk | src/code_health_checker.py:63-91 | the same for a list of trees |
| Docstrings.NoDocstringNoLines | src/code_health_checker.py:68-73 | a module, class or function with an empty body, or whose first statement is not a plain string expression, adds no lines |
| LineCounter.RangeEnd | src/code_health_checker.py:95-99 | the end of the counted range never passes the last line, and a missing end line means the whole file |
| LineCounter.CountInIsCardinality | src/code_health_checker.py:99-117 | the count over a range is exactly the number of indices in it that are not docstring lines, not blank and not comments |
| LineCounter.EffectiveCountIs | src/code_health_checker.py:93-117 | `count_effective_lines(s, e)` is exactly the number of indices in `[s, min(e, len(lines)))`, with `len(lines)` when `e` is None, that are not docstring lines, not blank and not comments |
| LineCounter.CountInBound | src/code_health_checker.py:99 | the count over `[lo, hi)` is at most `max(0, hi - lo)` |
| LineCounter.EffectiveCountBound | src/code_health_checker.py:93-117 | `count_effective_lines(start, end)` is at most `max(0, min(end, len(lines)) - start)`, and the whole-file count is at most the number of lines |
| LineCounter.CountInAntitone | src/code_health_checker.py:104-105 | excluding more docstring lines never raises the count |
| LineCounter.WorklistStep | src/code_health_checker.py:63 | one step of the breadth-first walk removes exactly the first node's own lines from what is still to be found, and the work list shrinks in total size |
| LineCounter.CodeLineCounter.constructor | src/code_health_checker.py:48-53 | the lines and the tree are kept, and the docstring set is the docstring lines of the tree (empty after a syntax error), all of them valid indices |
| LineCounter.CodeLineCounter.IdentifyDocstrings | src/code_health_checker.py:55-91 | the docstring set gains exactly the docstring lines of every node of the tree, and nothing after a syntax error |
| LineCounter.CodeLineCounter.CountEffectiveLines | src/code_health_checker.py:93-117 | returns the number of effective lines in `[start, min(end, len(lines)))`, which relates to the effective indices by CountInIsCardinality |
| Extraction.Defs | src/code_health_checker.py:134-140 | the definitions listed for a tree are all `def` or `async def` nodes, and each of them is a node of that tree |
| Extraction.DefsAll | src/code_health_checker.py:134-140 | the same for a list of trees: all definitions, each a node of one of the trees |
| Extraction.DefsComplete | src/code_health_checker.py:134-140 | every `def` and `async def` among the nodes the walk of a tree meets is listed, so no definition is missed |
| Extraction.DefsAllComplete | src/code_health_checker.py:134-140 | the same for a list of trees |
| Extraction.RecordsConcat | src/code_health_checker.py:159 | the records of a concatenation of sites are the concatenation of their records |
| Extraction.ExtractIsRecordsOfDefs | src/code_health_checker.py:128-140 | visiting a node produces one record per definition in the node, in pre-order, each with the nearest enclosing class as its class, at any depth of nested functions |
| Extraction.ExtractAllIsRecordsOfDefs | src/code_health_checker.py:128-140 | the same for a body visited statement by statement |
| Extraction.ModuleRecords | src/code_health_checker.py:142-166 | (line 157 among them) record `k` of a whole-module walk has its definition's name and start line, the nearest class as its class, `'method'` exactly when that class is non-empty, the end line `_process_function` settles on, and the effective count of the lines from the `def` line to that end |
| Extraction.RecordBound | src/code_health_checker.py:144-156 | a record's effective count is at most `end_line - start_line + 1` when it has an end line, and at most the lines from its start to the end of the file |
| Extraction.ExtractBound | src/code_health_checker.py:142-166 | every record of a walk of any tree obeys those bounds and has a start line of at least 1 |
| Extraction.ExtractAllBound | src/code_health_checker.py:142-166 | the same for a body |
| Extraction.FunctionExtractor.constructor | src/code_health_checker.py:123-126 | no records and no current class; the extractor's counter holds the file's lines and docstring set |
| Extraction.FunctionExtractor.Visit | src/code_health_checker.py:128-140 | visiting a node appends exactly the records of the walk from it and leaves the current class as it was |
| Extraction.FunctionExtractor.GenericVisit | src/code_health_checker.py:131 | visiting the children in order appends the records of each child in turn |
| Extraction.FunctionExtractor.VisitClassDef | src/code_health_checker.py:128-132 | the body is visited with the class's name as the current class, and the old current class comes back afterwards |
| Extraction.FunctionExtractor.VisitFunctionDef | src/code_health_checker.py:134-136 | the definition's record comes first, then the records of its body under the same current class |
| Extraction.FunctionExtractor.VisitAsyncFunctionDef | src/code_health_checker.py:138-140 | the same for `async def` |
| Extraction.FunctionExtractor.ProcessFunction | src/code_health_checker.py:142-166 | appends exactly one record: name, kind, current class, start line, the end line from the definition, from its last statement or from its own line, and the effective count of that range |
| HealthChecker.OverThresholdMembers | src/code_health_checker.py:252-270 | the function issues of a file are exactly the issues of the records over the function threshold: no more of them than records, each one over the threshold and taken from a record, and every such record included |
| HealthChecker.OverThresholdConcat | src/code_health_checker.py:253-270 | filtering keeps record order: it distributes over concatenation |
| HealthChecker.FileIssueForIff | src/code_health_checker.py:243-273 | a file issue exists exactly when the file is over its threshold or some record is over the function threshold, and it then holds the file's path, line figures and exactly the over-threshold records, in order |
| HealthChecker.FileIssueStep | src/code_health_checker.py:253-270 | one turn of the loop either leaves the pending issue alone, or appends the record's issue to it, creating it first when there is none |
| HealthChecker.FunctionsInConcat | src/code_health_checker.py:281 | the number of flagged functions over a concatenation of file issues is the sum over the parts |
| HealthChecker.ParseFailureDegrades | src/code_health_checker.py:237-241 | after a syntax error no docstring line is excluded, no function is recorded, and the file's count is the number of non-blank, non-comment lines |
| HealthChecker.DegradedCountIsConservative | src/code_health_checker.py:231-233 | the count when docstrings are excluded is never above the count with none excluded |
| HealthChecker.CodeHealthChecker.constructor | src/code_health_checker.py:172-191 | the two thresholds are kept, 500 and 50 unless given, and there are no issues yet |
| HealthChecker.CodeHealthChecker.CheckFile | src/code_health_checker.py:226-273 | the issue list gains the file's issue exactly when FileIssueFor produces one, from the file's line count, its effective count and its function records; the flagged-function total of the summary rises by the number of over-threshold records |
| Scenarios.ModuleFileDocLines | src/code_health_checker.py:63-91 | a module docstring on lines 1-3 excludes lines 0, 1 and 2 |
| Scenarios.ModuleFileCount | src/code_health_checker.py:93-117 | that ten-line file, with a blank line, a comment and a trailing blank line, has four effective lines |
| Scenarios.DocFunctionDocLines | src/code_health_checker.py:63-91 | a function docstring on lines 2-3 excludes lines 1 and 2 |
| Scenarios.DocFunctionRecords | src/code_health_checker.py:142-166 | that function is a `'function'` with no class, spanning lines 1-7, with three effective lines, its `def` line among them |
| Scenarios.ClassFileDocLines | src/code_health_checker.py:64-73 | a class whose body starts with an assignment has no docstring |
| Scenarios.ClassFileRecords | src/code_health_checker.py:128-166 | a method of class `A` is recorded as a `'method'` of `A` |
| Scenarios.NestedDocLines | src/code_health_checker.py:64-73 | nested definitions without docstrings have no docstring lines |
| Scenarios.NestedRecords | src/code_health_checker.py:128-140 | a function nested in a method of class `A` is a `'method'` of `A` too, recorded after the method |
| Scenarios.MidStringDocLines | src/code_health_checker.py:71-78 | a string statement in the middle of a body is not a docstring |
| Scenarios.MidStringRecords | src/code_health_checker.py:99-117 | that string statement counts as a line of code |
| Scenarios.NoEndDocLines | src/code_health_checker.py:83-87 | without `end_lineno`, a docstring with one line break covers two lines |
| Scenarios.NoEndRecords | src/code_health_checker.py:145-151 | without `end_lineno`, the function ends at its last statement's line |
| Scenarios.NoneEndRecords | src/code_health_checker.py:145-151 | when the last statement's `end_lineno` is None, the record's end line is None and its count runs to the end of the file |
| Scenarios.BrokenFile | src/code_health_checker.py:237-241 | a file with a syntax error has no records, and its would-be docstring counts as code |

`CodeHealthChecker.TotalIssues`, `FilesExceeding` and `FunctionsExceeding`
are the summary counts of the JSON and HTML reports
(src/code_health_checker.py:279-281 and 351-353). They are plain definitions,
and `CheckFile` states how they change.

## Left out

- Reading files (`open`, UTF-8 decoding with `errors='ignore'`) and
  `splitlines()` are not modelled. A file arrives as its list of physical
  lines.
- `ast.parse` is not modelled. Its outcome is an input: a tree, or `None` for
  a syntax error. The model relies on the line counter and the extractor
  parsing the same text and getting the same tree.
- The tree keeps statements only. Expressions, decorators, default values and
  lambdas are dropped. None of them holds a `def`, a `class` or a docstring,
  so dropping them changes no record and no docstring line. The source's
  walks still recurse through them, and that recursion can fail (see the
  `CheckFile` line below).
- Line numbers are taken as the tree gives them. The model does not describe
  any particular parser version. Parsers before Python 3.8 report a
  multi-line string statement at the line where the string ends; the
  docstring span then starts at that line, and the model computes the span
  the source computes from whatever `lineno` it is given.
- `ast.get_docstring` is modelled as "the first body statement is an
  expression statement with a plain string constant". The `clean=False` text
  is taken as given.
- `str.strip()` and the blank-line test use ASCII whitespace only. Unicode
  whitespace beyond that, and the line separators `splitlines` also breaks
  on, are not modelled.
- CountEffectiveLines takes a non-negative start. Python's negative indexing
  for a negative start never arises, because definitions have `lineno >= 1`.
- The `hasattr(first_stmt, "lineno")` test (line 80) is always true for a
  statement, so there is no separate branch for it.
- The `getattr(node, 'name', '<lambda>')` and `getattr(node, 'lineno', ...)`
  fallbacks are not modelled. Every definition has a name and a line.
- `CodeHealthChecker.scan`, `rglob`, `should_exclude` with its directory and
  pattern lists, `relative_to`, and the warning printed when a file fails are
  not modelled. This is file-system I/O and regular-expression matching.
  `CheckFile` takes the relative path as a parameter.
- CheckFile always appends the issue its inputs call for. In the source,
  only `SyntaxError` is caught (lines 59 and 240). Other failures abort
  `_check_file`, and `scan` (lines 222-224) then skips the file with no
  issue, however many lines it has. Two such failures are a `ValueError`
  from `ast.parse` on a NUL byte (Python 3.11 and earlier; `errors='ignore'`
  keeps NUL bytes) and a `RecursionError` from the recursive visit of a very
  deeply nested expression. The model has no outcome for these.
- Report rendering is not modelled: the JSON, HTML and console text, the
  threshold fields of the summary, and the command-line interface
  (`argparse`, `main`). Only the summary counts are modelled.
- FileIssue is a value in the model. The source appends to the `functions`
  list of a `FileIssue` object in place, and the model rebuilds the value
  instead. The object is not shared before it is stored, so nothing observes
  the difference.
- `src/__init__.py` is not part of this model: it holds no analysis logic.
