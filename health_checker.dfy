/**
 `CodeHealthChecker`: the threshold step for one file (`_check_file` once
 the file has been read) and the summary counts of the reports.
 */
module HealthChecker {
  import opened Syntax
  import opened Docstrings
  import opened LineCounter
  import opened Extraction

  /** The default thresholds of the constructor. */
  const DefaultFileThreshold := 500
  const DefaultFunctionThreshold := 50

  /** A function or method over the function threshold. */
  datatype FunctionIssue = FunctionIssue(
    name: string,
    startLine: int,
    endLine: Option<int>,
    effectiveLines: nat,
    kind: Kind)

  /** A file over the file threshold, or holding functions over the
      function threshold. */
  datatype FileIssue = FileIssue(
    filePath: string,
    totalLines: nat,
    effectiveLines: nat,
    functions: seq<FunctionIssue>)

  function IssueOf(r: FunctionRecord): FunctionIssue
  {
    FunctionIssue(r.name, r.startLine, r.endLine, r.effectiveLines, r.kind)
  }

  /** The issues of the records whose effective count exceeds `threshold`,
      in the order of the records. */
  function OverThreshold(records: seq<FunctionRecord>, threshold: int): seq<FunctionIssue>
  {
    if records == [] then []
    else
      var init := OverThreshold(records[..|records| - 1], threshold);
      var last := records[|records| - 1];
      if last.effectiveLines > threshold then init + [IssueOf(last)] else init
  }

  /** The filtered list holds exactly the issues of the over-threshold
      records: every element is over the threshold and comes from some
      record, and every over-threshold record contributes its issue. */
  lemma {:induction false} OverThresholdMembers(records: seq<FunctionRecord>, threshold: int)
    decreases |records|
    ensures |OverThreshold(records, threshold)| <= |records|
    ensures forall x :: x in OverThreshold(records, threshold) ==>
      x.effectiveLines > threshold &&
      exists k :: 0 <= k < |records| && records[k].effectiveLines > threshold && x == IssueOf(records[k])
    ensures forall k :: 0 <= k < |records| && records[k].effectiveLines > threshold ==>
      IssueOf(records[k]) in OverThreshold(records, threshold)
  {
    if records != [] {
      var init := records[..|records| - 1];
      OverThresholdMembers(init, threshold);
      forall x | x in OverThreshold(records, threshold)
        ensures x.effectiveLines > threshold
        ensures exists k :: 0 <= k < |records| && records[k].effectiveLines > threshold && x == IssueOf(records[k])
      {
        if x in OverThreshold(init, threshold) {
          var k :| 0 <= k < |init| && init[k].effectiveLines > threshold && x == IssueOf(init[k]);
          assert records[k] == init[k];
        } else {
          assert x == IssueOf(records[|records| - 1]);
        }
      }
      forall k | 0 <= k < |records| && records[k].effectiveLines > threshold
        ensures IssueOf(records[k]) in OverThreshold(records, threshold)
      {
        if k < |init| {
          assert records[k] == init[k];
        }
      }
    }
  }

  /** Filtering keeps order: it distributes over concatenation. */
  lemma {:induction false} OverThresholdConcat(a: seq<FunctionRecord>, b: seq<FunctionRecord>, threshold: int)
    decreases |b|
    ensures OverThreshold(a + b, threshold) == OverThreshold(a, threshold) + OverThreshold(b, threshold)
  {
    if b == [] {
      assert a + b == a;
    } else {
      assert (a + b)[..|a + b| - 1] == a + b[..|b| - 1];
      OverThresholdConcat(a, b[..|b| - 1], threshold);
    }
  }

  /** The issue `_check_file` appends for a file with path `path`, `total`
      physical lines, `effective` effective lines and function records
      `records`, if any. */
  function FileIssueFor(path: string, total: nat, effective: nat, records: seq<FunctionRecord>,
                        fileThreshold: int, functionThreshold: int): Option<FileIssue>
  {
    var over := OverThreshold(records, functionThreshold);
    if effective > fileThreshold || over != [] then Some(FileIssue(path, total, effective, over)) else None
  }

  /** An issue is produced exactly when the file is over its threshold or
      some record is over the function threshold; it then carries the
      file's figures and exactly the over-threshold records, in order. */
  lemma FileIssueForIff(path: string, total: nat, effective: nat, records: seq<FunctionRecord>,
                        fileThreshold: int, functionThreshold: int)
    ensures FileIssueFor(path, total, effective, records, fileThreshold, functionThreshold).Some? <==>
      effective > fileThreshold || exists k :: 0 <= k < |records| && records[k].effectiveLines > functionThreshold
    ensures var issue := FileIssueFor(path, total, effective, records, fileThreshold, functionThreshold);
      issue.Some? ==> issue.value == FileIssue(path, total, effective, OverThreshold(records, functionThreshold))
  {
    var over := OverThreshold(records, functionThreshold);
    OverThresholdMembers(records, functionThreshold);
    if exists k :: 0 <= k < |records| && records[k].effectiveLines > functionThreshold {
      var k :| 0 <= k < |records| && records[k].effectiveLines > functionThreshold;
      assert IssueOf(records[k]) in over;
    }
    if over != [] {
      assert over[0] in over;
    }
  }

  /** One turn of the loop of `_check_file`: the issue built so far either
      stays as it is, or gains the issue of the next record, being created
      first if it did not exist yet. */
  lemma FileIssueStep(path: string, total: nat, effective: nat, records: seq<FunctionRecord>, next: FunctionRecord,
                      fileThreshold: int, functionThreshold: int)
    ensures var before := FileIssueFor(path, total, effective, records, fileThreshold, functionThreshold);
      var after := FileIssueFor(path, total, effective, records + [next], fileThreshold, functionThreshold);
      var base := if before.None? then FileIssue(path, total, effective, []) else before.value;
      after == if next.effectiveLines > functionThreshold
               then Some(base.(functions := base.functions + [IssueOf(next)]))
               else before
  {
    OverThresholdConcat(records, [next], functionThreshold);
    assert OverThreshold([next], functionThreshold) ==
           if next.effectiveLines > functionThreshold then [IssueOf(next)] else [] by {
      assert [next][..0] == [];
    }
  }

  /** A list holding the issue, if there is one. */
  function AsList(issue: Option<FileIssue>): seq<FileIssue>
  {
    if issue.Some? then [issue.value] else []
  }

  /** `sum(len(issue.functions) for issue in issues)`. */
  function FunctionsIn(issues: seq<FileIssue>): nat
  {
    if issues == [] then 0 else FunctionsIn(issues[..|issues| - 1]) + |issues[|issues| - 1].functions|
  }

  lemma {:induction false} FunctionsInConcat(a: seq<FileIssue>, b: seq<FileIssue>)
    decreases |b|
    ensures FunctionsIn(a + b) == FunctionsIn(a) + FunctionsIn(b)
  {
    if b == [] {
      assert a + b == a;
    } else {
      assert (a + b)[..|a + b| - 1] == a + b[..|b| - 1];
      FunctionsInConcat(a, b[..|b| - 1]);
    }
  }

  class CodeHealthChecker {
    const fileThreshold: int
    const functionThreshold: int
    /** The issues found so far, one per flagged file, in scan order. */
    var issues: seq<FileIssue>

    constructor (fileThreshold: int := DefaultFileThreshold, functionThreshold: int := DefaultFunctionThreshold)
      ensures this.fileThreshold == fileThreshold && this.functionThreshold == functionThreshold
      ensures issues == []
    {
      this.fileThreshold := fileThreshold;
      this.functionThreshold := functionThreshold;
      issues := [];
    }

    /** `'total_issues'` / `total_issues`. */
    function TotalIssues(): nat
      reads this
    {
      |issues|
    }

    /** `'files_exceeding_threshold'` / `files_exceeding`: the same figure,
        since every issue is one file. */
    function FilesExceeding(): nat
      reads this
    {
      |issues|
    }

    /** `'functions_exceeding_threshold'` / `functions_exceeding`. */
    function FunctionsExceeding(): nat
      reads this
    {
      FunctionsIn(issues)
    }

    /** `_check_file` after the source has been read: `relPath` is the
        file's path relative to the root, `lines` its physical lines and
        `parsed` the outcome of parsing it. */
    method CheckFile(relPath: string, lines: seq<string>, parsed: Option<Node>)
      modifies this
      ensures issues == old(issues) + AsList(FileIssueFor(relPath, |lines|,
        EffectiveCount(lines, DocLines(parsed, |lines|), 0, None),
        ExtractedFunctions(lines, parsed), fileThreshold, functionThreshold))
      ensures FunctionsExceeding() == old(FunctionsExceeding()) + |OverThreshold(ExtractedFunctions(lines, parsed), functionThreshold)|
    {
      var counter := new LineCounter.CodeLineCounter(lines, parsed);
      var totalLines := |counter.lines|;
      var effectiveLines := counter.CountEffectiveLines(0, None);
      assert effectiveLines == EffectiveCount(lines, DocLines(parsed, |lines|), 0, None);

      var extractor := new FunctionExtractor(lines, parsed);
      if parsed.Some? {
        extractor.Visit(parsed.value);
      } else {
        extractor.functions := [];
      }
      var records := extractor.functions;
      assert records == ExtractedFunctions(lines, parsed);

      var fileIssue: Option<FileIssue> := None;
      if effectiveLines > fileThreshold {
        fileIssue := Some(FileIssue(relPath, totalLines, effectiveLines, []));
      }
      for i := 0 to |records|
        invariant issues == old(issues)
        invariant fileIssue == FileIssueFor(relPath, totalLines, effectiveLines, records[..i], fileThreshold, functionThreshold)
      {
        assert records[..i + 1] == records[..i] + [records[i]];
        FileIssueStep(relPath, totalLines, effectiveLines, records[..i], records[i], fileThreshold, functionThreshold);
        var funcInfo := records[i];
        if funcInfo.effectiveLines > functionThreshold {
          var funcIssue := FunctionIssue(funcInfo.name, funcInfo.startLine, funcInfo.endLine,
                                         funcInfo.effectiveLines, funcInfo.kind);
          if fileIssue.None? {
            fileIssue := Some(FileIssue(relPath, totalLines, effectiveLines, []));
          }
          fileIssue := Some(fileIssue.value.(functions := fileIssue.value.functions + [funcIssue]));
        }
      }
      assert records[..|records|] == records;
      assert fileIssue == FileIssueFor(relPath, |lines|, EffectiveCount(lines, DocLines(parsed, |lines|), 0, None),
                                       ExtractedFunctions(lines, parsed), fileThreshold, functionThreshold);

      if fileIssue.Some? {
        issues := issues + [fileIssue.value];
      }
      assert issues == old(issues) + AsList(fileIssue);
      FunctionsInConcat(old(issues), AsList(fileIssue));
      if fileIssue.Some? {
        assert [fileIssue.value][..0] == [];
      }
    }
  }

  /** After a parse failure a file is judged on its plain line count alone:
      no docstring lines are excluded and no function is recorded. */
  lemma ParseFailureDegrades(lines: seq<string>)
    ensures DocLines(None, |lines|) == {}
    ensures ExtractedFunctions(lines, None) == []
    ensures EffectiveCount(lines, DocLines(None, |lines|), 0, None) ==
            |set i | 0 <= i < |lines| && IsEffective(lines, {}, i)|
  {
    CountInIsCardinality(lines, {}, 0, |lines|);
  }

  /** Parsing can only lower a file's effective count: the degraded count
      after a parse failure is an upper bound of the count with docstrings
      excluded. */
  lemma DegradedCountIsConservative(lines: seq<string>, tree: Node)
    ensures EffectiveCount(lines, DocLines(Some(tree), |lines|), 0, None) <= EffectiveCount(lines, DocLines(None, |lines|), 0, None)
  {
    CountInAntitone(lines, {}, DocLines(Some(tree), |lines|), 0, |lines|);
  }
}
