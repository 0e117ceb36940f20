/**
 * The batch loop of the report script: for every report type and every company,
 * skip a missing file and a file that starts with the "no data" marker `[]`,
 * otherwise stamp every sub-report table with the company and the report type
 * and accumulate it under the sub-report's name; after each report type, export
 * every accumulated table without its all-null columns.
 */
module Batch {
  import opened Wrappers
  import opened Dicts
  import opened Tables

  /** The data frames the loop handles are well-formed tables. */
  type ValidTable = t: Table | Valid(t) witness EmptyTable([])

  /** `results`: sub-report name to accumulated table, in insertion order. */
  type Results = seq<(string, ValidTable)>

  /** The parquet files written so far: file name stem and table, in writing order. */
  type Exports = seq<(string, ValidTable)>

  /**
   * The file `fundamentals/{comp}/{reportType}.xml`: its text, and what each of the
   * report type's processing methods returns for it, in order.
   */
  datatype ReportFile = ReportFile(contents: string, subreports: seq<(string, Result<ValidTable, Error>)>)

  /** The script's state between steps, or the exception that ended it. */
  datatype Run = Running(results: Results, exports: Exports) | Failed(exports: Exports, error: Error)

  /** `f.read(2).startswith('[]')`: the first two characters of the file are `[]`. */
  predicate SkipsAsEmpty(contents: string) {
    var head := if |contents| < 2 then contents else contents[..2];
    |head| >= 2 && head[..2] == "[]"
  }

  /** A file is skipped exactly when `[]` is a prefix of its whole text. */
  lemma {:induction false} SkipsAsEmptyIff(contents: string)
    ensures SkipsAsEmpty(contents) <==> "[]" <= contents
    ensures SkipsAsEmpty(contents) <==> |contents| >= 2 && contents[0] == '[' && contents[1] == ']'
  {
    if |contents| >= 2 {
      assert contents[..2] == [contents[0], contents[1]];
    }
  }

  /**
   * `df['symbol'] = comp; df['reportType'] = reportType`: both columns hold their
   * value on every row, replacing a column of the same name; nothing else changes.
   */
  function Stamp(t: ValidTable, comp: string, reportType: string): (r: ValidTable)
    ensures r.rows == t.rows
    ensures "symbol" in r.data && r.data["symbol"] == Repeat(Some(comp), t.rows)
    ensures "reportType" in r.data && r.data["reportType"] == Repeat(Some(reportType), t.rows)
    ensures forall c :: c in r.columns <==> c in t.columns || c == "symbol" || c == "reportType"
    ensures forall c :: c in t.columns && c != "symbol" && c != "reportType" ==> r.data[c] == t.data[c]
  {
    SetColumn(SetColumn(t, "symbol", comp), "reportType", reportType)
  }

  /**
   * `results[name] = df` for a new name, `results[name] = pd.concat([results[name], df])`
   * otherwise: the key is the sub-report name alone.
   */
  function Accumulate(results: Results, name: string, t: ValidTable): Results {
    if !HasKey(results, name) then
      Put<ValidTable>(results, name, t)
    else
      ConcatPair(Lookup(results, name), t);
      Put<ValidTable>(results, name, Concat([Lookup(results, name), t]).value)
  }

  /**
   * Accumulating keeps every sub-report name where it stands and adds a new name
   * at the end; the table of `name` gets `t`'s rows appended to it, whatever report
   * type either came from, and every other table stays.
   */
  lemma {:induction false} AccumulateSemantics(results: Results, name: string, t: ValidTable)
    ensures var r := Accumulate(results, name, t);
            Keys(r) == if HasKey(results, name) then Keys(results) else Keys(results) + [name]
    ensures var r := Accumulate(results, name, t);
            HasKey(r, name) && Lookup(r, name) == if HasKey(results, name) then Append(Lookup(results, name), t) else t
    ensures var r := Accumulate(results, name, t);
            forall k :: k != name && HasKey(results, k) ==> HasKey(r, k) && Lookup(r, k) == Lookup(results, k)
  {
    if HasKey(results, name) {
      ConcatPair(Lookup(results, name), t);
      PutSemantics<ValidTable>(results, name, Append(Lookup(results, name), t));
    } else {
      PutSemantics<ValidTable>(results, name, t);
    }
  }

  /** `pd.concat([a, b])` appends `b`'s rows to `a`'s. */
  lemma ConcatPair(a: ValidTable, b: ValidTable)
    ensures Concat([a, b]) == Ok(Append(a, b))
  {
    var ts: seq<Table> := [a, b];
    assert ts[..1] == [a];
    assert AppendAll(ts[..1]) == a;
  }

  /**
   * The first `n` items fed in turn to `step`, starting from `acc`: the loop ends
   * at the first exception.
   */
  function Steps<S, I>(acc: S, items: seq<I>, n: nat, step: (S, I) -> Result<S, Error>): Result<S, Error>
    requires n <= |items|
  {
    if n == 0 then Ok(acc)
    else
      match Steps(acc, items, n - 1, step)
      case Err(e) => Err(e)
      case Ok(s) => step(s, items[n - 1])
  }

  lemma {:induction false} StepsErrPrefix<S, I>(acc: S, items: seq<I>, i: nat, n: nat, step: (S, I) -> Result<S, Error>)
    requires i <= n <= |items| && Steps(acc, items, i, step).Err?
    ensures Steps(acc, items, n, step) == Steps(acc, items, i, step)
    decreases n
  {
    if i < n {
      StepsErrPrefix(acc, items, i, n - 1, step);
    }
  }

  /** The loop's step after the first `n - 1` items went through. */
  lemma StepsNext<S, I>(acc: S, items: seq<I>, n: nat, step: (S, I) -> Result<S, Error>)
    requires 0 < n <= |items| && Steps(acc, items, n - 1, step).Ok?
    ensures Steps(acc, items, n, step) == step(Steps(acc, items, n - 1, step).value, items[n - 1])
  {
  }

  /** An exception at item `k` is the loop's outcome. */
  lemma StepsRaise<S, I>(acc: S, items: seq<I>, k: nat, step: (S, I) -> Result<S, Error>)
    requires k < |items| && Steps(acc, items, k, step).Ok? && step(Steps(acc, items, k, step).value, items[k]).Err?
    ensures Steps(acc, items, |items|, step) == step(Steps(acc, items, k, step).value, items[k])
  {
    StepsNext(acc, items, k + 1, step);
    StepsErrPrefix(acc, items, k + 1, |items|, step);
  }

  /** One processing method's outcome: its exception, or its table stamped and accumulated. */
  function AddSubreport(results: Results, sub: (string, Result<ValidTable, Error>), comp: string, reportType: string)
    : Result<Results, Error>
  {
    match sub.1
    case Err(e) => Err(e)
    case Ok(df) => Ok(Accumulate(results, sub.0, Stamp(df, comp, reportType)))
  }

  /** The first `n` sub-reports of one file, stamped and accumulated in turn; an exception ends the run. */
  function AddSubreports(results: Results, subs: seq<(string, Result<ValidTable, Error>)>, n: nat, comp: string, reportType: string)
    : Result<Results, Error>
    requires n <= |subs|
  {
    Steps(results, subs, n, SubreportStep(comp, reportType))
  }

  /** The body of the sub-report loop for one company and report type. */
  function SubreportStep(comp: string, reportType: string): (Results, (string, Result<ValidTable, Error>)) -> Result<Results, Error> {
    (r, sub) => AddSubreport(r, sub, comp, reportType)
  }

  /** One company's file of one report type: skipped when missing or marked empty. */
  function AddFile(results: Results, reportType: string, comp: string, files: map<(string, string), ReportFile>)
    : Result<Results, Error>
  {
    if (reportType, comp) !in files then Ok(results)
    else if SkipsAsEmpty(files[(reportType, comp)].contents) then Ok(results)
    else
      var subs := files[(reportType, comp)].subreports;
      AddSubreports(results, subs, |subs|, comp, reportType)
  }

  /** The loop over the companies for one report type. */
  function AddCompanies(results: Results, reportType: string, comps: seq<string>, files: map<(string, string), ReportFile>)
    : Result<Results, Error>
  {
    if comps == [] then Ok(results)
    else
      match AddCompanies(results, reportType, comps[..|comps| - 1], files)
      case Err(e) => Err(e)
      case Ok(acc) => AddFile(acc, reportType, comps[|comps| - 1], files)
  }

  /** `{reportType}_{subreport_type}`, the name of an exported file. */
  function ExportName(reportType: string, name: string): string {
    reportType + "_" + name
  }

  /** The export loop: every accumulated table, all-null columns dropped, in `results` order. */
  function ExportAll(results: Results, reportType: string): (r: Exports)
    ensures |r| == |results|
    ensures forall i :: 0 <= i < |r| ==>
              r[i] == (ExportName(reportType, results[i].0), DropAllNullColumns(results[i].1))
  {
    if results == [] then []
    else
      var n := |results| - 1;
      ExportAll(results[..n], reportType) + [(ExportName(reportType, results[n].0), DropAllNullColumns(results[n].1))]
  }

  /**
   * The script after the report types `rts`, as written: `results` is created once,
   * before the loop, so every export repeats what earlier report types accumulated.
   */
  function RunReportTypes(rts: seq<string>, comps: seq<string>, files: map<(string, string), ReportFile>): Run {
    if rts == [] then Running([], [])
    else
      var n := |rts| - 1;
      match RunReportTypes(rts[..n], comps, files)
      case Failed(exports, e) => Failed(exports, e)
      case Running(results, exports) =>
        match AddCompanies(results, rts[n], comps, files)
        case Err(e) => Failed(exports, e)
        case Ok(acc) => Running(acc, exports + ExportAll(acc, rts[n]))
  }

  /**
   * The script with `results` reset for every report type, so that the files named
   * after a report type hold that report type's rows only.
   */
  function RunPerReportType(rts: seq<string>, comps: seq<string>, files: map<(string, string), ReportFile>): Run {
    if rts == [] then Running([], [])
    else
      var n := |rts| - 1;
      match RunPerReportType(rts[..n], comps, files)
      case Failed(exports, e) => Failed(exports, e)
      case Running(_, exports) =>
        match AddCompanies([], rts[n], comps, files)
        case Err(e) => Failed(exports, e)
        case Ok(acc) => Running(acc, exports + ExportAll(acc, rts[n]))
  }

  /**
   * The batch loop as the script writes it: report types, companies, sub-reports,
   * then the export of everything accumulated so far. It returns the files written
   * and the exception that ended the script, if any.
   */
  method RunBatch(rts: seq<string>, comps: seq<string>, files: map<(string, string), ReportFile>)
    returns (exports: Exports, failure: Option<Error>)
    ensures var run := RunReportTypes(rts, comps, files);
            exports == run.exports && (failure.None? <==> run.Running?) &&
            (failure.Some? ==> failure.value == run.error)
  {
    var results: Results := [];
    exports := [];
    for i := 0 to |rts|
      invariant RunReportTypes(rts[..i], comps, files) == Running(results, exports)
    {
      assert rts[..i + 1][..i] == rts[..i];
      var reportType := rts[i];
      ghost var start := results;
      for j := 0 to |comps|
        invariant AddCompanies(start, reportType, comps[..j], files) == Ok(results)
      {
        assert comps[..j + 1][..j] == comps[..j];
        var comp := comps[j];
        if (reportType, comp) in files {
          var file := files[(reportType, comp)];
          if !SkipsAsEmpty(file.contents) {
            var added := AddFileSubreports(results, file.subreports, comp, reportType);
            if added.Err? {
              AddCompaniesErrPrefix(start, reportType, comps, j + 1, files);
              RunFailedPrefix(rts, i + 1, comps, files);
              return exports, Some(added.error);
            }
            results := added.value;
          }
        }
      }
      assert comps[..|comps|] == comps;
      var written := WriteExports(results, reportType);
      exports := exports + written;
    }
    assert rts[..|rts|] == rts;
    failure := None;
  }

  /** The loop over one file's sub-reports. */
  method AddFileSubreports(results0: Results, subs: seq<(string, Result<ValidTable, Error>)>, comp: string, reportType: string)
    returns (r: Result<Results, Error>)
    ensures r == AddSubreports(results0, subs, |subs|, comp, reportType)
  {
    var results := results0;
    for k := 0 to |subs|
      invariant AddSubreports(results0, subs, k, comp, reportType) == Ok(results)
    {
      var (name, df) := subs[k];
      if df.Err? {
        AddSubreportsRaises(results0, subs, k, comp, reportType, results);
        return Err(df.error);
      }
      var t := Stamp(df.value, comp, reportType);
      AddSubreportsAccepts(results0, subs, k, comp, reportType, results);
      results := Store(results, name, t);
    }
    r := Ok(results);
  }

  /** A processing method's exception ends the file's loop, and the script, with that exception. */
  lemma AddSubreportsRaises(results0: Results, subs: seq<(string, Result<ValidTable, Error>)>, k: nat, comp: string, reportType: string,
                            results: Results)
    requires k < |subs| && AddSubreports(results0, subs, k, comp, reportType) == Ok(results) && subs[k].1.Err?
    ensures AddSubreports(results0, subs, |subs|, comp, reportType) == Err(subs[k].1.error)
  {
    assert SubreportStep(comp, reportType)(results, subs[k]) == Err(subs[k].1.error);
    StepsRaise(results0, subs, k, SubreportStep(comp, reportType));
  }

  /** A table a processing method returns is stamped and accumulated under its sub-report name. */
  lemma AddSubreportsAccepts(results0: Results, subs: seq<(string, Result<ValidTable, Error>)>, k: nat, comp: string, reportType: string,
                             results: Results)
    requires k < |subs| && AddSubreports(results0, subs, k, comp, reportType) == Ok(results) && subs[k].1.Ok?
    ensures AddSubreports(results0, subs, k + 1, comp, reportType) ==
            Ok(Accumulate(results, subs[k].0, Stamp(subs[k].1.value, comp, reportType)))
  {
    StepsNext(results0, subs, k + 1, SubreportStep(comp, reportType));
  }

  /** `results[name] = df`, or `pd.concat` onto the table already there. */
  method Store(results: Results, name: string, t: ValidTable) returns (r: Results)
    ensures r == Accumulate(results, name, t)
  {
    if !HasKey(results, name) {
      r := Put(results, name, t);
    } else {
      ConcatPair(Lookup(results, name), t);
      r := Put<ValidTable>(results, name, Concat([Lookup(results, name), t]).value);
    }
  }

  /** The export loop. */
  method WriteExports(results: Results, reportType: string) returns (written: Exports)
    ensures written == ExportAll(results, reportType)
  {
    written := [];
    for k := 0 to |results|
      invariant written == ExportAll(results[..k], reportType)
    {
      assert results[..k + 1][..k] == results[..k];
      var (name, df) := results[k];
      var kept := DropAllNullColumns(df);
      written := written + [(ExportName(reportType, name), kept)];
    }
    assert results[..|results|] == results;
  }

  lemma {:induction false} AddCompaniesErrPrefix(results: Results, reportType: string, comps: seq<string>, i: nat,
                                                 files: map<(string, string), ReportFile>)
    requires i <= |comps| && AddCompanies(results, reportType, comps[..i], files).Err?
    ensures AddCompanies(results, reportType, comps, files) == AddCompanies(results, reportType, comps[..i], files)
    decreases |comps|
  {
    if i < |comps| {
      var n := |comps| - 1;
      assert comps[..n][..i] == comps[..i];
      AddCompaniesErrPrefix(results, reportType, comps[..n], i, files);
    } else {
      assert comps[..i] == comps;
    }
  }

  /**
   * A file marked `[]` is skipped before it is parsed: whatever its processing
   * methods would return, even an exception, the accumulated tables do not change.
   */
  lemma SkippedFileUntouched(results: Results, reportType: string, comp: string, contents: string,
                             subs: seq<(string, Result<ValidTable, Error>)>, files: map<(string, string), ReportFile>)
    requires SkipsAsEmpty(contents)
    ensures AddFile(results, reportType, comp, files[(reportType, comp) := ReportFile(contents, subs)]) == Ok(results)
  {
  }

  /** When every company's file of a report type is missing or marked `[]`, the pass changes nothing. */
  lemma {:induction false} SkippedCompaniesUntouched(results: Results, reportType: string, comps: seq<string>,
                                                     files: map<(string, string), ReportFile>)
    requires forall c :: c in comps ==> (reportType, c) !in files || SkipsAsEmpty(files[(reportType, c)].contents)
    ensures AddCompanies(results, reportType, comps, files) == Ok(results)
    decreases |comps|
  {
    if comps != [] {
      var n := |comps| - 1;
      assert forall c :: c in comps[..n] ==> c in comps;
      SkippedCompaniesUntouched(results, reportType, comps[..n], files);
      assert comps[n] in comps;
    }
  }

  lemma {:induction false} RunFailedPrefix(rts: seq<string>, i: nat, comps: seq<string>, files: map<(string, string), ReportFile>)
    requires i <= |rts| && RunReportTypes(rts[..i], comps, files).Failed?
    ensures RunReportTypes(rts, comps, files) == RunReportTypes(rts[..i], comps, files)
    decreases |rts|
  {
    if i < |rts| {
      var n := |rts| - 1;
      assert rts[..n][..i] == rts[..i];
      RunFailedPrefix(rts[..n], i, comps, files);
    } else {
      assert rts[..i] == rts;
    }
  }

  // ---------------------------------------------------------------------------
  // What the loop keeps: the sub-report names, and stamped rows

  /** A loop that went through `n` items went through each shorter prefix too. */
  lemma {:induction false} StepsOkPrefix<S, I>(acc: S, items: seq<I>, i: nat, n: nat, step: (S, I) -> Result<S, Error>)
    requires i <= n <= |items| && Steps(acc, items, n, step).Ok?
    ensures Steps(acc, items, i, step).Ok?
  {
    if Steps(acc, items, i, step).Err? {
      StepsErrPrefix(acc, items, i, n, step);
    }
  }

  /** What every step keeps, from a start that has it, the loop keeps. */
  lemma {:induction false} StepsInvariant<S, I>(acc: S, items: seq<I>, n: nat, step: (S, I) -> Result<S, Error>,
                                                inv: (nat, S) -> bool)
    requires n <= |items| && inv(0, acc)
    requires forall k: nat, s: S :: k < |items| && inv(k, s) && step(s, items[k]).Ok? ==> inv(k + 1, step(s, items[k]).value)
    requires Steps(acc, items, n, step).Ok?
    ensures inv(n, Steps(acc, items, n, step).value)
  {
    if n > 0 {
      StepsOkPrefix(acc, items, n - 1, n, step);
      StepsInvariant(acc, items, n - 1, step, inv);
      StepsNext(acc, items, n, step);
      InvariantStep(items, n, step, inv, Steps(acc, items, n - 1, step).value);
    } else {
      assert Steps(acc, items, 0, step) == Ok(acc);
    }
  }

  /** One more step keeps the invariant. */
  lemma InvariantStep<S, I>(items: seq<I>, n: nat, step: (S, I) -> Result<S, Error>, inv: (nat, S) -> bool, s: S)
    requires forall k: nat, s: S :: k < |items| && inv(k, s) && step(s, items[k]).Ok? ==> inv(k + 1, step(s, items[k]).value)
    requires 0 < n <= |items| && inv(n - 1, s) && step(s, items[n - 1]).Ok?
    ensures inv(n, step(s, items[n - 1]).value)
  {
  }

  /**
   * The names `results` holds after a file are its names before, then each new
   * sub-report name in the order the processing methods come: the key is the
   * sub-report name alone, whatever the report type.
   */
  lemma AddSubreportsKeys(results: Results, subs: seq<(string, Result<ValidTable, Error>)>, n: nat,
                          comp: string, reportType: string)
    requires IsDict(results) && n <= |subs| && AddSubreports(results, subs, n, comp, reportType).Ok?
    ensures Keys(AddSubreports(results, subs, n, comp, reportType).value) == Dedup(Keys(results) + Keys(subs[..n]))
    ensures IsDict(AddSubreports(results, subs, n, comp, reportType).value)
  {
    var step := SubreportStep(comp, reportType);
    var inv := (k: nat, s: Results) => k <= |subs| && IsDict(s) && Keys(s) == Dedup(Keys(results) + Keys(subs[..k]));
    assert inv(0, results) by {
      assert Keys(results) + Keys(subs[..0]) == Keys(results);
      DedupDistinct(Keys(results));
    }
    forall k: nat, s: Results | k < |subs| && inv(k, s) && step(s, subs[k]).Ok?
      ensures inv(k + 1, step(s, subs[k]).value)
    {
      var seen := Keys(results) + Keys(subs[..k]);
      SubreportKeys(s, subs[k], comp, reportType, seen);
      KeysPrefixSnoc(subs, k + 1);
      AppendSnoc(Keys(results), Keys(subs[..k]), subs[k].0);
    }
    StepsInvariant(results, subs, n, step, inv);
  }

  /** One sub-report adds its name to the distinct names seen, if new. */
  lemma SubreportKeys(results: Results, sub: (string, Result<ValidTable, Error>), comp: string, reportType: string,
                      seen: seq<string>)
    requires Keys(results) == Dedup(seen) && AddSubreport(results, sub, comp, reportType).Ok?
    ensures Keys(AddSubreport(results, sub, comp, reportType).value) == Dedup(seen + [sub.0])
    ensures IsDict(AddSubreport(results, sub, comp, reportType).value)
  {
    AccumulateKeys(results, sub.0, Stamp(sub.1.value, comp, reportType), seen);
  }

  /** Accumulating under `name` adds `name` to the distinct names seen, if new. */
  lemma AccumulateKeys(results: Results, name: string, t: ValidTable, seen: seq<string>)
    requires Keys(results) == Dedup(seen)
    ensures Keys(Accumulate(results, name, t)) == Dedup(seen + [name])
    ensures IsDict(Accumulate(results, name, t))
  {
    AccumulateSemantics(results, name, t);
    DedupSnoc(seen, name);
  }

  /** Every cell of column `c` holds one of `values`; none is null. */
  ghost predicate CellsIn(t: Table, c: string, values: seq<string>) {
    forall i :: 0 <= i < |ColumnOf(t, c)| ==> ColumnOf(t, c)[i].Some? && ColumnOf(t, c)[i].value in values
  }

  /** Every row carries one of `comps` as its `symbol` and one of `rts` as its `reportType`. */
  ghost predicate Labelled(t: Table, comps: seq<string>, rts: seq<string>) {
    CellsIn(t, "symbol", comps) && CellsIn(t, "reportType", rts)
  }

  /** The table has both stamp columns, and they label every row. */
  ghost predicate Stamped(t: Table, comps: seq<string>, rts: seq<string>) {
    "symbol" in t.columns && "reportType" in t.columns && Labelled(t, comps, rts)
  }

  ghost predicate AllStamped(results: Results, comps: seq<string>, rts: seq<string>) {
    forall i :: 0 <= i < |results| ==> Stamped(results[i].1, comps, rts)
  }

  /** Every file written is labelled, and none has a column without a value. */
  ghost predicate ExportsLabelled(exports: Exports, comps: seq<string>, rts: seq<string>) {
    forall i :: 0 <= i < |exports| ==>
      Labelled(exports[i].1, comps, rts) &&
      forall c :: c in exports[i].1.columns ==> HasValue(exports[i].1.data[c])
  }

  lemma StampStamped(t: ValidTable, comp: string, reportType: string, comps: seq<string>, rts: seq<string>)
    requires comp in comps && reportType in rts
    ensures Stamped(Stamp(t, comp, reportType), comps, rts)
  {
  }

  /** `pd.concat` of two stamped tables is stamped: the stamp columns are stacked. */
  lemma AppendStamped(a: ValidTable, b: ValidTable, comps: seq<string>, rts: seq<string>)
    requires Stamped(a, comps, rts) && Stamped(b, comps, rts)
    ensures Stamped(Append(a, b), comps, rts)
  {
    ColumnOfAppend(a, b, "symbol");
    ColumnOfAppend(a, b, "reportType");
  }

  lemma {:induction false} AccumulateStamped(results: Results, name: string, t: ValidTable, comps: seq<string>, rts: seq<string>)
    requires AllStamped(results, comps, rts) && Stamped(t, comps, rts)
    ensures AllStamped(Accumulate(results, name, t), comps, rts)
  {
    if HasKey(results, name) {
      var prior := Lookup(results, name);
      assert Stamped(prior, comps, rts) by {
        assert results[IndexOf(results, name)].1 == prior;
      }
      AppendStamped(prior, t, comps, rts);
      ConcatPair(prior, t);
      PutEntries<ValidTable>(results, name, Append(prior, t));
    } else {
      PutEntries<ValidTable>(results, name, t);
    }
  }

  lemma AddSubreportsStamped(results: Results, subs: seq<(string, Result<ValidTable, Error>)>, n: nat,
                             comp: string, reportType: string, comps: seq<string>, rts: seq<string>)
    requires n <= |subs| && comp in comps && reportType in rts && AllStamped(results, comps, rts)
    requires AddSubreports(results, subs, n, comp, reportType).Ok?
    ensures AllStamped(AddSubreports(results, subs, n, comp, reportType).value, comps, rts)
  {
    var step := SubreportStep(comp, reportType);
    var inv := (k: nat, s: Results) => AllStamped(s, comps, rts);
    forall k: nat, s: Results | k < |subs| && inv(k, s) && step(s, subs[k]).Ok?
      ensures inv(k + 1, step(s, subs[k]).value)
    {
      SubreportStamped(s, subs[k], comp, reportType, comps, rts);
    }
    StepsInvariant(results, subs, n, step, inv);
  }

  lemma SubreportStamped(results: Results, sub: (string, Result<ValidTable, Error>), comp: string, reportType: string,
                         comps: seq<string>, rts: seq<string>)
    requires comp in comps && reportType in rts && AllStamped(results, comps, rts)
    requires AddSubreport(results, sub, comp, reportType).Ok?
    ensures AllStamped(AddSubreport(results, sub, comp, reportType).value, comps, rts)
  {
    StampStamped(sub.1.value, comp, reportType, comps, rts);
    AccumulateStamped(results, sub.0, Stamp(sub.1.value, comp, reportType), comps, rts);
  }

  lemma {:induction false} AddCompaniesStamped(results: Results, reportType: string, cs: seq<string>,
                                               files: map<(string, string), ReportFile>, comps: seq<string>, rts: seq<string>)
    requires forall i :: 0 <= i < |cs| ==> cs[i] in comps
    requires reportType in rts && AllStamped(results, comps, rts)
    requires AddCompanies(results, reportType, cs, files).Ok?
    ensures AllStamped(AddCompanies(results, reportType, cs, files).value, comps, rts)
  {
    if cs != [] {
      var n := |cs| - 1;
      assert forall i :: 0 <= i < n ==> cs[..n][i] == cs[i];
      AddCompaniesStamped(results, reportType, cs[..n], files, comps, rts);
      var acc := AddCompanies(results, reportType, cs[..n], files).value;
      var comp := cs[n];
      if (reportType, comp) in files && !SkipsAsEmpty(files[(reportType, comp)].contents) {
        var subs := files[(reportType, comp)].subreports;
        AddSubreportsStamped(acc, subs, |subs|, comp, reportType, comps, rts);
      }
    }
  }

  /** Dropping the all-null columns of a stamped table leaves every row labelled. */
  lemma DropLabelled(t: ValidTable, comps: seq<string>, rts: seq<string>)
    requires Stamped(t, comps, rts)
    ensures Labelled(DropAllNullColumns(t), comps, rts)
  {
    var r := DropAllNullColumns(t);
    forall c | c == "symbol" || c == "reportType"
      ensures ColumnOf(r, c) == ColumnOf(t, c)
    {
      if t.rows > 0 {
        assert ColumnOf(t, c)[0].Some?;
      }
    }
  }

  lemma {:induction false} ExportAllLabelled(results: Results, reportType: string, comps: seq<string>, rts: seq<string>)
    requires AllStamped(results, comps, rts)
    ensures ExportsLabelled(ExportAll(results, reportType), comps, rts)
  {
    var es := ExportAll(results, reportType);
    forall i | 0 <= i < |es| ensures Labelled(es[i].1, comps, rts) {
      DropLabelled(results[i].1, comps, rts);
    }
  }

  /**
   * As written, every row the script accumulates or writes carries one of the
   * companies and one of the report types processed so far, and no file written
   * has a column without a value.
   */
  lemma {:induction false} RunLabelled(rts: seq<string>, comps: seq<string>, files: map<(string, string), ReportFile>,
                                       all: seq<string>)
    requires forall i :: 0 <= i < |rts| ==> rts[i] in all
    ensures var run := RunReportTypes(rts, comps, files);
            ExportsLabelled(run.exports, comps, all) && (run.Running? ==> AllStamped(run.results, comps, all))
  {
    if rts != [] {
      var n := |rts| - 1;
      assert forall i :: 0 <= i < n ==> rts[..n][i] == rts[i];
      RunLabelled(rts[..n], comps, files, all);
      var prev := RunReportTypes(rts[..n], comps, files);
      if prev.Running? && AddCompanies(prev.results, rts[n], comps, files).Ok? {
        AddCompaniesStamped(prev.results, rts[n], comps, files, comps, all);
        var acc := AddCompanies(prev.results, rts[n], comps, files).value;
        ExportAllLabelled(acc, rts[n], comps, all);
      }
    }
  }

  // ---------------------------------------------------------------------------
  // `results` is never reset: later exports repeat earlier report types' rows

  /** A company whose only file is of report type `fs`, with one sub-report `name`. */
  function OneFile(fs: string, comp: string, contents: string, name: string, t: ValidTable): map<(string, string), ReportFile> {
    map[(fs, comp) := ReportFile(contents, [(name, Ok(t))])]
  }

  /** A file with one sub-report adds that sub-report's stamped table. */
  lemma OneFileAdded(results: Results, fs: string, comp: string, contents: string, name: string, t: ValidTable)
    requires !SkipsAsEmpty(contents)
    ensures AddFile(results, fs, comp, OneFile(fs, comp, contents, name, t)) == Ok(Accumulate(results, name, Stamp(t, comp, fs)))
  {
    var subs: seq<(string, Result<ValidTable, Error>)> := [(name, Ok(t))];
    assert OneFile(fs, comp, contents, name, t)[(fs, comp)].subreports == subs;
    AddSubreportsAccepts(results, subs, 0, comp, fs, results);
  }

  /** The first table accumulated is the only entry. */
  lemma AccumulateFirst(name: string, t: ValidTable)
    ensures Accumulate([], name, t) == [(name, t)]
  {
    assert !HasKey<ValidTable>([], name);
  }

  /** The loop over a single company is that company's file. */
  lemma OneCompany(results: Results, reportType: string, comp: string, files: map<(string, string), ReportFile>)
    ensures AddCompanies(results, reportType, [comp], files) == AddFile(results, reportType, comp, files)
  {
    assert [comp][..0] == [];
  }

  /** After the first report type, `results` holds the stamped table and its export is written. */
  lemma OneFileFirstPass(fs: string, comp: string, contents: string, name: string, t: ValidTable)
    requires !SkipsAsEmpty(contents)
    ensures var results := [(name, Stamp(t, comp, fs))];
            RunReportTypes([fs], [comp], OneFile(fs, comp, contents, name, t)) == Running(results, ExportAll(results, fs))
  {
    var files := OneFile(fs, comp, contents, name, t);
    var results: Results := [(name, Stamp(t, comp, fs))];
    assert AddCompanies([], fs, [comp], files) == Ok(results) by {
      OneCompany([], fs, comp, files);
      OneFileAdded([], fs, comp, contents, name, t);
      AccumulateFirst(name, Stamp(t, comp, fs));
    }
    RunFirst(fs, [comp], files, results);
  }

  /** The first report type starts from an empty `results` and exports what it accumulated. */
  lemma RunFirst(reportType: string, comps: seq<string>, files: map<(string, string), ReportFile>, acc: Results)
    requires AddCompanies([], reportType, comps, files) == Ok(acc)
    ensures RunReportTypes([reportType], comps, files) == Running(acc, ExportAll(acc, reportType))
  {
    assert [reportType][..0] == [];
  }

  /** One more report type whose companies go through: its tables are exported after the earlier files. */
  lemma RunNext(rts: seq<string>, reportType: string, comps: seq<string>, files: map<(string, string), ReportFile>,
                results: Results, exports: Exports, acc: Results)
    requires RunReportTypes(rts, comps, files) == Running(results, exports)
    requires AddCompanies(results, reportType, comps, files) == Ok(acc)
    ensures RunReportTypes(rts + [reportType], comps, files) == Running(acc, exports + ExportAll(acc, reportType))
  {
    assert (rts + [reportType])[..|rts|] == rts;
  }

  /** The second report type finds no file: `results` is unchanged and exported again under its name. */
  lemma OneFileSecondPass(fs: string, snap: string, comp: string, contents: string, name: string, t: ValidTable)
    requires fs != snap && !SkipsAsEmpty(contents)
    ensures var results := [(name, Stamp(t, comp, fs))];
            RunReportTypes([fs, snap], [comp], OneFile(fs, comp, contents, name, t)) ==
            Running(results, ExportAll(results, fs) + ExportAll(results, snap))
  {
    var files := OneFile(fs, comp, contents, name, t);
    var results: Results := [(name, Stamp(t, comp, fs))];
    assert RunReportTypes([fs], [comp], files) == Running(results, ExportAll(results, fs)) by {
      OneFileFirstPass(fs, comp, contents, name, t);
    }
    assert AddCompanies(results, snap, [comp], files) == Ok(results) by {
      assert (snap, comp) !in files;
      OneCompany(results, snap, comp, files);
    }
    RunNext([fs], snap, [comp], files, results, ExportAll(results, fs), results);
    assert [fs] + [snap] == [fs, snap];
  }

  /** Dropping the all-null columns keeps the `reportType` stamp. */
  lemma StampSurvivesDrop(t: ValidTable, comp: string, reportType: string)
    ensures ColumnOf(DropAllNullColumns(Stamp(t, comp, reportType)), "reportType") == Repeat(Some(reportType), t.rows)
  {
    var s := Stamp(t, comp, reportType);
    if t.rows > 0 {
      assert s.data["reportType"][0].Some?;
    }
  }

  /**
   * The company has a financial statements file and no snapshot file: the file the
   * script writes as `ReportSnapshot_{name}` holds the financial statements' rows,
   * every one labelled with the financial statements' report type.
   */
  lemma ReexportMixesReportTypes(fs: string, snap: string, comp: string, contents: string, name: string, t: ValidTable)
    requires fs != snap && !SkipsAsEmpty(contents)
    ensures var run := RunReportTypes([fs, snap], [comp], OneFile(fs, comp, contents, name, t));
            run.Running? && |run.exports| == 2 &&
            run.exports[1].0 == ExportName(snap, name) &&
            ColumnOf(run.exports[1].1, "reportType") == Repeat(Some(fs), t.rows)
  {
    var s := Stamp(t, comp, fs);
    var results: Results := [(name, s)];
    OneFileSecondPass(fs, snap, comp, contents, name, t);
    var exports := ExportAll(results, fs) + ExportAll(results, snap);
    assert |exports| == 2 && exports[1] == (ExportName(snap, name), DropAllNullColumns(s)) by {
      assert exports[1] == ExportAll(results, snap)[0];
    }
    StampSurvivesDrop(t, comp, fs);
  }

  /** The file is named after one of `rts`, and every row it holds is labelled with that report type. */
  ghost predicate OwnRows(e: (string, ValidTable), comps: seq<string>, rts: seq<string>) {
    exists r, name :: r in rts && e.0 == ExportName(r, name) && Labelled(e.1, comps, [r])
  }

  lemma OwnRowsWiden(e: (string, ValidTable), comps: seq<string>, small: seq<string>, big: seq<string>)
    requires forall r :: r in small ==> r in big
    requires OwnRows(e, comps, small)
    ensures OwnRows(e, comps, big)
  {
    var r, name :| r in small && e.0 == ExportName(r, name) && Labelled(e.1, comps, [r]);
    assert r in big;
  }

  /**
   * With `results` reset for every report type, each file written carries only
   * rows of the report type it is named after.
   */
  lemma {:induction false} PerReportTypeLabelled(rts: seq<string>, comps: seq<string>, files: map<(string, string), ReportFile>)
    ensures forall e :: e in RunPerReportType(rts, comps, files).exports ==> OwnRows(e, comps, rts)
  {
    if rts != [] {
      var n := |rts| - 1;
      PerReportTypeLabelled(rts[..n], comps, files);
      var prev := RunPerReportType(rts[..n], comps, files);
      assert rts == rts[..n] + [rts[n]];
      forall e | e in prev.exports ensures OwnRows(e, comps, rts) {
        OwnRowsWiden(e, comps, rts[..n], rts);
      }
      if prev.Running? && AddCompanies([], rts[n], comps, files).Ok? {
        AddCompaniesStamped([], rts[n], comps, files, comps, [rts[n]]);
        var acc := AddCompanies([], rts[n], comps, files).value;
        var es := ExportAll(acc, rts[n]);
        ExportAllLabelled(acc, rts[n], comps, [rts[n]]);
        var exports := prev.exports + es;
        forall e | e in exports ensures OwnRows(e, comps, rts) {
          if e !in prev.exports {
            var k :| 0 <= k < |es| && es[k] == e;
            assert es[k].0 == ExportName(rts[n], acc[k].0);
            assert Labelled(es[k].1, comps, [rts[n]]);
          }
        }
      }
    }
  }
}
