/**
 * The two multi-level drivers of the fundamentals report: the financial-statement
 * helper and the fiscal-year-estimates helper. Each finds a list of outer elements
 * (fiscal periods, FY estimates), reads some of each outer element's attributes
 * into fixed columns, runs `_xml_processor` below it, and concatenates the tables.
 */
module Statements {
  import opened Wrappers
  import opened Dicts
  import opened ElementTree
  import opened Tables
  import opened Flattener
  import opened FlattenerProperties

  /** The path step `tag`. */
  function Child(tag: string): Step {
    Step(tag, [])
  }

  /** The path step `tag[@attr='v']`. */
  function Where(tag: string, attr: string, v: string): Step {
    Step(tag, [(attr, v)])
  }

  // ---------------------------------------------------------------------------
  // The outer loop shared by both helpers
  // ---------------------------------------------------------------------------

  /**
   * `{k: f.attrib[v] for k, v in fmap.items()}`: the fixed columns of outer element
   * `f`, or the KeyError of the first attribute it lacks.
   */
  function FixedColumns(f: Element, fmap: seq<(string, string)>): (r: Result<seq<(string, string)>, Error>)
    ensures r.Ok? <==> forall i :: 0 <= i < |fmap| ==> fmap[i].1 in f.attrs
    ensures r.Ok? ==> |r.value| == |fmap| &&
                      forall i :: 0 <= i < |fmap| ==> r.value[i] == (fmap[i].0, f.attrs[fmap[i].1])
    ensures r.Err? ==> exists i :: 0 <= i < |fmap| && fmap[i].1 !in f.attrs &&
                                   (forall j :: 0 <= j < i ==> fmap[j].1 in f.attrs) &&
                                   r.error == MissingAttribute(fmap[i].1)
  {
    if fmap == [] then Ok([])
    else if fmap[0].1 !in f.attrs then Err(MissingAttribute(fmap[0].1))
    else
      match FixedColumns(f, fmap[1..])
      case Err(e) =>
        assert forall i :: 0 < i < |fmap| ==> fmap[i] == fmap[1..][i - 1];
        Err(e)
      case Ok(rest) => Ok([(fmap[0].0, f.attrs[fmap[0].1])] + rest)
  }

  /**
   * `_xml_processor(f, inner, m, top, fixed_columns)` for one outer element `f`,
   * after its fixed columns are read.
   */
  function OuterTable(f: Element, inner: Path, m: Mapping, top: seq<(string, string)>,
                      fmap: seq<(string, string)>): (r: Result<Table, Error>)
    ensures r.Ok? ==> Valid(r.value)
  {
    match FixedColumns(f, fmap)
    case Err(e) => Err(e)
    case Ok(fixed) =>
      var t := Flatten(f, inner, m, top, fixed);
      if t.Ok? then FlattenShape(f, inner, m, top, fixed); t else t
  }

  /** The table (or exception) of every outer element, in document order. */
  function OuterResults(outers: seq<Element>, inner: Path, m: Mapping, top: seq<(string, string)>,
                        fmap: seq<(string, string)>): (rs: seq<Result<Table, Error>>)
    ensures |rs| == |outers|
    ensures forall i :: 0 <= i < |outers| ==> rs[i] == OuterTable(outers[i], inner, m, top, fmap)
    ensures forall i :: 0 <= i < |rs| ==> rs[i].Ok? ==> Valid(rs[i].value)
  {
    seq(|outers|, i requires 0 <= i < |outers| => OuterTable(outers[i], inner, m, top, fmap))
  }

  /**
   * `dfs += [r]` for each result `r` in turn: the list of tables, or the first
   * exception, which ends the loop.
   */
  function Collect(rs: seq<Result<Table, Error>>): (r: Result<seq<Table>, Error>)
    ensures r.Ok? <==> forall i :: 0 <= i < |rs| ==> rs[i].Ok?
    ensures r.Ok? ==> |r.value| == |rs| && forall i :: 0 <= i < |rs| ==> r.value[i] == rs[i].value
    ensures r.Err? ==> exists i :: 0 <= i < |rs| && (forall j :: 0 <= j < i ==> rs[j].Ok?) && rs[i] == Err(r.error)
  {
    if rs == [] then Ok([])
    else
      var n := |rs| - 1;
      assert forall i :: 0 <= i < n ==> rs[..n][i] == rs[i];
      match Collect(rs[..n])
      case Err(e) => Err(e)
      case Ok(ts) =>
        match rs[n]
        case Err(e) => Err(e)
        case Ok(t) => Ok(ts + [t])
  }

  /** An exception among the first `i` results is the exception of the whole loop. */
  lemma {:induction false} CollectErrPrefix(rs: seq<Result<Table, Error>>, i: nat)
    requires i <= |rs| && Collect(rs[..i]).Err?
    ensures Collect(rs) == Collect(rs[..i])
    decreases |rs|
  {
    if i < |rs| {
      var n := |rs| - 1;
      assert rs[..n][..i] == rs[..i];
      CollectErrPrefix(rs[..n], i);
    } else {
      assert rs[..i] == rs;
    }
  }

  /** `dfs` after the loop over the outer elements `outers`, or its first exception. */
  function OuterTables(outers: seq<Element>, inner: Path, m: Mapping, top: seq<(string, string)>,
                       fmap: seq<(string, string)>): (r: Result<seq<Table>, Error>)
    ensures r.Ok? ==> |r.value| == |outers| && forall i :: 0 <= i < |r.value| ==> Valid(r.value[i])
  {
    Collect(OuterResults(outers, inner, m, top, fmap))
  }

  /** Exceptions of the outer loop are KeyErrors: `_xml_processor` never concatenates. */
  lemma {:induction false} OuterTablesKeyError(outers: seq<Element>, inner: Path, m: Mapping,
                                               top: seq<(string, string)>, fmap: seq<(string, string)>)
    ensures OuterTables(outers, inner, m, top, fmap).Err? ==> OuterTables(outers, inner, m, top, fmap).error.MissingAttribute?
  {
    var rs := OuterResults(outers, inner, m, top, fmap);
    if Collect(rs).Err? {
      var i :| 0 <= i < |rs| && rs[i] == Err(Collect(rs).error);
      var f := outers[i];
      if FixedColumns(f, fmap).Ok? {
        FlattenOkIff(f, inner, m, top, FixedColumns(f, fmap).value);
      }
    }
  }

  /** The loop over the outer elements, as the helpers write it. */
  method ProcessOuter(outers: seq<Element>, inner: Path, m: Mapping, top: seq<(string, string)>,
                      fmap: seq<(string, string)>) returns (r: Result<seq<Table>, Error>)
    ensures r == OuterTables(outers, inner, m, top, fmap)
  {
    ghost var rs := OuterResults(outers, inner, m, top, fmap);
    var dfs: seq<Table> := [];
    for i := 0 to |outers|
      invariant Collect(rs[..i]) == Ok(dfs)
    {
      assert rs[..i + 1][..i] == rs[..i];
      var fixed := FixedColumns(outers[i], fmap);
      if fixed.Err? {
        CollectErrPrefix(rs, i + 1);
        return Err(fixed.error);
      }
      var t := XmlProcessor(outers[i], inner, m, top, fixed.value);
      if t.Err? {
        CollectErrPrefix(rs, i + 1);
        return Err(t.error);
      }
      dfs := dfs + [t.value];
    }
    assert rs[..|outers|] == rs;
    r := Ok(dfs);
  }

  /**
   * Every table of the outer loop holds, in each fixed column that nothing else
   * fills, its outer element's attribute on every row.
   */
  lemma {:induction false} OuterTableStamped(f: Element, inner: Path, m: Mapping, top: seq<(string, string)>,
                                             fmap: seq<(string, string)>, k: string)
    requires IsDict(fmap) && HasKey(fmap, k)
    requires !HasKey(m.values, k) && !HasKey(m.attributes, k) && !HasKey(top, k)
    requires OuterTable(f, inner, m, top, fmap).Ok?
    ensures Lookup(fmap, k) in f.attrs
    ensures var t := OuterTable(f, inner, m, top, fmap).value;
            k in t.data && t.data[k] == Repeat(Some(f.attrs[Lookup(fmap, k)]), t.rows)
  {
    var fixed := FixedColumns(f, fmap).value;
    FixedLookup(f, fmap, fixed, k);
    FixedColumnConstant(f, inner, m, top, fixed, k);
  }

  /** The fixed columns read from `f` have the keys of `fmap`, each holding `f`'s attribute. */
  lemma {:induction false} FixedLookup(f: Element, fmap: seq<(string, string)>, fixed: seq<(string, string)>, k: string)
    requires HasKey(fmap, k) && FixedColumns(f, fmap) == Ok(fixed)
    ensures Keys(fixed) == Keys(fmap)
    ensures Lookup(fmap, k) in f.attrs && HasKey(fixed, k) && Lookup(fixed, k) == f.attrs[Lookup(fmap, k)]
  {
    assert Keys(fixed) == Keys(fmap);
    var i := IndexOf(fmap, k);
    IndexUnique(fixed, k, i);
  }

  // ---------------------------------------------------------------------------
  // `_process_financial_statements_helper`
  // ---------------------------------------------------------------------------

  /** `FinancialStatements/COAMap/mapItem[@statementType='{statementType}']` */
  function MapItemsPath(statementType: string): Path {
    [Child("FinancialStatements"), Child("COAMap"), Where("mapItem", "statementType", statementType)]
  }

  /** `FinancialStatements/{periodType}Periods/FiscalPeriod[@Type="{periodType}"]` */
  function PeriodsPath(periodType: string): Path {
    [Child("FinancialStatements"), Child(periodType + "Periods"), Where("FiscalPeriod", "Type", periodType)]
  }

  /** `Statement[@Type='{statementType}']` */
  function StatementPath(statementType: string): Path {
    [Where("Statement", "Type", statementType)]
  }

  /** The `coaItem` attribute of every map item, in order, or KeyError for the first that lacks it. */
  function CoaItems(mapitems: seq<Element>): (r: Result<seq<string>, Error>)
    ensures r.Ok? <==> forall i :: 0 <= i < |mapitems| ==> "coaItem" in mapitems[i].attrs
    ensures r.Ok? ==> |r.value| == |mapitems| &&
                      forall i :: 0 <= i < |mapitems| ==> r.value[i] == mapitems[i].attrs["coaItem"]
    ensures r.Err? ==> r.error == MissingAttribute("coaItem")
  {
    if mapitems == [] then Ok([])
    else
      var n := |mapitems| - 1;
      match CoaItems(mapitems[..n])
      case Err(e) => Err(e)
      case Ok(codes) =>
        if "coaItem" in mapitems[n].attrs then Ok(codes + [mapitems[n].attrs["coaItem"]])
        else Err(MissingAttribute("coaItem"))
  }

  /** The loop that collects `coaitems`. */
  method CollectCoaItems(mapitems: seq<Element>) returns (r: Result<seq<string>, Error>)
    ensures r == CoaItems(mapitems)
  {
    var coaitems: seq<string> := [];
    for i := 0 to |mapitems|
      invariant CoaItems(mapitems[..i]) == Ok(coaitems)
    {
      assert mapitems[..i + 1][..i] == mapitems[..i];
      if "coaItem" !in mapitems[i].attrs {
        CoaItemsErrPrefix(mapitems, i + 1);
        return Err(MissingAttribute("coaItem"));
      }
      coaitems := coaitems + [mapitems[i].attrs["coaItem"]];
    }
    assert mapitems[..|mapitems|] == mapitems;
    r := Ok(coaitems);
  }

  lemma {:induction false} CoaItemsErrPrefix(mapitems: seq<Element>, i: nat)
    requires i <= |mapitems| && CoaItems(mapitems[..i]).Err?
    ensures CoaItems(mapitems).Err?
  {
    assert !("coaItem" in mapitems[..i][i - 1].attrs) || exists j :: 0 <= j < i && "coaItem" !in mapitems[..i][j].attrs;
  }

  /** `lineItem[@coaCode='{code}']` */
  function LineItemPath(code: string): Path {
    [Where("lineItem", "coaCode", code)]
  }

  /** The comprehension's pairs: one `values` entry per code, in the order of `coaitems`. */
  function CodeValues(coaitems: seq<string>): (r: seq<(string, Path)>)
    ensures Keys(r) == coaitems
    ensures forall i :: 0 <= i < |r| ==> r[i].1 == LineItemPath(r[i].0)
  {
    seq(|coaitems|, i requires 0 <= i < |coaitems| => (coaitems[i], LineItemPath(coaitems[i])))
  }

  /** The header columns added by `update`. */
  const HeaderValues: seq<(string, Path)> := [
    ("PeriodLength", [Child("FPHeader"), Child("PeriodLength")]),
    ("periodType", [Child("FPHeader"), Child("periodType")]),
    ("UpdateType", [Child("FPHeader"), Child("UpdateType")]),
    ("StatementDate", [Child("FPHeader"), Child("StatementDate")]),
    ("Source", [Child("FPHeader"), Child("Source")])
  ]

  const HeaderAttributes: seq<(string, AttrRef)> := [
    ("periodTypeCode", AttrRef([Child("FPHeader"), Child("periodType")], "Code")),
    ("UpdateTypeCode", AttrRef([Child("FPHeader"), Child("UpdateType")], "Code")),
    ("SourceDate", AttrRef([Child("FPHeader"), Child("Source")], "Date"))
  ]

  /** `itemlevel_attribs` */
  const StatementAttribs: seq<(string, string)> := [("StatementType", "Type")]

  /** `itemlevel_mappings` once its `values` are updated with the header columns. */
  function StatementMapping(coaitems: seq<string>): Mapping {
    Mapping(Update(FromPairs(CodeValues(coaitems)), HeaderValues), HeaderAttributes)
  }

  /** `list_fixed_columns_map` without the interim period number. */
  const PeriodColumns: seq<(string, string)> :=
    [("FiscalPeriodType", "Type"), ("FiscalPeriodEndDate", "EndDate"), ("FiscalPeriodYear", "FiscalYear")]

  /** `list_fixed_columns_map` for `periodType`: interim periods add their number as a new key. */
  function FiscalPeriodColumns(periodType: string): seq<(string, string)> {
    if periodType == "Interim" then PeriodColumns + [("FiscalPeriodNumber", "FiscalPeriodNumber")] else PeriodColumns
  }

  /** The column names of the table returned when there are no fiscal periods. */
  function DeclaredStatementColumns(m: Mapping, fmap: seq<(string, string)>): seq<string> {
    Keys(m.values) + Keys(m.attributes) + Keys(StatementAttribs) + Keys(fmap)
  }

  /** `_process_financial_statements_helper(periodType, statementType)` */
  function FinancialStatements(tree: Element, periodType: string, statementType: string): (r: Result<Table, Error>)
    ensures r.Ok? ==> Valid(r.value)
  {
    match CoaItems(FindAll(tree, MapItemsPath(statementType)))
    case Err(e) => Err(e)
    case Ok(coaitems) =>
      var m := StatementMapping(coaitems);
      var fmap := FiscalPeriodColumns(periodType);
      var periods := FindAll(tree, PeriodsPath(periodType));
      match OuterTables(periods, StatementPath(statementType), m, StatementAttribs, fmap)
      case Err(e) => Err(e)
      case Ok(dfs) =>
        if |periods| == 0 then Ok(EmptyTable(DeclaredStatementColumns(m, fmap)))
        else Concat(dfs)
  }

  /** `_process_financial_statements_helper`, statement for statement. */
  method FinancialStatementsHelper(tree: Element, periodType: string, statementType: string)
    returns (r: Result<Table, Error>)
    ensures r == FinancialStatements(tree, periodType, statementType)
  {
    var mapitems := FindAll(tree, MapItemsPath(statementType));
    var coaitems := CollectCoaItems(mapitems);
    if coaitems.Err? {
      return Err(coaitems.error);
    }
    var m := StatementMapping(coaitems.value);
    var fmap := PeriodColumns;
    if periodType == "Interim" {
      fmap := fmap + [("FiscalPeriodNumber", "FiscalPeriodNumber")];
    }
    var fiscalperiods := FindAll(tree, PeriodsPath(periodType));
    var dfs := ProcessOuter(fiscalperiods, StatementPath(statementType), m, StatementAttribs, fmap);
    if dfs.Err? {
      return Err(dfs.error);
    }
    if |fiscalperiods| == 0 {
      return Ok(EmptyTable(DeclaredStatementColumns(m, fmap)));
    }
    r := Concat(dfs.value);
  }

  /** `FiscalPeriodNumber` is a fixed column exactly for interim periods, after the three others. */
  lemma {:induction false} FiscalPeriodColumnsKeys(periodType: string)
    ensures IsDict(FiscalPeriodColumns(periodType))
    ensures Keys(FiscalPeriodColumns(periodType)) ==
            ["FiscalPeriodType", "FiscalPeriodEndDate", "FiscalPeriodYear"] +
            (if periodType == "Interim" then ["FiscalPeriodNumber"] else [])
    ensures HasKey(FiscalPeriodColumns(periodType), "FiscalPeriodNumber") <==> periodType == "Interim"
  {
    assert Keys(PeriodColumns) == ["FiscalPeriodType", "FiscalPeriodEndDate", "FiscalPeriodYear"];
    if periodType == "Interim" {
      assert Keys(FiscalPeriodColumns(periodType)) == Keys(PeriodColumns) + ["FiscalPeriodNumber"];
    }
  }

  /**
   * Every chart-of-accounts code is a `values` column reading its line item, except
   * that a code equal to a header name is overwritten by the header's path; the
   * header columns follow the codes.
   */
  lemma {:induction false} StatementValues(coaitems: seq<string>, k: string)
    ensures var vs := StatementMapping(coaitems).values;
            IsDict(vs) && Keys(vs) == Dedup(Dedup(coaitems) + Keys(HeaderValues))
    ensures var vs := StatementMapping(coaitems).values;
            HasKey(vs, k) <==> k in coaitems || HasKey(HeaderValues, k)
    ensures var vs := StatementMapping(coaitems).values;
            HasKey(vs, k) ==> Lookup(vs, k) == if HasKey(HeaderValues, k) then LastValue(HeaderValues, k) else LineItemPath(k)
  {
    var codes := CodeValues(coaitems);
    var d := FromPairs(codes);
    FromPairsSemantics(codes);
    UpdateKeys(d, HeaderValues);
    if k in coaitems || HasKey(HeaderValues, k) {
      UpdateValues(d, HeaderValues, k);
      if !HasKey(HeaderValues, k) {
        assert HasKey(codes, k) && Lookup(d, k) == LastValue(codes, k);
        LastValueOfCodes(codes, k);
      }
    }
  }

  /** Every pair of the comprehension for code `k` has `k`'s line-item path. */
  lemma {:induction false} LastValueOfCodes(ps: seq<(string, Path)>, k: string)
    requires HasKey(ps, k)
    requires forall i :: 0 <= i < |ps| ==> ps[i].1 == LineItemPath(ps[i].0)
    ensures LastValue(ps, k) == LineItemPath(k)
  {
    var n := |ps| - 1;
    if ps[n].0 != k {
      assert Keys(ps) == Keys(ps[..n]) + [ps[n].0];
      LastValueOfCodes(ps[..n], k);
    }
  }

  /** No fixed column of a fiscal period has the name of a header or statement column. */
  lemma {:induction false} FixedNamesApart(periodType: string, k: string)
    requires HasKey(FiscalPeriodColumns(periodType), k)
    ensures !HasKey(HeaderValues, k) && !HasKey(HeaderAttributes, k) && !HasKey(StatementAttribs, k)
  {
    FiscalPeriodColumnsKeys(periodType);
    assert k[0] == 'F';
    NotKey(HeaderValues, k);
    NotKey(HeaderAttributes, k);
    NotKey(StatementAttribs, k);
  }

  /** A key that differs from every entry's key is not in the dictionary. */
  lemma NotKey<V>(d: seq<(string, V)>, k: string)
    requires forall i :: 0 <= i < |d| ==> d[i].0 != k
    ensures !HasKey(d, k)
  {
  }

  /**
   * The columns of the empty table: every code, header, statement and fixed
   * column name; `FiscalPeriodNumber` is among them for interim periods.
   */
  lemma {:induction false} EmptyStatementColumns(coaitems: seq<string>, periodType: string, c: string)
    ensures var names := DeclaredStatementColumns(StatementMapping(coaitems), FiscalPeriodColumns(periodType));
            c in names <==> c in coaitems || c in Keys(HeaderValues) || c in Keys(HeaderAttributes) ||
                            c in Keys(StatementAttribs) || HasKey(FiscalPeriodColumns(periodType), c)
    ensures periodType == "Interim" ==>
              "FiscalPeriodNumber" in DeclaredStatementColumns(StatementMapping(coaitems), FiscalPeriodColumns(periodType))
  {
    StatementValues(coaitems, c);
    FiscalPeriodColumnsKeys(periodType);
  }

  /**
   * With no fiscal period the helper returns a table with no rows whose columns
   * are all the declared names.
   */
  lemma {:induction false} NoFiscalPeriods(tree: Element, periodType: string, statementType: string, coaitems: seq<string>)
    requires CoaItems(FindAll(tree, MapItemsPath(statementType))) == Ok(coaitems)
    requires FindAll(tree, PeriodsPath(periodType)) == []
    ensures var names := DeclaredStatementColumns(StatementMapping(coaitems), FiscalPeriodColumns(periodType));
            FinancialStatements(tree, periodType, statementType) == Ok(EmptyTable(names)) &&
            EmptyTable(names).rows == 0 &&
            forall c :: c in EmptyTable(names).columns <==> c in names
  {
  }

  /**
   * With fiscal periods and no exception, the helper returns the concatenation of
   * one table per period, in document order.
   */
  lemma {:induction false} FiscalPeriodsConcatenated(tree: Element, periodType: string, statementType: string,
                                                     coaitems: seq<string>, periods: seq<Element>, dfs: seq<Table>)
    requires CoaItems(FindAll(tree, MapItemsPath(statementType))) == Ok(coaitems)
    requires periods == FindAll(tree, PeriodsPath(periodType)) && periods != []
    requires OuterTables(periods, StatementPath(statementType), StatementMapping(coaitems),
                         StatementAttribs, FiscalPeriodColumns(periodType)) == Ok(dfs)
    ensures |dfs| == |periods|
    ensures forall i :: 0 <= i < |periods| ==>
              Ok(dfs[i]) == OuterTable(periods[i], StatementPath(statementType), StatementMapping(coaitems),
                                       StatementAttribs, FiscalPeriodColumns(periodType))
    ensures FinancialStatements(tree, periodType, statementType) == Concat(dfs)
    ensures Concat(dfs).Ok? && Concat(dfs).value.rows == SumRows(dfs)
    ensures forall c :: ColumnOf(Concat(dfs).value, c) == Stacked(dfs, c)
  {
    ConcatShape(dfs);
  }

  /**
   * The helper raises exactly when a map item lacks `coaItem` or the table of some
   * fiscal period raises.
   */
  lemma {:induction false} FinancialStatementsRaises(tree: Element, periodType: string, statementType: string,
                                                     coaitems: seq<string>, periods: seq<Element>)
    requires CoaItems(FindAll(tree, MapItemsPath(statementType))) == Ok(coaitems)
    requires periods == FindAll(tree, PeriodsPath(periodType))
    ensures FinancialStatements(tree, periodType, statementType).Err? <==>
            exists i :: 0 <= i < |periods| &&
              OuterTable(periods[i], StatementPath(statementType), StatementMapping(coaitems),
                         StatementAttribs, FiscalPeriodColumns(periodType)).Err?
  {
    if periods != [] {
      var dfs := OuterTables(periods, StatementPath(statementType), StatementMapping(coaitems),
                             StatementAttribs, FiscalPeriodColumns(periodType));
      if dfs.Ok? {
        ConcatShape(dfs.value);
      }
    }
  }

  /**
   * Every row of a period's table carries that period's `Type`, `EndDate` and
   * `FiscalYear` (and `FiscalPeriodNumber` for interim periods), unless a code of
   * the chart of accounts has the same name as the fixed column.
   */
  lemma {:induction false} FiscalPeriodStamped(f: Element, periodType: string, statementType: string,
                                               coaitems: seq<string>, k: string, t: Table)
    requires HasKey(FiscalPeriodColumns(periodType), k) && k !in coaitems
    requires OuterTable(f, StatementPath(statementType), StatementMapping(coaitems),
                        StatementAttribs, FiscalPeriodColumns(periodType)) == Ok(t)
    ensures var a := Lookup(FiscalPeriodColumns(periodType), k);
            a in f.attrs && k in t.data && t.data[k] == Repeat(Some(f.attrs[a]), t.rows)
  {
    FiscalPeriodColumnsKeys(periodType);
    StatementValues(coaitems, k);
    FixedNamesApart(periodType, k);
    OuterTableStamped(f, StatementPath(statementType), StatementMapping(coaitems),
                      StatementAttribs, FiscalPeriodColumns(periodType), k);
  }

  // ---------------------------------------------------------------------------
  // `_process_fiscal_year_estimates_helper`
  // ---------------------------------------------------------------------------

  /** `ConsEstimate[@type='{kind}']/ConsValue[@dateType='{date}']` */
  function ConsValuePath(kind: string, date: string): Path {
    [Where("ConsEstimate", "type", kind), Where("ConsValue", "dateType", date)]
  }

  /** `fy_itemlevel_mappings` */
  const EstimateMapping: Mapping := Mapping([
    ("high_curr", ConsValuePath("High", "CURR")),
    ("low_curr", ConsValuePath("Low", "CURR")),
    ("mean_curr", ConsValuePath("Mean", "CURR")),
    ("mean_1ma", ConsValuePath("Mean", "1MA")),
    ("mean_3ma", ConsValuePath("Mean", "3MA")),
    ("median_curr", ConsValuePath("Median", "CURR")),
    ("stdev_curr", ConsValuePath("StdDev", "CURR")),
    ("numberOfEst_curr", ConsValuePath("NumOfEst", "CURR"))
  ], [])

  /** `fy_itemlevel_attribs` */
  const EstimateAttribs: seq<(string, string)> := [("fYear", "fYear"), ("endMonth", "endMonth"), ("endCalYear", "endCalYear")]

  /** `extra_fixed_columns`: the `type` and `unit` attributes of each FY estimate. */
  const EstimateFixed: seq<(string, string)> := [("type", "type"), ("unit", "unit")]

  /** `ConsEstimates/FYEstimates/FYEstimate` */
  const EstimatesPath: Path := [Child("ConsEstimates"), Child("FYEstimates"), Child("FYEstimate")]

  /** `FYPeriod[@periodType='{periodType}']` */
  function FYPeriodPath(periodType: string): Path {
    [Where("FYPeriod", "periodType", periodType)]
  }

  /** `_process_fiscal_year_estimates_helper(periodType)` */
  function FiscalYearEstimates(tree: Element, periodType: string): (r: Result<Table, Error>)
    ensures r.Ok? ==> Valid(r.value)
  {
    match OuterTables(FindAll(tree, EstimatesPath), FYPeriodPath(periodType), EstimateMapping, EstimateAttribs, EstimateFixed)
    case Err(e) => Err(e)
    case Ok(dfs) => Concat(dfs)
  }

  /** `_process_fiscal_year_estimates_helper`, statement for statement. */
  method FiscalYearEstimatesHelper(tree: Element, periodType: string) returns (r: Result<Table, Error>)
    ensures r == FiscalYearEstimates(tree, periodType)
  {
    var fyestimates := FindAll(tree, EstimatesPath);
    var dfs := ProcessOuter(fyestimates, FYPeriodPath(periodType), EstimateMapping, EstimateAttribs, EstimateFixed);
    if dfs.Err? {
      return Err(dfs.error);
    }
    r := Concat(dfs.value);
  }

  /**
   * The helper raises "no objects to concatenate" exactly when the document has no
   * FY estimate: every other exception it can raise is a KeyError.
   */
  lemma {:induction false} NoEstimatesNoTable(tree: Element, periodType: string)
    ensures FiscalYearEstimates(tree, periodType) == Err(NoObjectsToConcatenate) <==> FindAll(tree, EstimatesPath) == []
  {
    OuterTablesKeyError(FindAll(tree, EstimatesPath), FYPeriodPath(periodType), EstimateMapping, EstimateAttribs, EstimateFixed);
  }

  /**
   * With estimates and no exception, the result is one table per estimate stacked
   * in document order.
   */
  lemma {:induction false} EstimatesConcatenated(tree: Element, periodType: string, ests: seq<Element>, dfs: seq<Table>)
    requires ests == FindAll(tree, EstimatesPath) && ests != []
    requires OuterTables(ests, FYPeriodPath(periodType), EstimateMapping, EstimateAttribs, EstimateFixed) == Ok(dfs)
    ensures |dfs| == |ests|
    ensures forall i :: 0 <= i < |ests| ==>
              Ok(dfs[i]) == OuterTable(ests[i], FYPeriodPath(periodType), EstimateMapping, EstimateAttribs, EstimateFixed)
    ensures FiscalYearEstimates(tree, periodType) == Concat(dfs)
    ensures Concat(dfs).Ok? && Concat(dfs).value.rows == SumRows(dfs)
    ensures forall c :: ColumnOf(Concat(dfs).value, c) == Stacked(dfs, c)
  {
    ConcatShape(dfs);
  }

  /** Every row of an estimate's table carries that estimate's `type` and `unit`. */
  lemma {:induction false} EstimateStamped(f: Element, periodType: string, k: string, t: Table)
    requires k == "type" || k == "unit"
    requires OuterTable(f, FYPeriodPath(periodType), EstimateMapping, EstimateAttribs, EstimateFixed) == Ok(t)
    ensures k in f.attrs && k in t.data && t.data[k] == Repeat(Some(f.attrs[k]), t.rows)
  {
    EstimateNamesApart(k);
    OuterTableStamped(f, FYPeriodPath(periodType), EstimateMapping, EstimateAttribs, EstimateFixed, k);
  }

  /** `type` and `unit` are fixed columns read from the attributes of the same name, and nothing else fills them. */
  lemma {:induction false} EstimateNamesApart(k: string)
    requires k == "type" || k == "unit"
    ensures IsDict(EstimateFixed) && HasKey(EstimateFixed, k) && Lookup(EstimateFixed, k) == k
    ensures !HasKey(EstimateMapping.values, k) && !HasKey(EstimateMapping.attributes, k) && !HasKey(EstimateAttribs, k)
  {
    assert Keys(EstimateFixed) == ["type", "unit"];
    assert k[0] == 't' || k[0] == 'u';
    NotKey(EstimateMapping.values, k);
    NotKey(EstimateAttribs, k);
  }
}
