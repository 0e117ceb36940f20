/**
 * Two entries of the processors' mapping catalog, fed to the flattener:
 * the financial statements `process_issues`, and the snapshot
 * `process_toplevel_info`, whose `attributes` literal names
 * `IndustryInfo_lastUpdated` twice.
 */
module Catalog {
  import opened Wrappers
  import opened Dicts
  import opened ElementTree
  import opened Tables
  import opened Flattener
  import opened FlattenerProperties
  import opened Statements

  // ---------------------------------------------------------------------------
  // Financial statements `process_issues`
  // ---------------------------------------------------------------------------

  /** `IssueID[@Type="{kind}"]` */
  function IssueIdPath(kind: string): Path {
    [Where("IssueID", "Type", kind)]
  }

  function IssuesMapping(): Mapping {
    Mapping(
      [("Issue Name", IssueIdPath("Name")),
       ("Issue Ticker", IssueIdPath("Ticker")),
       ("Issue RIC", IssueIdPath("RIC")),
       ("Issue DisplayRIC", IssueIdPath("DisplayRIC")),
       ("Issue InstrumentPI", IssueIdPath("InstrumentPI")),
       ("Issue QuotePI", IssueIdPath("QuotePI")),
       ("Issue InstrumentPermID", IssueIdPath("InstrumentPermID")),
       ("Issue QuotePermID", IssueIdPath("QuotePermID")),
       ("Issue Exchange", [Child("Exchange")]),
       ("Issue MostRecentSplit", [Child("MostRecentSplit")])],
      [("ExchangeCode", AttrRef([Child("Exchange")], "Code")),
       ("ExchangeCountry", AttrRef([Child("Exchange")], "Country")),
       ("MostRecentSplit Date", AttrRef([Child("MostRecentSplit")], "Date"))])
  }

  /** The issue's own attributes, copied onto every row it produces. */
  function IssuesTop(): seq<(string, string)> {
    [("IssueID", "ID"), ("IssueType", "Type"), ("IssueDesc", "Desc"), ("IssueOrder", "Order")]
  }

  /** `Issues/Issue` */
  function IssuesPath(): Path {
    [Child("Issues"), Child("Issue")]
  }

  function ProcessIssues(tree: Element): Result<Table, Error> {
    Flatten(tree, IssuesPath(), IssuesMapping(), IssuesTop(), [])
  }

  /** Everything `process_issues` reads from one issue is there. */
  predicate IssueComplete(issue: Element) {
    "ID" in issue.attrs && "Type" in issue.attrs && "Desc" in issue.attrs && "Order" in issue.attrs &&
    !Lacking(FindAll(issue, [Child("Exchange")]), "Code") &&
    !Lacking(FindAll(issue, [Child("Exchange")]), "Country") &&
    !Lacking(FindAll(issue, [Child("MostRecentSplit")]), "Date")
  }

  lemma IssueCompleteIff(issue: Element)
    ensures FirstMissing(issue, IssuesMapping(), IssuesTop()) == None <==> IssueComplete(issue)
  {
    var refs := IssuesMapping().attributes;
    var top := IssuesTop();
    MissingInAttributesFirst(issue, refs);
    MissingInTopFirst(issue, top);
    assert (forall i :: 0 <= i < |refs| ==> !EntryLacks(issue, refs[i].1)) <==>
           !EntryLacks(issue, refs[0].1) && !EntryLacks(issue, refs[1].1) && !EntryLacks(issue, refs[2].1);
    assert (forall i :: 0 <= i < |top| ==> top[i].1 in issue.attrs) <==>
           top[0].1 in issue.attrs && top[1].1 in issue.attrs && top[2].1 in issue.attrs && top[3].1 in issue.attrs;
  }

  /**
   * `process_issues` returns a table exactly when every issue has `ID`, `Type`,
   * `Desc` and `Order`, and every `Exchange` and `MostRecentSplit` under it has
   * the attribute read from it; otherwise it raises KeyError.
   */
  lemma {:induction false} IssuesOkIff(tree: Element)
    ensures var issues := FindAll(tree, IssuesPath());
            ProcessIssues(tree).Ok? <==> forall i :: 0 <= i < |issues| ==> IssueComplete(issues[i])
    ensures ProcessIssues(tree).Err? ==> ProcessIssues(tree).error.MissingAttribute?
  {
    var issues := FindAll(tree, IssuesPath());
    assert ProcessIssues(tree).Ok? <==> NoneMissing(issues, IssuesMapping(), IssuesTop()) by {
      FlattenOkIff(tree, IssuesPath(), IssuesMapping(), IssuesTop(), []);
    }
    forall i | 0 <= i < |issues|
      ensures FirstMissing(issues[i], IssuesMapping(), IssuesTop()) == None <==> IssueComplete(issues[i])
    {
      IssueCompleteIff(issues[i]);
    }
    assert ProcessIssues(tree).Err? ==> ProcessIssues(tree).error.MissingAttribute? by {
      FlattenOkIff(tree, IssuesPath(), IssuesMapping(), IssuesTop(), []);
    }
  }

  /** Every `values` column name is `Issue ` followed by more. */
  lemma IssueValueNames()
    ensures forall i :: 0 <= i < |Keys(IssuesMapping().values)| ==>
              |Keys(IssuesMapping().values)[i]| > 5 && Keys(IssuesMapping().values)[i][5] == ' '
  {
  }

  /** Every `attributes` column name starts with `E` or `M`. */
  lemma IssueAttributeNames()
    ensures forall i :: 0 <= i < |Keys(IssuesMapping().attributes)| ==>
              |Keys(IssuesMapping().attributes)[i]| > 0 && Keys(IssuesMapping().attributes)[i][0] in "EM"
  {
  }

  /** The four identity columns come from the issue's own attributes, so none of their cells is null. */
  lemma IssueIdentityNeverNull(tree: Element, k: string)
    requires k == "IssueID" || k == "IssueType" || k == "IssueDesc" || k == "IssueOrder"
    requires ProcessIssues(tree).Ok?
    ensures k in ProcessIssues(tree).value.data
    ensures AllSome(ProcessIssues(tree).value.data[k])
  {
    var m := IssuesMapping();
    var top := IssuesTop();
    assert HasKey(top, k) by {
      assert Keys(top)[0] == "IssueID" && Keys(top)[1] == "IssueType";
      assert Keys(top)[2] == "IssueDesc" && Keys(top)[3] == "IssueOrder";
    }
    assert |k| > 5 && k[5] != ' ' && k[0] !in "EM";
    assert !HasKey(m.values, k) by {
      IssueValueNames();
    }
    assert !HasKey(m.attributes, k) by {
      IssueAttributeNames();
    }
    TopAndFixedNeverNull(tree, IssuesPath(), m, top, [], k);
  }

  // ---------------------------------------------------------------------------
  // Snapshot `process_toplevel_info`
  // ---------------------------------------------------------------------------

  /** `CoIDs/CoID[@Type="{kind}"]` */
  function CoIdPath(kind: string): Path {
    [Child("CoIDs"), Where("CoID", "Type", kind)]
  }

  /** `peerInfo/IndustryInfo/Industry[@type="{scheme}"][@order="{order}"]` */
  function IndustryPath(scheme: string, order: string): Path {
    [Child("peerInfo"), Child("IndustryInfo"), Step("Industry", [("type", scheme), ("order", order)])]
  }

  /** `webLinks/webSite[@mainCategory="{category}"]` */
  function WebSitePath(category: string): Path {
    [Child("webLinks"), Where("webSite", "mainCategory", category)]
  }

  /** The `values` literal, pair by pair. */
  function SnapshotToplevelValues(): seq<(string, Path)> {
    [("RepNo", CoIdPath("RepNo")),
     ("CompanyName", CoIdPath("CompanyName")),
     ("IRSNo", CoIdPath("IRSNo")),
     ("CIKNo", CoIdPath("CIKNo")),
     ("OrganizationPermID", CoIdPath("OrganizationPermID")),
     ("LatestAvailableAnnual", [Child("CoGeneralInfo"), Child("LatestAvailableAnnual")]),
     ("LatestAvailableInterim", [Child("CoGeneralInfo"), Child("LatestAvailableInterim")]),
     ("ReportingCurrency", [Child("CoGeneralInfo"), Child("ReportingCurrency")]),
     ("SharesOutstanding", [Child("CoGeneralInfo"), Child("SharesOut")]),
     ("Business Summary", [Child("TextInfo"), Where("Text", "Type", "Business Summary")]),
     ("Financial Summary", [Child("TextInfo"), Where("Text", "Type", "Financial Summary")]),
     ("IndustryInfo_TRBC", IndustryPath("TRBC", "1")),
     ("IndustryInfo_NAICS_1", IndustryPath("NAICS", "1")),
     ("IndustryInfo_NAICS_2", IndustryPath("NAICS", "2")),
     ("IndustryInfo_NAICS_3", IndustryPath("NAICS", "3")),
     ("IndustryInfo_NAICS_4", IndustryPath("NAICS", "4")),
     ("IndustryInfo_NAICS_5", IndustryPath("NAICS", "5")),
     ("IndustryInfo_SIC_1", IndustryPath("SIC", "1")),
     ("IndustryInfo_SIC_2", IndustryPath("SIC", "2")),
     ("IndustryInfo_SIC_3", IndustryPath("SIC", "3")),
     ("IndustryInfo_SIC_4", IndustryPath("SIC", "4")),
     ("IndustryInfo_SIC_5", IndustryPath("SIC", "5")),
     ("website", WebSitePath("Home Page")),
     ("email", WebSitePath("Company Contact/E-mail"))]
  }

  /** The `peerInfo` `lastUpdated` entry, which the literal lists twice in a row. */
  function LastUpdatedEntry(): (string, AttrRef) {
    ("IndustryInfo_lastUpdated", AttrRef([Child("peerInfo")], "lastUpdated"))
  }

  function AttributesBefore(): seq<(string, AttrRef)> {
    [("CashFlowMethodCode", AttrRef([Child("StatementInfo"), Child("CashFlowMethod")], "Code")),
     ("BlanceSheetDisplayCode", AttrRef([Child("StatementInfo"), Child("BalanceSheetDisplay")], "Code")),
     ("COATypeCode", AttrRef([Child("StatementInfo"), Child("COAType")], "Code"))]
  }

  function AttributesAfter(): seq<(string, AttrRef)> {
    [("IndustryInfo_TRBC_Code", AttrRef(IndustryPath("TRBC", "1"), "code")),
     ("IndustryInfo_NAICS_1_Code", AttrRef(IndustryPath("NAICS", "1"), "code")),
     ("IndustryInfo_NAICS_2_Code", AttrRef(IndustryPath("NAICS", "2"), "code")),
     ("IndustryInfo_NAICS_3_Code", AttrRef(IndustryPath("NAICS", "3"), "code")),
     ("IndustryInfo_NAICS_4_Code", AttrRef(IndustryPath("NAICS", "4"), "code")),
     ("IndustryInfo_NAICS_5_Code", AttrRef(IndustryPath("NAICS", "5"), "code")),
     ("IndustryInfo_SIC_1Code", AttrRef(IndustryPath("SIC", "1"), "code")),
     ("IndustryInfo_SIC_2Code", AttrRef(IndustryPath("SIC", "2"), "code")),
     ("IndustryInfo_SIC_3Code", AttrRef(IndustryPath("SIC", "3"), "code")),
     ("IndustryInfo_SIC_4Code", AttrRef(IndustryPath("SIC", "4"), "code")),
     ("IndustryInfo_SIC_5Code", AttrRef(IndustryPath("SIC", "5"), "code"))]
  }

  /** The `attributes` literal as written, with its repeated entry. */
  function SnapshotToplevelAttributes(): seq<(string, AttrRef)> {
    AttributesBefore() + [LastUpdatedEntry(), LastUpdatedEntry()] + AttributesAfter()
  }

  function SnapshotToplevelMapping(): Mapping {
    Mapping(FromPairs(SnapshotToplevelValues()), FromPairs(SnapshotToplevelAttributes()))
  }

  /** The whole document is the collection: `.` */
  function ProcessSnapshotToplevel(tree: Element): Result<Table, Error> {
    Flatten(tree, [], SnapshotToplevelMapping(), [], [])
  }

  /**
   * The repeated `IndustryInfo_lastUpdated` entry collapses into one: the dict, and
   * so the table, is the one the literal without the repetition gives.
   */
  lemma RepeatedLastUpdatedCollapses(tree: Element)
    ensures var once := AttributesBefore() + [LastUpdatedEntry()] + AttributesAfter();
            FromPairs(SnapshotToplevelAttributes()) == FromPairs(once) &&
            ProcessSnapshotToplevel(tree) ==
              Flatten(tree, [], Mapping(FromPairs(SnapshotToplevelValues()), FromPairs(once)), [], [])
  {
    RepeatedEntry(AttributesBefore(), LastUpdatedEntry(), AttributesAfter());
  }

  /** No later entry is named `IndustryInfo_lastUpdated`: their names all have another length. */
  lemma NotRenamedLater()
    ensures !HasKey(AttributesAfter(), LastUpdatedEntry().0)
  {
    assert forall i :: 0 <= i < |AttributesAfter()| ==> |Keys(AttributesAfter())[i]| != |LastUpdatedEntry().0|;
  }

  /** `IndustryInfo_lastUpdated` reads the `lastUpdated` attribute of `peerInfo`. */
  lemma LastUpdatedSource()
    ensures var attrs := FromPairs(SnapshotToplevelAttributes());
            HasKey(attrs, "IndustryInfo_lastUpdated") &&
            Lookup(attrs, "IndustryInfo_lastUpdated") == AttrRef([Child("peerInfo")], "lastUpdated")
  {
    var p := LastUpdatedEntry();
    var once := AttributesBefore() + [p] + AttributesAfter();
    assert FromPairs(SnapshotToplevelAttributes()) == FromPairs(once) by {
      RepeatedEntry(AttributesBefore(), p, AttributesAfter());
    }
    NotRenamedLater();
    LastValueBefore(AttributesBefore(), p, AttributesAfter());
    FromPairsSemantics(once);
  }

  /** The names of the `values` literal, in order. */
  function SnapshotValueNames(): seq<string> {
    ["RepNo", "CompanyName", "IRSNo", "CIKNo", "OrganizationPermID",
     "LatestAvailableAnnual", "LatestAvailableInterim", "ReportingCurrency", "SharesOutstanding",
     "Business Summary", "Financial Summary",
     "IndustryInfo_TRBC", "IndustryInfo_NAICS_1", "IndustryInfo_NAICS_2", "IndustryInfo_NAICS_3",
     "IndustryInfo_NAICS_4", "IndustryInfo_NAICS_5", "IndustryInfo_SIC_1", "IndustryInfo_SIC_2",
     "IndustryInfo_SIC_3", "IndustryInfo_SIC_4", "IndustryInfo_SIC_5", "website", "email"]
  }

  /** The names of the `attributes` literal, in order, `IndustryInfo_lastUpdated` once. */
  function SnapshotAttributeNames(): seq<string> {
    ["CashFlowMethodCode", "BlanceSheetDisplayCode", "COATypeCode", "IndustryInfo_lastUpdated",
     "IndustryInfo_TRBC_Code", "IndustryInfo_NAICS_1_Code", "IndustryInfo_NAICS_2_Code",
     "IndustryInfo_NAICS_3_Code", "IndustryInfo_NAICS_4_Code", "IndustryInfo_NAICS_5_Code",
     "IndustryInfo_SIC_1Code", "IndustryInfo_SIC_2Code", "IndustryInfo_SIC_3Code",
     "IndustryInfo_SIC_4Code", "IndustryInfo_SIC_5Code"]
  }

  /**
   * The columns `process_toplevel_info` declares: the 24 value names in order, then
   * the 15 attribute names, `IndustryInfo_lastUpdated` once.
   */
  lemma SnapshotToplevelColumns()
    ensures DeclaredColumns(SnapshotToplevelMapping(), [], []) == SnapshotValueNames() + SnapshotAttributeNames()
  {
    var vs := SnapshotToplevelValues();
    var once := AttributesBefore() + [LastUpdatedEntry()] + AttributesAfter();
    var values, attributes := SnapshotValueNames(), SnapshotAttributeNames();
    assert Keys(FromPairs(vs)) == values by {
      ValueKeys();
      FromPairsSemantics(vs);
      ValueNamesDistinct();
      DedupDistinct(values);
    }
    assert Keys(FromPairs(SnapshotToplevelAttributes())) == attributes by {
      RepeatedEntry(AttributesBefore(), LastUpdatedEntry(), AttributesAfter());
      AttributeKeys();
      FromPairsSemantics(once);
      AttributeNamesDistinct();
      DedupDistinct(attributes);
    }
    assert Distinct(values + attributes) by {
      ValueNamesDistinct();
      AttributeNamesDistinct();
      NamesApart();
      DistinctConcat(values, attributes);
    }
    DedupDistinct(values + attributes);
    assert values + attributes + Keys<string>([]) + Keys<string>([]) == values + attributes;
  }

  /** The `values` literal names exactly `SnapshotValueNames()`. */
  lemma ValueKeys()
    ensures Keys(SnapshotToplevelValues()) == SnapshotValueNames()
  {
  }

  /** The `attributes` literal, its repetition dropped, names exactly `SnapshotAttributeNames()`. */
  lemma AttributeKeys()
    ensures Keys(AttributesBefore() + [LastUpdatedEntry()] + AttributesAfter()) == SnapshotAttributeNames()
  {
  }

  /** No value name is written twice: the identifier and summary names, then the industry names. */
  lemma ValueNamesDistinct()
    ensures Distinct(SnapshotValueNames())
  {
    var names := SnapshotValueNames();
    CoreValueNamesDistinct();
    IndustryValueNamesDistinct();
    ValueGroupsApart();
    DistinctConcat(names[..11], names[11..]);
    assert names[..11] + names[11..] == names;
  }

  lemma CoreValueNamesDistinct()
    ensures Distinct(SnapshotValueNames()[..11])
  {
  }

  lemma IndustryValueNamesDistinct()
    ensures Distinct(SnapshotValueNames()[11..])
  {
  }

  lemma ValueGroupsApart()
    ensures Apart(SnapshotValueNames()[..11], SnapshotValueNames()[11..])
  {
  }

  /** No attribute name is left twice once the repetition is dropped. */
  lemma AttributeNamesDistinct()
    ensures Distinct(SnapshotAttributeNames())
  {
  }

  /** No name is both a value and an attribute name. */
  lemma NamesApart()
    ensures Apart(SnapshotValueNames(), SnapshotAttributeNames())
  {
  }

  /** With `.` as the collection path, the table has max(widest contribution, 1) rows. */
  lemma {:induction false} WholeDocumentRows(tree: Element, m: Mapping)
    requires Flatten(tree, [], m, [], []).Ok? && DeclaredColumns(m, [], []) != []
    ensures Flatten(tree, [], m, [], []).value.rows == Max(Widest(tree, m, DeclaredColumns(m, [], [])), 1)
  {
    var cols := DeclaredColumns(m, [], []);
    FindAllSelf(tree);
    FlattenShape(tree, [], m, [], []);
    var ws := Widths([tree], m, cols);
    assert ws[..0] == [];
  }

  /** The snapshot's top-level table: the document is its one element. */
  lemma SnapshotToplevelRows(tree: Element)
    requires ProcessSnapshotToplevel(tree).Ok?
    ensures var m := SnapshotToplevelMapping();
            ProcessSnapshotToplevel(tree).value.rows == Max(Widest(tree, m, DeclaredColumns(m, [], [])), 1)
  {
    assert DeclaredColumns(SnapshotToplevelMapping(), [], []) != [] by {
      SnapshotToplevelColumns();
    }
    WholeDocumentRows(tree, SnapshotToplevelMapping());
  }
}
