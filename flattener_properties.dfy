/**
 * What `_xml_processor` guarantees about the table it builds: which columns it has
 * and in which order, how many rows, which cells each element contributes, what
 * the padding puts in each kind of column, and when it raises KeyError.
 */
module FlattenerProperties {
  import opened Wrappers
  import opened Dicts
  import opened ElementTree
  import opened Tables
  import opened Flattener

  function Max(a: int, b: int): int {
    if a > b then a else b
  }

  /** The cells element `el` appends to column `k` before any padding. */
  function Width(el: Element, m: Mapping, k: string): nat {
    |ValueCells(el, m.values, k)| + |AttributeCells(el, m.attributes, k)|
  }

  /** The most cells `el` appends to any one column of `cols`. */
  function Widest(el: Element, m: Mapping, cols: seq<string>): nat {
    if cols == [] then 0
    else
      var rest := Widest(el, m, cols[1..]);
      if Width(el, m, cols[0]) > rest then Width(el, m, cols[0]) else rest
  }

  /** `Widest` is the largest contribution to a column of `cols`. */
  lemma {:induction false} WidestIsMax(el: Element, m: Mapping, cols: seq<string>)
    ensures forall k :: k in cols ==> Width(el, m, k) <= Widest(el, m, cols)
    ensures cols == [] || exists k :: k in cols && Width(el, m, k) == Widest(el, m, cols)
  {
    if cols != [] {
      WidestIsMax(el, m, cols[1..]);
      if Widest(el, m, cols[1..]) >= Width(el, m, cols[0]) && |cols| > 1 {
        var k :| k in cols[1..] && Width(el, m, k) == Widest(el, m, cols[1..]);
        assert k in cols;
      }
    }
  }

  /** The widest contribution of every element of `els`, in order. */
  function Widths(els: seq<Element>, m: Mapping, cols: seq<string>): (ws: seq<nat>)
    ensures |ws| == |els|
  {
    if els == [] then [] else [Widest(els[0], m, cols)] + Widths(els[1..], m, cols)
  }

  /**
   * The number of rows after elements whose widest contributions are `ws`: the
   * element with ordinal n leaves every column at max(rows before + its widest
   * contribution, n).
   */
  function RowCount(ws: seq<nat>): nat {
    if ws == [] then 0 else Max(RowCount(ws[..|ws| - 1]) + ws[|ws| - 1], |ws|)
  }

  function Sum(ws: seq<nat>): nat {
    if ws == [] then 0 else Sum(ws[..|ws| - 1]) + ws[|ws| - 1]
  }

  /** Each element adds at least one row and at most one row more than it has cells to add. */
  lemma {:induction false} RowCountBounds(ws: seq<nat>)
    ensures |ws| <= RowCount(ws)
    ensures Sum(ws) <= RowCount(ws) <= Sum(ws) + |ws|
  {
    if ws != [] {
      RowCountBounds(ws[..|ws| - 1]);
    }
  }

  /** When no element has more than one cell for any column, there is exactly one row per element. */
  lemma {:induction false} RowCountAtMostOne(ws: seq<nat>)
    requires forall i :: 0 <= i < |ws| ==> ws[i] <= 1
    ensures RowCount(ws) == |ws|
  {
    if ws != [] {
      RowCountAtMostOne(ws[..|ws| - 1]);
    }
  }

  /**
   * Contributions of 2, 1 and 0 cells give three rows, not four: the second element
   * is padded to max(2 + 1, 2) = 3 rows and the third to max(3 + 0, 3) = 3.
   */
  lemma {:induction false} RowCountExample()
    ensures RowCount([2, 1, 0]) == 3
  {
    assert [2, 1, 0][..2] == [2, 1] && [2, 1][..1] == [2] && [2][..0] == [];
  }

  /** Growing columns of equal length `n`, the longest is the widest contribution on top of `n`, or `rowno`. */
  lemma {:induction false} LongestGrown(cd: ColumnData, el: Element, m: Mapping, cols: seq<string>, rowno: nat, n: nat)
    requires forall k :: k in cols ==> k in cd && |cd[k]| == n
    ensures forall k :: k in cols ==> k in GrownAll(cd, el, m)
    ensures Longest(GrownAll(cd, el, m), cols, rowno) == if cols == [] then rowno else Max(n + Widest(el, m, cols), rowno)
  {
    if cols != [] {
      var g := GrownAll(cd, el, m);
      var w := Width(el, m, cols[0]);
      assert |g[cols[0]]| == n + w;
      var rest := Longest(g, cols[1..], rowno);
      assert Longest(g, cols, rowno) == if n + w > rest then n + w else rest;
      if |cols| > 1 {
        LongestGrown(cd, el, m, cols[1..], rowno, n);
        assert rest == Max(n + Widest(el, m, cols[1..]), rowno);
      }
    }
  }

  /** Every column of `cols` has `n` cells. */
  ghost predicate Uniform(cd: ColumnData, cols: seq<string>, n: nat)
    decreases |cols|
  {
    cols == [] || (cols[0] in cd && |cd[cols[0]]| == n && Uniform(cd, cols[1..], n))
  }

  lemma {:induction false} UniformIff(cd: ColumnData, cols: seq<string>, n: nat)
    ensures Uniform(cd, cols, n) <==> forall k :: k in cols ==> k in cd && |cd[k]| == n
    decreases |cols|
  {
    if cols != [] {
      UniformIff(cd, cols[1..], n);
      assert forall k :: k in cols <==> k == cols[0] || k in cols[1..];
    }
  }

  /** A step that succeeds passed the KeyError checks and padded the grown columns up to the longest. */
  lemma {:induction false} ElementStepOk(cd: ColumnData, el: Element, rowno: nat, m: Mapping,
                      top: seq<(string, string)>, fixed: seq<(string, string)>, cols: seq<string>)
    requires Shaped(cd, cols)
    requires ElementStep(cd, el, rowno, m, top, fixed, cols).Ok?
    ensures FirstMissing(el, m, top) == None
    ensures Shaped(GrownAll(cd, el, m), cols)
    ensures ElementStep(cd, el, rowno, m, top, fixed, cols).value ==
      PadAll(GrownAll(cd, el, m), el, top, fixed, Longest(GrownAll(cd, el, m), cols, rowno))
  {
  }

  /** Column `k` after a step that succeeds: its grown cells, then copies of its fill value up to the longest. */
  lemma {:induction false} ElementStepAt(cd: ColumnData, el: Element, rowno: nat, m: Mapping,
                                         top: seq<(string, string)>, fixed: seq<(string, string)>, cols: seq<string>,
                                         cd': ColumnData, k: string)
    requires Shaped(cd, cols) && k in cols
    requires ElementStep(cd, el, rowno, m, top, fixed, cols) == Ok(cd')
    ensures FirstMissing(el, m, top) == None
    ensures k in cd' && |Grown(cd, el, m, k)| <= Longest(GrownAll(cd, el, m), cols, rowno)
    ensures cd'[k] == Grown(cd, el, m, k) +
      Repeat(Fill(el, top, fixed, k), Longest(GrownAll(cd, el, m), cols, rowno) - |Grown(cd, el, m, k)|)
  {
    var g := GrownAll(cd, el, m);
    assert k in g && g[k] == Grown(cd, el, m, k);
  }

  /** Padding makes every column exactly `t` cells long. */
  lemma {:induction false} PadAllLength(g: ColumnData, el: Element, top: seq<(string, string)>, fixed: seq<(string, string)>, t: nat)
    requires forall k :: k in g ==> |g[k]| <= t
    ensures forall k :: k in g ==> k in PadAll(g, el, top, fixed, t) && |PadAll(g, el, top, fixed, t)[k]| == t
  {
  }

  /** After one element, every column has max(rows before + widest contribution, rowno) cells. */
  lemma {:induction false} ElementStepRows(cd: ColumnData, el: Element, rowno: nat, m: Mapping,
                        top: seq<(string, string)>, fixed: seq<(string, string)>, cols: seq<string>, n: nat, cd': ColumnData)
    requires Shaped(cd, cols) && cols != []
    requires Uniform(cd, cols, n)
    requires ElementStep(cd, el, rowno, m, top, fixed, cols) == Ok(cd')
    ensures Uniform(cd', cols, Max(n + Widest(el, m, cols), rowno))
  {
    ElementStepOk(cd, el, rowno, m, top, fixed, cols);
    PadGrownRows(cd, el, rowno, m, top, fixed, cols, n);
  }

  /** Padding the grown columns gives each max(rows before + widest contribution, rowno) cells. */
  lemma {:induction false} PadGrownRows(cd: ColumnData, el: Element, rowno: nat, m: Mapping,
                                        top: seq<(string, string)>, fixed: seq<(string, string)>, cols: seq<string>, n: nat)
    requires Shaped(cd, cols) && cols != []
    requires Uniform(cd, cols, n)
    ensures var g := GrownAll(cd, el, m);
            Uniform(PadAll(g, el, top, fixed, Longest(g, cols, rowno)), cols, Max(n + Widest(el, m, cols), rowno))
  {
    UniformIff(cd, cols, n);
    LongestGrown(cd, el, m, cols, rowno, n);
    var g := GrownAll(cd, el, m);
    var t := Longest(g, cols, rowno);
    assert t == Max(n + Widest(el, m, cols), rowno);
    assert forall k :: k in g ==> k in cols && |g[k]| <= t;
    PadAllLength(g, el, top, fixed, t);
    UniformIff(PadAll(g, el, top, fixed, t), cols, t);
  }

  /** The cells per column after the loop over `els` entered with `n` cells per column. */
  function RowsAfter(n: nat, els: seq<Element>, rowno: nat, m: Mapping, cols: seq<string>): nat
    decreases |els|
  {
    if els == [] then n else RowsAfter(Max(n + Widest(els[0], m, cols), rowno), els[1..], rowno + 1, m, cols)
  }

  /** The loop keeps every column at the same length, `RowsAfter` cells at its end. */
  lemma {:induction false} RunRows(cd: ColumnData, els: seq<Element>, rowno: nat, n: nat, m: Mapping,
                                   top: seq<(string, string)>, fixed: seq<(string, string)>, cols: seq<string>)
    requires Shaped(cd, cols) && cols != []
    requires Uniform(cd, cols, n)
    requires Run(cd, els, rowno, m, top, fixed, cols).Ok?
    ensures Uniform(Run(cd, els, rowno, m, top, fixed, cols).value, cols, RowsAfter(n, els, rowno, m, cols))
    decreases |els|
  {
    if els != [] {
      var n' := RowsAfterCons(n, els, rowno, m, cols);
      var cd' := RunRowsStep(cd, els, rowno, n, n', m, top, fixed, cols);
      RunRows(cd', els[1..], rowno + 1, n', m, top, fixed, cols);
    }
  }

  /** One iteration of the loop in `RunRows`: the next element's step leaves every column equally long. */
  lemma {:induction false} RunRowsStep(cd: ColumnData, els: seq<Element>, rowno: nat, n: nat, n': nat, m: Mapping,
                                       top: seq<(string, string)>, fixed: seq<(string, string)>, cols: seq<string>)
    returns (cd': ColumnData)
    requires Shaped(cd, cols) && cols != [] && els != []
    requires Uniform(cd, cols, n) && n' == Max(n + Widest(els[0], m, cols), rowno)
    requires Run(cd, els, rowno, m, top, fixed, cols).Ok?
    ensures Shaped(cd', cols) && Uniform(cd', cols, n')
    ensures Run(cd', els[1..], rowno + 1, m, top, fixed, cols) == Run(cd, els, rowno, m, top, fixed, cols)
  {
    cd' := RunCons(cd, els, rowno, m, top, fixed, cols);
    ElementStepRows(cd, els[0], rowno, m, top, fixed, cols, n, cd');
  }

  /** One element of `RowsAfter`: it moves from `n` to `n'` cells. */
  lemma {:induction false} RowsAfterCons(n: nat, els: seq<Element>, rowno: nat, m: Mapping, cols: seq<string>) returns (n': nat)
    requires els != []
    ensures n' == Max(n + Widest(els[0], m, cols), rowno)
    ensures RowsAfter(n, els, rowno, m, cols) == RowsAfter(n', els[1..], rowno + 1, m, cols)
  {
    n' := Max(n + Widest(els[0], m, cols), rowno);
  }

  /** A loop that succeeds succeeded on its first element and then on the rest. */
  lemma {:induction false} RunCons(cd: ColumnData, els: seq<Element>, rowno: nat, m: Mapping,
                top: seq<(string, string)>, fixed: seq<(string, string)>, cols: seq<string>) returns (cd': ColumnData)
    requires Shaped(cd, cols) && els != []
    requires Run(cd, els, rowno, m, top, fixed, cols).Ok?
    ensures ElementStep(cd, els[0], rowno, m, top, fixed, cols) == Ok(cd')
    ensures Shaped(cd', cols)
    ensures Run(cd', els[1..], rowno + 1, m, top, fixed, cols) == Run(cd, els, rowno, m, top, fixed, cols)
  {
    ElementStepShaped(cd, els[0], rowno, m, top, fixed, cols);
    cd' := ElementStep(cd, els[0], rowno, m, top, fixed, cols).value;
  }

  /** `RowsAfter` from the rows after the widths `prior` is `RowCount` of all the widths. */
  lemma {:induction false} RowsAfterCount(prior: seq<nat>, els: seq<Element>, m: Mapping, cols: seq<string>)
    ensures RowsAfter(RowCount(prior), els, |prior| + 1, m, cols) == RowCount(prior + Widths(els, m, cols))
    decreases |els|
  {
    if els == [] {
      assert prior + Widths(els, m, cols) == prior;
    } else {
      var w := Widest(els[0], m, cols);
      var n' := RowsAfterCons(RowCount(prior), els, |prior| + 1, m, cols);
      RowCountSnoc(prior, w);
      WidthsCons(prior, els, m, cols);
      RowsAfterCount(prior + [w], els[1..], m, cols);
      assert |prior + [w]| + 1 == |prior| + 2;
    }
  }

  lemma {:induction false} RowCountSnoc(prior: seq<nat>, w: nat)
    ensures RowCount(prior + [w]) == Max(RowCount(prior) + w, |prior| + 1)
  {
    assert (prior + [w])[..|prior|] == prior;
  }

  lemma {:induction false} WidthsCons(prior: seq<nat>, els: seq<Element>, m: Mapping, cols: seq<string>)
    requires els != []
    ensures prior + Widths(els, m, cols) == (prior + [Widest(els[0], m, cols)]) + Widths(els[1..], m, cols)
  {
  }

  /**
   * The table is well formed: its columns are the declared ones, distinct, each
   * with one cell per row, and it has `RowCount` rows for the widths of the
   * collection's elements (none when no column is declared).
   */
  lemma {:induction false} FlattenShape(tree: Element, rootPath: Path, m: Mapping, top: seq<(string, string)>, fixed: seq<(string, string)>)
    requires Flatten(tree, rootPath, m, top, fixed).Ok?
    ensures var t := Flatten(tree, rootPath, m, top, fixed).value;
            var cols := DeclaredColumns(m, top, fixed);
            Valid(t) && t.columns == cols &&
            t.rows == if cols == [] then 0 else RowCount(Widths(FindAll(tree, rootPath), m, cols))
  {
    var cols := DeclaredColumns(m, top, fixed);
    var els := FindAll(tree, rootPath);
    var cd := Run(EmptyColumns(cols), els, 1, m, top, fixed, cols).value;
    var t := Flatten(tree, rootPath, m, top, fixed).value;
    RunShaped(EmptyColumns(cols), els, 1, m, top, fixed, cols);
    assert t.columns == cols && t.data == cd;
    if cols != [] {
      UniformIff(EmptyColumns(cols), cols, 0);
      RunRows(EmptyColumns(cols), els, 1, 0, m, top, fixed, cols);
      RowsAfterCount([], els, m, cols);
      assert [] + Widths(els, m, cols) == Widths(els, m, cols);
      UniformIff(cd, cols, RowCount(Widths(els, m, cols)));
      assert cols[0] in cols;
    }
    assert Shaped(cd, cols);
  }

  /**
   * The columns are the keys of `values`, `attributes`, the top-level attributes and
   * the fixed columns, each once, in the order of its first occurrence there.
   */
  lemma {:induction false} ColumnOrder(m: Mapping, top: seq<(string, string)>, fixed: seq<(string, string)>)
    ensures var cols := DeclaredColumns(m, top, fixed);
            Distinct(cols) &&
            (forall c :: c in cols <==> HasKey(m.values, c) || HasKey(m.attributes, c) || HasKey(top, c) || HasKey(fixed, c)) &&
            forall i, j :: 0 <= i < j < |cols| ==>
              var names := Keys(m.values) + Keys(m.attributes) + Keys(top) + Keys(fixed);
              FirstIndex(names, cols[i]) < FirstIndex(names, cols[j])
  {
    var names := Keys(m.values) + Keys(m.attributes) + Keys(top) + Keys(fixed);
    forall i, j | 0 <= i < j < |Dedup(names)|
      ensures FirstIndex(names, Dedup(names)[i]) < FirstIndex(names, Dedup(names)[j])
    {
      DedupOrder(names, i, j);
    }
  }

  /** An empty collection gives every declared column and no rows. */
  lemma {:induction false} EmptyCollection(tree: Element, rootPath: Path, m: Mapping, top: seq<(string, string)>, fixed: seq<(string, string)>)
    requires FindAll(tree, rootPath) == []
    ensures Flatten(tree, rootPath, m, top, fixed).Ok?
    ensures var t := Flatten(tree, rootPath, m, top, fixed).value;
            t.columns == DeclaredColumns(m, top, fixed) && t.rows == 0 &&
            forall c :: c in t.columns ==> c in t.data && t.data[c] == []
  {
  }

  /** Every element of `els` gets past the KeyError checks. */
  predicate NoneMissing(els: seq<Element>, m: Mapping, top: seq<(string, string)>) {
    forall i :: 0 <= i < |els| ==> FirstMissing(els[i], m, top) == None
  }

  /** The loop succeeds exactly when no element raises, and otherwise raises the first element's KeyError. */
  lemma {:induction false} RunOkIff(cd: ColumnData, els: seq<Element>, rowno: nat, m: Mapping,
                                    top: seq<(string, string)>, fixed: seq<(string, string)>, cols: seq<string>)
    requires Shaped(cd, cols)
    ensures Run(cd, els, rowno, m, top, fixed, cols).Ok? <==> NoneMissing(els, m, top)
    ensures Run(cd, els, rowno, m, top, fixed, cols).Err? ==>
      exists i :: 0 <= i < |els| && NoneMissing(els[..i], m, top) && FirstMissing(els[i], m, top).Some? &&
        Run(cd, els, rowno, m, top, fixed, cols).error == MissingAttribute(FirstMissing(els[i], m, top).value)
    decreases |els|
  {
    if els != [] {
      var cd' := RunUnfold(cd, els, rowno, m, top, fixed, cols);
      NoneMissingCons(els, m, top);
      if FirstMissing(els[0], m, top).Some? {
        assert NoneMissing(els[..0], m, top);
      } else {
        RunOkIff(cd', els[1..], rowno + 1, m, top, fixed, cols);
        if Run(cd, els, rowno, m, top, fixed, cols).Err? {
          var i :| 0 <= i < |els| - 1 && NoneMissing(els[1..][..i], m, top) && FirstMissing(els[1..][i], m, top).Some? &&
            Run(cd, els, rowno, m, top, fixed, cols).error == MissingAttribute(FirstMissing(els[1..][i], m, top).value);
          NoneMissingPrefixCons(els, i, m, top);
        }
      }
    }
  }

  /** The loop over a non-empty `els` raises the first element's KeyError or goes on from its step. */
  lemma {:induction false} RunUnfold(cd: ColumnData, els: seq<Element>, rowno: nat, m: Mapping,
                  top: seq<(string, string)>, fixed: seq<(string, string)>, cols: seq<string>) returns (cd': ColumnData)
    requires Shaped(cd, cols) && els != []
    ensures FirstMissing(els[0], m, top).Some? ==>
      Run(cd, els, rowno, m, top, fixed, cols) == Err(MissingAttribute(FirstMissing(els[0], m, top).value))
    ensures FirstMissing(els[0], m, top) == None ==>
      Shaped(cd', cols) && Run(cd, els, rowno, m, top, fixed, cols) == Run(cd', els[1..], rowno + 1, m, top, fixed, cols)
  {
    ElementStepShaped(cd, els[0], rowno, m, top, fixed, cols);
    var step := ElementStep(cd, els[0], rowno, m, top, fixed, cols);
    cd' := if step.Ok? then step.value else cd;
  }

  lemma {:induction false} NoneMissingCons(els: seq<Element>, m: Mapping, top: seq<(string, string)>)
    requires els != []
    ensures NoneMissing(els, m, top) <==> FirstMissing(els[0], m, top) == None && NoneMissing(els[1..], m, top)
  {
    if FirstMissing(els[0], m, top) == None && NoneMissing(els[1..], m, top) {
      forall i | 0 < i < |els| ensures FirstMissing(els[i], m, top) == None {
        assert els[i] == els[1..][i - 1];
      }
    }
  }

  lemma {:induction false} NoneMissingPrefixCons(els: seq<Element>, i: nat, m: Mapping, top: seq<(string, string)>)
    requires i < |els| - 1 && FirstMissing(els[0], m, top) == None && NoneMissing(els[1..][..i], m, top)
    ensures NoneMissing(els[..i + 1], m, top) && els[1..][i] == els[i + 1]
  {
    forall j | 0 < j < i + 1 ensures FirstMissing(els[j], m, top) == None {
      assert els[j] == els[1..][..i][j - 1];
    }
  }

  /**
   * `_xml_processor` returns a table exactly when no element of the collection
   * lacks an attribute it reads, and otherwise raises the KeyError of the first
   * element, in document order, that does.
   */
  lemma {:induction false} FlattenOkIff(tree: Element, rootPath: Path, m: Mapping, top: seq<(string, string)>, fixed: seq<(string, string)>)
    ensures var els := FindAll(tree, rootPath);
            Flatten(tree, rootPath, m, top, fixed).Ok? <==> NoneMissing(els, m, top)
    ensures var els := FindAll(tree, rootPath);
            Flatten(tree, rootPath, m, top, fixed).Err? ==>
              exists i :: 0 <= i < |els| && NoneMissing(els[..i], m, top) && FirstMissing(els[i], m, top).Some? &&
                Flatten(tree, rootPath, m, top, fixed).error == MissingAttribute(FirstMissing(els[i], m, top).value)
  {
    var cols := DeclaredColumns(m, top, fixed);
    RunOkIff(EmptyColumns(cols), FindAll(tree, rootPath), 1, m, top, fixed, cols);
  }

  /** The top-level check raises for the first top-level attribute the element lacks, and only then. */
  lemma {:induction false} MissingInTopFirst(el: Element, top: seq<(string, string)>)
    ensures MissingInTop(el, top) == None <==> forall i :: 0 <= i < |top| ==> top[i].1 in el.attrs
    ensures MissingInTop(el, top).Some? ==>
      exists i :: 0 <= i < |top| && top[i].1 == MissingInTop(el, top).value && top[i].1 !in el.attrs &&
        forall j :: 0 <= j < i ==> top[j].1 in el.attrs
  {
    if top != [] {
      MissingInTopFirst(el, top[1..]);
      if top[0].1 in el.attrs {
        assert forall i :: 1 <= i < |top| ==> top[i] == top[1..][i - 1];
        if MissingInTop(el, top).Some? {
          var i :| 0 <= i < |top| - 1 && top[1..][i].1 == MissingInTop(el, top).value && top[1..][i].1 !in el.attrs &&
            forall j :: 0 <= j < i ==> top[1..][j].1 in el.attrs;
          assert top[i + 1] == top[1..][i];
        }
      }
    }
  }

  /** The attributes check raises for the first entry that finds an element without its attribute, and only then. */
  lemma {:induction false} MissingInAttributesFirst(el: Element, refs: seq<(string, AttrRef)>)
    ensures MissingInAttributes(el, refs) == None <==> forall i :: 0 <= i < |refs| ==> !EntryLacks(el, refs[i].1)
    ensures MissingInAttributes(el, refs).Some? ==>
      exists i :: 0 <= i < |refs| && refs[i].1.name == MissingInAttributes(el, refs).value && EntryLacks(el, refs[i].1) &&
        forall j :: 0 <= j < i ==> !EntryLacks(el, refs[j].1)
  {
    if refs != [] {
      MissingInAttributesFirst(el, refs[1..]);
      if !EntryLacks(el, refs[0].1) {
        assert forall i :: 1 <= i < |refs| ==> refs[i] == refs[1..][i - 1];
        if MissingInAttributes(el, refs).Some? {
          var i :| 0 <= i < |refs| - 1 && refs[1..][i].1.name == MissingInAttributes(el, refs).value && EntryLacks(el, refs[1..][i].1) &&
            forall j :: 0 <= j < i ==> !EntryLacks(el, refs[1..][j].1);
          assert refs[i + 1] == refs[1..][i];
        }
      }
    }
  }

  /** A column no `values` entry names gets no texts. */
  lemma {:induction false} ValueCellsAbsent(el: Element, vs: seq<(string, Path)>, k: string)
    requires !HasKey(vs, k)
    ensures ValueCells(el, vs, k) == []
  {
    if vs != [] {
      LookupExtend(vs, |vs| - 1, k);
      assert vs[..|vs|] == vs;
      ValueCellsAbsent(el, vs[..|vs| - 1], k);
    }
  }

  /** A column no `attributes` entry names gets no attribute values. */
  lemma {:induction false} AttributeCellsAbsent(el: Element, refs: seq<(string, AttrRef)>, k: string)
    requires !HasKey(refs, k)
    ensures AttributeCells(el, refs, k) == []
  {
    if refs != [] {
      LookupExtend(refs, |refs| - 1, k);
      assert refs[..|refs|] == refs;
      AttributeCellsAbsent(el, refs[..|refs| - 1], k);
    }
  }

  /** In a dictionary, a `values` column gets the texts of what its one path finds, in document order. */
  lemma {:induction false} ValueCellsOfDict(el: Element, vs: seq<(string, Path)>, k: string)
    requires IsDict(vs)
    ensures ValueCells(el, vs, k) == if HasKey(vs, k) then Texts(FindAll(el, Lookup(vs, k))) else []
  {
    if !HasKey(vs, k) {
      ValueCellsAbsent(el, vs, k);
    } else {
      var n := |vs| - 1;
      assert vs[..n + 1] == vs;
      LookupExtend(vs, n, k);
      assert Keys(vs[..n]) == Keys(vs)[..n];
      if vs[n].0 == k {
        ValueCellsAbsent(el, vs[..n], k);
      } else {
        ValueCellsOfDict(el, vs[..n], k);
      }
    }
  }

  /** In a dictionary, an `attributes` column gets its attribute from every element its one path finds, in document order. */
  lemma {:induction false} AttributeCellsOfDict(el: Element, refs: seq<(string, AttrRef)>, k: string)
    requires IsDict(refs)
    ensures AttributeCells(el, refs, k) ==
      if HasKey(refs, k) then AttrCells(FindAll(el, Lookup(refs, k).path), Lookup(refs, k).name) else []
  {
    if !HasKey(refs, k) {
      AttributeCellsAbsent(el, refs, k);
    } else {
      var n := |refs| - 1;
      assert refs[..n + 1] == refs;
      LookupExtend(refs, n, k);
      assert Keys(refs[..n]) == Keys(refs)[..n];
      if refs[n].0 == k {
        AttributeCellsAbsent(el, refs[..n], k);
      } else {
        AttributeCellsOfDict(el, refs[..n], k);
      }
    }
  }

  /**
   * One element's contribution to column `k`: the texts its `values` path finds, then
   * the attribute its `attributes` path reads from each element found, both in
   * document order, then copies of the column's fill value.
   */
  lemma {:induction false} ElementColumn(cd: ColumnData, el: Element, rowno: nat, m: Mapping,
                                         top: seq<(string, string)>, fixed: seq<(string, string)>, cols: seq<string>,
                                         cd': ColumnData, k: string)
    requires Shaped(cd, cols) && k in cols && IsDict(m.values) && IsDict(m.attributes)
    requires ElementStep(cd, el, rowno, m, top, fixed, cols) == Ok(cd')
    ensures var texts := if HasKey(m.values, k) then Texts(FindAll(el, Lookup(m.values, k))) else [];
            var attrs := if HasKey(m.attributes, k)
                         then AttrCells(FindAll(el, Lookup(m.attributes, k).path), Lookup(m.attributes, k).name) else [];
            var grown := cd[k] + texts + attrs;
            k in cd' && |cd'[k]| >= |grown| && cd'[k] == grown + Repeat(Fill(el, top, fixed, k), |cd'[k]| - |grown|)
  {
    ElementStepAt(cd, el, rowno, m, top, fixed, cols, cd', k);
    GrownOfDicts(cd, el, m, k);
  }

  /** With dictionaries for mappings, column `k` grows by its one path's texts, then its one path's attribute values. */
  lemma {:induction false} GrownOfDicts(cd: ColumnData, el: Element, m: Mapping, k: string)
    requires k in cd && IsDict(m.values) && IsDict(m.attributes)
    ensures var texts := if HasKey(m.values, k) then Texts(FindAll(el, Lookup(m.values, k))) else [];
            var attrs := if HasKey(m.attributes, k)
                         then AttrCells(FindAll(el, Lookup(m.attributes, k).path), Lookup(m.attributes, k).name) else [];
            Grown(cd, el, m, k) == cd[k] + texts + attrs
  {
    ValueCellsOfDict(el, m.values, k);
    AttributeCellsOfDict(el, m.attributes, k);
  }

  /** Every cell holds a value. */
  predicate AllSome(col: seq<Cell>) {
    forall i :: 0 <= i < |col| ==> col[i].Some?
  }

  /** A column that only a top-level attribute or a fixed column fills gets a value in every cell of every element. */
  lemma {:induction false} ElementStepSome(cd: ColumnData, el: Element, rowno: nat, m: Mapping,
                        top: seq<(string, string)>, fixed: seq<(string, string)>, cols: seq<string>,
                        cd': ColumnData, k: string)
    requires Shaped(cd, cols) && k in cols
    requires HasKey(top, k) || HasKey(fixed, k)
    requires !HasKey(m.values, k) && !HasKey(m.attributes, k)
    requires AllSome(cd[k])
    requires ElementStep(cd, el, rowno, m, top, fixed, cols) == Ok(cd')
    ensures k in cd' && AllSome(cd'[k])
  {
    ElementStepAt(cd, el, rowno, m, top, fixed, cols, cd', k);
    ValueCellsAbsent(el, m.values, k);
    AttributeCellsAbsent(el, m.attributes, k);
    assert Grown(cd, el, m, k) == cd[k];
    MissingInTopFirst(el, top);
    if HasKey(top, k) {
      assert top[IndexOf(top, k)].1 in el.attrs;
    }
    assert Fill(el, top, fixed, k).Some?;
  }

  lemma {:induction false} RunSome(cd: ColumnData, els: seq<Element>, rowno: nat, m: Mapping,
                                   top: seq<(string, string)>, fixed: seq<(string, string)>, cols: seq<string>, k: string)
    requires Shaped(cd, cols) && k in cols
    requires HasKey(top, k) || HasKey(fixed, k)
    requires !HasKey(m.values, k) && !HasKey(m.attributes, k)
    requires AllSome(cd[k])
    ensures Run(cd, els, rowno, m, top, fixed, cols).Ok? ==>
      k in Run(cd, els, rowno, m, top, fixed, cols).value && AllSome(Run(cd, els, rowno, m, top, fixed, cols).value[k])
    decreases |els|
  {
    if els != [] {
      var step := ElementStep(cd, els[0], rowno, m, top, fixed, cols);
      if step.Ok? {
        ElementStepShaped(cd, els[0], rowno, m, top, fixed, cols);
        ElementStepSome(cd, els[0], rowno, m, top, fixed, cols, step.value, k);
        RunSome(step.value, els[1..], rowno + 1, m, top, fixed, cols, k);
      }
    }
  }

  /** A column filled only by a top-level attribute or a fixed value is never null. */
  lemma {:induction false} TopAndFixedNeverNull(tree: Element, rootPath: Path, m: Mapping, top: seq<(string, string)>,
                             fixed: seq<(string, string)>, k: string)
    requires HasKey(top, k) || HasKey(fixed, k)
    requires !HasKey(m.values, k) && !HasKey(m.attributes, k)
    requires Flatten(tree, rootPath, m, top, fixed).Ok?
    ensures k in Flatten(tree, rootPath, m, top, fixed).value.data
    ensures AllSome(Flatten(tree, rootPath, m, top, fixed).value.data[k])
  {
    var cols := DeclaredColumns(m, top, fixed);
    RunSome(EmptyColumns(cols), FindAll(tree, rootPath), 1, m, top, fixed, cols, k);
  }

  /** A fixed column that nothing else fills holds its literal in every cell of every element. */
  lemma {:induction false} ElementStepFixed(cd: ColumnData, el: Element, rowno: nat, m: Mapping,
                         top: seq<(string, string)>, fixed: seq<(string, string)>, cols: seq<string>,
                         cd': ColumnData, k: string)
    requires Shaped(cd, cols) && k in cols && HasKey(fixed, k)
    requires !HasKey(m.values, k) && !HasKey(m.attributes, k) && !HasKey(top, k)
    requires cd[k] == Repeat(Some(Lookup(fixed, k)), |cd[k]|)
    requires ElementStep(cd, el, rowno, m, top, fixed, cols) == Ok(cd')
    ensures k in cd' && cd'[k] == Repeat(Some(Lookup(fixed, k)), |cd'[k]|)
  {
    ElementStepAt(cd, el, rowno, m, top, fixed, cols, cd', k);
    ValueCellsAbsent(el, m.values, k);
    AttributeCellsAbsent(el, m.attributes, k);
    assert Grown(cd, el, m, k) == cd[k];
    var x := Some(Lookup(fixed, k));
    assert Fill(el, top, fixed, k) == x;
    RepeatAdd(x, |cd[k]|, |cd'[k]| - |cd[k]|);
  }

  lemma {:induction false} RunFixed(cd: ColumnData, els: seq<Element>, rowno: nat, m: Mapping,
                                    top: seq<(string, string)>, fixed: seq<(string, string)>, cols: seq<string>, k: string)
    requires Shaped(cd, cols) && k in cols && HasKey(fixed, k)
    requires !HasKey(m.values, k) && !HasKey(m.attributes, k) && !HasKey(top, k)
    requires cd[k] == Repeat(Some(Lookup(fixed, k)), |cd[k]|)
    ensures Run(cd, els, rowno, m, top, fixed, cols).Ok? ==>
      k in Run(cd, els, rowno, m, top, fixed, cols).value &&
      var r := Run(cd, els, rowno, m, top, fixed, cols).value[k];
      r == Repeat(Some(Lookup(fixed, k)), |r|)
    decreases |els|
  {
    if els != [] {
      var step := ElementStep(cd, els[0], rowno, m, top, fixed, cols);
      if step.Ok? {
        ElementStepShaped(cd, els[0], rowno, m, top, fixed, cols);
        ElementStepFixed(cd, els[0], rowno, m, top, fixed, cols, step.value, k);
        RunFixed(step.value, els[1..], rowno + 1, m, top, fixed, cols, k);
      }
    }
  }

  /** A fixed column that nothing else fills holds its literal on every row. */
  lemma {:induction false} FixedColumnConstant(tree: Element, rootPath: Path, m: Mapping, top: seq<(string, string)>,
                            fixed: seq<(string, string)>, k: string)
    requires HasKey(fixed, k)
    requires !HasKey(m.values, k) && !HasKey(m.attributes, k) && !HasKey(top, k)
    requires Flatten(tree, rootPath, m, top, fixed).Ok?
    ensures var t := Flatten(tree, rootPath, m, top, fixed).value;
            k in t.data && t.data[k] == Repeat(Some(Lookup(fixed, k)), t.rows)
  {
    var cols := DeclaredColumns(m, top, fixed);
    RunFixed(EmptyColumns(cols), FindAll(tree, rootPath), 1, m, top, fixed, cols, k);
    FlattenShape(tree, rootPath, m, top, fixed);
  }
}
