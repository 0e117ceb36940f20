/**
 * The generic "XML subtree to table" flattener `_xml_processor`.
 *
 * For each element of the collection, in document order, every `values` column
 * receives the texts of the elements its path finds, every `attributes` column the
 * named attribute of the elements its path finds; then every column is padded up
 * to max(longest column, rowno), where rowno is the element's 1-based ordinal:
 * top-level-attribute columns with the element's own attribute, fixed columns
 * with their literal, and all other columns with nulls.
 */
module Flattener {
  import opened Wrappers
  import opened Dicts
  import opened ElementTree
  import opened Tables

  /** `column_data`: the cells gathered so far for each column. */
  type ColumnData = map<string, seq<Cell>>

  /** `(path, attribute)`: the attribute read from every element the path finds. */
  datatype AttrRef = AttrRef(path: Path, name: string)

  /** The `mappings` argument: its `values` and `attributes` dictionaries. */
  datatype Mapping = Mapping(values: seq<(string, Path)>, attributes: seq<(string, AttrRef)>)

  /** `columns`: values keys, attributes keys, top-level keys, fixed keys; a repeated name is one column. */
  function DeclaredColumns(m: Mapping, top: seq<(string, string)>, fixed: seq<(string, string)>): seq<string> {
    Dedup(Keys(m.values) + Keys(m.attributes) + Keys(top) + Keys(fixed))
  }

  /** `column_data` has exactly the columns `cols`. */
  ghost predicate Shaped(cd: ColumnData, cols: seq<string>) {
    forall k :: k in cd <==> k in cols
  }

  /** The texts that the `values` entries named `k` append for `el`. */
  function ValueCells(el: Element, vs: seq<(string, Path)>, k: string): seq<Cell> {
    if vs == [] then []
    else
      var (key, path) := vs[|vs| - 1];
      ValueCells(el, vs[..|vs| - 1], k) + (if key == k then Texts(FindAll(el, path)) else [])
  }

  /** `[e.attrib[a] for e in es]`, reading a missing attribute as null. */
  function AttrCells(es: seq<Element>, a: string): (r: seq<Cell>)
    ensures |r| == |es|
    ensures forall i :: 0 <= i < |es| ==> r[i] == if a in es[i].attrs then Some(es[i].attrs[a]) else None
  {
    if es == [] then [] else [if a in es[0].attrs then Some(es[0].attrs[a]) else None] + AttrCells(es[1..], a)
  }

  /** The attribute values that the `attributes` entries named `k` append for `el`. */
  function AttributeCells(el: Element, refs: seq<(string, AttrRef)>, k: string): seq<Cell> {
    if refs == [] then []
    else
      var (key, ref) := refs[|refs| - 1];
      AttributeCells(el, refs[..|refs| - 1], k) + (if key == k then AttrCells(FindAll(el, ref.path), ref.name) else [])
  }

  /** Some element of `es` lacks attribute `a`. */
  predicate Lacking(es: seq<Element>, a: string) {
    exists i :: 0 <= i < |es| && a !in es[i].attrs
  }

  /** An `attributes` entry whose path finds an element without the attribute. */
  predicate EntryLacks(el: Element, ref: AttrRef) {
    Lacking(FindAll(el, ref.path), ref.name)
  }

  /** The attribute of the first `attributes` entry that raises KeyError for `el`. */
  function MissingInAttributes(el: Element, refs: seq<(string, AttrRef)>): Option<string> {
    if refs == [] then None
    else if EntryLacks(el, refs[0].1) then Some(refs[0].1.name)
    else MissingInAttributes(el, refs[1..])
  }

  /** The first top-level attribute that `el` lacks. */
  function MissingInTop(el: Element, top: seq<(string, string)>): Option<string> {
    if top == [] then None
    else if top[0].1 !in el.attrs then Some(top[0].1)
    else MissingInTop(el, top[1..])
  }

  /** The attribute whose KeyError ends the processing of `el`, if any. */
  function FirstMissing(el: Element, m: Mapping, top: seq<(string, string)>): Option<string> {
    match MissingInAttributes(el, m.attributes)
    case Some(a) => Some(a)
    case None => MissingInTop(el, top)
  }

  /** The value that pads column `k` for `el`: its top-level attribute, else its fixed literal, else null. */
  function Fill(el: Element, top: seq<(string, string)>, fixed: seq<(string, string)>, k: string): Cell {
    if HasKey(top, k) then
      (var a := Lookup(top, k); if a in el.attrs then Some(el.attrs[a]) else None)
    else if HasKey(fixed, k) then Some(Lookup(fixed, k))
    else None
  }

  /** `max([len(a) for a in column_data.values()] + [rowno])`, over the columns `cols`. */
  function Longest(cd: ColumnData, cols: seq<string>, rowno: nat): (t: nat)
    ensures t >= rowno
    ensures forall k :: k in cols && k in cd ==> |cd[k]| <= t
  {
    if cols == [] then rowno
    else
      var rest := Longest(cd, cols[1..], rowno);
      var here := if cols[0] in cd then |cd[cols[0]]| else 0;
      if here > rest then here else rest
  }

  /** The length of `[x] * (t - n)`: Python repeats a negative number of times as zero. */
  function Gap(n: nat, t: nat): nat {
    if n <= t then t - n else 0
  }

  /** Column `k` once the `values` and `attributes` entries have appended for `el`. */
  function Grown(cd: ColumnData, el: Element, m: Mapping, k: string): seq<Cell>
    requires k in cd
  {
    cd[k] + ValueCells(el, m.values, k) + AttributeCells(el, m.attributes, k)
  }

  /** Every column of `cd` grown for `el`. */
  function GrownAll(cd: ColumnData, el: Element, m: Mapping): ColumnData {
    map k | k in cd :: Grown(cd, el, m, k)
  }

  /** Every column of `g` padded with its fill value up to `t` cells. */
  function PadAll(g: ColumnData, el: Element, top: seq<(string, string)>, fixed: seq<(string, string)>, t: nat): ColumnData {
    map k | k in g :: g[k] + Repeat(Fill(el, top, fixed, k), Gap(|g[k]|, t))
  }

  /** One iteration of the loop over the collection: the columns after element `el`, number `rowno`. */
  function ElementStep(cd: ColumnData, el: Element, rowno: nat, m: Mapping,
                       top: seq<(string, string)>, fixed: seq<(string, string)>, cols: seq<string>): Result<ColumnData, Error>
  {
    match FirstMissing(el, m, top)
    case Some(a) => Err(MissingAttribute(a))
    case None =>
      var g := GrownAll(cd, el, m);
      Ok(PadAll(g, el, top, fixed, Longest(g, cols, rowno)))
  }

  /** The loop over `els`, the first of which has ordinal `rowno`. */
  function Run(cd: ColumnData, els: seq<Element>, rowno: nat, m: Mapping,
               top: seq<(string, string)>, fixed: seq<(string, string)>, cols: seq<string>): Result<ColumnData, Error>
    decreases |els|
  {
    if els == [] then Ok(cd)
    else
      match ElementStep(cd, els[0], rowno, m, top, fixed, cols)
      case Err(e) => Err(e)
      case Ok(cd') => Run(cd', els[1..], rowno + 1, m, top, fixed, cols)
  }

  /** An element's step keeps the columns there are. */
  lemma {:induction false} ElementStepShaped(cd: ColumnData, el: Element, rowno: nat, m: Mapping,
                          top: seq<(string, string)>, fixed: seq<(string, string)>, cols: seq<string>)
    requires Shaped(cd, cols)
    ensures ElementStep(cd, el, rowno, m, top, fixed, cols).Ok? ==> Shaped(ElementStep(cd, el, rowno, m, top, fixed, cols).value, cols)
  {
  }

  /** The loop keeps the columns there are: `column_data` never gains or loses a key. */
  lemma {:induction false} RunShaped(cd: ColumnData, els: seq<Element>, rowno: nat, m: Mapping,
                                     top: seq<(string, string)>, fixed: seq<(string, string)>, cols: seq<string>)
    requires Shaped(cd, cols)
    ensures Run(cd, els, rowno, m, top, fixed, cols).Ok? ==> Shaped(Run(cd, els, rowno, m, top, fixed, cols).value, cols)
    decreases |els|
  {
    if els != [] {
      ElementStepShaped(cd, els[0], rowno, m, top, fixed, cols);
      match ElementStep(cd, els[0], rowno, m, top, fixed, cols)
      case Err(_) =>
      case Ok(cd') => RunShaped(cd', els[1..], rowno + 1, m, top, fixed, cols);
    }
  }

  /** Every declared column, empty. */
  function EmptyColumns(cols: seq<string>): (cd: ColumnData)
    ensures Shaped(cd, cols)
    ensures forall k :: k in cd ==> cd[k] == []
  {
    map k | k in cols :: []
  }

  /** `_xml_processor(tree, rootelementpath, mappings, toplevelattributes, fixed_columns)` */
  function Flatten(tree: Element, rootPath: Path, m: Mapping,
                   top: seq<(string, string)>, fixed: seq<(string, string)>): Result<Table, Error>
  {
    var cols := DeclaredColumns(m, top, fixed);
    var els := FindAll(tree, rootPath);
    RunShaped(EmptyColumns(cols), els, 1, m, top, fixed, cols);
    match Run(EmptyColumns(cols), els, 1, m, top, fixed, cols)
    case Err(e) => Err(e)
    case Ok(cd) => Ok(Table(cols, cd, if cols == [] then 0 else |cd[cols[0]]|))
  }

  /**
   * `_xml_processor`, loop for loop: `column_data` grows per collection element and
   * `rowno` counts the elements.
   */
  method XmlProcessor(tree: Element, rootPath: Path, m: Mapping,
                      top: seq<(string, string)>, fixed: seq<(string, string)>) returns (r: Result<Table, Error>)
    ensures r == Flatten(tree, rootPath, m, top, fixed)
  {
    var collection := FindAll(tree, rootPath);
    var columns := DeclaredColumns(m, top, fixed);
    var columnData := EmptyColumns(columns);
    var rowno := 1;
    var i := 0;
    while i < |collection|
      invariant 0 <= i <= |collection| && rowno == i + 1
      invariant Shaped(columnData, columns)
      invariant Run(columnData, collection[i..], rowno, m, top, fixed, columns)
             == Run(EmptyColumns(columns), collection, 1, m, top, fixed, columns)
    {
      var step := AddElement(columnData, collection[i], rowno, m, top, fixed, columns);
      assert collection[i..][1..] == collection[i + 1..];
      if step.Err? {
        return Err(step.error);
      }
      columnData := step.value;
      rowno := rowno + 1;
      i := i + 1;
    }
    r := Ok(Table(columns, columnData, if columns == [] then 0 else |columnData[columns[0]]|));
  }

  /** The body of the loop over the collection, for element `el`. */
  method AddElement(cd0: ColumnData, el: Element, rowno: nat, m: Mapping,
                    top: seq<(string, string)>, fixed: seq<(string, string)>, cols: seq<string>)
    returns (r: Result<ColumnData, Error>)
    requires cols == DeclaredColumns(m, top, fixed)
    requires Shaped(cd0, cols)
    ensures r == ElementStep(cd0, el, rowno, m, top, fixed, cols)
    ensures r.Ok? ==> Shaped(r.value, cols)
  {
    var cd1 := AppendValues(cd0, el, m.values, cols);
    var appended := AppendAttributes(cd1, el, m.attributes, cols);
    if appended.Err? {
      return Err(appended.error);
    }
    ghost var g := appended.value;
    GrownColumns(cd0, cd1, g, el, m, cols);
    ghost var t := Longest(g, cols, rowno);
    var padded := PadTopLevel(appended.value, g, el, top, cols, rowno, t);
    if padded.Err? {
      return Err(padded.error);
    }
    var cd := PadFixed(padded.value, g, el, top, fixed, cols, rowno, t);
    cd := PadNulls(cd, g, el, top, fixed, cols, rowno, t);
    PaddedAll(g, el, top, fixed, cols, t);
    r := Ok(cd);
  }

  /** The two appending loops leave every column grown as `Grown` says. */
  lemma {:induction false} GrownColumns(cd0: ColumnData, cd1: ColumnData, cd2: ColumnData, el: Element, m: Mapping, cols: seq<string>)
    requires Shaped(cd0, cols) && Shaped(cd1, cols) && Shaped(cd2, cols)
    requires forall k :: k in cd1 ==> cd1[k] == cd0[k] + ValueCells(el, m.values, k)
    requires forall k :: k in cd2 ==> cd2[k] == cd1[k] + AttributeCells(el, m.attributes, k)
    ensures cd2 == GrownAll(cd0, el, m)
  {
  }

  /** `column_data[key] += [e.text for e in el.findall(value)]` for every `values` entry. */
  method AppendValues(cd0: ColumnData, el: Element, vs: seq<(string, Path)>, cols: seq<string>)
    returns (cd: ColumnData)
    requires Shaped(cd0, cols)
    requires forall k :: k in Keys(vs) ==> k in cols
    ensures Shaped(cd, cols)
    ensures forall k :: k in cd ==> cd[k] == cd0[k] + ValueCells(el, vs, k)
  {
    cd := cd0;
    var j := 0;
    while j < |vs|
      invariant 0 <= j <= |vs|
      invariant Shaped(cd, cols)
      invariant forall k :: k in cd ==> cd[k] == cd0[k] + ValueCells(el, vs[..j], k)
    {
      var (key, path) := vs[j];
      assert Keys(vs)[j] == key;
      ValueCellsStep(cd0, cd, el, vs, cols, j);
      cd := cd[key := cd[key] + Texts(FindAll(el, path))];
      j := j + 1;
    }
    assert vs[..j] == vs;
  }

  /** Appending the texts of entry `j` extends what the entries before it appended. */
  lemma {:induction false} ValueCellsStep(cd0: ColumnData, cd: ColumnData, el: Element, vs: seq<(string, Path)>,
                                          cols: seq<string>, j: nat)
    requires j < |vs| && vs[j].0 in cols
    requires Shaped(cd0, cols) && Shaped(cd, cols)
    requires forall k :: k in cd ==> cd[k] == cd0[k] + ValueCells(el, vs[..j], k)
    ensures var cd' := cd[vs[j].0 := cd[vs[j].0] + Texts(FindAll(el, vs[j].1))];
            Shaped(cd', cols) && forall k :: k in cd' ==> cd'[k] == cd0[k] + ValueCells(el, vs[..j + 1], k)
  {
    var key, cells := vs[j].0, Texts(FindAll(el, vs[j].1));
    var cd' := cd[key := cd[key] + cells];
    assert vs[..j + 1][..j] == vs[..j];
    forall k | k in cd' ensures cd'[k] == cd0[k] + ValueCells(el, vs[..j + 1], k) {
      assert ValueCells(el, vs[..j + 1], k) == ValueCells(el, vs[..j], k) + if key == k then cells else [];
      if k == key {
        assert (cd0[k] + ValueCells(el, vs[..j], k)) + cells == cd0[k] + (ValueCells(el, vs[..j], k) + cells);
      } else {
        assert ValueCells(el, vs[..j], k) + [] == ValueCells(el, vs[..j], k);
      }
    }
  }

  /** `column_data[key] += [e.attrib[attribute] for e in el.findall(value)]` for every `attributes` entry. */
  method AppendAttributes(cd0: ColumnData, el: Element, refs: seq<(string, AttrRef)>, cols: seq<string>)
    returns (r: Result<ColumnData, Error>)
    requires Shaped(cd0, cols)
    requires forall k :: k in Keys(refs) ==> k in cols
    ensures r.Err? <==> MissingInAttributes(el, refs).Some?
    ensures r.Err? ==> r.error == MissingAttribute(MissingInAttributes(el, refs).value)
    ensures r.Ok? ==> Shaped(r.value, cols) && forall k :: k in r.value ==> r.value[k] == cd0[k] + AttributeCells(el, refs, k)
  {
    var cd := cd0;
    var j := 0;
    while j < |refs|
      invariant 0 <= j <= |refs|
      invariant Shaped(cd, cols)
      invariant MissingInAttributes(el, refs) == MissingInAttributes(el, refs[j..])
      invariant forall k :: k in cd ==> cd[k] == cd0[k] + AttributeCells(el, refs[..j], k)
    {
      var (key, ref) := refs[j];
      assert Keys(refs)[j] == key;
      var found := FindAll(el, ref.path);
      if Lacking(found, ref.name) {
        return Err(MissingAttribute(ref.name));
      }
      assert refs[j..][1..] == refs[j + 1..];
      AttributeCellsStep(cd0, cd, el, refs, cols, j);
      cd := cd[key := cd[key] + AttrCells(found, ref.name)];
      j := j + 1;
    }
    assert refs[..j] == refs;
    r := Ok(cd);
  }

  /** Appending the attribute values of entry `j` extends what the entries before it appended. */
  lemma {:induction false} AttributeCellsStep(cd0: ColumnData, cd: ColumnData, el: Element, refs: seq<(string, AttrRef)>,
                                              cols: seq<string>, j: nat)
    requires j < |refs| && refs[j].0 in cols
    requires Shaped(cd0, cols) && Shaped(cd, cols)
    requires forall k :: k in cd ==> cd[k] == cd0[k] + AttributeCells(el, refs[..j], k)
    ensures var cd' := cd[refs[j].0 := cd[refs[j].0] + AttrCells(FindAll(el, refs[j].1.path), refs[j].1.name)];
            Shaped(cd', cols) && forall k :: k in cd' ==> cd'[k] == cd0[k] + AttributeCells(el, refs[..j + 1], k)
  {
    var key, cells := refs[j].0, AttrCells(FindAll(el, refs[j].1.path), refs[j].1.name);
    var cd' := cd[key := cd[key] + cells];
    assert refs[..j + 1][..j] == refs[..j];
    forall k | k in cd' ensures cd'[k] == cd0[k] + AttributeCells(el, refs[..j + 1], k) {
      assert AttributeCells(el, refs[..j + 1], k) == AttributeCells(el, refs[..j], k) + if key == k then cells else [];
      if k == key {
        assert (cd0[k] + AttributeCells(el, refs[..j], k)) + cells == cd0[k] + (AttributeCells(el, refs[..j], k) + cells);
      } else {
        assert AttributeCells(el, refs[..j], k) + [] == AttributeCells(el, refs[..j], k);
      }
    }
  }

  /** `column_data[key] += [x] * (target - len(column_data[key]))` */
  function Pad(cd: ColumnData, key: string, x: Cell, target: nat): ColumnData
    requires key in cd && |cd[key]| <= target
  {
    cd[key := cd[key] + Repeat(x, target - |cd[key]|)]
  }

  /**
   * The columns once the padding loops have handled the keys of `top`, the keys of
   * `fixed` and the columns in `done`: each of those is its grown cells `g[k]`
   * followed by copies of its fill value up to `t` cells; the others are as grown.
   */
  ghost function Padded(g: ColumnData, el: Element, top: seq<(string, string)>,
                        fixed: seq<(string, string)>, done: seq<string>, t: nat): ColumnData
    requires forall k :: k in g ==> |g[k]| <= t
  {
    map k | k in g ::
      if Handled(top, fixed, done, k) then g[k] + Repeat(Fill(el, top, fixed, k), t - |g[k]|) else g[k]
  }

  /** Column `k` is one the padding loops have handled so far. */
  predicate Handled(top: seq<(string, string)>, fixed: seq<(string, string)>, done: seq<string>, k: string) {
    HasKey(top, k) || HasKey(fixed, k) || k in done
  }

  /**
   * One padding step: when the handled columns and their fill values change only
   * at `key`, padding `key` with `x` (its new fill value, unless it was handled
   * already) moves from the old padded columns to the new ones.
   */
  lemma {:induction false} PaddedStep(g: ColumnData, el: Element, key: string, x: Cell, t: nat,
                   top: seq<(string, string)>, fixed: seq<(string, string)>, done: seq<string>,
                   top': seq<(string, string)>, fixed': seq<(string, string)>, done': seq<string>)
    requires forall k :: k in g ==> |g[k]| <= t
    requires key in g && Handled(top', fixed', done', key)
    requires Handled(top, fixed, done, key) ==> Fill(el, top', fixed', key) == Fill(el, top, fixed, key)
    requires !Handled(top, fixed, done, key) ==> Fill(el, top', fixed', key) == x
    requires forall k :: k in g && k != key ==>
      (Handled(top', fixed', done', k) <==> Handled(top, fixed, done, k)) &&
      (Handled(top, fixed, done, k) ==> Fill(el, top', fixed', k) == Fill(el, top, fixed, k))
    ensures Pad(Padded(g, el, top, fixed, done, t), key, x, t) == Padded(g, el, top', fixed', done', t)
  {
    var before, after := Padded(g, el, top, fixed, done, t), Padded(g, el, top', fixed', done', t);
    PadOne(g[key], Fill(el, top, fixed, key), Fill(el, top', fixed', key), x, t, Handled(top, fixed, done, key));
    forall k | k in before && k != key
      ensures before[k] == after[k]
    {
    }
    PadAt(before, after, key, x, t);
  }

  /** Maps that differ only at `key`, where `after` is `before` padded with `x` up to `t`. */
  lemma {:induction false} PadAt(before: ColumnData, after: ColumnData, key: string, x: Cell, t: nat)
    requires before.Keys == after.Keys && key in before && |before[key]| <= t
    requires after[key] == before[key] + Repeat(x, t - |before[key]|)
    requires forall k :: k in before && k != key ==> before[k] == after[k]
    ensures Pad(before, key, x, t) == after
  {
  }

  /** Before any padding, the columns are as grown. */
  lemma {:induction false} PaddedNone(g: ColumnData, el: Element, t: nat)
    requires forall k :: k in g ==> |g[k]| <= t
    ensures Padded(g, el, [], [], [], t) == g
  {
    var empty: seq<(string, string)> := [];
    assert forall k :: !HasKey(empty, k);
  }

  /** Once every column is done, every column is padded with its fill value up to `t`. */
  lemma {:induction false} PaddedAll(g: ColumnData, el: Element, top: seq<(string, string)>, fixed: seq<(string, string)>,
                  cols: seq<string>, t: nat)
    requires Shaped(g, cols)
    requires forall k :: k in g ==> |g[k]| <= t
    ensures Padded(g, el, top, fixed, cols, t) == PadAll(g, el, top, fixed, t)
  {
  }

  /** Padding never goes beyond `t`, so the longest column stays `t`. */
  lemma {:induction false} PaddedLongest(g: ColumnData, el: Element, top: seq<(string, string)>, fixed: seq<(string, string)>,
                      done: seq<string>, cols: seq<string>, rowno: nat, t: nat)
    requires Shaped(g, cols) && Longest(g, cols, rowno) == t
    ensures Shaped(Padded(g, el, top, fixed, done, t), cols)
    ensures Longest(Padded(g, el, top, fixed, done, t), cols, rowno) == t
  {
    var cd := Padded(g, el, top, fixed, done, t);
    forall k | k in cols ensures |g[k]| <= |cd[k]| <= t {
    }
    LongestStable(g, cd, cols, rowno);
  }

  /**
   * Padding column `gk`, already padded with `oldFill` when `was` holds, to `t` cells
   * with `x` gives `gk` padded with `newFill`.
   */
  lemma {:induction false} PadOne(gk: seq<Cell>, oldFill: Cell, newFill: Cell, x: Cell, t: nat, was: bool)
    requires |gk| <= t
    requires was ==> newFill == oldFill
    requires !was ==> newFill == x
    ensures var o := if was then gk + Repeat(oldFill, t - |gk|) else gk;
            o + Repeat(x, t - |o|) == gk + Repeat(newFill, t - |gk|)
  {
    if was {
      assert Repeat(x, 0) == [];
    }
  }

  /** `column_data[key] += [el.attrib[value]] * (max(...) - len(column_data[key]))` for every top-level attribute. */
  method PadTopLevel(cd0: ColumnData, ghost g: ColumnData, el: Element, top: seq<(string, string)>,
                     cols: seq<string>, rowno: nat, ghost t: nat)
    returns (r: Result<ColumnData, Error>)
    requires Shaped(g, cols) && Longest(g, cols, rowno) == t && cd0 == g
    requires forall k :: k in Keys(top) ==> k in cols
    ensures r.Err? <==> MissingInTop(el, top).Some?
    ensures r.Err? ==> r.error == MissingAttribute(MissingInTop(el, top).value)
    ensures r.Ok? ==> r.value == Padded(g, el, top, [], [], t)
  {
    PaddedNone(g, el, t);
    var cd := cd0;
    var j := 0;
    while j < |top|
      invariant 0 <= j <= |top|
      invariant MissingInTop(el, top) == MissingInTop(el, top[j..])
      invariant cd == Padded(g, el, top[..j], [], [], t)
    {
      var key, attribute := top[j].0, top[j].1;
      assert Keys(top)[j] == key;
      if attribute !in el.attrs {
        return Err(MissingAttribute(attribute));
      }
      assert top[j..][1..] == top[j + 1..];
      PaddedLongest(g, el, top[..j], [], [], cols, rowno, t);
      var target := Longest(cd, cols, rowno);
      PadTopStep(g, el, top, j, t);
      cd := Pad(cd, key, Some(el.attrs[attribute]), target);
      j := j + 1;
    }
    assert top[..j] == top;
    r := Ok(cd);
  }

  lemma {:induction false} PadTopStep(g: ColumnData, el: Element, top: seq<(string, string)>, j: nat, t: nat)
    requires forall k :: k in g ==> |g[k]| <= t
    requires j < |top| && top[j].0 in g && top[j].1 in el.attrs
    ensures Pad(Padded(g, el, top[..j], [], [], t), top[j].0, Some(el.attrs[top[j].1]), t) == Padded(g, el, top[..j + 1], [], [], t)
  {
    var empty: seq<(string, string)> := [];
    forall k | k in g
      ensures HasKey(top[..j + 1], k) <==> HasKey(top[..j], k) || top[j].0 == k
      ensures HasKey(top[..j + 1], k) ==> Fill(el, top[..j + 1], empty, k) == if HasKey(top[..j], k) then Fill(el, top[..j], empty, k) else Some(el.attrs[top[j].1])
    {
      LookupExtend(top, j, k);
    }
    PaddedStep(g, el, top[j].0, Some(el.attrs[top[j].1]), t, top[..j], empty, [], top[..j + 1], empty, []);
  }

  /** `column_data[key] += [value] * (max(...) - len(column_data[key]))` for every fixed column. */
  method PadFixed(cd0: ColumnData, ghost g: ColumnData, el: Element, top: seq<(string, string)>,
                  fixed: seq<(string, string)>, cols: seq<string>, rowno: nat, ghost t: nat)
    returns (cd: ColumnData)
    requires Shaped(g, cols) && Longest(g, cols, rowno) == t
    requires cd0 == Padded(g, el, top, [], [], t)
    requires forall k :: k in Keys(fixed) ==> k in cols
    ensures cd == Padded(g, el, top, fixed, [], t)
  {
    cd := cd0;
    var j := 0;
    while j < |fixed|
      invariant 0 <= j <= |fixed|
      invariant cd == Padded(g, el, top, fixed[..j], [], t)
    {
      var key, value := fixed[j].0, fixed[j].1;
      assert Keys(fixed)[j] == key;
      PaddedLongest(g, el, top, fixed[..j], [], cols, rowno, t);
      var target := Longest(cd, cols, rowno);
      PadFixedStep(g, el, top, fixed, j, t);
      cd := Pad(cd, key, Some(value), target);
      j := j + 1;
    }
    assert fixed[..j] == fixed;
  }

  lemma {:induction false} PadFixedStep(g: ColumnData, el: Element, top: seq<(string, string)>, fixed: seq<(string, string)>, j: nat, t: nat)
    requires forall k :: k in g ==> |g[k]| <= t
    requires j < |fixed| && fixed[j].0 in g
    ensures Pad(Padded(g, el, top, fixed[..j], [], t), fixed[j].0, Some(fixed[j].1), t) == Padded(g, el, top, fixed[..j + 1], [], t)
  {
    forall k | k in g
      ensures HasKey(fixed[..j + 1], k) <==> HasKey(fixed[..j], k) || fixed[j].0 == k
      ensures HasKey(fixed[..j + 1], k) ==> Lookup(fixed[..j + 1], k) == if HasKey(fixed[..j], k) then Lookup(fixed[..j], k) else fixed[j].1
    {
      LookupExtend(fixed, j, k);
    }
    PaddedStep(g, el, fixed[j].0, Some(fixed[j].1), t, top, fixed[..j], [], top, fixed[..j + 1], []);
  }

  /** `column_data[key] += [None] * (max(...) - len(column_data[key]))` for every column. */
  method PadNulls(cd0: ColumnData, ghost g: ColumnData, el: Element, top: seq<(string, string)>,
                  fixed: seq<(string, string)>, cols: seq<string>, rowno: nat, ghost t: nat)
    returns (cd: ColumnData)
    requires Shaped(g, cols) && Longest(g, cols, rowno) == t
    requires cd0 == Padded(g, el, top, fixed, [], t)
    ensures cd == Padded(g, el, top, fixed, cols, t)
  {
    cd := cd0;
    var j := 0;
    while j < |cols|
      invariant 0 <= j <= |cols|
      invariant cd == Padded(g, el, top, fixed, cols[..j], t)
    {
      var key := cols[j];
      PaddedLongest(g, el, top, fixed, cols[..j], cols, rowno, t);
      var target := Longest(cd, cols, rowno);
      PadNullStep(g, el, top, fixed, cols, j, t);
      cd := Pad(cd, key, None, target);
      j := j + 1;
    }
    assert cols[..j] == cols;
  }

  lemma {:induction false} PadNullStep(g: ColumnData, el: Element, top: seq<(string, string)>, fixed: seq<(string, string)>,
                    cols: seq<string>, j: nat, t: nat)
    requires forall k :: k in g ==> |g[k]| <= t
    requires j < |cols| && cols[j] in g
    ensures Pad(Padded(g, el, top, fixed, cols[..j], t), cols[j], None, t) == Padded(g, el, top, fixed, cols[..j + 1], t)
  {
    assert cols[..j + 1] == cols[..j] + [cols[j]];
    PaddedStep(g, el, cols[j], None, t, top, fixed, cols[..j], top, fixed, cols[..j + 1]);
  }

  /** Padding some columns up to, at most, the longest one leaves the longest length as it was. */
  lemma {:induction false} LongestStable(cd: ColumnData, cd': ColumnData, cols: seq<string>, rowno: nat)
    requires forall k :: k in cols ==> k in cd && k in cd'
    requires forall k :: k in cols ==> |cd[k]| <= |cd'[k]| <= Longest(cd, cols, rowno)
    ensures Longest(cd', cols, rowno) == Longest(cd, cols, rowno)
  {
    LongestAttained(cd, cols, rowno);
    LongestAttained(cd', cols, rowno);
  }

  /** The longest length is that of some column, or `rowno`. */
  lemma {:induction false} LongestAttained(cd: ColumnData, cols: seq<string>, rowno: nat)
    requires forall k :: k in cols ==> k in cd
    ensures Longest(cd, cols, rowno) == rowno || exists k :: k in cols && |cd[k]| == Longest(cd, cols, rowno)
  {
    if cols != [] {
      LongestAttained(cd, cols[1..], rowno);
      var rest := Longest(cd, cols[1..], rowno);
      if rest != rowno && |cd[cols[0]]| <= rest {
        var k :| k in cols[1..] && |cd[k]| == rest;
        assert k in cols;
      }
    }
  }
}
