/**
 * Insertion-ordered dictionaries with string keys, as Python's `dict` behaves:
 * keys keep the position of their first insertion, and assigning an existing key
 * replaces its value in place. A dictionary is a sequence of (key, value) pairs.
 */
module Dicts {

  /** No element occurs twice. */
  predicate Distinct<T(==)>(s: seq<T>) {
    forall i, j :: 0 <= i < j < |s| ==> s[i] != s[j]
  }

  /** No element of `a` occurs in `b`. */
  predicate Apart<T(==)>(a: seq<T>, b: seq<T>) {
    forall i, j :: 0 <= i < |a| && 0 <= j < |b| ==> a[i] != b[j]
  }

  /** Two duplicate-free sequences with no common element concatenate to a duplicate-free one. */
  lemma DistinctConcat<T>(a: seq<T>, b: seq<T>)
    requires Distinct(a) && Distinct(b) && Apart(a, b)
    ensures Distinct(a + b)
  {
  }

  /** The keys of `d`, in order. */
  function Keys<V>(d: seq<(string, V)>): (r: seq<string>)
    ensures |r| == |d|
    ensures forall i :: 0 <= i < |d| ==> r[i] == d[i].0
  {
    if d == [] then [] else Keys(d[..|d| - 1]) + [d[|d| - 1].0]
  }

  /** Some entry of `d` has key `k`. */
  predicate HasKey<V>(d: seq<(string, V)>, k: string) {
    k in Keys(d)
  }

  /** A well-formed dictionary: no key twice. */
  predicate IsDict<V>(d: seq<(string, V)>) {
    Distinct(Keys(d))
  }

  /** Position of the first entry with key `k`. */
  function IndexOf<V>(d: seq<(string, V)>, k: string): (i: nat)
    requires HasKey(d, k)
    ensures i < |d| && d[i].0 == k
    ensures forall j :: 0 <= j < i ==> d[j].0 != k
  {
    FirstIndex(Keys(d), k)
  }

  /** The value of the first entry with key `k` (the only one, in a dictionary). */
  function Lookup<V>(d: seq<(string, V)>, k: string): V
    requires HasKey(d, k)
  {
    d[IndexOf(d, k)].1
  }

  /** Index of the first occurrence of `x` in `s`. */
  function FirstIndex<T(==)>(s: seq<T>, x: T): (i: nat)
    requires x in s
    ensures i < |s| && s[i] == x
    ensures forall j :: 0 <= j < i ==> s[j] != x
  {
    if s[0] == x then 0 else 1 + FirstIndex(s[1..], x)
  }

  /** The elements of `s` without repetitions, each at its first occurrence. */
  function Dedup(s: seq<string>): (r: seq<string>)
    ensures forall x :: x in r <==> x in s
    ensures Distinct(r)
  {
    if s == [] then []
    else
      var d := Dedup(s[..|s| - 1]);
      if s[|s| - 1] in d then d else d + [s[|s| - 1]]
  }

  /** `d[k] = v`: replace the value of `k` where it stands, or append a new entry. */
  function Put<V>(d: seq<(string, V)>, k: string, v: V): seq<(string, V)> {
    if HasKey(d, k) then
      var i := IndexOf(d, k);
      d[..i] + [(k, v)] + d[i + 1..]
    else
      d + [(k, v)]
  }

  /**
   * Assigning a key keeps every key where it stands and appends a new key at the
   * end; the key then holds `v`, and every other key keeps its value.
   */
  lemma PutSemantics<V>(d: seq<(string, V)>, k: string, v: V)
    ensures Keys(Put(d, k, v)) == if HasKey(d, k) then Keys(d) else Keys(d) + [k]
    ensures HasKey(Put(d, k, v), k) && Lookup(Put(d, k, v), k) == v
    ensures forall k' :: k' != k && HasKey(d, k') ==> HasKey(Put(d, k, v), k') && Lookup(Put(d, k, v), k') == Lookup(d, k')
  {
    if HasKey(d, k) {
      PutReplace(d, IndexOf(d, k), v);
    } else {
      PutAppend(d, k, v);
    }
  }

  /** Every entry after `d[k] = v` is the new one or an entry of `d`. */
  lemma PutEntries<V>(d: seq<(string, V)>, k: string, v: V)
    ensures forall j :: 0 <= j < |Put(d, k, v)| ==> Put(d, k, v)[j] == (k, v) || Put(d, k, v)[j] in d
  {
    if HasKey(d, k) {
      var i := IndexOf(d, k);
      var r := d[..i] + [(k, v)] + d[i + 1..];
      forall j | 0 <= j < |r| ensures r[j] == (k, v) || r[j] in d {
        if j != i {
          assert r[j] == d[j];
        }
      }
    }
  }

  /** Replacing the value of the first entry of a key keeps every key and every other value. */
  lemma {:induction false} PutReplace<V>(d: seq<(string, V)>, i: nat, v: V)
    requires i < |d| && HasKey(d, d[i].0) && IndexOf(d, d[i].0) == i
    ensures var k, r := d[i].0, d[..i] + [(d[i].0, v)] + d[i + 1..];
            Keys(r) == Keys(d) && HasKey(r, k) && Lookup(r, k) == v &&
            forall k' :: k' != k && HasKey(d, k') ==> HasKey(r, k') && Lookup(r, k') == Lookup(d, k')
  {
    var k := d[i].0;
    var r := d[..i] + [(k, v)] + d[i + 1..];
    forall j | 0 <= j < |r| ensures r[j].0 == d[j].0 && (j != i ==> r[j] == d[j]) {
      if j < i {
        assert r[j] == d[..i][j];
      } else if j > i {
        assert r[j] == d[i + 1..][j - i - 1];
      }
    }
    assert Keys(r) == Keys(d);
    assert IndexOf(r, k) == i;
    forall k' | k' != k && HasKey(d, k') ensures HasKey(r, k') && Lookup(r, k') == Lookup(d, k') {
      assert IndexOf(r, k') == IndexOf(d, k');
    }
  }

  /** Appending an entry for a new key keeps every other key and value. */
  lemma {:induction false} PutAppend<V>(d: seq<(string, V)>, k: string, v: V)
    requires !HasKey(d, k)
    ensures var r := d + [(k, v)];
            Keys(r) == Keys(d) + [k] && HasKey(r, k) && Lookup(r, k) == v &&
            forall k' :: k' != k && HasKey(d, k') ==> HasKey(r, k') && Lookup(r, k') == Lookup(d, k')
  {
    var r := d + [(k, v)];
    assert Keys(r) == Keys(d) + [k];
    IndexUnique(r, k, |d|);
    forall k' | k' != k && HasKey(d, k') ensures IndexOf(r, k') == IndexOf(d, k') {
      IndexUnique(r, k', IndexOf(d, k'));
    }
  }

  /** Any position of `k` with no earlier `k` is its first one. */
  lemma IndexUnique<V>(d: seq<(string, V)>, k: string, j: nat)
    requires j < |d| && d[j].0 == k
    requires forall l :: 0 <= l < j ==> d[l].0 != k
    ensures HasKey(d, k) && IndexOf(d, k) == j
  {
    assert Keys(d)[j] == k;
  }

  /** The value of the last pair with key `k`: the one a dict literal keeps. */
  function LastValue<V>(ps: seq<(string, V)>, k: string): V
    requires HasKey(ps, k)
  {
    if ps[|ps| - 1].0 == k then ps[|ps| - 1].1 else LastValue(ps[..|ps| - 1], k)
  }

  /** `d.update(ps)`: assign the pairs of `ps` one after the other. */
  function Update<V>(d: seq<(string, V)>, ps: seq<(string, V)>): seq<(string, V)>
  {
    if ps == [] then d
    else Put(Update(d, ps[..|ps| - 1]), ps[|ps| - 1].0, ps[|ps| - 1].1)
  }

  /** A dict literal or comprehension built from the pairs `ps`, in order. */
  function FromPairs<V>(ps: seq<(string, V)>): seq<(string, V)>
  {
    Update([], ps)
  }

  /** Removing repetitions from a sequence without any changes nothing. */
  lemma {:induction false} DedupDistinct(s: seq<string>)
    requires Distinct(s)
    ensures Dedup(s) == s
  {
    if s != [] {
      DedupDistinct(s[..|s| - 1]);
    }
  }

  /**
   * Updating a dictionary keeps the old keys where they stand and appends the
   * new keys in the order of their first occurrence in `ps`.
   */
  lemma {:induction false} UpdateKeys<V>(d: seq<(string, V)>, ps: seq<(string, V)>)
    requires IsDict(d)
    ensures Keys(Update(d, ps)) == Dedup(Keys(d) + Keys(ps))
    ensures IsDict(Update(d, ps))
  {
    if ps == [] {
      assert Keys(d) + Keys(ps) == Keys(d);
      DedupDistinct(Keys(d));
    } else {
      var n := |ps|;
      var u := Update(d, ps[..n - 1]);
      var x := ps[n - 1].0;
      UpdateKeys(d, ps[..n - 1]);
      PutSemantics(u, x, ps[n - 1].1);
      assert Keys(ps) == Keys(ps[..n - 1]) + [x];
      assert Keys(d) + Keys(ps) == (Keys(d) + Keys(ps[..n - 1])) + [x];
      DedupSnoc(Keys(d) + Keys(ps[..n - 1]), x);
    }
  }

  /** The keys of one more entry of `d`. */
  lemma KeysPrefixSnoc<V>(d: seq<(string, V)>, n: nat)
    requires 0 < n <= |d|
    ensures Keys(d[..n]) == Keys(d[..n - 1]) + [d[n - 1].0]
  {
    assert d[..n][..n - 1] == d[..n - 1];
  }

  lemma AppendSnoc(a: seq<string>, b: seq<string>, x: string)
    ensures a + (b + [x]) == (a + b) + [x]
  {
  }

  /** Appending an element to a sequence appends it to the sequence's distinct elements, if new. */
  lemma DedupSnoc(s: seq<string>, x: string)
    ensures Dedup(s + [x]) == if x in Dedup(s) then Dedup(s) else Dedup(s) + [x]
  {
    var t := s + [x];
    assert t[..|t| - 1] == s;
  }

  /**
   * After `d.update(ps)`, a key of `ps` holds the value of its last pair in `ps`,
   * and every other key of `d` keeps its value.
   */
  lemma {:induction false} UpdateValues<V>(d: seq<(string, V)>, ps: seq<(string, V)>, k: string)
    requires HasKey(d, k) || HasKey(ps, k)
    ensures HasKey(Update(d, ps), k)
    ensures Lookup(Update(d, ps), k) == if HasKey(ps, k) then LastValue(ps, k) else Lookup(d, k)
  {
    if ps != [] {
      var n := |ps|;
      assert Keys(ps) == Keys(ps[..n - 1]) + [ps[n - 1].0];
      PutSemantics(Update(d, ps[..n - 1]), ps[n - 1].0, ps[n - 1].1);
      if ps[n - 1].0 != k {
        UpdateValues(d, ps[..n - 1], k);
      }
    }
  }

  /** A dict literal keeps each key once, at its first position, with its last value. */
  lemma FromPairsSemantics<V>(ps: seq<(string, V)>)
    ensures IsDict(FromPairs(ps))
    ensures Keys(FromPairs(ps)) == Dedup(Keys(ps))
    ensures forall k :: HasKey(ps, k) ==> HasKey(FromPairs(ps), k) && Lookup(FromPairs(ps), k) == LastValue(ps, k)
  {
    var empty: seq<(string, V)> := [];
    UpdateKeys(empty, ps);
    assert Keys(empty) + Keys(ps) == Keys(ps);
    forall k | HasKey(ps, k)
      ensures HasKey(FromPairs(ps), k) && Lookup(FromPairs(ps), k) == LastValue(ps, k)
    {
      UpdateValues([], ps, k);
    }
  }

  /**
   * Growing a prefix of a dictionary by one entry adds that entry's key, and a
   * key keeps the value of its first entry.
   */
  lemma LookupExtend<V>(d: seq<(string, V)>, j: nat, k: string)
    requires j < |d|
    ensures HasKey(d[..j + 1], k) <==> HasKey(d[..j], k) || d[j].0 == k
    ensures HasKey(d[..j + 1], k) ==>
      Lookup(d[..j + 1], k) == if HasKey(d[..j], k) then Lookup(d[..j], k) else d[j].1
  {
    var p, q := d[..j], d[..j + 1];
    assert Keys(q) == Keys(p) + [d[j].0];
    if HasKey(q, k) {
      if HasKey(p, k) {
        var i := IndexOf(p, k);
        IndexUnique(q, k, i);
      } else {
        IndexUnique(q, k, j);
      }
    }
  }

  /** Dedup keeps each element at its first occurrence: its elements appear in the order they first occur in `s`. */
  lemma {:induction false} DedupOrder(s: seq<string>, i: nat, j: nat)
    requires i < j < |Dedup(s)|
    ensures FirstIndex(s, Dedup(s)[i]) < FirstIndex(s, Dedup(s)[j])
  {
    var n := |s| - 1;
    var d := Dedup(s[..n]);
    assert Dedup(s)[i] == d[i];
    FirstIndexPrefix(s, n, d[i]);
    if j < |d| {
      assert Dedup(s)[j] == d[j];
      DedupOrder(s[..n], i, j);
      FirstIndexPrefix(s, n, d[j]);
    }
  }

  /** An element of a prefix first occurs where it first occurs in the prefix. */
  lemma FirstIndexPrefix<T>(s: seq<T>, n: nat, x: T)
    requires n <= |s| && x in s[..n]
    ensures FirstIndex(s, x) == FirstIndex(s[..n], x) < n
  {
    var p := FirstIndex(s[..n], x);
    var q := FirstIndex(s, x);
    assert s[p] == s[..n][p];
  }

  /** Assigning a key the value it was just given changes nothing. */
  lemma PutTwice<V>(d: seq<(string, V)>, k: string, v: V)
    ensures Put(Put(d, k, v), k, v) == Put(d, k, v)
  {
    var e := Put(d, k, v);
    assert HasKey(e, k) && Lookup(e, k) == v by {
      PutSemantics(d, k, v);
    }
    var i := IndexOf(e, k);
    assert e[i] == (k, v);
    Splice(e, i);
  }

  /** Cutting a sequence around one element and putting it back together gives the sequence. */
  lemma Splice<T>(s: seq<T>, i: nat)
    requires i < |s|
    ensures s[..i] + [s[i]] + s[i + 1..] == s
  {
  }

  /** `d.update(ps + qs)` is `d.update(ps)` followed by `.update(qs)`. */
  lemma {:induction false} UpdateConcat<V>(d: seq<(string, V)>, ps: seq<(string, V)>, qs: seq<(string, V)>)
    ensures Update(d, ps + qs) == Update(Update(d, ps), qs)
  {
    if qs != [] {
      var n := |qs| - 1;
      assert (ps + qs)[..|ps + qs| - 1] == ps + qs[..n];
      UpdateConcat(d, ps, qs[..n]);
    } else {
      assert ps + qs == ps;
    }
  }

  /** A dict literal that repeats an entry right after itself is the literal without the repetition. */
  lemma RepeatedEntry<V>(a: seq<(string, V)>, p: (string, V), b: seq<(string, V)>)
    ensures FromPairs(a + [p, p] + b) == FromPairs(a + [p] + b)
  {
    var e: seq<(string, V)> := [];
    assert Update(e, a + [p, p]) == Update(e, a + [p]) by {
      assert (a + [p, p])[..|a| + 1] == a + [p];
      assert (a + [p])[..|a|] == a;
      PutTwice(Update(e, a), p.0, p.1);
    }
    assert a + [p, p] + b == (a + [p, p]) + b;
    UpdateConcat(e, a + [p, p], b);
    UpdateConcat(e, a + [p], b);
  }

  /** A key that no later pair repeats keeps the value of its pair. */
  lemma {:induction false} LastValueBefore<V>(a: seq<(string, V)>, p: (string, V), b: seq<(string, V)>)
    requires !HasKey(b, p.0)
    ensures HasKey(a + [p] + b, p.0) && LastValue(a + [p] + b, p.0) == p.1
  {
    var s := a + [p] + b;
    assert Keys(s)[|a|] == p.0;
    if b != [] {
      var n := |b| - 1;
      assert s[..|s| - 1] == a + [p] + b[..n];
      assert s[|s| - 1] == b[n] && Keys(b)[n] == b[n].0;
      assert forall k :: k in Keys(b[..n]) ==> k in Keys(b) by {
        forall k | k in Keys(b[..n]) ensures k in Keys(b) {
          var j :| 0 <= j < n && Keys(b[..n])[j] == k;
          assert Keys(b)[j] == k;
        }
      }
      LastValueBefore(a, p, b[..n]);
    }
  }
}
