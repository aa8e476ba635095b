/**
 * The order in which `Object.keys` and `Object.entries` list a plain object's
 * own keys. An object is written as its entries in insertion order; the
 * enumeration lists the array-index keys first, in ascending numeric order,
 * then every other key in insertion order.
 */
module JsObjects {
  import opened Js

  const MaxArrayIndex: nat := 0xFFFF_FFFE

  /** A key that enumerates as an array index: canonical decimal, below 2^32 - 1. */
  predicate IsArrayIndex(k: string)
  {
    && |k| > 0
    && (forall i :: 0 <= i < |k| ==> IsDigit(k[i]))
    && (k == "0" || k[0] != '0')
    && DigitsValue(k) <= MaxArrayIndex
  }

  /** The numeric value of an array-index key (0 for any other key). */
  function IndexValue(k: string): nat
  {
    if IsArrayIndex(k) then DigitsValue(k) else 0
  }

  predicate SortedByIndex<V>(s: seq<(string, V)>)
  {
    forall i, j :: 0 <= i < j < |s| ==> IndexValue(s[i].0) <= IndexValue(s[j].0)
  }

  function InsertByIndex<V(!new)>(e: (string, V), s: seq<(string, V)>): (r: seq<(string, V)>)
    ensures multiset(r) == multiset(s) + multiset{e}
  {
    if |s| == 0 then [e]
    else if IndexValue(e.0) <= IndexValue(s[0].0) then [e] + s
    else
      assert s == [s[0]] + s[1..];
      [s[0]] + InsertByIndex(e, s[1..])
  }

  /** Inserting into a sorted list keeps it sorted. */
  lemma {:induction false} InsertKeepsSorted<V(!new)>(e: (string, V), s: seq<(string, V)>)
    requires SortedByIndex(s)
    ensures SortedByIndex(InsertByIndex(e, s))
    decreases |s|
  {
    if |s| > 0 && IndexValue(e.0) > IndexValue(s[0].0) {
      InsertKeepsSorted(e, s[1..]);
      InsertedAbove(e, s, InsertByIndex(e, s[1..]));
    }
  }

  lemma InsertedAbove<V(!new)>(e: (string, V), s: seq<(string, V)>, tail: seq<(string, V)>)
    requires |s| > 0 && SortedByIndex(s) && IndexValue(s[0].0) < IndexValue(e.0)
    requires SortedByIndex(tail) && multiset(tail) == multiset(s[1..]) + multiset{e}
    ensures SortedByIndex([s[0]] + tail)
  {
    forall x | x in tail ensures IndexValue(s[0].0) <= IndexValue(x.0) {
      assert x in multiset(tail);
      if x != e {
        assert x in s[1..];
      }
    }
    var r := [s[0]] + tail;
    forall i, j | 0 <= i < j < |r| ensures IndexValue(r[i].0) <= IndexValue(r[j].0) {
      if i > 0 {
        assert r[i] == tail[i - 1] && r[j] == tail[j - 1];
      } else {
        assert r[j] == tail[j - 1] && r[j] in tail;
      }
    }
  }

  /** Insertion sort of entries by the numeric value of their keys. */
  function SortByIndex<V(!new)>(s: seq<(string, V)>): (r: seq<(string, V)>)
    ensures multiset(r) == multiset(s)
  {
    if |s| == 0 then []
    else
      assert s == [s[0]] + s[1..];
      InsertByIndex(s[0], SortByIndex(s[1..]))
  }

  /** The sort orders its entries by index value. */
  lemma {:induction false} SortIsSorted<V(!new)>(s: seq<(string, V)>)
    ensures SortedByIndex(SortByIndex(s))
    decreases |s|
  {
    if |s| > 0 {
      SortIsSorted(s[1..]);
      InsertKeepsSorted(s[0], SortByIndex(s[1..]));
    }
  }

  /** The entries whose key is (`index` true) or is not (`index` false) an array index, in order. */
  function FilterByIndex<V(!new)>(s: seq<(string, V)>, index: bool): seq<(string, V)>
  {
    if |s| == 0 then []
    else if IsArrayIndex(s[0].0) == index then [s[0]] + FilterByIndex(s[1..], index)
    else FilterByIndex(s[1..], index)
  }

  /** The filter keeps every entry of the kind it selects. */
  lemma {:induction false} FilterKeeps<V(!new)>(s: seq<(string, V)>, index: bool, j: nat)
    requires j < |s| && IsArrayIndex(s[j].0) == index
    ensures s[j] in FilterByIndex(s, index)
    decreases |s|
  {
    if j > 0 {
      FilterKeeps(s[1..], index, j - 1);
    }
  }

  /** The filter keeps only entries of the kind it selects. */
  lemma {:induction false} FilterSelects<V(!new)>(s: seq<(string, V)>, index: bool, k: nat)
    requires k < |FilterByIndex(s, index)|
    ensures IsArrayIndex(FilterByIndex(s, index)[k].0) == index
    decreases |s|
  {
    if IsArrayIndex(s[0].0) == index {
      if k > 0 {
        FilterSelects(s[1..], index, k - 1);
      }
    } else {
      FilterSelects(s[1..], index, k);
    }
  }

  lemma {:induction false} FilterSplitsMultiset<V(!new)>(s: seq<(string, V)>)
    ensures multiset(FilterByIndex(s, true)) + multiset(FilterByIndex(s, false)) == multiset(s)
  {
    if |s| > 0 {
      assert s == [s[0]] + s[1..];
      FilterSplitsMultiset(s[1..]);
    }
  }

  /** `Object.entries(o)`: the index-keyed entries in ascending order, then the others in insertion order. */
  function Entries<V(!new)>(o: seq<(string, V)>): (r: seq<(string, V)>)
    ensures forall x :: x in r <==> x in o
  {
    FilterSplitsMultiset(o);
    var r := SortByIndex(FilterByIndex(o, true)) + FilterByIndex(o, false);
    assert forall x :: x in r <==> x in multiset(r);
    r
  }

  /** `Object.entries` reorders the entries but keeps every one of them. */
  lemma EntriesArePermutation<V(!new)>(o: seq<(string, V)>)
    ensures multiset(Entries(o)) == multiset(o)
  {
    FilterSplitsMultiset(o);
  }

  /** The entries of `o` with their values dropped: all that `Object.keys` reads. */
  function KeyEntries<V>(o: seq<(string, V)>): (r: seq<(string, ())>)
    ensures |r| == |o|
    ensures forall i :: 0 <= i < |o| ==> r[i] == (o[i].0, ())
  {
    seq(|o|, i requires 0 <= i < |o| => (o[i].0, ()))
  }

  /** `Object.keys(o)` */
  function Keys<V>(o: seq<(string, V)>): (ks: seq<string>)
    ensures |ks| == |o|
  {
    var es := Entries(KeyEntries(o));
    EntriesArePermutation(KeyEntries(o));
    assert |es| == |multiset(es)| == |multiset(KeyEntries(o))| == |o|;
    seq(|es|, i requires 0 <= i < |es| => es[i].0)
  }

  /** The `i`-th key is the key of the `i`-th entry. */
  lemma KeysAt<V(!new)>(o: seq<(string, V)>, i: nat)
    requires i < |o|
    ensures |Entries(o)| == |o| && Keys(o)[i] == Entries(o)[i].0
  {
    EntriesOfKeys(o);
    EntriesArePermutation(o);
    assert |Entries(o)| == |multiset(Entries(o))|;
  }

  /** Enumerating an object and then dropping the values is dropping the values and then enumerating. */
  lemma EntriesOfKeys<V(!new)>(o: seq<(string, V)>)
    ensures Entries(KeyEntries(o)) == KeyEntries(Entries(o))
  {
    var idx, rest := FilterByIndex(o, true), FilterByIndex(o, false);
    FilterKeys(o, true);
    FilterKeys(o, false);
    SortKeys(idx);
    KeyEntriesAppend(SortByIndex(idx), rest);
  }

  lemma KeyEntriesAppend<V>(a: seq<(string, V)>, b: seq<(string, V)>)
    ensures KeyEntries(a + b) == KeyEntries(a) + KeyEntries(b)
  {
  }

  lemma {:induction false} FilterKeys<V(!new)>(s: seq<(string, V)>, index: bool)
    ensures FilterByIndex(KeyEntries(s), index) == KeyEntries(FilterByIndex(s, index))
    decreases |s|
  {
    if |s| > 0 {
      var ks := KeyEntries(s);
      var rest := FilterByIndex(s[1..], index);
      assert FilterByIndex(ks[1..], index) == KeyEntries(rest) by {
        FilterKeys(s[1..], index);
        assert ks[1..] == KeyEntries(s[1..]);
      }
      if IsArrayIndex(s[0].0) == index {
        KeyEntriesAppend([s[0]], rest);
      }
    }
  }

  lemma {:induction false} SortKeys<V(!new)>(s: seq<(string, V)>)
    ensures SortByIndex(KeyEntries(s)) == KeyEntries(SortByIndex(s))
    decreases |s|
  {
    if |s| > 0 {
      var ks := KeyEntries(s);
      calc {
        SortByIndex(ks);
        InsertByIndex(ks[0], SortByIndex(ks[1..]));
        { assert ks[1..] == KeyEntries(s[1..]); }
        InsertByIndex((s[0].0, ()), SortByIndex(KeyEntries(s[1..])));
        { SortKeys(s[1..]); }
        InsertByIndex((s[0].0, ()), KeyEntries(SortByIndex(s[1..])));
        { InsertKeys(s[0], SortByIndex(s[1..])); }
        KeyEntries(InsertByIndex(s[0], SortByIndex(s[1..])));
        KeyEntries(SortByIndex(s));
      }
    }
  }

  lemma {:induction false} InsertKeys<V(!new)>(e: (string, V), s: seq<(string, V)>)
    ensures InsertByIndex((e.0, ()), KeyEntries(s)) == KeyEntries(InsertByIndex(e, s))
    decreases |s|
  {
    var ks := KeyEntries(s);
    if |s| == 0 {
    } else if IndexValue(e.0) > IndexValue(s[0].0) {
      var tail := InsertByIndex(e, s[1..]);
      assert InsertByIndex((e.0, ()), ks) == [ks[0]] + KeyEntries(tail) by {
        InsertKeys(e, s[1..]);
        assert ks[1..] == KeyEntries(s[1..]);
      }
      KeyEntriesAppend([s[0]], tail);
    } else {
      KeyEntriesAppend([e], s);
    }
  }

  /** `o[k]`: the value stored under own key `k` (the first entry with that key). */
  function Get<V>(o: seq<(string, V)>, k: string): (r: Option<V>)
    ensures r.Some? <==> exists i :: 0 <= i < |o| && o[i].0 == k
    ensures r.Some? ==> (k, r.value) in o
  {
    if |o| == 0 then None
    else if o[0].0 == k then Some(o[0].1)
    else
      var r := Get(o[1..], k);
      assert forall i :: 1 <= i < |o| ==> o[i] == o[1..][i - 1];
      r
  }

  /** Every key `Object.keys` lists has a value: `o[Object.keys(o)[i]]` is defined. */
  lemma KeysAreOwn<V(!new)>(o: seq<(string, V)>, i: nat)
    requires i < |Keys(o)|
    ensures Get(o, Keys(o)[i]).Some?
  {
    KeysAt(o, i);
    var e := Entries(o)[i];
    assert e in Entries(o);
    var j :| 0 <= j < |o| && o[j] == e;
  }

  /** Any key `Object.keys` lists has a value. */
  lemma ListedKeyIsOwn<V(!new)>(o: seq<(string, V)>, k: string)
    requires k in Keys(o)
    ensures Get(o, k).Some?
  {
    var i :| 0 <= i < |Keys(o)| && Keys(o)[i] == k;
    KeysAreOwn(o, i);
  }

  /** An object with no array-index key enumerates in insertion order. */
  lemma {:induction false} EntriesWithoutIndexKeys<V(!new)>(o: seq<(string, V)>)
    requires forall i :: 0 <= i < |o| ==> !IsArrayIndex(o[i].0)
    ensures Entries(o) == o
  {
    FilterWithoutIndexKeys(o);
  }

  lemma {:induction false} FilterWithoutIndexKeys<V(!new)>(o: seq<(string, V)>)
    requires forall i :: 0 <= i < |o| ==> !IsArrayIndex(o[i].0)
    ensures FilterByIndex(o, true) == [] && FilterByIndex(o, false) == o
  {
    if |o| > 0 {
      FilterWithoutIndexKeys(o[1..]);
    }
  }

  /**
   * When some key is an array index, `Object.keys` lists first the index key
   * of least numeric value.
   */
  lemma FirstKeyIsLeastIndex<V(!new)>(o: seq<(string, V)>, j: nat)
    requires j < |o| && IsArrayIndex(o[j].0)
    ensures |Keys(o)| > 0 && IsArrayIndex(Keys(o)[0])
    ensures IndexValue(Keys(o)[0]) <= IndexValue(o[j].0)
    ensures exists i :: 0 <= i < |o| && o[i].0 == Keys(o)[0]
  {
    var idx := FilterByIndex(o, true);
    FilterKeeps(o, true, j);
    var sorted := SortByIndex(idx);
    SortIsSorted(idx);
    assert o[j] in multiset(sorted);
    var k :| 0 <= k < |sorted| && sorted[k] == o[j];
    assert sorted[0] in multiset(idx);
    var m :| 0 <= m < |idx| && idx[m] == sorted[0];
    FilterSelects(o, true, m);
    assert Entries(o)[0] == sorted[0];
    KeysAt(o, 0);
    EntriesArePermutation(o);
    assert sorted[0] in multiset(o);
    assert sorted[0] in o;
  }
}
