/**
 * A plain JavaScript object used as a counter (`Record<string, number>`), as both
 * quizzes build it, and the two things they do with it: `Object.entries` and a
 * `reduce` that keeps the entry with the larger count.
 *
 * An object is modelled by its own properties in creation order. `Object.entries`
 * enumerates them in the order of OrdinaryOwnPropertyKeys (section 10.1.11.1 of
 * ECMA-262, 2023 edition): first the keys that are array indices, in ascending
 * numeric order, then the other string keys in creation order. So `"1989"` is
 * listed before `"folklore"` even when it was created later.
 */
module EraTally {

  /** One own property: a key and its count. */
  datatype Entry = Entry(key: string, count: nat)

  /** The own properties of a counter object, in creation order. */
  type Tally = seq<Entry>

  /** Property keys of an object are unique. */
  predicate DistinctKeys(t: Tally) {
    forall i, j :: 0 <= i < j < |t| ==> t[i].key != t[j].key
  }

  function KeySet(t: Tally): set<string> {
    set e | e in t :: e.key
  }

  /** `t[k] || 0`: the count stored under `k`, or 0 when there is none. */
  function Get(t: Tally, k: string): nat {
    if t == [] then 0 else if t[0].key == k then t[0].count else Get(t[1..], k)
  }

  lemma {:induction false} GetAbsent(t: Tally, k: string)
    requires k !in KeySet(t)
    ensures Get(t, k) == 0
  {
    if t != [] {
      assert t[0] in t;
      assert KeySet(t[1..]) <= KeySet(t) by {
        forall e | e in t[1..] ensures e in t { }
      }
      GetAbsent(t[1..], k);
    }
  }

  /** In an object, the count read for a property's key is that property's count. */
  lemma {:induction false} GetMember(t: Tally, e: Entry)
    requires DistinctKeys(t) && e in t
    ensures Get(t, e.key) == e.count
  {
    if t[0] != e {
      var j :| 0 <= j < |t| && t[j] == e;
      assert j > 0;
      assert t[0].key != e.key;
      assert t[1..][j - 1] == e;
      GetMember(t[1..], e);
    }
  }

  /** The sum of all counts. */
  function Sum(t: Tally): nat {
    if t == [] then 0 else t[0].count + Sum(t[1..])
  }

  /**
   * `acc[k] = (acc[k] || 0) + 1`: an existing property is updated where it
   * stands, a new one is created at the end.
   */
  function Increment(t: Tally, k: string): Tally {
    if t == [] then [Entry(k, 1)]
    else if t[0].key == k then [Entry(k, t[0].count + 1)] + t[1..]
    else [t[0]] + Increment(t[1..], k)
  }

  /** Incrementing `k` adds one to the count of `k`, to no other count, and to the sum. */
  lemma {:induction false} IncrementCounts(t: Tally, k: string)
    ensures Get(Increment(t, k), k) == Get(t, k) + 1
    ensures forall k' :: k' != k ==> Get(Increment(t, k), k') == Get(t, k')
    ensures Sum(Increment(t, k)) == Sum(t) + 1
  {
    if t != [] && t[0].key != k {
      IncrementCounts(t[1..], k);
    }
  }

  /** Incrementing adds `k` to the keys. */
  lemma {:induction false} IncrementKeySet(t: Tally, k: string)
    ensures KeySet(Increment(t, k)) == KeySet(t) + {k}
  {
    if t != [] {
      assert t == [t[0]] + t[1..];
      assert KeySet(t) == {t[0].key} + KeySet(t[1..]);
      var r := Increment(t, k);
      assert r == [r[0]] + r[1..];
      assert KeySet(r) == {r[0].key} + KeySet(r[1..]);
      if t[0].key != k {
        IncrementKeySet(t[1..], k);
      }
    }
  }

  /** A key not yet present is created at the end with count 1. */
  lemma {:induction false} IncrementNewKey(t: Tally, k: string)
    requires k !in KeySet(t)
    ensures Increment(t, k) == t + [Entry(k, 1)]
  {
    if t != [] {
      assert t[0] in t;
      assert KeySet(t[1..]) <= KeySet(t) by {
        forall e | e in t[1..] ensures e in t { }
      }
      IncrementNewKey(t[1..], k);
      assert t == [t[0]] + t[1..];
    }
  }

  lemma {:induction false} HeadKeyNotInRest(t: Tally)
    requires DistinctKeys(t) && t != []
    ensures t[0].key !in KeySet(t[1..])
  {
  }

  /** A property whose key is not among the others' can be put in front. */
  lemma ConsDistinct(h: Entry, t: Tally)
    requires DistinctKeys(t) && h.key !in KeySet(t)
    ensures DistinctKeys([h] + t)
  {
    var r := [h] + t;
    forall i, j | 0 <= i < j < |r| ensures r[i].key != r[j].key {
      assert r[j] == t[j - 1] && r[j] in t;
      if i > 0 {
        assert r[i] == t[i - 1];
      }
    }
  }

  /** Dropping the first property keeps the keys distinct. */
  lemma TailDistinct(t: Tally)
    requires DistinctKeys(t) && t != []
    ensures DistinctKeys(t[1..])
  {
    forall i, j | 0 <= i < j < |t[1..]| ensures t[1..][i].key != t[1..][j].key {
      assert t[1..][i] == t[i + 1] && t[1..][j] == t[j + 1];
    }
  }

  /** Incrementing keeps the keys distinct. */
  lemma {:induction false} IncrementDistinct(t: Tally, k: string)
    requires DistinctKeys(t)
    ensures DistinctKeys(Increment(t, k))
  {
    if t != [] && t[0].key != k {
      TailDistinct(t);
      IncrementDistinct(t[1..], k);
      IncrementKeySet(t[1..], k);
      HeadKeyNotInRest(t);
      ConsDistinct(t[0], Increment(t[1..], k));
    }
  }

  /** The counter `xs.reduce((acc, x) => { acc[x] = (acc[x] || 0) + 1; ... }, {})`. */
  function TallyOf(xs: seq<string>): Tally {
    if xs == [] then [] else Increment(TallyOf(xs[..|xs| - 1]), xs[|xs| - 1])
  }

  /**
   * The counter of a list holds, under each key, the number of times it occurs in
   * the list; its keys are the list's elements and its counts sum to its length.
   */
  lemma {:induction false} TallyOfCounts(xs: seq<string>)
    ensures DistinctKeys(TallyOf(xs))
    ensures forall k :: Get(TallyOf(xs), k) == multiset(xs)[k]
    ensures Sum(TallyOf(xs)) == |xs|
    ensures KeySet(TallyOf(xs)) == set x | x in xs
  {
    if xs != [] {
      var init, last := xs[..|xs| - 1], xs[|xs| - 1];
      assert xs == init + [last];
      TallyOfCounts(init);
      IncrementCounts(TallyOf(init), last);
      IncrementKeySet(TallyOf(init), last);
      IncrementDistinct(TallyOf(init), last);
    }
  }

  // ---- Key enumeration order (OrdinaryOwnPropertyKeys) ----

  predicate IsDigit(c: char) {
    '0' <= c <= '9'
  }

  predicate AllDigits(s: string) {
    forall i :: 0 <= i < |s| ==> IsDigit(s[i])
  }

  /** The value of a string of decimal digits (0 for any other character). */
  function DecimalValue(s: string): nat {
    if s == [] then 0
    else
      var c := s[|s| - 1];
      DecimalValue(s[..|s| - 1]) * 10 + (if IsDigit(c) then c as int - '0' as int else 0)
  }

  /**
   * An array index: the canonical decimal form (no sign, no leading zero) of an
   * integer from 0 to 2^32 - 2.
   */
  predicate IsArrayIndex(k: string) {
    0 < |k| && AllDigits(k) && (k[0] != '0' || |k| == 1) && DecimalValue(k) <= 0xFFFF_FFFE
  }

  /** The numeric value of an array-index key; string keys rank 0 and are never compared. */
  function Rank(k: string): nat {
    if IsArrayIndex(k) then DecimalValue(k) else 0
  }

  predicate SortedByRank(s: seq<Entry>) {
    forall i, j :: 0 <= i < j < |s| ==> Rank(s[i].key) <= Rank(s[j].key)
  }

  /** The array-index properties, in creation order. */
  function IndexEntries(t: Tally): seq<Entry> {
    if t == [] then []
    else (if IsArrayIndex(t[0].key) then [t[0]] else []) + IndexEntries(t[1..])
  }

  /** The other string-keyed properties, in creation order. */
  function StringEntries(t: Tally): seq<Entry> {
    if t == [] then []
    else (if IsArrayIndex(t[0].key) then [] else [t[0]]) + StringEntries(t[1..])
  }

  /** The two groups together are the object's properties; each group has only its kind of key. */
  lemma {:induction false} SplitProperties(t: Tally)
    ensures multiset(IndexEntries(t)) + multiset(StringEntries(t)) == multiset(t)
    ensures forall e :: e in IndexEntries(t) ==> IsArrayIndex(e.key)
    ensures forall e :: e in StringEntries(t) ==> !IsArrayIndex(e.key)
  {
    if t != [] {
      SplitProperties(t[1..]);
      assert t == [t[0]] + t[1..];
    }
  }

  function InsertByRank(e: Entry, s: seq<Entry>): seq<Entry> {
    if s == [] then [e]
    else if Rank(e.key) <= Rank(s[0].key) then [e] + s
    else [s[0]] + InsertByRank(e, s[1..])
  }

  lemma {:induction false} InsertByRankPermutes(e: Entry, s: seq<Entry>)
    ensures multiset(InsertByRank(e, s)) == multiset(s) + multiset{e}
  {
    if s != [] {
      assert s == [s[0]] + s[1..];
      if Rank(e.key) > Rank(s[0].key) {
        var rest := InsertByRank(e, s[1..]);
        assert InsertByRank(e, s) == [s[0]] + rest;
        InsertByRankPermutes(e, s[1..]);
        assert multiset([s[0]] + rest) == multiset{s[0]} + multiset(rest);
      } else {
        assert InsertByRank(e, s) == [e] + s;
      }
    }
  }

  /** Whatever `InsertByRank` places after the head of a list came from its tail or is `e`. */
  lemma InsertedFrom(e: Entry, s: seq<Entry>, x: Entry)
    requires x in InsertByRank(e, s)
    ensures x == e || x in s
  {
    InsertByRankPermutes(e, s);
    assert x in multiset(InsertByRank(e, s));
  }

  lemma {:induction false} InsertByRankSorted(e: Entry, s: seq<Entry>)
    requires SortedByRank(s)
    ensures SortedByRank(InsertByRank(e, s))
  {
    if s != [] && Rank(e.key) > Rank(s[0].key) {
      var rest := InsertByRank(e, s[1..]);
      assert SortedByRank(s[1..]) by {
        forall i, j | 0 <= i < j < |s[1..]| ensures Rank(s[1..][i].key) <= Rank(s[1..][j].key) {
          assert s[1..][i] == s[i + 1] && s[1..][j] == s[j + 1];
        }
      }
      InsertByRankSorted(e, s[1..]);
      var r := [s[0]] + rest;
      assert InsertByRank(e, s) == r;
      forall j | 0 < j < |r| ensures Rank(s[0].key) <= Rank(r[j].key) {
        assert r[j] == rest[j - 1];
        InsertedFrom(e, s[1..], r[j]);
        if r[j] != e {
          var m :| 0 <= m < |s[1..]| && s[1..][m] == r[j];
          assert s[m + 1] == r[j];
        }
      }
    }
  }

  /** Insertion sort of properties by rank. */
  function SortByRank(s: seq<Entry>): seq<Entry> {
    if s == [] then [] else InsertByRank(s[0], SortByRank(s[1..]))
  }

  lemma {:induction false} SortByRankSpec(s: seq<Entry>)
    ensures multiset(SortByRank(s)) == multiset(s)
    ensures SortedByRank(SortByRank(s))
  {
    if s != [] {
      SortByRankSpec(s[1..]);
      InsertByRankPermutes(s[0], SortByRank(s[1..]));
      InsertByRankSorted(s[0], SortByRank(s[1..]));
      assert s == [s[0]] + s[1..];
    }
  }

  /** `Object.entries(t)`: array-index keys ascending, then the others in creation order. */
  function Entries(t: Tally): seq<Entry> {
    SortByRank(IndexEntries(t)) + StringEntries(t)
  }

  /** `Object.entries` lists every property once. */
  lemma EntriesPermutation(t: Tally)
    ensures multiset(Entries(t)) == multiset(t) && |Entries(t)| == |t|
  {
    SplitProperties(t);
    SortByRankSpec(IndexEntries(t));
    assert |Entries(t)| == |multiset(Entries(t))|;
  }

  lemma SortedIndexKeys(t: Tally)
    ensures forall e :: e in SortByRank(IndexEntries(t)) ==> IsArrayIndex(e.key)
    ensures SortedByRank(SortByRank(IndexEntries(t)))
  {
    SplitProperties(t);
    SortByRankSpec(IndexEntries(t));
    forall e | e in SortByRank(IndexEntries(t)) ensures IsArrayIndex(e.key) {
      assert e in multiset(IndexEntries(t));
    }
  }

  /** Sorted array-index entries followed by string entries are in enumeration order. */
  lemma {:induction false} GroupedOrder(ix: seq<Entry>, st: seq<Entry>)
    requires forall e :: e in ix ==> IsArrayIndex(e.key)
    requires forall e :: e in st ==> !IsArrayIndex(e.key)
    requires SortedByRank(ix)
    ensures forall i, j :: 0 <= i < j < |ix + st| && !IsArrayIndex((ix + st)[i].key) ==>
              !IsArrayIndex((ix + st)[j].key)
    ensures forall i, j :: 0 <= i < j < |ix + st| && IsArrayIndex((ix + st)[j].key) ==>
              IsArrayIndex((ix + st)[i].key) && Rank((ix + st)[i].key) <= Rank((ix + st)[j].key)
  {
    var r := ix + st;
    forall i | 0 <= i < |r|
      ensures IsArrayIndex(r[i].key) <==> i < |ix|
    {
      if i < |ix| {
        assert r[i] == ix[i] && ix[i] in ix;
      } else {
        assert r[i] == st[i - |ix|] && st[i - |ix|] in st;
      }
    }
    forall i, j | 0 <= i < j < |ix|
      ensures Rank(r[i].key) <= Rank(r[j].key)
    {
      assert r[i] == ix[i] && r[j] == ix[j];
    }
  }

  /**
   * In `Object.entries` every array-index key comes before every other key, and
   * array-index keys come in ascending numeric order.
   */
  lemma EntriesOrder(t: Tally)
    ensures forall i, j :: 0 <= i < j < |Entries(t)| && !IsArrayIndex(Entries(t)[i].key) ==>
              !IsArrayIndex(Entries(t)[j].key)
    ensures forall i, j :: 0 <= i < j < |Entries(t)| && IsArrayIndex(Entries(t)[j].key) ==>
              IsArrayIndex(Entries(t)[i].key) && Rank(Entries(t)[i].key) <= Rank(Entries(t)[j].key)
  {
    SplitProperties(t);
    SortedIndexKeys(t);
    GroupedOrder(SortByRank(IndexEntries(t)), StringEntries(t));
  }

  // ---- The reduction ----

  /** No entry after position `j` reaches its count. */
  predicate LastMaximal(es: seq<Entry>, j: nat)
    requires j < |es|
  {
    forall i :: j < i < |es| ==> es[i].count < es[j].count
  }

  /**
   * `es.reduce((a, b) => a.count > b.count ? a : b)` with no initial value:
   * a later entry replaces the kept one unless the kept one is strictly larger.
   * The result has the maximal count and no later entry ties with it.
   */
  function ReduceMax(es: seq<Entry>): (r: Entry)
    requires |es| > 0
    ensures r in es
    ensures forall e :: e in es ==> e.count <= r.count
    ensures exists j :: 0 <= j < |es| && es[j] == r && LastMaximal(es, j)
  {
    if |es| == 1 then es[0]
    else
      var init := es[..|es| - 1];
      var a := ReduceMax(init);
      var b := es[|es| - 1];
      assert es == init + [b];
      if a.count > b.count then
        var j :| 0 <= j < |init| && init[j] == a && LastMaximal(init, j);
        assert LastMaximal(es, j);
        a
      else
        assert LastMaximal(es, |es| - 1);
        b
  }

  /**
   * The dominant key of a non-empty counter: the key `Object.entries(t).reduce(...)`
   * yields. An empty counter makes `reduce` throw, hence the precondition.
   */
  function Dominant(t: Tally): string
    requires |t| > 0
  {
    EntriesPermutation(t);
    ReduceMax(Entries(t)).key
  }

  /**
   * The dominant key is a key of the counter with the maximal count, and it is the
   * last entry, in enumeration order, with that count: a tie goes to the later entry.
   */
  lemma DominantIsLastMaximal(t: Tally)
    requires DistinctKeys(t) && |t| > 0
    ensures Dominant(t) in KeySet(t)
    ensures forall k :: Get(t, k) <= Get(t, Dominant(t))
    ensures exists j :: 0 <= j < |Entries(t)| && Entries(t)[j].key == Dominant(t) && LastMaximal(Entries(t), j)
  {
    EntriesPermutation(t);
    var es := Entries(t);
    var r := ReduceMax(es);
    assert r in multiset(t);
    GetMember(t, r);
    forall k ensures Get(t, k) <= Get(t, r.key) {
      if k in KeySet(t) {
        var e :| e in t && e.key == k;
        GetMember(t, e);
        assert e in multiset(es);
      } else {
        GetAbsent(t, k);
      }
    }
  }

  /** When `k` is the only array-index key, `Object.entries` lists it first. */
  lemma {:induction false} SoleIndexKeyFirst(t: Tally, k: string)
    requires DistinctKeys(t) && k in KeySet(t) && IsArrayIndex(k)
    requires forall e :: e in t && e.key != k ==> !IsArrayIndex(e.key)
    ensures |Entries(t)| > 0 && Entries(t)[0].key == k
  {
    EntriesPermutation(t);
    EntriesOrder(t);
    var es := Entries(t);
    var e :| e in t && e.key == k;
    assert e in multiset(es);
    var j :| 0 <= j < |es| && es[j] == e;
    if j > 0 {
      assert IsArrayIndex(es[0].key);
      assert es[0] in multiset(t);
      assert es[0].key == k;
      // two entries with key k in t contradict DistinctKeys
      var a :| 0 <= a < |t| && t[a] == es[0];
      var b :| 0 <= b < |t| && t[b] == e;
      assert a == b;
    }
  }
}
