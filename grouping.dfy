/**
 * Grouping by key, the way metricsCalculator.ts fills a `Map` or a `Record` of
 * counters inside `forEach`: per key, how many records fell under it and the
 * sum of one of their amounts. A `Map` lists its keys in order of first
 * insertion (`KeysOf`); `Object.entries` on a `Record` lists the keys that are
 * array indices first, in ascending numeric order, and then the others in
 * order of first insertion (`RecordKeys`).
 * A record whose key is `None` is skipped (the `if (vendor)` and early-return
 * guards of the per-vendor counters).
 */
module Grouping {
  import opened Common

  /** The counter a map holds for one key. */
  datatype Bucket = Bucket(count: nat, total: int)

  /** Number of records that `key` files under `v`. */
  function CountFor<T, K(==)>(xs: seq<T>, key: T -> Option<K>, v: K): (n: nat)
    ensures n <= |xs|
  {
    if xs == [] then 0
    else CountFor(xs[..|xs| - 1], key, v) + (if key(xs[|xs| - 1]) == Some(v) then 1 else 0)
  }

  /** Sum of `amount` over the records that `key` files under `v`. */
  function SumFor<T, K(==)>(xs: seq<T>, key: T -> Option<K>, amount: T -> int, v: K): int {
    if xs == [] then 0
    else
      SumFor(xs[..|xs| - 1], key, amount, v)
      + (if key(xs[|xs| - 1]) == Some(v) then amount(xs[|xs| - 1]) else 0)
  }

  /** The keys in order of first appearance: the iteration order of the filled map. */
  function KeysOf<T, K(==)>(xs: seq<T>, key: T -> Option<K>): seq<K> {
    if xs == [] then []
    else
      var ks := KeysOf(xs[..|xs| - 1], key);
      var k := key(xs[|xs| - 1]);
      if k.None? || k.value in ks then ks else ks + [k.value]
  }

  /**
   * A property key that is an array index: the canonical decimal form of an
   * integer below 2^32 - 1 (digits only, no leading zero except "0" itself).
   */
  predicate IsIndexKey(k: string) {
    |k| > 0 && (forall i :: 0 <= i < |k| ==> IsDigit(k[i]))
    && (k[0] != '0' || |k| == 1)
    && DigitsValue(k) < 0xFFFF_FFFF
  }

  predicate NotIndexKey(k: string) {
    !IsIndexKey(k)
  }

  /** Sorting descending by this rank puts index keys in ascending numeric order. */
  function IndexRank(k: string): int {
    if IsIndexKey(k) then -(DigitsValue(k) as int) else 0
  }

  /**
   * The order `Object.entries` lists the keys of a `Record` filled in order
   * `ks`: the array-index keys first, ascending, then the rest as inserted.
   */
  function RecordKeys(ks: seq<string>): (r: seq<string>)
    ensures multiset(r) == multiset(ks)
    ensures |r| == |ks|
  {
    FilterPartition(ks, IsIndexKey, NotIndexKey);
    var r := SortDesc(Filter(ks, IsIndexKey), IndexRank) + Filter(ks, NotIndexKey);
    assert |r| == |multiset(r)| == |multiset(ks)| == |ks|;
    r
  }

  /**
   * The key order of `RecordKeys`: no index key follows another key, the index
   * keys ascend, and the other keys keep the order in which they were inserted.
   */
  lemma RecordKeysOrder(ks: seq<string>)
    ensures var r := RecordKeys(ks);
      forall i, j :: 0 <= i < j < |r| && IsIndexKey(r[j]) ==> IsIndexKey(r[i])
    ensures var r := RecordKeys(ks);
      forall i, j :: 0 <= i < j < |r| && IsIndexKey(r[i]) && IsIndexKey(r[j]) ==> DigitsValue(r[i]) <= DigitsValue(r[j])
    ensures Filter(RecordKeys(ks), NotIndexKey) == Filter(ks, NotIndexKey)
  {
    var a := SortDesc(Filter(ks, IsIndexKey), IndexRank);
    var b := Filter(ks, NotIndexKey);
    var r := RecordKeys(ks);
    IndexKeysSorted(ks, a);
    RecordKeysParts(ks, a, b);
    forall i, j | 0 <= i < j < |r| && IsIndexKey(r[i]) && IsIndexKey(r[j])
      ensures DigitsValue(r[i]) <= DigitsValue(r[j])
    {
      assert r[i] == a[i] && r[j] == a[j];
    }
    FilterAppend(a, b, NotIndexKey);
    FilterNone(a, NotIndexKey);
    FilterAll(b, NotIndexKey);
  }

  /** The record's keys are the sorted index keys followed by the others. */
  lemma RecordKeysParts(ks: seq<string>, a: seq<string>, b: seq<string>)
    requires a == SortDesc(Filter(ks, IsIndexKey), IndexRank) && b == Filter(ks, NotIndexKey)
    requires forall i :: 0 <= i < |a| ==> IsIndexKey(a[i])
    ensures RecordKeys(ks) == a + b
    ensures forall i :: 0 <= i < |b| ==> !IsIndexKey(b[i])
    ensures forall i :: 0 <= i < |a| ==> RecordKeys(ks)[i] == a[i]
    ensures forall i :: 0 <= i < |RecordKeys(ks)| ==> (IsIndexKey(RecordKeys(ks)[i]) <==> i < |a|)
  {
    var r := RecordKeys(ks);
    forall i | 0 <= i < |b| ensures !IsIndexKey(b[i]) {
      assert b[i] in b;
    }
    forall i | 0 <= i < |r| ensures IsIndexKey(r[i]) <==> i < |a| {
      if i < |a| {
        assert r[i] == a[i];
      } else {
        assert r[i] == b[i - |a|];
      }
    }
  }

  /** The index keys of `ks`, sorted: all index keys, in ascending numeric order. */
  lemma IndexKeysSorted(ks: seq<string>, a: seq<string>)
    requires a == SortDesc(Filter(ks, IsIndexKey), IndexRank)
    ensures forall i :: 0 <= i < |a| ==> IsIndexKey(a[i])
    ensures forall i, j :: 0 <= i < j < |a| ==> DigitsValue(a[i]) <= DigitsValue(a[j])
  {
    SortDescSameElements(Filter(ks, IsIndexKey), IndexRank);
    SortDescSorted(Filter(ks, IsIndexKey), IndexRank);
    forall i | 0 <= i < |a| ensures IsIndexKey(a[i]) {
      assert a[i] in a;
    }
    forall i, j | 0 <= i < j < |a| ensures DigitsValue(a[i]) <= DigitsValue(a[j]) {
      assert IndexRank(a[i]) >= IndexRank(a[j]);
    }
  }

  /** Numeric keys go ahead of the others, whatever the order of insertion. */
  lemma RecordKeysExample()
    ensures RecordKeys(["Precio alto", "2"]) == ["2", "Precio alto"]
  {
    assert !IsDigit('P');
    assert IsIndexKey("2");
  }

  /** With no array-index key among them, the keys keep their insertion order. */
  lemma RecordKeysPlain(ks: seq<string>)
    requires forall i :: 0 <= i < |ks| ==> !IsIndexKey(ks[i])
    ensures RecordKeys(ks) == ks
  {
    FilterNone(ks, IsIndexKey);
    FilterAll(ks, NotIndexKey);
  }

  /** Number of records that have a key at all. */
  function Keyed<T, K(==)>(xs: seq<T>, key: T -> Option<K>): (n: nat)
    ensures n <= |xs|
  {
    if xs == [] then 0
    else Keyed(xs[..|xs| - 1], key) + (if key(xs[|xs| - 1]).Some? then 1 else 0)
  }

  /** Number of records whose key is one of `ks`. */
  function KeyedIn<T, K(==)>(xs: seq<T>, key: T -> Option<K>, ks: seq<K>): (n: nat)
    ensures n <= |xs|
  {
    if xs == [] then 0
    else
      var k := key(xs[|xs| - 1]);
      KeyedIn(xs[..|xs| - 1], key, ks) + (if k.Some? && k.value in ks then 1 else 0)
  }

  /** The counts of the keys `ks`, added up. */
  function CountOver<T, K(==)>(xs: seq<T>, key: T -> Option<K>, ks: seq<K>): int {
    if ks == [] then 0 else CountFor(xs, key, ks[0]) + CountOver(xs, key, ks[1..])
  }

  /** The value in `m` under `v`, or the empty counter when there is none. */
  function BucketAt<K>(m: map<K, Bucket>, v: K): Bucket {
    if v in m then m[v] else Bucket(0, 0)
  }

  /**
   * `xs.forEach(x => { const e = map.get(k) || {count: 0, total: 0};
   * map.set(k, {count: e.count + 1, total: e.total + amount(x)}) })`.
   */
  method Tally<T, K(==)>(xs: seq<T>, key: T -> Option<K>, amount: T -> int)
    returns (keys: seq<K>, m: map<K, Bucket>)
    ensures keys == KeysOf(xs, key)
    ensures forall v :: v in m <==> v in keys
    ensures forall v :: BucketAt(m, v) == Bucket(CountFor(xs, key, v), SumFor(xs, key, amount, v))
  {
    keys, m := [], map[];
    var i := 0;
    while i < |xs|
      invariant 0 <= i <= |xs|
      invariant keys == KeysOf(xs[..i], key)
      invariant forall v :: v in m <==> v in keys
      invariant forall v :: BucketAt(m, v) == Bucket(CountFor(xs[..i], key, v), SumFor(xs[..i], key, amount, v))
    {
      var x := xs[i];
      assert xs[..i + 1][..i] == xs[..i];
      assert xs[..i + 1][i] == x;
      var k := key(x);
      if k.Some? {
        var b := BucketAt(m, k.value);
        m := m[k.value := Bucket(b.count + 1, b.total + amount(x))];
        if k.value !in keys {
          keys := keys + [k.value];
        }
      }
      i := i + 1;
    }
    assert xs[..|xs|] == xs;
  }

  /** Each key is listed once. */
  lemma {:induction false} KeysOfDistinct<T, K>(xs: seq<T>, key: T -> Option<K>)
    ensures Distinct(KeysOf(xs, key))
  {
    if xs != [] {
      KeysOfDistinct(xs[..|xs| - 1], key);
    }
  }

  /** A key is listed exactly when some record falls under it. */
  lemma {:induction false} KeysOfMember<T, K>(xs: seq<T>, key: T -> Option<K>, v: K)
    ensures v in KeysOf(xs, key) <==> CountFor(xs, key, v) > 0
  {
    if xs != [] {
      KeysOfMember(xs[..|xs| - 1], key, v);
    }
  }

  /** Keys of an empty input: none. */
  lemma {:induction false} KeysOfEmpty<T, K>(xs: seq<T>, key: T -> Option<K>)
    ensures KeysOf(xs, key) == [] <==> Keyed(xs, key) == 0
  {
    if xs != [] {
      KeysOfEmpty(xs[..|xs| - 1], key);
    }
  }

  /** How often `o` names an element of `ks`. */
  function Occurs<K(==)>(ks: seq<K>, o: Option<K>): nat {
    if ks == [] then 0 else (if o == Some(ks[0]) then 1 else 0) + Occurs(ks[1..], o)
  }

  lemma {:induction false} OccursDistinct<K>(ks: seq<K>, o: Option<K>)
    requires Distinct(ks)
    ensures Occurs(ks, o) == if o.Some? && o.value in ks then 1 else 0
  {
    if ks != [] {
      OccursDistinct(ks[1..], o);
      if o == Some(ks[0]) {
        assert ks[0] !in ks[1..] by {
          forall j | 0 <= j < |ks[1..]| ensures ks[1..][j] != ks[0] {
            assert ks[1..][j] == ks[j + 1];
          }
        }
      }
    }
  }

  lemma {:induction false} CountOverSnoc<T, K>(xs: seq<T>, key: T -> Option<K>, ks: seq<K>)
    requires xs != []
    ensures CountOver(xs, key, ks) == CountOver(xs[..|xs| - 1], key, ks) + Occurs(ks, key(xs[|xs| - 1]))
  {
    if ks != [] {
      CountOverSnoc(xs, key, ks[1..]);
    }
  }

  /** Over distinct keys, the counts add up to the records filed under one of them. */
  lemma {:induction false} CountOverKeyedIn<T, K>(xs: seq<T>, key: T -> Option<K>, ks: seq<K>)
    requires Distinct(ks)
    ensures CountOver(xs, key, ks) == KeyedIn(xs, key, ks)
  {
    if xs == [] {
      CountOverZero(xs, key, ks);
    } else {
      CountOverKeyedIn(xs[..|xs| - 1], key, ks);
      CountOverSnoc(xs, key, ks);
      OccursDistinct(ks, key(xs[|xs| - 1]));
    }
  }

  lemma {:induction false} CountOverZero<T, K>(xs: seq<T>, key: T -> Option<K>, ks: seq<K>)
    requires xs == []
    ensures CountOver(xs, key, ks) == 0
  {
    if ks != [] {
      CountOverZero(xs, key, ks[1..]);
    }
  }

  /** With no keys to match, no record is counted and no amount is added. */
  lemma {:induction false} NoKeysNothingKeyed<T, K>(xs: seq<T>, key: T -> Option<K>, amount: T -> int)
    ensures KeyedIn(xs, key, []) == 0 && SumKeyedIn(xs, key, amount, []) == 0
  {
    if xs != [] {
      NoKeysNothingKeyed(xs[..|xs| - 1], key, amount);
    }
  }

  /** When every key that occurs is among `ks`, `ks` covers every keyed record. */
  lemma {:induction false} KeyedInAll<T, K>(xs: seq<T>, key: T -> Option<K>, ks: seq<K>)
    requires forall v :: CountFor(xs, key, v) > 0 ==> v in ks
    ensures KeyedIn(xs, key, ks) == Keyed(xs, key)
  {
    if xs != [] {
      var init := xs[..|xs| - 1];
      forall v | CountFor(init, key, v) > 0 ensures v in ks {
        assert CountFor(xs, key, v) > 0;
      }
      KeyedInAll(init, key, ks);
      var k := key(xs[|xs| - 1]);
      if k.Some? {
        assert CountFor(xs, key, k.value) > 0;
      }
    }
  }

  /**
   * The counts of the map's keys add up to the number of keyed records: every
   * keyed record is counted under exactly one key.
   */
  lemma CountsPartition<T, K>(xs: seq<T>, key: T -> Option<K>)
    ensures CountOver(xs, key, KeysOf(xs, key)) == Keyed(xs, key)
  {
    var ks := KeysOf(xs, key);
    KeysOfDistinct(xs, key);
    CountOverKeyedIn(xs, key, ks);
    forall v | CountFor(xs, key, v) > 0 ensures v in ks {
      KeysOfMember(xs, key, v);
    }
    KeyedInAll(xs, key, ks);
  }

  /** A key function that files every record: all records are keyed. */
  lemma {:induction false} KeyedTotal<T, K>(xs: seq<T>, key: T -> Option<K>)
    requires forall x :: key(x).Some?
    ensures Keyed(xs, key) == |xs|
  {
    if xs != [] {
      KeyedTotal(xs[..|xs| - 1], key);
    }
  }

  /** Rows built one per key, each carrying that key's count, add up to `CountOver`. */
  lemma {:induction false} SumOfRows<T, K, R>(xs: seq<T>, key: T -> Option<K>, ks: seq<K>, rows: seq<R>, cnt: R -> int)
    requires |rows| == |ks|
    requires forall i :: 0 <= i < |ks| ==> cnt(rows[i]) == CountFor(xs, key, ks[i])
    ensures Sum(rows, cnt) == CountOver(xs, key, ks)
  {
    if ks != [] {
      SumOfRows(xs, key, ks[1..], rows[1..], cnt);
    }
  }

  /** The amounts of the keys `ks`, added up. */
  function SumOver<T, K(==)>(xs: seq<T>, key: T -> Option<K>, amount: T -> int, ks: seq<K>): int {
    if ks == [] then 0 else SumFor(xs, key, amount, ks[0]) + SumOver(xs, key, amount, ks[1..])
  }

  /** Sum of `amount` over the records whose key is one of `ks`. */
  function SumKeyedIn<T, K(==)>(xs: seq<T>, key: T -> Option<K>, amount: T -> int, ks: seq<K>): int {
    if xs == [] then 0
    else
      var k := key(xs[|xs| - 1]);
      SumKeyedIn(xs[..|xs| - 1], key, amount, ks) + (if k.Some? && k.value in ks then amount(xs[|xs| - 1]) else 0)
  }

  /** Sum of `amount` over the records that have a key. */
  function SumKeyed<T, K(==)>(xs: seq<T>, key: T -> Option<K>, amount: T -> int): int {
    if xs == [] then 0
    else SumKeyed(xs[..|xs| - 1], key, amount) + (if key(xs[|xs| - 1]).Some? then amount(xs[|xs| - 1]) else 0)
  }

  lemma {:induction false} SumOverSnoc<T, K>(xs: seq<T>, key: T -> Option<K>, amount: T -> int, ks: seq<K>)
    requires xs != []
    ensures SumOver(xs, key, amount, ks)
         == SumOver(xs[..|xs| - 1], key, amount, ks) + Occurs(ks, key(xs[|xs| - 1])) * amount(xs[|xs| - 1])
  {
    if ks != [] {
      SumOverSnoc(xs, key, amount, ks[1..]);
      var x := xs[|xs| - 1];
      var a := if key(x) == Some(ks[0]) then 1 else 0;
      var b := Occurs(ks[1..], key(x));
      assert Occurs(ks, key(x)) == a + b;
      assert (a + b) * amount(x) == a * amount(x) + b * amount(x);
    }
  }

  lemma {:induction false} SumOverZero<T, K>(xs: seq<T>, key: T -> Option<K>, amount: T -> int, ks: seq<K>)
    requires xs == []
    ensures SumOver(xs, key, amount, ks) == 0
  {
    if ks != [] {
      SumOverZero(xs, key, amount, ks[1..]);
    }
  }

  lemma {:induction false} SumOverKeyedIn<T, K>(xs: seq<T>, key: T -> Option<K>, amount: T -> int, ks: seq<K>)
    requires Distinct(ks)
    ensures SumOver(xs, key, amount, ks) == SumKeyedIn(xs, key, amount, ks)
  {
    if xs == [] {
      SumOverZero(xs, key, amount, ks);
    } else {
      SumOverKeyedIn(xs[..|xs| - 1], key, amount, ks);
      SumOverSnoc(xs, key, amount, ks);
      OccursDistinct(ks, key(xs[|xs| - 1]));
    }
  }

  lemma {:induction false} SumKeyedInAll<T, K>(xs: seq<T>, key: T -> Option<K>, amount: T -> int, ks: seq<K>)
    requires forall v :: CountFor(xs, key, v) > 0 ==> v in ks
    ensures SumKeyedIn(xs, key, amount, ks) == SumKeyed(xs, key, amount)
  {
    if xs != [] {
      var init := xs[..|xs| - 1];
      forall v | CountFor(init, key, v) > 0 ensures v in ks {
        assert CountFor(xs, key, v) > 0;
      }
      SumKeyedInAll(init, key, amount, ks);
      var k := key(xs[|xs| - 1]);
      if k.Some? {
        assert CountFor(xs, key, k.value) > 0;
      }
    }
  }

  /**
   * The amounts of the map's keys add up to the amounts of all keyed records:
   * summing the map's values is summing the records.
   */
  lemma SumsPartition<T, K>(xs: seq<T>, key: T -> Option<K>, amount: T -> int)
    ensures SumOver(xs, key, amount, KeysOf(xs, key)) == SumKeyed(xs, key, amount)
  {
    var ks := KeysOf(xs, key);
    KeysOfDistinct(xs, key);
    SumOverKeyedIn(xs, key, amount, ks);
    forall v | CountFor(xs, key, v) > 0 ensures v in ks {
      KeysOfMember(xs, key, v);
    }
    SumKeyedInAll(xs, key, amount, ks);
  }

  /** With every record keyed, the keyed sum is the plain `reduce` sum. */
  lemma {:induction false} SumKeyedTotal<T, K>(xs: seq<T>, key: T -> Option<K>, amount: T -> int)
    requires forall x :: key(x).Some?
    ensures SumKeyed(xs, key, amount) == Sum(xs, amount)
  {
    if xs != [] {
      var init := xs[..|xs| - 1];
      SumKeyedTotal(init, key, amount);
      SumAppend(init, [xs[|xs| - 1]], amount);
      assert init + [xs[|xs| - 1]] == xs;
    }
  }

  lemma CountSnoc<T>(xs: seq<T>, x: T, p: T -> bool)
    ensures Count(xs + [x], p) == Count(xs, p) + (if p(x) then 1 else 0)
  {
    FilterAppend(xs, [x], p);
    assert [x][1..] == [];
  }

  /** The map's count for `v` is `xs.filter(p).length` for the matching predicate. */
  lemma {:induction false} CountForIsCount<T, K>(xs: seq<T>, key: T -> Option<K>, v: K, p: T -> bool)
    requires forall x :: p(x) <==> key(x) == Some(v)
    ensures CountFor(xs, key, v) == Count(xs, p)
  {
    if xs != [] {
      var init := xs[..|xs| - 1];
      CountForIsCount(init, key, v, p);
      CountSnoc(init, xs[|xs| - 1], p);
      assert init + [xs[|xs| - 1]] == xs;
    }
  }

  /** A key function that files every record under its label. */
  function Labelled<T>(labelOf: T -> string): T -> Option<string> {
    (x: T) => Some(labelOf(x))
  }

  /** The amount of a map that only counts. */
  function NoAmount<T>(x: T): int {
    0
  }

  /** A record filed under `v` makes `v`'s count positive. */
  lemma {:induction false} CountForPositive<T, K>(xs: seq<T>, key: T -> Option<K>, j: nat)
    requires j < |xs| && key(xs[j]).Some?
    ensures CountFor(xs, key, key(xs[j]).value) > 0
  {
    if j < |xs| - 1 {
      assert xs[..|xs| - 1][j] == xs[j];
      CountForPositive(xs[..|xs| - 1], key, j);
    }
  }

  /** Rows built one per key, each carrying that key's amount, add up to `SumOver`. */
  lemma {:induction false} SumOfRowTotals<T, K, R>(xs: seq<T>, key: T -> Option<K>, amount: T -> int, ks: seq<K>, rows: seq<R>, tot: R -> int)
    requires |rows| == |ks|
    requires forall i :: 0 <= i < |ks| ==> tot(rows[i]) == SumFor(xs, key, amount, ks[i])
    ensures Sum(rows, tot) == SumOver(xs, key, amount, ks)
  {
    if ks != [] {
      SumOfRowTotals(xs, key, amount, ks[1..], rows[1..], tot);
    }
  }

  /** `Array.from(map.values()).reduce((s, b) => s + b.total, 0)` over the keys `ks`. */
  function ValuesTotal<K>(m: map<K, Bucket>, ks: seq<K>): int {
    if ks == [] then 0 else BucketAt(m, ks[0]).total + ValuesTotal(m, ks[1..])
  }

  lemma {:induction false} ValuesTotalIs<T, K>(m: map<K, Bucket>, xs: seq<T>, key: T -> Option<K>, amount: T -> int, ks: seq<K>)
    requires forall v :: BucketAt(m, v).total == SumFor(xs, key, amount, v)
    ensures ValuesTotal(m, ks) == SumOver(xs, key, amount, ks)
  {
    if ks != [] {
      ValuesTotalIs(m, xs, key, amount, ks[1..]);
    }
  }

  /** With every record keyed, the bucket totals over the keys add up to the plain sum. */
  lemma TallyTotal<T, K>(m: map<K, Bucket>, xs: seq<T>, key: T -> Option<K>, amount: T -> int)
    requires forall x :: key(x).Some?
    requires forall v :: BucketAt(m, v).total == SumFor(xs, key, amount, v)
    ensures ValuesTotal(m, KeysOf(xs, key)) == Sum(xs, amount)
  {
    ValuesTotalIs(m, xs, key, amount, KeysOf(xs, key));
    SumsPartition(xs, key, amount);
    SumKeyedTotal(xs, key, amount);
  }

  /** Any reordering of the map's keys lists exactly the keys some record falls under. */
  lemma KeyInOrder<T, K>(xs: seq<T>, key: T -> Option<K>, ks: seq<K>, v: K)
    requires multiset(ks) == multiset(KeysOf(xs, key))
    ensures v in ks <==> CountFor(xs, key, v) > 0
  {
    KeysOfMember(xs, key, v);
    assert v in ks <==> v in multiset(ks);
  }

  /**
   * Rows made one per key of `xs`, in the key order `ks` (the map's order or the
   * record's), then reordered into `r`: the names in `r` are the distinct keys,
   * every keyed record's key has a row, each row's count is its key's
   * (positive) count, and the counts add up to the number of keyed records.
   */
  lemma GroupedRows<T, K, R>(xs: seq<T>, key: T -> Option<K>, ks: seq<K>, rows: seq<R>, r: seq<R>, name: R -> K, cnt: R -> int)
    requires multiset(ks) == multiset(KeysOf(xs, key))
    requires |rows| == |ks|
    requires forall i :: 0 <= i < |rows| ==> name(rows[i]) == ks[i]
    requires forall i :: 0 <= i < |rows| ==> cnt(rows[i]) == CountFor(xs, key, name(rows[i]))
    requires multiset(r) == multiset(rows)
    ensures forall i, j :: 0 <= i < j < |r| ==> name(r[i]) != name(r[j])
    ensures forall j :: 0 <= j < |xs| && key(xs[j]).Some? ==> exists i :: 0 <= i < |r| && name(r[i]) == key(xs[j]).value
    ensures forall i :: 0 <= i < |r| ==> cnt(r[i]) == CountFor(xs, key, name(r[i])) > 0
    ensures Sum(r, cnt) == Keyed(xs, key)
  {
    KeysOfDistinct(xs, key);
    DistinctPermutation(KeysOf(xs, key), ks);
    DistinctByName(rows, r, name);
    forall j | 0 <= j < |xs| && key(xs[j]).Some?
      ensures exists i :: 0 <= i < |r| && name(r[i]) == key(xs[j]).value
    {
      CountForPositive(xs, key, j);
      var v := key(xs[j]).value;
      KeyInOrder(xs, key, ks, v);
      var a :| 0 <= a < |ks| && ks[a] == v;
      assert rows[a] in multiset(r);
      var i :| 0 <= i < |r| && r[i] == rows[a];
      assert name(r[i]) == key(xs[j]).value;
    }
    forall i | 0 <= i < |r| ensures cnt(r[i]) == CountFor(xs, key, name(r[i])) > 0 {
      assert r[i] in multiset(rows);
      var a :| 0 <= a < |rows| && rows[a] == r[i];
      KeyInOrder(xs, key, ks, ks[a]);
    }
    forall v | CountFor(xs, key, v) > 0 ensures v in ks {
      KeyInOrder(xs, key, ks, v);
    }
    SumPermutation(r, rows, cnt);
    SumOfRows(xs, key, ks, rows, cnt);
    CountOverKeyedIn(xs, key, ks);
    KeyedInAll(xs, key, ks);
  }

  /**
   * When every record has a key, rows holding one total per key, in any order,
   * add up to the total over all records.
   */
  lemma GroupedTotals<T, K, R>(xs: seq<T>, key: T -> Option<K>, amount: T -> int, ks: seq<K>, rows: seq<R>, r: seq<R>, tot: R -> int)
    requires forall x :: key(x).Some?
    requires multiset(ks) == multiset(KeysOf(xs, key))
    requires |rows| == |ks|
    requires forall i :: 0 <= i < |rows| ==> tot(rows[i]) == SumFor(xs, key, amount, ks[i])
    requires multiset(r) == multiset(rows)
    ensures Sum(r, tot) == Sum(xs, amount)
  {
    KeysOfDistinct(xs, key);
    DistinctPermutation(KeysOf(xs, key), ks);
    forall v | CountFor(xs, key, v) > 0 ensures v in ks {
      KeyInOrder(xs, key, ks, v);
    }
    SumPermutation(r, rows, tot);
    SumOfRowTotals(xs, key, amount, ks, rows, tot);
    SumOverKeyedIn(xs, key, amount, ks);
    SumKeyedInAll(xs, key, amount, ks);
    SumKeyedTotal(xs, key, amount);
  }

  /** Extending a prefix by one record adds that record to its key's count. */
  lemma CountForStep<T, K>(xs: seq<T>, i: nat, key: T -> Option<K>)
    requires i < |xs|
    ensures forall v :: CountFor(xs[..i + 1], key, v)
                     == CountFor(xs[..i], key, v) + (if key(xs[i]) == Some(v) then 1 else 0)
  {
    assert xs[..i + 1][..i] == xs[..i];
  }

  /** Extending a prefix by one record adds its amount to its key's sum. */
  lemma SumForStep<T, K>(xs: seq<T>, i: nat, key: T -> Option<K>, amount: T -> int)
    requires i < |xs|
    ensures forall v :: SumFor(xs[..i + 1], key, amount, v)
                     == SumFor(xs[..i], key, amount, v) + (if key(xs[i]) == Some(v) then amount(xs[i]) else 0)
  {
    assert xs[..i + 1][..i] == xs[..i];
  }

  /** A key that files a record under `v` exactly when one of two finer keys does. */
  lemma {:induction false} CountForSplit<T, K>(xs: seq<T>, key: T -> Option<K>, k1: T -> Option<K>, k2: T -> Option<K>, v: K)
    requires forall x :: key(x) == Some(v) <==> k1(x) == Some(v) || k2(x) == Some(v)
    requires forall x :: !(k1(x) == Some(v) && k2(x) == Some(v))
    ensures CountFor(xs, key, v) == CountFor(xs, k1, v) + CountFor(xs, k2, v)
  {
    if xs != [] {
      CountForSplit(xs[..|xs| - 1], key, k1, k2, v);
    }
  }
}
