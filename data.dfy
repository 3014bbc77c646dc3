/** The data side of the widget: the four input shapes, their conversion into
    one canonical list of records sorted by descending key (`_convertData`),
    key parsing, and the running minimum/maximum of `_updateData`. */
module Data {
  import opened Wrappers

  /** A key as the input holds it: a number, a `Date` (standing for its epoch
      milliseconds) or a string. */
  datatype Key = Num(n: real) | Date(ms: real) | Text(s: string)

  /** One element of an input array: a `[key, value]` pair, a `{key, value}`
      object, or a plain value (whose index becomes its key). */
  datatype RawItem =
    | PairItem(first: Key, second: real)
    | ObjectItem(key: Key, value: real)
    | PlainItem(v: real)

  /** `_opts.data` before conversion: an array, a key-to-value object, or absent. */
  datatype RawData =
    | Items(items: seq<RawItem>)
    | Mapping(entries: map<string, real>)
    | Missing

  /** The canonical `{key, value}` record. */
  datatype Record = Record(key: Key, value: real)

  // ---------------------------------------------------------------- conversion

  /** The callback of `data.map(function (x, i) {...})` for array input. */
  function ConvertItem(x: RawItem, i: nat): Record
  {
    match x
    case PairItem(k, v) => Record(k, v)
    case ObjectItem(k, v) => Record(k, v)
    case PlainItem(v) => Record(Num(i as real), v)
  }

  /** `ownKeys` lists only keys of `m`: it stands for `Object.keys(m)`. */
  ghost predicate KeysIn(ownKeys: seq<string>, m: map<string, real>)
  {
    forall i :: 0 <= i < |ownKeys| ==> ownKeys[i] in m
  }

  ghost predicate Distinct<T>(s: seq<T>)
  {
    forall i, j :: 0 <= i < j < |s| ==> s[i] != s[j]
  }

  /** `ownKeys` lists every own key of `m` exactly once, as `Object.keys` does. */
  ghost predicate Enumerates(ownKeys: seq<string>, m: map<string, real>)
  {
    KeysIn(ownKeys, m) && Distinct(ownKeys) && forall k :: k in m ==> k in ownKeys
  }

  /** The two branches of `_convertData` before sorting; `ownKeys` is the
      order in which `Object.keys` lists a mapping's keys. */
  function Convert(raw: RawData, ownKeys: seq<string>): (r: seq<Record>)
    requires !raw.Missing?
    requires raw.Mapping? ==> Enumerates(ownKeys, raw.entries)
    ensures raw.Items? ==> |r| == |raw.items|
    ensures raw.Mapping? ==> |r| == |ownKeys| == |raw.entries|
  {
    match raw
    case Items(xs) =>
      seq(|xs|, i requires 0 <= i < |xs| => ConvertItem(xs[i], i))
    case Mapping(m) =>
      DistinctCard(ownKeys);
      assert (set k | k in ownKeys) == m.Keys;
      seq(|ownKeys|, i requires 0 <= i < |ownKeys| => Record(Text(ownKeys[i]), m[ownKeys[i]]))
  }

  // ------------------------------------------------------------------- sorting

  /** The number the comparator `b.key - a.key` subtracts: a number, a date's
      milliseconds, or JS's `Number(string)`, given as `numberOf`. */
  function Rank(k: Key, numberOf: string -> real): real
  {
    match k
    case Num(n) => n
    case Date(ms) => ms
    case Text(s) => numberOf(s)
  }

  ghost predicate SortedDesc(s: seq<Record>, numberOf: string -> real)
  {
    forall i, j :: 0 <= i < j < |s| ==> Rank(s[j].key, numberOf) <= Rank(s[i].key, numberOf)
  }

  /** Inserts `x` before the first record whose key is not larger, so records
      with equal keys keep their order (`Array.prototype.sort` is stable). */
  function Insert(x: Record, s: seq<Record>, numberOf: string -> real): (r: seq<Record>)
    ensures multiset(r) == multiset(s) + multiset{x}
    ensures |r| == |s| + 1
  {
    if s == [] || Rank(s[0].key, numberOf) <= Rank(x.key, numberOf) then
      [x] + s
    else
      assert s == [s[0]] + s[1..];
      [s[0]] + Insert(x, s[1..], numberOf)
  }

  /** Insertion into a sorted list keeps it sorted. */
  lemma {:induction false} InsertSorted(x: Record, s: seq<Record>, numberOf: string -> real)
    requires SortedDesc(s, numberOf)
    ensures SortedDesc(Insert(x, s, numberOf), numberOf)
  {
    if s == [] || Rank(s[0].key, numberOf) <= Rank(x.key, numberOf) {
      ConsSorted(x, s, numberOf);
    } else {
      var tail := s[1..];
      assert forall i :: 0 <= i < |tail| ==> tail[i] == s[i + 1];
      InsertSorted(x, tail, numberOf);
      InsertBounded(x, tail, numberOf, Rank(s[0].key, numberOf));
      ConsSorted(s[0], Insert(x, tail, numberOf), numberOf);
    }
  }

  /** A record no smaller than every record of a sorted list can go in front. */
  lemma ConsSorted(h: Record, s: seq<Record>, numberOf: string -> real)
    requires SortedDesc(s, numberOf)
    requires forall i :: 0 <= i < |s| ==> Rank(s[i].key, numberOf) <= Rank(h.key, numberOf)
    ensures SortedDesc([h] + s, numberOf)
  {
    var r := [h] + s;
    forall i, j | 0 <= i < j < |r| ensures Rank(r[j].key, numberOf) <= Rank(r[i].key, numberOf) {
      assert r[j] == s[j - 1];
      if i > 0 { assert r[i] == s[i - 1]; }
    }
  }

  /** Inserting a record no larger than `m` into records no larger than `m`
      gives records no larger than `m`. */
  lemma {:induction false} InsertBounded(x: Record, s: seq<Record>, numberOf: string -> real, m: real)
    requires Rank(x.key, numberOf) <= m
    requires forall i :: 0 <= i < |s| ==> Rank(s[i].key, numberOf) <= m
    ensures forall j :: 0 <= j < |Insert(x, s, numberOf)| ==> Rank(Insert(x, s, numberOf)[j].key, numberOf) <= m
  {
    if s != [] && Rank(x.key, numberOf) < Rank(s[0].key, numberOf) {
      var tail := s[1..];
      assert forall i :: 0 <= i < |tail| ==> tail[i] == s[i + 1];
      InsertBounded(x, tail, numberOf, m);
      var r := Insert(x, s, numberOf);
      assert r == [s[0]] + Insert(x, tail, numberOf);
      forall j | 0 <= j < |r| ensures Rank(r[j].key, numberOf) <= m {
        if j > 0 { assert r[j] == Insert(x, tail, numberOf)[j - 1]; }
      }
    }
  }

  /** The records of `s` whose key ranks `k`, in their order in `s`. */
  function WithRank(s: seq<Record>, k: real, numberOf: string -> real): seq<Record>
  {
    if s == [] then []
    else (if Rank(s[0].key, numberOf) == k then [s[0]] else []) + WithRank(s[1..], k, numberOf)
  }

  /** Insertion puts `x` ahead of every record of equal rank and leaves the
      order among the others alone. */
  lemma {:induction false} InsertStable(x: Record, s: seq<Record>, numberOf: string -> real, k: real)
    ensures WithRank(Insert(x, s, numberOf), k, numberOf) ==
            (if Rank(x.key, numberOf) == k then [x] else []) + WithRank(s, k, numberOf)
  {
    if s == [] || Rank(s[0].key, numberOf) <= Rank(x.key, numberOf) {
      WithRankCons(x, s, numberOf, k);
    } else {
      var tail := s[1..];
      var inserted := Insert(x, tail, numberOf);
      assert s == [s[0]] + tail;
      assert Insert(x, s, numberOf) == [s[0]] + inserted;
      var mine := if Rank(x.key, numberOf) == k then [x] else [];
      var head := if Rank(s[0].key, numberOf) == k then [s[0]] else [];
      InsertStable(x, tail, numberOf, k);
      assert WithRank(inserted, k, numberOf) == mine + WithRank(tail, k, numberOf);
      WithRankCons(s[0], inserted, numberOf, k);
      WithRankCons(s[0], tail, numberOf, k);
      assert WithRank(Insert(x, s, numberOf), k, numberOf) == head + (mine + WithRank(tail, k, numberOf));
      assert WithRank(s, k, numberOf) == head + WithRank(tail, k, numberOf);
      assert head == [] || mine == [];
    }
  }

  lemma WithRankCons(h: Record, s: seq<Record>, numberOf: string -> real, k: real)
    ensures WithRank([h] + s, k, numberOf) == (if Rank(h.key, numberOf) == k then [h] else []) + WithRank(s, k, numberOf)
  {
    assert ([h] + s)[1..] == s;
  }

  /** `sort(function (a, b) { return b.key - a.key; })`: a stable sort by
      non-increasing key. */
  function SortByKeyDesc(s: seq<Record>, numberOf: string -> real): (r: seq<Record>)
    ensures SortedDesc(r, numberOf)
    ensures multiset(r) == multiset(s)
    ensures |r| == |s|
    ensures forall k :: WithRank(r, k, numberOf) == WithRank(s, k, numberOf)
  {
    if s == [] then []
    else
      assert s == [s[0]] + s[1..];
      var rest := SortByKeyDesc(s[1..], numberOf);
      InsertSorted(s[0], rest, numberOf);
      forall k ensures WithRank(Insert(s[0], rest, numberOf), k, numberOf) == WithRank(s, k, numberOf) {
        InsertStable(s[0], rest, numberOf, k);
      }
      Insert(s[0], rest, numberOf)
  }

  /** Sorting a list that is already in order changes nothing. */
  lemma {:induction false} SortOfSorted(s: seq<Record>, numberOf: string -> real)
    requires SortedDesc(s, numberOf)
    ensures SortByKeyDesc(s, numberOf) == s
  {
    if s != [] {
      SortOfSorted(s[1..], numberOf);
      assert s == [s[0]] + s[1..];
    }
  }

  /** The whole of `_convertData`: `None` when `_opts.data` is absent, where
      `Object.keys(undefined)` throws. */
  function Normalize(raw: RawData, ownKeys: seq<string>, numberOf: string -> real): (r: Option<seq<Record>>)
    requires raw.Mapping? ==> Enumerates(ownKeys, raw.entries)
    ensures r.Some? <==> !raw.Missing?
    ensures r.Some? ==> SortedDesc(r.value, numberOf)
    ensures r.Some? ==> multiset(r.value) == multiset(Convert(raw, ownKeys))
    ensures r.Some? ==> forall k :: WithRank(r.value, k, numberOf) == WithRank(Convert(raw, ownKeys), k, numberOf)
  {
    if raw.Missing? then None else Some(SortByKeyDesc(Convert(raw, ownKeys), numberOf))
  }

  /** The raw form the converted data takes when `_updateData` runs again:
      an array of `{key, value}` objects. */
  function AsObjects(d: seq<Record>): (r: seq<RawItem>)
    ensures |r| == |d|
  {
    seq(|d|, i requires 0 <= i < |d| => ObjectItem(d[i].key, d[i].value))
  }

  /** Converting canonical, sorted data again returns the same records. */
  lemma ReconvertSorted(d: seq<Record>, ownKeys: seq<string>, numberOf: string -> real)
    requires SortedDesc(d, numberOf)
    ensures Normalize(Items(AsObjects(d)), ownKeys, numberOf) == Some(d)
  {
    assert Convert(Items(AsObjects(d)), ownKeys) == d;
    SortOfSorted(d, numberOf);
  }

  /** Normalisation is idempotent. */
  lemma NormalizeIdempotent(raw: RawData, ownKeys: seq<string>, numberOf: string -> real)
    requires raw.Mapping? ==> Enumerates(ownKeys, raw.entries)
    requires !raw.Missing?
    ensures var d := Normalize(raw, ownKeys, numberOf).value;
            Normalize(Items(AsObjects(d)), ownKeys, numberOf) == Some(d)
  {
    ReconvertSorted(Normalize(raw, ownKeys, numberOf).value, ownKeys, numberOf);
  }

  /** Pairs, objects and plain values that describe the same points convert to
      the same records; so does a mapping and the objects with its string keys. */
  lemma ShapeInvariance(keys: seq<Key>, values: seq<real>, m: map<string, real>, ownKeys: seq<string>)
    requires |keys| == |values|
    requires Enumerates(ownKeys, m)
    ensures var pairs := seq(|keys|, i requires 0 <= i < |keys| => PairItem(keys[i], values[i]));
            var objects := seq(|keys|, i requires 0 <= i < |keys| => ObjectItem(keys[i], values[i]));
            Convert(Items(pairs), ownKeys) == Convert(Items(objects), ownKeys)
    ensures var plain := seq(|values|, i requires 0 <= i < |values| => PlainItem(values[i]));
            var indexed := seq(|values|, i requires 0 <= i < |values| => PairItem(Num(i as real), values[i]));
            Convert(Items(plain), ownKeys) == Convert(Items(indexed), ownKeys)
    ensures var named := seq(|ownKeys|, i requires 0 <= i < |ownKeys| => ObjectItem(Text(ownKeys[i]), m[ownKeys[i]]));
            Convert(Mapping(m), ownKeys) == Convert(Items(named), ownKeys)
  {
  }

  lemma {:induction false} DistinctCard(ks: seq<string>)
    requires Distinct(ks)
    ensures |set k | k in ks| == |ks|
  {
    if ks != [] {
      DistinctCard(ks[1..]);
      assert (set k | k in ks) == (set k | k in ks[1..]) + {ks[0]};
      assert ks[0] !in (set k | k in ks[1..]);
    }
  }

  /** A mapping converts to exactly one record per own key, carrying that
      key's value. */
  lemma MappingOneRecordPerKey(m: map<string, real>, ownKeys: seq<string>)
    requires Enumerates(ownKeys, m)
    ensures var r := Convert(Mapping(m), ownKeys);
            && |r| == |m|
            && (forall k :: k in m ==> exists i :: 0 <= i < |r| && r[i] == Record(Text(k), m[k]))
            && (forall i :: 0 <= i < |r| ==> r[i].key.Text? && r[i].key.s in m && r[i].value == m[r[i].key.s])
  {
    var r := Convert(Mapping(m), ownKeys);
    DistinctCard(ownKeys);
    assert (set k | k in ownKeys) == m.Keys;
    forall k | k in m ensures exists i :: 0 <= i < |r| && r[i] == Record(Text(k), m[k]) {
      var i :| 0 <= i < |ownKeys| && ownKeys[i] == k;
      assert r[i] == Record(Text(k), m[k]);
    }
  }

  // ------------------------------------------------------------------ parsing

  /** `parseFloat(key)`, then `new Date(key)`: numbers and dates stand for
      themselves; a string goes to `parseText`, the host's parser, which
      answers `None` when both give `NaN`. */
  function ParseKey(k: Key, parseText: string -> Option<real>): Option<real>
  {
    match k
    case Num(n) => Some(n)
    case Date(ms) => Some(ms)
    case Text(s) => parseText(s)
  }

  /** The parsed keys of `d`, or `None` when some key parses as neither a
      number nor a date. */
  function ParseKeys(d: seq<Record>, parseText: string -> Option<real>): (r: Option<seq<real>>)
    ensures r.Some? <==> forall i :: 0 <= i < |d| ==> ParseKey(d[i].key, parseText).Some?
    ensures r.Some? ==> |r.value| == |d|
    ensures r.Some? ==> forall i :: 0 <= i < |d| ==> r.value[i] == ParseKey(d[i].key, parseText).value
  {
    if d == [] then Some([])
    else
      var init := d[..|d| - 1];
      assert forall i :: 0 <= i < |init| ==> init[i] == d[i];
      match ParseKeys(init, parseText)
      case None => None
      case Some(ks) =>
        match ParseKey(d[|d| - 1].key, parseText)
        case None => None
        case Some(k) => Some(ks + [k])
  }

  /** Number and date keys parse to the same number the comparator uses. */
  lemma NonTextKeysParseToRank(d: seq<Record>, parseText: string -> Option<real>, numberOf: string -> real)
    requires forall i :: 0 <= i < |d| ==> !d[i].key.Text?
    ensures ParseKeys(d, parseText) == Some(Ranks(d, numberOf))
  {
    forall i | 0 <= i < |d| ensures ParseKey(d[i].key, parseText) == Some(Rank(d[i].key, numberOf)) {
      assert !d[i].key.Text?;
    }
    var ks := ParseKeys(d, parseText).value;
    assert ks == Ranks(d, numberOf);
  }

  /** `obj.value` of every record. */
  function Values(d: seq<Record>): (r: seq<real>)
    ensures |r| == |d|
  {
    seq(|d|, i requires 0 <= i < |d| => d[i].value)
  }

  /** `Number(obj.key)` of every record. */
  function Ranks(d: seq<Record>, numberOf: string -> real): (r: seq<real>)
    ensures |r| == |d|
  {
    seq(|d|, i requires 0 <= i < |d| => Rank(d[i].key, numberOf))
  }

  // ------------------------------------------------------------------- ranges

  /** `_xRange` / `_yRange`: `[min, max]`, each `undefined` (None) until a
      value has been seen. */
  datatype Range = Range(lo: Option<real>, hi: Option<real>)

  ghost predicate WellFormed(r: Range)
  {
    r.lo.Some? == r.hi.Some? && (r.lo.Some? ==> r.lo.value <= r.hi.value)
  }

  /** One step of `handleKey`: `if (r[0] === undefined || v < r[0]) r[0] = v`
      and the same for the maximum. */
  function Extend(r: Range, v: real): Range
  {
    Range(if r.lo.None? || v < r.lo.value then Some(v) else r.lo,
          if r.hi.None? || v > r.hi.value then Some(v) else r.hi)
  }

  /** The range after running `Extend` over `xs` from `[undefined, undefined]`:
      nothing for empty input, otherwise the least and greatest element. */
  function RangeOf(xs: seq<real>): (r: Range)
    ensures WellFormed(r)
    ensures xs == [] ==> r == Range(None, None)
    ensures xs != [] ==> r.lo.Some? && r.lo.value in xs && forall i :: 0 <= i < |xs| ==> r.lo.value <= xs[i]
    ensures xs != [] ==> r.hi.Some? && r.hi.value in xs && forall i :: 0 <= i < |xs| ==> xs[i] <= r.hi.value
  {
    if xs == [] then Range(None, None)
    else
      var init := xs[..|xs| - 1];
      assert forall i :: 0 <= i < |init| ==> init[i] == xs[i];
      assert xs == init + [xs[|xs| - 1]];
      Extend(RangeOf(init), xs[|xs| - 1])
  }

  /** `_xRange[0] || 0` and its three siblings: the bound, or 0 when it is
      `undefined`. */
  function Bound(b: Option<real>): real
  {
    if b.Some? then b.value else 0.0
  }

  /** The getters answer the least and greatest element of non-empty data,
      and 0 for empty data. */
  lemma BoundsOfRange(xs: seq<real>)
    ensures xs == [] ==> Bound(RangeOf(xs).lo) == 0.0 && Bound(RangeOf(xs).hi) == 0.0
    ensures xs != [] ==> Bound(RangeOf(xs).lo) in xs && Bound(RangeOf(xs).hi) in xs
    ensures forall i :: 0 <= i < |xs| ==> Bound(RangeOf(xs).lo) <= xs[i] <= Bound(RangeOf(xs).hi)
  {
  }
}
