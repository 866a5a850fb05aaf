/** From records to published bandwidths: the per-second accumulator, the table of relays and the median of v3bw.c. */
module Bandwidth {
  import opened Text
  import opened Records
  import opened Sequences

  const NUM_MSMS_IN_MSM_INFO: nat := 60
  const SECS_REQUIRED: nat := 25
  const MIN_BW: int := 20

  // ---- The specification: sums by second

  /** The bandwidth of all records stamped `t`. */
  function SumAt(rs: seq<Record>, t: int): int {
    if rs == [] then 0 else
      SumAt(rs[..|rs| - 1], t) + if rs[|rs| - 1].ts == t then rs[|rs| - 1].bw else 0
  }

  predicate InWindow(r: Record, first: int) {
    first <= r.ts < first + NUM_MSMS_IN_MSM_INFO
  }

  /** One more than the largest offset in the window that a record reaches. */
  function UsedBy(rs: seq<Record>, first: int): (u: nat)
    ensures u <= NUM_MSMS_IN_MSM_INFO
  {
    if rs == [] then 0 else
      var u, r := UsedBy(rs[..|rs| - 1], first), rs[|rs| - 1];
      if InWindow(r, first) && r.ts - first >= u then r.ts - first + 1 else u
  }

  datatype Summary = Summary(first: int, slots: seq<int>, used: nat)

  /** What the records of one relay come to: the first time stamp, the sums by second from there, how far they reach. */
  function Summarize(rs: seq<Record>): (s: Summary)
    requires rs != []
    ensures |s.slots| == NUM_MSMS_IN_MSM_INFO && s.used <= |s.slots|
  {
    Summary(rs[0].ts, seq(NUM_MSMS_IN_MSM_INFO, o requires 0 <= o < NUM_MSMS_IN_MSM_INFO => SumAt(rs, rs[0].ts + o)),
            UsedBy(rs, rs[0].ts))
  }

  /** Seconds past the last one used hold nothing, and the last one used is reached by a record. */
  lemma {:induction false} UsedIsLast(rs: seq<Record>, first: int)
    ensures forall t | first + UsedBy(rs, first) <= t < first + NUM_MSMS_IN_MSM_INFO :: SumAt(rs, t) == 0
    ensures UsedBy(rs, first) > 0 ==> exists i :: 0 <= i < |rs| && rs[i].ts == first + UsedBy(rs, first) - 1
  {
    if rs != [] {
      var front, r := rs[..|rs| - 1], rs[|rs| - 1];
      UsedIsLast(front, first);
      var u := UsedBy(front, first);
      if InWindow(r, first) && r.ts - first >= u {
        assert rs[|rs| - 1].ts == first + UsedBy(rs, first) - 1;
      } else if u > 0 {
        var i :| 0 <= i < |front| && front[i].ts == first + u - 1;
        assert rs[i].ts == first + u - 1;
      }
    }
  }

  function Accepted(rs: seq<Record>, first: int, width: nat): int {
    if rs == [] then 0 else
      Accepted(rs[..|rs| - 1], first, width) +
      if first <= rs[|rs| - 1].ts < first + width then rs[|rs| - 1].bw else 0
  }

  function Total(xs: seq<int>): int {
    if xs == [] then 0 else Total(xs[..|xs| - 1]) + xs[|xs| - 1]
  }

  function Slots(rs: seq<Record>, first: int, width: nat): (s: seq<int>)
    ensures |s| == width
  {
    seq(width, o requires 0 <= o < width => SumAt(rs, first + o))
  }

  lemma {:induction false} AcceptedWider(rs: seq<Record>, first: int, width: nat)
    ensures Accepted(rs, first, width + 1) == Accepted(rs, first, width) + SumAt(rs, first + width)
    ensures Accepted(rs, first, 0) == 0
  {
    if rs != [] {
      AcceptedWider(rs[..|rs| - 1], first, width);
    }
  }

  lemma {:induction false} SlotsTotal(rs: seq<Record>, first: int, width: nat)
    ensures Total(Slots(rs, first, width)) == Accepted(rs, first, width)
  {
    if width == 0 {
      AcceptedWider(rs, first, 0);
    } else {
      SlotsTotal(rs, first, width - 1);
      AcceptedWider(rs, first, width - 1);
      assert Slots(rs, first, width)[..width - 1] == Slots(rs, first, width - 1);
    }
  }

  /** No bandwidth in the window is lost or counted twice. */
  lemma WindowConserves(rs: seq<Record>)
    requires rs != []
    ensures Total(Summarize(rs).slots) == Accepted(rs, rs[0].ts, 60)
  {
    SlotsTotal(rs, rs[0].ts, NUM_MSMS_IN_MSM_INFO);
    assert Summarize(rs).slots == Slots(rs, rs[0].ts, NUM_MSMS_IN_MSM_INFO);
  }

  lemma SumAtAppend(rs: seq<Record>, r: Record, t: int)
    ensures SumAt([], t) == 0 && SumAt(rs + [r], t) == SumAt(rs, t) + if r.ts == t then r.bw else 0
  {
    assert (rs + [r])[..|rs|] == rs;
  }

  lemma UsedAppend(rs: seq<Record>, r: Record, first: int)
    ensures UsedBy(rs + [r], first) ==
            if InWindow(r, first) && r.ts - first >= UsedBy(rs, first) then r.ts - first + 1 else UsedBy(rs, first)
  {
    assert (rs + [r])[..|rs|] == rs;
  }

  // ---- The accumulator

  class MsmInfo {
    const first: int
    const msms: array<int>
    var used: nat
    ghost var records: seq<Record>

    /** The array in place is the summary of the records so far. */
    ghost predicate Valid()
      reads this, msms
    {
      && msms.Length == NUM_MSMS_IN_MSM_INFO
      && records != []
      && Summarize(records) == Summary(first, msms[..], used)
    }

    /** `msm_info_init`. */
    constructor (fp: string, first: int, bw: int)
      ensures Valid() && fresh(msms) && records == [Record(fp, first, bw)]
      ensures this.first == first && used == 1 && msms.Length == 60
      ensures forall o | 0 <= o < 60 :: msms[o] == if o == 0 then bw else 0
    {
      this.first := first;
      msms := new int[NUM_MSMS_IN_MSM_INFO](_ => 0);
      used := 1;
      records := [Record(fp, first, bw)];
      new;
      msms[0] := bw;
      var r := Record(fp, first, bw);
      assert records == [] + [r];
      UsedAppend([], r, first);
      forall t ensures SumAt(records, t) == if t == first then bw else 0 {
        SumAtAppend([], r, t);
      }
      assert msms[..] == Summarize(records).slots;
    }

    /** `msm_info_add`: a record before the first or past the window is ignored. */
    method Add(fp: string, ts: int, bw: int)
      requires Valid()
      modifies this, msms
      ensures Valid() && records == old(records) + [Record(fp, ts, bw)] && msms.Length == 60
      ensures forall o | 0 <= o < 60 :: msms[o] == old(msms[o]) + if ts == first + o then bw else 0
      ensures used == if 0 <= ts - first < 60 && ts - first >= old(used) then ts - first + 1 else old(used)
    {
      ghost var rs, r := records, Record(fp, ts, bw);
      records := rs + [r];
      forall t ensures SumAt(records, t) == SumAt(rs, t) + if r.ts == t then bw else 0 {
        SumAtAppend(rs, r, t);
      }
      UsedAppend(rs, r, first);
      if ts < first {
        assert msms[..] == Summarize(records).slots;
        return;
      }
      if ts >= first + NUM_MSMS_IN_MSM_INFO {
        assert msms[..] == Summarize(records).slots;
        return;
      }
      var offset := ts - first;
      msms[offset] := msms[offset] + bw;
      if offset >= used {
        used := offset + 1;
        assert used <= NUM_MSMS_IN_MSM_INFO;
      }
      assert msms[..] == Summarize(records).slots;
    }
  }

  // ---- The table of relays

  /** The records of one relay, in order. */
  function RecordsFor(rs: seq<Record>, fp: string): seq<Record> {
    if rs == [] then [] else
      RecordsFor(rs[..|rs| - 1], fp) + if rs[|rs| - 1].fp == fp then [rs[|rs| - 1]] else []
  }

  /** The table has an accumulator of its own for exactly the relays with records, each over that relay's records. */
  ghost predicate TableFor(ht: map<string, MsmInfo>, rs: seq<Record>)
    reads ht.Values, set i | i in ht.Values :: i.msms
  {
    && (forall fp :: fp in ht <==> RecordsFor(rs, fp) != [])
    && (forall fp | fp in ht :: ht[fp] in ht.Values && ht[fp].Valid() && ht[fp].records == RecordsFor(rs, fp))
    && (forall f, g | f in ht && g in ht && f != g :: ht[f] != ht[g] && ht[f].msms != ht[g].msms)
  }

  lemma RecordsForAppend(rs: seq<Record>, r: Record, fp: string)
    ensures RecordsFor([], fp) == []
    ensures RecordsFor(rs + [r], fp) == if r.fp == fp then RecordsFor(rs, fp) + [r] else RecordsFor(rs, fp)
  {
    assert (rs + [r])[..|rs|] == rs;
  }

  lemma EmptyTable()
    ensures TableFor(map[], [])
  {
  }

  lemma TableGrows(ht: map<string, MsmInfo>, info: MsmInfo, r: Record, rs: seq<Record>)
    requires TableFor(ht, rs) && r.fp !in ht && info.Valid() && info.records == [r]
    requires forall fp | fp in ht :: ht[fp] != info && ht[fp].msms != info.msms
    ensures TableFor(ht[r.fp := info], rs + [r])
  {
    hide MsmInfo.Valid, Summarize, RecordsFor;
    forall fp ensures RecordsFor(rs + [r], fp) == if r.fp == fp then RecordsFor(rs, fp) + [r] else RecordsFor(rs, fp) {
      RecordsForAppend(rs, r, fp);
    }
    assert RecordsFor(rs, r.fp) == [];
    assert [] + [r] == [r];
    var ht' := ht[r.fp := info];
    forall fp | fp in ht'
      ensures ht'[fp] in ht'.Values && ht'[fp].Valid() && ht'[fp].records == RecordsFor(rs + [r], fp)
    {
      assert fp != r.fp ==> fp in ht && ht'[fp] == ht[fp];
    }
  }

  /** A record of a relay not seen before. */
  method EnterNew(ht: map<string, MsmInfo>, r: Record, ghost rs: seq<Record>) returns (ht': map<string, MsmInfo>)
    requires TableFor(ht, rs) && r.fp !in ht
    ensures TableFor(ht', rs + [r])
    ensures forall fp | fp in ht' :: (fp in ht && ht'[fp] == ht[fp]) || (fresh(ht'[fp]) && fresh(ht'[fp].msms))
  {
    hide MsmInfo.Valid, Summarize, RecordsFor, TableFor;
    var info := new MsmInfo(r.fp, r.ts, r.bw);
    TableGrows(ht, info, r, rs);
    ht' := ht[r.fp := info];
  }

  /** A further record of a relay. */
  method EnterMore(ht: map<string, MsmInfo>, r: Record, ghost rs: seq<Record>)
    requires TableFor(ht, rs) && r.fp in ht
    modifies ht[r.fp], ht[r.fp].msms
    ensures TableFor(ht, rs + [r])
  {
    hide MsmInfo.Valid, Summarize, RecordsFor;
    forall fp ensures RecordsFor(rs + [r], fp) == if r.fp == fp then RecordsFor(rs, fp) + [r] else RecordsFor(rs, fp) {
      RecordsForAppend(rs, r, fp);
    }
    ht[r.fp].Add(r.fp, r.ts, r.bw);
  }

  /** `read_input_to_ht`. */
  method ReadInput(lines: seq<string>) returns (ht: map<string, MsmInfo>)
    ensures TableFor(ht, ReadAll(lines))
    ensures forall fp | fp in ht :: fresh(ht[fp]) && fresh(ht[fp].msms)
  {
    hide MsmInfo.Valid, Summarize, ReadRecord, TableFor;
    ht := map[];
    EmptyTable();
    assert lines[..0] == [];
    var i := 0;
    while i < |lines|
      invariant 0 <= i <= |lines|
      invariant TableFor(ht, ReadAll(lines[..i]))
      invariant forall fp | fp in ht :: fresh(ht[fp]) && fresh(ht[fp].msms)
    {
      assert lines[..i + 1][..i] == lines[..i];
      var r := ReadRecord(lines[i]);
      if r.Some? {
        if r.value.fp !in ht {
          ht := EnterNew(ht, r.value, ReadAll(lines[..i]));
        } else {
          EnterMore(ht, r.value, ReadAll(lines[..i]));
        }
      } else {
        assert ReadAll(lines[..i]) + [] == ReadAll(lines[..i]);
      }
      i := i + 1;
    }
    assert lines[..i] == lines;
  }

  // ---- The median

  function Insert(x: int, s: seq<int>): seq<int> {
    if s == [] || x <= s[0] then [x] + s else [s[0]] + Insert(x, s[1..])
  }

  lemma InsertSize(x: int, s: seq<int>)
    ensures |Insert(x, s)| == |s| + 1
  {
  }

  function Sort(s: seq<int>): (r: seq<int>)
    ensures |r| == |s|
  {
    if s == [] then [] else
      var r := Sort(s[1..]);
      InsertSize(s[0], r);
      Insert(s[0], r)
  }

  ghost predicate Ascending(s: seq<int>) {
    forall i, j | 0 <= i <= j < |s| :: s[i] <= s[j]
  }

  /** How many entries are below `r`. */
  function Below(s: seq<int>, r: int): nat {
    if s == [] then 0 else Below(s[1..], r) + if s[0] < r then 1 else 0
  }

  /** `r` is the entry at position `k` of the ascending order: at most `k` entries below it, more than `k` not above. */
  ghost predicate OrderStat(s: seq<int>, k: nat, r: int) {
    r in s && Below(s, r) <= k < Below(s, r + 1)
  }

  lemma {:induction false} BelowInsert(x: int, s: seq<int>, r: int)
    ensures Below(Insert(x, s), r) == Below(s, r) + if x < r then 1 else 0
    ensures forall y :: y in Insert(x, s) <==> y == x || y in s
  {
    if s == [] || x <= s[0] {
      assert ([x] + s)[1..] == s;
    } else {
      BelowInsert(x, s[1..], r);
      assert ([s[0]] + Insert(x, s[1..]))[1..] == Insert(x, s[1..]);
    }
  }

  lemma {:induction false} InsertAscending(x: int, s: seq<int>)
    requires Ascending(s)
    ensures Ascending(Insert(x, s))
  {
    if s != [] && x > s[0] {
      InsertAscending(x, s[1..]);
      BelowInsert(x, s[1..], 0);
      var t := Insert(x, s[1..]);
      forall i | 0 <= i < |t| ensures s[0] <= t[i] {
        assert t[i] in t;
      }
    }
  }

  lemma {:induction false} SortKeeps(s: seq<int>, r: int)
    ensures Ascending(Sort(s)) && Below(Sort(s), r) == Below(s, r)
    ensures forall y :: y in Sort(s) <==> y in s
  {
    if s != [] {
      SortKeeps(s[1..], r);
      InsertAscending(s[0], Sort(s[1..]));
      BelowInsert(s[0], Sort(s[1..]), r);
    }
  }

  lemma {:induction false} NoneBelow(s: seq<int>, r: int)
    requires Ascending(s)
    ensures |s| > 0 && r <= s[0] ==> Below(s, r) == 0
  {
    if |s| > 1 {
      NoneBelow(s[1..], r);
    }
  }

  lemma {:induction false} BelowAscending(s: seq<int>, k: nat, r: int)
    requires Ascending(s) && k < |s|
    ensures r <= s[k] ==> Below(s, r) <= k
    ensures s[k] < r ==> k < Below(s, r)
  {
    if k == 0 {
      NoneBelow(s, r);
    } else {
      BelowAscending(s[1..], k - 1, r);
    }
  }

  function MedianOf(s: seq<int>): int
    requires s != []
  {
    Sort(s)[|s| / 2]
  }

  /** The median is the order statistic at position half the length, rounded down. */
  lemma MedianIsOrderStat(s: seq<int>)
    requires s != []
    ensures OrderStat(s, |s| / 2, MedianOf(s))
  {
    var k, m := |s| / 2, MedianOf(s);
    SortKeeps(s, m);
    SortKeeps(s, m + 1);
    BelowAscending(Sort(s), k, m);
    BelowAscending(Sort(s), k, m + 1);
    assert Sort(s)[k] in Sort(s);
  }

  lemma {:induction false} BelowMonotone(s: seq<int>, a: int, b: int)
    requires a <= b
    ensures Below(s, a) <= Below(s, b) <= |s|
  {
    if s != [] {
      BelowMonotone(s[1..], a, b);
    }
  }

  /** There is only one entry at a position of the order. */
  lemma OrderStatUnique(s: seq<int>, k: nat, a: int, b: int)
    requires OrderStat(s, k, a) && OrderStat(s, k, b)
    ensures a == b
  {
    if a < b {
      BelowMonotone(s, a + 1, b);
    } else if b < a {
      BelowMonotone(s, b + 1, a);
    }
  }

  lemma {:induction false} BelowWithout(s: seq<int>, i: nat, r: int)
    requires i < |s|
    ensures Below(s, r) == Below(s[..i] + s[i + 1..], r) + if s[i] < r then 1 else 0
  {
    if i == 0 {
      assert s[..0] + s[1..] == s[1..];
    } else {
      BelowWithout(s[1..], i - 1, r);
      assert (s[..i] + s[i + 1..])[1..] == s[1..][..i - 1] + s[1..][i..];
    }
  }

  lemma {:induction false} BelowIsCount(s: seq<int>, r: int)
    ensures Below(s, r) == |set i | 0 <= i < |s| && s[i] < r|
  {
    var low := set i | 0 <= i < |s| && s[i] < r;
    if s == [] {
      assert low == {};
    } else {
      var n := |s| - 1;
      var rest := set i | 0 <= i < n && s[..n][i] < r;
      BelowIsCount(s[..n], r);
      BelowWithout(s, n, r);
      assert s[..n] + s[n + 1..] == s[..n];
      assert low == rest + if s[n] < r then {n} else {};
    }
  }

  /** An entry at position `k` of the order has at most `k` entries below it, and more than `k` not above it. */
  lemma OrderStatCounts(s: seq<int>, k: nat, r: int)
    ensures OrderStat(s, k, r) <==>
            r in s && |set i | 0 <= i < |s| && s[i] < r| <= k < |set i | 0 <= i < |s| && s[i] <= r|
  {
    BelowIsCount(s, r);
    BelowIsCount(s, r + 1);
    assert (set i | 0 <= i < |s| && s[i] < r + 1) == set i | 0 <= i < |s| && s[i] <= r;
  }

  lemma {:induction false} BelowPermutes(a: seq<int>, b: seq<int>, r: int)
    requires multiset(a) == multiset(b)
    ensures Below(a, r) == Below(b, r)
  {
    if a == [] {
      assert |multiset(b)| == 0;
    } else {
      assert a == [a[0]] + a[1..];
      assert a[0] in multiset(b);
      var i :| 0 <= i < |b| && b[i] == a[0];
      WithoutOne(b, i);
      CancelOne(multiset(a[1..]), multiset(b[..i] + b[i + 1..]), a[0]);
      BelowWithout(b, i, r);
      BelowPermutes(a[1..], b[..i] + b[i + 1..], r);
    }
  }

  /** The median does not depend on the order of the entries. */
  lemma MedianPermutes(a: seq<int>, b: seq<int>)
    requires a != [] && multiset(a) == multiset(b)
    ensures b != [] && MedianOf(a) == MedianOf(b)
  {
    assert |a| == |multiset(a)| == |multiset(b)| == |b|;
    var m := MedianOf(b);
    MedianIsOrderStat(a);
    MedianIsOrderStat(b);
    assert m in multiset(b);
    BelowPermutes(a, b, m);
    BelowPermutes(a, b, m + 1);
    OrderStatUnique(a, |a| / 2, MedianOf(a), m);
  }

  /** The library's sort. */
  method Qsort(a: array<int>)
    modifies a
    ensures a[..] == Sort(old(a[..]))
  {
    var s := Sort(a[..]);
    var i := 0;
    while i < a.Length
      invariant 0 <= i <= a.Length == |s|
      invariant a[..i] == s[..i]
    {
      a[i] := s[i];
      i := i + 1;
    }
    assert a[..] == s;
  }

  /** `calc_median`: sort a copy of the first `len` entries and take the middle one. */
  method CalcMedian(arrayIn: array<int>, len: nat) returns (med: int)
    requires len <= arrayIn.Length
    ensures len == 0 ==> med == 0
    ensures len > 0 ==> OrderStat(arrayIn[..len], len / 2, med) && med == MedianOf(arrayIn[..len])
  {
    if len == 0 {
      return 0;
    }
    MedianIsOrderStat(arrayIn[..len]);
    if len == 1 {
      assert arrayIn[..1] == [arrayIn[0]];
      assert Sort([arrayIn[0]]) == [arrayIn[0]];
      return arrayIn[0];
    }
    var copied := new int[len];
    var i := 0;
    while i < len
      invariant 0 <= i <= len
      invariant copied[..i] == arrayIn[..i]
    {
      copied[i] := arrayIn[i];
      i := i + 1;
    }
    assert copied[..] == arrayIn[..len];
    Qsort(copied);
    med := copied[len / 2];
    assert med == copied[..][len / 2];
  }

  // ---- What is published

  /** The bandwidth published for a relay: the minimum when it was not measured for long, the median otherwise. */
  function Published(s: Summary): int
    requires 0 < s.used <= |s.slots|
  {
    if s.used < SECS_REQUIRED then MIN_BW else MedianOf(s.slots[..s.used])
  }

  lemma {:induction false} SomethingUsed(rs: seq<Record>, n: nat)
    requires 0 < n <= |rs|
    ensures UsedBy(rs[..n], rs[0].ts) > 0
  {
    assert rs[..n][..n - 1] == rs[..n - 1];
    if n > 1 {
      SomethingUsed(rs, n - 1);
    }
  }

  /** Fewer than 25 seconds give 20, and from 25 on the median of the seconds used is published. */
  lemma PublishedMeans(s: Summary)
    requires 0 < s.used <= |s.slots|
    ensures s.used < 25 ==> Published(s) == 20
    ensures s.used >= 25 ==> OrderStat(s.slots[..s.used], s.used / 2, Published(s))
  {
    MedianIsOrderStat(s.slots[..s.used]);
  }

  /** `UsedBy` is the least bound on the offsets in the window. */
  lemma {:induction false} UsedIsMax(rs: seq<Record>, first: int)
    ensures forall r | r in rs && InWindow(r, first) :: r.ts - first < UsedBy(rs, first)
    ensures UsedBy(rs, first) > 0 ==> exists r :: r in rs && InWindow(r, first) && r.ts - first == UsedBy(rs, first) - 1
  {
    if rs != [] {
      var front, last := rs[..|rs| - 1], rs[|rs| - 1];
      UsedIsMax(front, first);
      assert forall r :: r in rs <==> r in front || r == last;
      assert last in rs;
    }
  }

  /**
   * What the records of one relay come to: 60 sums, of the seconds from the first record on, and the number of
   * seconds up to the last that a record of these 60 reaches.
   */
  lemma SummaryMeans(rs: seq<Record>)
    requires rs != []
    ensures var s := Summarize(rs);
      && s.first == rs[0].ts && |s.slots| == 60 && (forall o | 0 <= o < 60 :: s.slots[o] == SumAt(rs, rs[0].ts + o))
      && 0 < s.used <= 60
      && (forall r | r in rs && rs[0].ts <= r.ts < rs[0].ts + 60 :: r.ts - rs[0].ts < s.used)
      && exists r :: r in rs && r.ts == rs[0].ts + s.used - 1
  {
    UsedIsMax(rs, rs[0].ts);
    SomethingUsed(rs, |rs|);
    assert rs[..|rs|] == rs;
  }

  /** Any bandwidth but the minimum comes from at least 25 seconds, half of which, rounded up, saw that much or more. */
  lemma PublishedIsSeen(s: Summary)
    requires 0 < s.used <= |s.slots| && Published(s) != MIN_BW
    ensures s.used >= SECS_REQUIRED
    ensures s.used - Below(s.slots[..s.used], Published(s)) >= s.used - s.used / 2
  {
    MedianIsOrderStat(s.slots[..s.used]);
  }

  lemma {:induction false} SumAtConcat(a: seq<Record>, b: seq<Record>, t: int)
    ensures SumAt(a + b, t) == SumAt(a, t) + SumAt(b, t)
  {
    if b == [] {
      assert a + b == a;
    } else {
      var n := |b| - 1;
      SumAtConcat(a, b[..n], t);
      assert (a + b)[..|a + b| - 1] == a + b[..n];
    }
  }

  lemma SumAtWithout(rs: seq<Record>, i: nat, t: int)
    requires i < |rs|
    ensures SumAt(rs, t) == SumAt(rs[..i] + rs[i + 1..], t) + if rs[i].ts == t then rs[i].bw else 0
  {
    assert rs == rs[..i] + [rs[i]] + rs[i + 1..];
    SumAtConcat(rs[..i] + [rs[i]], rs[i + 1..], t);
    SumAtAppend(rs[..i], rs[i], t);
    SumAtConcat(rs[..i], rs[i + 1..], t);
  }

  lemma {:induction false} SumAtPermutes(a: seq<Record>, b: seq<Record>, t: int)
    requires multiset(a) == multiset(b)
    ensures SumAt(a, t) == SumAt(b, t)
  {
    if a == [] {
      assert |multiset(b)| == 0;
    } else {
      var n := |a| - 1;
      LastApart(a);
      assert a[n] in multiset(b);
      var i :| 0 <= i < |b| && b[i] == a[n];
      WithoutOne(b, i);
      CancelOne(multiset(a[..n]), multiset(b[..i] + b[i + 1..]), a[n]);
      SumAtWithout(b, i, t);
      SumAtPermutes(a[..n], b[..i] + b[i + 1..], t);
    }
  }

  lemma UsedPermutes(a: seq<Record>, b: seq<Record>, first: int)
    requires multiset(a) == multiset(b)
    ensures UsedBy(a, first) == UsedBy(b, first)
  {
    UsedIsMax(a, first);
    UsedIsMax(b, first);
    assert forall r :: r in a <==> r in multiset(a);
    assert forall r :: r in b <==> r in multiset(b);
  }

  /** The summary depends on the records only through their multiset and the time stamp of the first. */
  lemma SummaryPermutes(a: seq<Record>, b: seq<Record>)
    requires a != [] && b != [] && multiset(a) == multiset(b) && a[0].ts == b[0].ts
    ensures Summarize(a) == Summarize(b)
  {
    UsedPermutes(a, b, a[0].ts);
    forall o | 0 <= o < NUM_MSMS_IN_MSM_INFO ensures Summarize(a).slots[o] == Summarize(b).slots[o] {
      SumAtPermutes(a, b, a[0].ts + o);
    }
  }

  lemma {:induction false} RecordsForCount(rs: seq<Record>, fp: string, r: Record)
    ensures multiset(RecordsFor(rs, fp))[r] == if r.fp == fp then multiset(rs)[r] else 0
  {
    if rs != [] {
      RecordsForCount(rs[..|rs| - 1], fp, r);
      assert rs == rs[..|rs| - 1] + [rs[|rs| - 1]];
    }
  }

  /**
   * The published bandwidths do not depend on the order of the records, nor on how those of different
   * relays interleave, as long as each relay keeps the time stamp of its first record.
   */
  lemma OrderIndependent(a: seq<Record>, b: seq<Record>, fp: string)
    requires multiset(a) == multiset(b)
    requires RecordsFor(a, fp) != [] && RecordsFor(b, fp) != [] ==> RecordsFor(a, fp)[0].ts == RecordsFor(b, fp)[0].ts
    ensures RecordsFor(a, fp) != [] <==> RecordsFor(b, fp) != []
    ensures RecordsFor(a, fp) != [] ==> Summarize(RecordsFor(a, fp)) == Summarize(RecordsFor(b, fp))
  {
    var x, y := RecordsFor(a, fp), RecordsFor(b, fp);
    assert multiset(x) == multiset(y) by {
      forall r ensures multiset(x)[r] == multiset(y)[r] {
        RecordsForCount(a, fp, r);
        RecordsForCount(b, fp, r);
      }
    }
    assert |x| == |multiset(x)| == |multiset(y)| == |y|;
    if x != [] {
      SummaryPermutes(x, y);
    }
  }

  method PublishOne(info: MsmInfo, ghost mine: seq<Record>) returns (med: int)
    requires info.Valid() && info.records == mine
    ensures 0 < Summarize(mine).used && med == Published(Summarize(mine))
  {
    SomethingUsed(mine, |mine|);
    assert mine[..|mine|] == mine;
    assert info.msms[..][..info.used] == info.msms[..info.used];
    med := CalcMedian(info.msms, info.used);
    if info.used < SECS_REQUIRED {
      med := MIN_BW;
    }
  }

  /** The loop of `_v3bw_generate` over the table, in the arbitrary order of the hash table. */
  method Publish(ht: map<string, MsmInfo>, ghost rs: seq<Record>) returns (out: map<string, int>)
    requires TableFor(ht, rs)
    ensures out.Keys == ht.Keys
    ensures forall fp | fp in out ::
              && RecordsFor(rs, fp) != []
              && var s := Summarize(RecordsFor(rs, fp));
                 && 0 < s.used && out[fp] == Published(s)
                 && (s.used < 25 ==> out[fp] == 20)
                 && (s.used >= 25 ==> OrderStat(s.slots[..s.used], s.used / 2, out[fp]))
  {
    hide MsmInfo.Valid, Summarize, Published, RecordsFor, OrderStat;
    out := map[];
    var todo := ht.Keys;
    while todo != {}
      invariant todo <= ht.Keys && out.Keys == ht.Keys - todo
      invariant forall fp | fp in out ::
                  && RecordsFor(rs, fp) != []
                  && var s := Summarize(RecordsFor(rs, fp));
                     && 0 < s.used && out[fp] == Published(s)
                     && (s.used < 25 ==> out[fp] == 20)
                     && (s.used >= 25 ==> OrderStat(s.slots[..s.used], s.used / 2, out[fp]))
      decreases todo
    {
      var fp :| fp in todo;
      var med := PublishOne(ht[fp], RecordsFor(rs, fp));
      PublishedMeans(Summarize(RecordsFor(rs, fp)));
      out := out[fp := med];
      todo := todo - {fp};
    }
  }

  // ---- The whole file

  function RelaysIn(rs: seq<Record>): set<string> {
    set r | r in rs :: r.fp
  }

  lemma {:induction false} RecordsForSome(rs: seq<Record>, fp: string)
    ensures RecordsFor(rs, fp) != [] <==> fp in RelaysIn(rs)
  {
    if rs != [] {
      var front, last := rs[..|rs| - 1], rs[|rs| - 1];
      RecordsForSome(front, fp);
      assert forall r :: r in rs <==> r in front || r == last;
    }
  }

  /** What is published for a relay of which there are records. */
  ghost function PublishedFor(rs: seq<Record>, fp: string): int
    requires RecordsFor(rs, fp) != []
  {
    var mine := RecordsFor(rs, fp);
    SomethingUsed(mine, |mine|);
    assert mine[..|mine|] == mine;
    Published(Summarize(mine))
  }

  /** The bandwidth file for these records: every relay with its published value. */
  ghost function FileFor(rs: seq<Record>): map<string, int> {
    map fp | fp in RelaysIn(rs) :: (RecordsForSome(rs, fp); PublishedFor(rs, fp))
  }

  lemma RelaysOf(ht: map<string, MsmInfo>, rs: seq<Record>)
    requires TableFor(ht, rs)
    ensures ht.Keys == RelaysIn(rs)
  {
    hide MsmInfo.Valid, RecordsFor;
    forall fp ensures fp in ht <==> fp in RelaysIn(rs) {
      RecordsForSome(rs, fp);
    }
  }

  /** `v3bw_generate`: from the result lines to the bandwidth file. */
  method GenerateFile(lines: seq<string>) returns (out: map<string, int>)
    ensures out == FileFor(ReadAll(lines))
    ensures forall fp :: fp in out <==> exists r :: r in ReadAll(lines) && r.fp == fp
    ensures forall fp | fp in out ::
              && RecordsFor(ReadAll(lines), fp) != []
              && var s := Summarize(RecordsFor(ReadAll(lines), fp));
                 && (s.used < 25 ==> out[fp] == 20)
                 && (s.used >= 25 ==> OrderStat(s.slots[..s.used], s.used / 2, out[fp]))
  {
    hide TableFor, ReadAll, RecordsFor, Summarize, Published, OrderStat;
    var ht := ReadInput(lines);
    out := Publish(ht, ReadAll(lines));
    RelaysOf(ht, ReadAll(lines));
    forall fp | fp in out ensures fp in RelaysIn(ReadAll(lines)) && out[fp] == FileFor(ReadAll(lines))[fp] {
      RecordsForSome(ReadAll(lines), fp);
    }
  }

  /** The same records in another order, each relay keeping the time stamp of its first, make the same file. */
  lemma FileOrderIndependent(a: seq<Record>, b: seq<Record>)
    requires multiset(a) == multiset(b)
    requires forall fp | RecordsFor(a, fp) != [] && RecordsFor(b, fp) != [] ::
               RecordsFor(a, fp)[0].ts == RecordsFor(b, fp)[0].ts
    ensures FileFor(a) == FileFor(b)
  {
    hide RecordsFor, Summarize, Published;
    forall fp
      ensures fp in RelaysIn(a) <==> fp in RelaysIn(b)
      ensures fp in RelaysIn(a) ==> FileFor(a)[fp] == FileFor(b)[fp]
    {
      RecordsForSome(a, fp);
      RecordsForSome(b, fp);
      OrderIndependent(a, b, fp);
    }
    assert RelaysIn(a) == RelaysIn(b);
  }
}
