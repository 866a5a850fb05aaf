/** The dependency scheduler: the table of measurements and the operations of sched/src/lib.rs on it. */
module Schedule {
  import opened Sequences

  datatype Status = Waiting | InProgress | Complete

  datatype Host = Host(cls: string, bw: nat, conns: nat)

  datatype Measurement = Measurement(
    id: nat,
    fp: string,
    dur: nat,
    status: Status,
    hosts: seq<Host>,
    depends: seq<nat>,
    finished: seq<nat>,
    deadline: nat)

  type Table = map<nat, Measurement>

  const U32_LIMIT: nat := 0x1_0000_0000

  /** The seconds a measurement may take, `3 * dur / 2` in the arithmetic of `u32`. */
  function Slack(dur: nat): nat {
    3 * dur / 2
  }

  predicate IsBg(cls: string) {
    "bg" <= cls
  }

  /** A string with a NUL in it cannot become a C string. */
  predicate HasNul(s: string) {
    '\0' in s
  }

  predicate NamesOk(m: Measurement) {
    !HasNul(m.fp) && forall i | 0 <= i < |m.hosts| :: !HasNul(m.hosts[i].cls)
  }

  /** `3 * dur` is computed in 32 bits, and the library is built so that overflow panics. */
  predicate Overflows(m: Measurement) {
    3 * m.dur >= U32_LIMIT
  }

  /** Starting the measurement stops the program: setting its deadline overflows, or handing its names to C panics. */
  predicate Panics(m: Measurement) {
    Overflows(m) || !NamesOk(m)
  }

  /** Some entry has a class the client side takes for background, and not the one connection it asserts for those. */
  predicate MisusesBg(m: Measurement) {
    exists i :: 0 <= i < |m.hosts| && IsBg(m.hosts[i].cls) && m.hosts[i].conns != 1
  }

  lemma PanicsIff(m: Measurement)
    ensures Panics(m) <==>
            || 3 * m.dur >= 4294967296
            || '\0' in m.fp || exists i :: 0 <= i < |m.hosts| && '\0' in m.hosts[i].cls
  {
  }

  lemma MisusesIff(m: Measurement)
    ensures MisusesBg(m) <==> exists i :: 0 <= i < |m.hosts| && "bg" <= m.hosts[i].cls && m.hosts[i].conns != 1
  {
  }

  /** `fill_msm_params` asks for a duration and at least one host. */
  predicate Usable(m: Measurement) {
    m.dur > 0 && m.hosts != []
  }

  function Classes(hosts: seq<Host>): (r: seq<string>)
    ensures |r| == |hosts|
  {
    seq(|hosts|, i requires 0 <= i < |hosts| => hosts[i].cls)
  }

  /** The code's test for a measurement that may start: two lengths are compared. */
  predicate Ready(m: Measurement) {
    m.status == Waiting && |m.depends| == |m.finished|
  }

  ghost predicate DependsDone(tbl: Table, ds: seq<nat>) {
    forall d | d in ds :: d in tbl && tbl[d].status == Complete
  }

  ghost predicate AllComplete(tbl: Table) {
    forall k | k in tbl :: tbl[k].status == Complete
  }

  /**
   * Every entry sits under its own nonzero id, and one that is not complete depends only on entries and has
   * recorded its finished depends once each.
   */
  ghost predicate Tracked(tbl: Table) {
    forall k | k in tbl ::
      && tbl[k].id == k
      && k > 0
      && (tbl[k].status != Complete ==>
            && (forall d | d in tbl[k].depends :: d in tbl)
            && NoDup(tbl[k].finished)
            && forall d :: d in tbl[k].finished <==> d in tbl[k].depends && d in tbl && tbl[d].status == Complete)
  }

  /**
   * A table from which nothing has been started yet. Complete entries are left over from earlier schedules:
   * the table is never cleared.
   */
  ghost predicate Unstarted(tbl: Table) {
    forall k | k in tbl ::
      && tbl[k].id == k
      && k > 0
      && tbl[k].status != InProgress
      && (tbl[k].status == Waiting ==>
            tbl[k].finished == [] && forall d | d in tbl[k].depends :: d in tbl && tbl[d].status == Waiting)
  }

  function Started(tbl: Table, id: nat, now: nat): Table
    requires id in tbl
  {
    tbl[id := tbl[id].(status := InProgress, deadline := now + Slack(tbl[id].dur))]
  }

  function Push(m: Measurement, id: nat): Measurement {
    if id in m.depends then m.(finished := m.finished + [id]) else m
  }

  function Completed(tbl: Table, id: nat): Table
    requires id in tbl
  {
    map k | k in tbl :: Push(if k == id then tbl[k].(status := Complete) else tbl[k], id)
  }

  /**
   * Comparing the two lengths is the same as asking that no depend is repeated and all of them are complete.
   */
  lemma ReadyMeansDependsDone(tbl: Table, k: nat)
    requires Tracked(tbl) && k in tbl
    ensures Ready(tbl[k]) <==> tbl[k].status == Waiting && NoDup(tbl[k].depends) && DependsDone(tbl, tbl[k].depends)
  {
    var m := tbl[k];
    if m.status == Waiting {
      SetSize(m.depends);
      SetSize(m.finished);
      assert ToSet(m.finished) <= ToSet(m.depends);
      SubsetSize(ToSet(m.finished), ToSet(m.depends));
      if DependsDone(tbl, m.depends) {
        assert ToSet(m.finished) == ToSet(m.depends);
      }
      if |m.depends| == |m.finished| {
        assert ToSet(m.finished) == ToSet(m.depends);
        forall d | d in m.depends ensures d in tbl && tbl[d].status == Complete {
          assert d in ToSet(m.finished);
        }
      }
    }
  }

  lemma StartedTracked(tbl: Table, id: nat, now: nat)
    requires Tracked(tbl) && id in tbl && tbl[id].status == Waiting
    ensures Tracked(Started(tbl, id, now))
  {
  }

  lemma CompletedTracked(tbl: Table, id: nat)
    requires Tracked(tbl) && id in tbl && tbl[id].status == InProgress
    ensures Tracked(Completed(tbl, id))
  {
    var t := Completed(tbl, id);
    forall k | k in t && t[k].status != Complete
      ensures NoDup(t[k].finished)
      ensures forall d :: d in t[k].finished <==> d in t[k].depends && d in t && t[d].status == Complete
    {
      assert id !in tbl[k].finished;
      if id in tbl[k].depends {
        assert t[k].finished == tbl[k].finished + [id];
      }
    }
  }

  // ---- Loading a schedule

  /** How loading ends: every case but the first is a panic. */
  datatype LoadResult = Loaded | DuplicateId | UnknownDepend | NothingReady

  ghost function IdsOf(ms: seq<Measurement>): (r: seq<nat>)
    ensures |r| == |ms|
  {
    seq(|ms|, i requires 0 <= i < |ms| => ms[i].id)
  }

  ghost predicate DependsKnown(ms: seq<Measurement>) {
    forall i | 0 <= i < |ms| :: forall d | d in ms[i].depends :: d in IdsOf(ms)
  }

  /** The table with the measurements inserted one after another. */
  ghost function Inserted(tbl: Table, ms: seq<Measurement>): Table {
    if ms == [] then tbl else
      Inserted(tbl, ms[..|ms| - 1])[ms[|ms| - 1].id := ms[|ms| - 1]]
  }

  /** With distinct ids, loading stores each given measurement under its id and keeps the entries under other ids. */
  lemma {:induction false} InsertedIsAll(tbl: Table, ms: seq<Measurement>)
    requires NoDup(IdsOf(ms))
    ensures forall k :: k in Inserted(tbl, ms) <==> k in tbl || k in IdsOf(ms)
    ensures forall k | k in tbl && k !in IdsOf(ms) :: Inserted(tbl, ms)[k] == tbl[k]
    ensures forall i | 0 <= i < |ms| :: ms[i].id in Inserted(tbl, ms) && Inserted(tbl, ms)[ms[i].id] == ms[i]
  {
    if ms != [] {
      var n := |ms| - 1;
      assert IdsOf(ms) == IdsOf(ms[..n]) + [ms[n].id];
      assert forall i | 0 <= i < n :: IdsOf(ms[..n])[i] == IdsOf(ms)[i];
      InsertedIsAll(tbl, ms[..n]);
      forall i | 0 <= i < |ms| ensures ms[i].id in Inserted(tbl, ms) && Inserted(tbl, ms)[ms[i].id] == ms[i] {
        if i < n {
          assert ms[..n][i] == ms[i] && IdsOf(ms)[i] != IdsOf(ms)[n];
        }
      }
    }
  }

  lemma EntryOf(tbl: Table, ms: seq<Measurement>, k: nat) returns (i: nat)
    requires NoDup(IdsOf(ms)) && k in IdsOf(ms)
    ensures i < |ms| && ms[i].id == k && k in Inserted(tbl, ms) && Inserted(tbl, ms)[k] == ms[i]
  {
    InsertedIsAll(tbl, ms);
    i :| 0 <= i < |ms| && IdsOf(ms)[i] == k;
  }

  /** A measurement as the parser leaves it. */
  ghost predicate Fresh(m: Measurement) {
    m.id > 0 && m.status == Waiting && m.finished == []
  }

  lemma UnstartedTracked(tbl: Table)
    requires Unstarted(tbl)
    ensures Tracked(tbl)
  {
  }

  /** Loading over the complete entries of earlier schedules. */
  lemma FreshUnstarted(tbl: Table, ms: seq<Measurement>)
    requires Tracked(tbl) && AllComplete(tbl)
    requires NoDup(IdsOf(ms)) && DependsKnown(ms) && forall i | 0 <= i < |ms| :: Fresh(ms[i])
    ensures Unstarted(Inserted(tbl, ms))
  {
    hide Inserted, NoDup;
    InsertedIsAll(tbl, ms);
    var t := Inserted(tbl, ms);
    forall k | k in t && k in IdsOf(ms)
      ensures t[k].id == k && Fresh(t[k]) && forall d | d in t[k].depends :: d in t && t[d].status == Waiting
    {
      var i := EntryOf(tbl, ms, k);
      forall d | d in ms[i].depends ensures d in t && t[d].status == Waiting {
        var j := EntryOf(tbl, ms, d);
      }
    }
  }

  /** After a load exactly the new measurements without depends are ready. */
  lemma FreshReady(tbl: Table, ms: seq<Measurement>)
    requires AllComplete(tbl) && NoDup(IdsOf(ms)) && forall i | 0 <= i < |ms| :: Fresh(ms[i])
    ensures (exists k :: k in Inserted(tbl, ms) && Ready(Inserted(tbl, ms)[k])) <==>
            exists i :: 0 <= i < |ms| && ms[i].depends == []
  {
    hide Inserted;
    InsertedIsAll(tbl, ms);
    var t := Inserted(tbl, ms);
    if k :| k in t && Ready(t[k]) {
      var i := EntryOf(tbl, ms, k);
      assert ms[i].depends == [];
    }
    if i :| 0 <= i < |ms| && ms[i].depends == [] {
      assert Ready(t[ms[i].id]);
    }
  }

  /** The process-wide table behind the mutex. */
  class Scheduler {
    var msms: Table

    constructor ()
      ensures msms == map[]
    {
      msms := map[];
    }

    /** `check_and_insert_measurements`: ids must be distinct and depends known; cycles and repeats are let through. */
    method CheckAndInsert(ms: seq<Measurement>) returns (r: LoadResult)
      modifies this`msms
      ensures r in {Loaded, DuplicateId, UnknownDepend}
      ensures r == DuplicateId <==> !NoDup(IdsOf(ms))
      ensures r == Loaded <==> NoDup(IdsOf(ms)) && DependsKnown(ms)
      ensures msms == if r == Loaded then Inserted(old(msms), ms) else old(msms)
    {
      var ids := set m | m in ms :: m.id;
      SetSize(IdsOf(ms));
      assert ids == ToSet(IdsOf(ms)) by {
        forall m | m in ms ensures m.id in IdsOf(ms) {
          var i :| 0 <= i < |ms| && ms[i] == m;
          assert IdsOf(ms)[i] == m.id;
        }
      }
      if |ids| != |ms| {
        return DuplicateId;
      }
      var depIds := set m, d | m in ms && d in m.depends :: d;
      if exists d :: d in depIds && d !in ids {
        return UnknownDepend;
      }
      assert DependsKnown(ms) by {
        forall i, d | 0 <= i < |ms| && d in ms[i].depends ensures d in IdsOf(ms) {
          assert ms[i] in ms && d in depIds && d in ids;
        }
      }
      var i := 0;
      while i < |ms|
        invariant 0 <= i <= |ms|
        invariant msms == Inserted(old(msms), ms[..i])
      {
        assert ms[..i + 1][..i] == ms[..i];
        msms := msms[ms[i].id := ms[i]];
        i := i + 1;
      }
      assert ms[..i] == ms;
      r := Loaded;
    }

    /**
     * `sched_next_internal`. The order in which a hash map yields its values is arbitrary, so the loop
     * takes an arbitrary remaining key each time. Marking panics on a deadline that overflows.
     */
    method NextInternal(mark: bool, now: nat) returns (id: nat)
      requires Tracked(msms)
      requires mark ==> forall k | k in msms && Ready(msms[k]) :: !Overflows(msms[k])
      modifies this`msms
      ensures id == 0 <==> forall k | k in old(msms) :: !Ready(old(msms)[k])
      ensures id == 0 ==> msms == old(msms)
      ensures id != 0 ==> id in old(msms) && Ready(old(msms)[id])
      ensures id != 0 ==> msms == if mark then Started(old(msms), id, now) else old(msms)
    {
      var todo := msms.Keys;
      while todo != {}
        invariant todo <= msms.Keys && msms == old(msms)
        invariant forall k | k in msms && k !in todo :: !Ready(msms[k])
        decreases todo
      {
        var k :| k in todo;
        var m := msms[k];
        if m.status == Waiting && |m.depends| == |m.finished| {
          if mark {
            assert 3 * m.dur < U32_LIMIT;
            msms := msms[k := m.(status := InProgress, deadline := now + 3 * m.dur / 2)];
          }
          return m.id;
        }
        todo := todo - {k};
      }
      id := 0;
    }

    /**
     * `sched_new`, once the measurements are read: load them and insist that something can start. What an
     * earlier schedule left in the table is complete by then.
     */
    method New(ms: seq<Measurement>) returns (r: LoadResult, total: nat)
      requires Tracked(msms) && AllComplete(msms) && forall i | 0 <= i < |ms| :: Fresh(ms[i])
      modifies this`msms
      ensures r in {Loaded, NothingReady} <==> NoDup(IdsOf(ms)) && DependsKnown(ms)
      ensures r in {Loaded, NothingReady} ==> msms == Inserted(old(msms), ms) && Unstarted(msms)
      ensures r == Loaded <==> NoDup(IdsOf(ms)) && DependsKnown(ms) && exists i :: 0 <= i < |ms| && ms[i].depends == []
      ensures r == Loaded ==> total == |msms|
    {
      ghost var was := msms;
      r := CheckAndInsert(ms);
      total := |msms|;
      if r == Loaded {
        FreshUnstarted(was, ms);
        UnstartedTracked(msms);
        var id := NextInternal(false, 0);
        FreshReady(was, ms);
        if id == 0 {
          r := NothingReady;
        }
      }
    }

    /** `sched_mark_done`: complete the measurement and push its id onto everything that depends on it. */
    method MarkDone(id: nat)
      requires id in msms && msms[id].status == InProgress
      modifies this`msms
      ensures msms == Completed(old(msms), id)
    {
      ghost var was := msms;
      msms := msms[id := msms[id].(status := Complete)];
      ghost var mid := msms;
      var todo := msms.Keys;
      while todo != {}
        invariant todo <= msms.Keys == was.Keys
        invariant forall k | k in msms :: msms[k] == if k in todo then mid[k] else Push(mid[k], id)
        decreases todo
      {
        var k :| k in todo;
        var m := msms[k];
        if id in m.depends {
          msms := msms[k := m.(finished := m.finished + [id])];
        }
        todo := todo - {k};
      }
    }

    /** `sched_reset_failsafe_stop`. */
    method ResetFailsafe(id: nat, now: nat)
      requires id in msms && !Overflows(msms[id])
      modifies this`msms
      ensures msms == old(msms)[id := old(msms)[id].(deadline := now + Slack(old(msms)[id].dur))]
    {
      var m := msms[id];
      msms := msms[id := m.(deadline := now + 3 * m.dur / 2)];
    }

    /** `sched_num_incomplete`. */
    function NumIncomplete(): nat
      reads this
    {
      |set k | k in msms && msms[k].status != Complete|
    }
  }
}
