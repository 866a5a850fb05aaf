/**
 * Runs that bring a measurement up where it can be kept at work: with others to be started while it runs, or
 * beside others that hold back whatever is left.
 */
module Assembly {
  import opened Sequences
  import opened Schedule
  import opened Clients
  import opened Staffing
  import opened Protocol
  import opened Runs
  import opened Progress
  import opened Liveness
  import opened Heads
  import opened History
  import opened Looping
  import opened Starting
  import opened Crews
  import opened Outlasting
  import opened Handshakes

  // ---- Measurements that do not need each other

  /** All of these can be started, and none needs another. */
  ghost predicate Unordered(tbl: Table, q: seq<nat>) {
    forall k | k in q :: CanStart(tbl, k) && forall l | l in q :: !Needs(tbl, k, l)
  }

  /** Whatever else can be started and needs none of them. */
  ghost function Apart(tbl: Table, q: seq<nat>): set<nat> {
    set d | d in tbl && d !in q && CanStart(tbl, d) && forall k | k in q :: !Needs(tbl, d, k)
  }

  lemma NeedsTrans(tbl: Table, x: nat, y: nat, z: nat)
    requires Needs(tbl, x, y) && Needs(tbl, y, z) && z != x
    ensures Needs(tbl, x, z)
  {
  }

  lemma NoSelfDepend(tbl: Table, m: nat)
    requires CanStart(tbl, m)
    ensures m in tbl && m !in tbl[m].depends
  {
    if m in tbl[m].depends {
      assert Blocked(tbl, {m});
    }
  }

  lemma ApartClosed(tbl: Table, q: seq<nat>)
    requires DependsPending(tbl)
    ensures Closed(tbl, Apart(tbl, q)) && Apart(tbl, q) <= Startable(tbl)
  {
    hide CanStart, Needs;
    forall y | y in Apart(tbl, q) ensures y in Pending(tbl) && forall d | d in tbl[y].depends :: d in Apart(tbl, q) {
      PendingOnly(tbl, y);
      NoSelfDepend(tbl, y);
      forall d | d in tbl[y].depends ensures d in Apart(tbl, q) {
        DependsCanStart(tbl, y, d);
        PendingOnly(tbl, d);
        DependNeeded(tbl, y, d);
        forall k | k in q ensures !Needs(tbl, d, k) {
          if Needs(tbl, d, k) {
            NeedsTrans(tbl, y, d, k);
          }
        }
      }
    }
  }

  lemma ApartUnblocked(w0: World, q: seq<nat>)
    requires Initial(w0)
    ensures Apart(w0.table, q) <= Pending(w0.table) && Unblocked(w0.table, Apart(w0.table, q))
  {
    var s := Apart(w0.table, q);
    InitialPending(w0);
    ApartClosed(w0.table, q);
    hide Initial, Unblocked, Apart, Closed;
    StartableUnblocked(w0.table, s);
    assert s * Startable(w0.table) == s;
    ClosedPending(w0.table, s);
  }

  lemma CompleteClosed(w0: World, log: seq<Event>)
    requires Initial(w0) && Legal(w0, log)
    ensures Closed(w0.table, EndedIn(Outcome(w0, log).table, Pending(w0.table)))
  {
    RunPlan(w0, log);
    RunDependsEnded(w0, log);
    InitialPending(w0);
  }

  lemma PendingClosed(tbl: Table)
    requires DependsPending(tbl)
    ensures Closed(tbl, Pending(tbl))
  {
  }

  /** No two measurements need each other if one of them can be started. */
  lemma NoCycle(w0: World, m: nat, x: nat)
    requires Initial(w0) && CanStart(w0.table, m) && Needs(w0.table, m, x)
    ensures !Needs(w0.table, x, m)
  {
    InitialPending(w0);
    CanStartIff(w0.table, m);
    PendingClosed(w0.table);
    PendingWaits(w0, m);
    var log := ReachReady(w0, Pending(w0.table), m);
    hide Initial, CanStart, CanBeReady, Looped, Resting, Outcome;
    NeededComplete(w0, log, m, x);
    CompleteClosed(w0, log);
  }

  /** What a member depends on lies apart from all of them. */
  lemma DependsApart(w0: World, q: seq<nat>, k: nat)
    requires Initial(w0) && Unordered(w0.table, q) && k in q
    ensures k in w0.table && forall d | d in w0.table[k].depends :: d in Apart(w0.table, q)
  {
    var tbl := w0.table;
    InitialPending(w0);
    hide Initial, CanStart, Needs;
    PendingOnly(tbl, k);
    NoSelfDepend(tbl, k);
    forall d | d in tbl[k].depends ensures d in Apart(tbl, q) {
      DependsCanStart(tbl, k, d);
      PendingOnly(tbl, d);
      DependNeeded(tbl, k, d);
      forall l | l in q ensures !Needs(tbl, d, l) {
        if Needs(tbl, d, l) && l == k {
          NoCycle(w0, k, d);
        } else if Needs(tbl, d, l) {
          NeedsTrans(tbl, k, d, l);
        }
      }
    }
  }

  // ---- Bringing up several

  ghost predicate DependsDoneIn(tbl: Table, s: set<nat>) {
    forall d | d in s :: d in tbl && tbl[d].status == Complete
  }

  /** Once all that lies apart from it is complete, each of the measurements is ready. */
  lemma MembersReady(w0: World, log: seq<Event>, q: seq<nat>, k: nat)
    requires Initial(w0) && Legal(w0, log) && Unordered(w0.table, q) && k in q
    requires Resting(w0, Outcome(w0, log), Apart(w0.table, q))
    requires DependsDoneIn(Outcome(w0, log).table, Apart(w0.table, q))
    ensures k in w0.table && k in Outcome(w0, log).table && Ready(Outcome(w0, log).table[k])
    ensures !Panics(Outcome(w0, log).table[k])
  {
    var w := Outcome(w0, log);
    RunInv(w0, log);
    RunPlan(w0, log);
    InitialPending(w0);
    DependsApart(w0, q, k);
    CanStartIff(w0.table, k);
    BeReadyPending(w0.table, k);
    PendingWaits(w0, k);
    hide Legal, Outcome, Initial, CanStart, CanBeReady, Needs, Panics;
    assert k !in Apart(w0.table, q);
    PlanFor(w0, w, k);
    ReadyMeansDependsDone(w.table, k);
  }

  lemma {:induction false} HostsPrefix(tbl: Table, q: seq<nat>, n: nat, cls: string)
    requires n <= |q| && forall k | k in q :: k in tbl
    ensures multiset(Classes(HostsOf(tbl, q[..n])))[cls] <= multiset(Classes(HostsOf(tbl, q)))[cls]
    decreases |q|
  {
    if n == |q| {
      assert q[..n] == q;
    } else {
      var front := q[..|q| - 1];
      assert front[..n] == q[..n];
      HostsPrefix(tbl, front, n, cls);
      ClassesConcat(HostsOf(tbl, front), tbl[q[|q| - 1]].hosts);
    }
  }

  lemma PrefixStaffable(cs: seq<Client>, tbl: Table, q: seq<nat>, n: nat)
    requires n <= |q| && forall k | k in q :: k in tbl
    requires Staffable(cs, HostsOf(tbl, q))
    ensures Staffable(cs, HostsOf(tbl, q[..n]))
  {
    hide HostsOf, ClientClasses;
    forall cls ensures multiset(Classes(HostsOf(tbl, q[..n])))[cls] <= multiset(ClientClasses(cs))[cls] {
      HostsPrefix(tbl, q, n, cls);
    }
  }

  lemma SameRoom(w0: World, w: World, p: seq<nat>)
    requires SamePlan(w0, w) && (forall k | k in p :: k in w0.table) && Staffable(w0.clients, HostsOf(w0.table, p))
    ensures (forall k | k in p :: k in w.table) && Staffable(w.clients, HostsOf(w.table, p))
  {
    SameClasses(w0, w);
    forall k | k in p ensures k in w.table && w.table[k].hosts == w0.table[k].hosts {
      PlanFor(w0, w, k);
    }
    hide SamePlan, HostsOf, ClientClasses, Staffable;
    HostsOfSame(w0.table, w.table, p);
    StaffableSame(w0.clients, w.clients, HostsOf(w.table, p));
  }

  /** There are clients enough for all of them at once. */
  ghost predicate Together(w0: World, q: seq<nat>) {
    (forall k | k in q :: k in w0.table) && Staffable(w0.clients, HostsOf(w0.table, q))
  }

  lemma OneMore(q: seq<nat>, n: nat)
    requires n < |q|
    ensures q[..n] + [q[n]] == q[..n + 1]
  {
  }

  /** There are clients for the next one as well. */
  lemma NextRoom(w0: World, w: World, q: seq<nat>, n: nat)
    requires SamePlan(w0, w) && n < |q| && Together(w0, q)
    ensures RoomFor(w, q[..n], q[n])
  {
    hide SamePlan, HostsOf, Staffable;
    PrefixStaffable(w0.clients, w0.table, q, n + 1);
    SameRoom(w0, w, q[..n + 1]);
    OneMore(q, n);
  }

  ghost predicate ReadyFrom(w: World, q: seq<nat>, n: nat) {
    forall i | n <= i < |q| ::
      q[i] in w.table && Ready(w.table[q[i]]) && !Panics(w.table[q[i]]) && Usable(w.table[q[i]])
  }

  /** The two tables differ in members of `q` only, and those have been started at time 0. */
  ghost predicate OnlyStarts(w: World, v: World, q: seq<nat>) {
    && v.table.Keys == w.table.Keys
    && forall k | k in w.table ::
         v.table[k] == w.table[k] || (k in q && v.table[k] == Started(w.table, k, 0)[k])
  }

  lemma StillReadyFrom(w: World, v: World, q: seq<nat>, n: nat)
    requires NoDup(q) && n < |q| && ReadyFrom(w, q, n) && q[n] in w.table && v.table == Started(w.table, q[n], 0)
    ensures ReadyFrom(v, q, n + 1) && OnlyStarts(w, v, q)
  {
    hide Panics, Ready, Usable;
  }

  lemma StartsOn(w: World, v: World, u: World, q: seq<nat>)
    requires OnlyStarts(w, v, q) && OnlyStarts(v, u, q)
    ensures OnlyStarts(w, u, q)
  {
  }

  lemma NextStart(w: World, q: seq<nat>, n: nat)
    requires n < |q| && ReadyFrom(w, q, n)
    ensures Enabled(w, Start(q[n], 0)) && q[n] in w.table && Usable(w.table[q[n]])
  {
    hide Panics, Usable, Ready;
  }

  lemma BringUpNext(w0: World, log: seq<Event>, q: seq<nat>, n: nat) returns (full: seq<Event>)
    requires Initial(w0) && Looped(w0, log) && NoDup(q) && n < |q|
    requires Cohort(Outcome(w0, log), q[..n]) && ReadyFrom(Outcome(w0, log), q, n)
    requires Together(w0, q)
    ensures Looped(w0, full) && PlaceOf(full) == BringingUp(q[n]) && Cohort(Outcome(w0, full), q[..n + 1])
    ensures ReadyFrom(Outcome(w0, full), q, n + 1) && OnlyStarts(Outcome(w0, log), Outcome(w0, full), q)
  {
    RunPlan(w0, log);
    hide Initial, Looped, Outcome, Cohort, Together, NoDup, Usable, RoomFor, SamePlan, HostsOf, ReadyFrom, OnlyStarts;
    hide Enabled;
    NextStart(Outcome(w0, log), q, n);
    NextRoom(w0, Outcome(w0, log), q, n);
    OneMore(q, n);
    full := BringUp(w0, log, q[..n], q[n]);
    StillReadyFrom(Outcome(w0, log), Outcome(w0, full), q, n);
  }

  /** The rest of the measurements are brought up, one in an iteration. */
  lemma {:induction false} BringUpRest(w0: World, log: seq<Event>, q: seq<nat>, n: nat) returns (full: seq<Event>)
    requires Initial(w0) && Looped(w0, log) && NoDup(q) && q != [] && n <= |q|
    requires n > 0 ==> PlaceOf(log) == BringingUp(q[n - 1])
    requires Cohort(Outcome(w0, log), q[..n]) && ReadyFrom(Outcome(w0, log), q, n)
    requires Together(w0, q)
    ensures Looped(w0, full) && PlaceOf(full) == BringingUp(q[|q| - 1]) && Cohort(Outcome(w0, full), q)
    ensures OnlyStarts(Outcome(w0, log), Outcome(w0, full), q)
    decreases |q| - n
  {
    if n == |q| {
      assert q[..n] == q;
      full := log;
    } else {
      full := BringUpNext(w0, log, q, n);
      var next := full;
      hide Initial, Looped, Outcome, Cohort, ReadyFrom, OnlyStarts, Together, NoDup;
      full := BringUpRest(w0, next, q, n + 1);
      StartsOn(Outcome(w0, log), Outcome(w0, next), Outcome(w0, full), q);
    }
  }

  lemma RestingCohort(w0: World, w: World, s: set<nat>)
    requires Initial(w0) && Resting(w0, w, s)
    ensures Cohort(w, [])
  {
  }

  lemma AllReady(w0: World, log: seq<Event>, q: seq<nat>)
    requires Initial(w0) && Legal(w0, log) && Unordered(w0.table, q)
    requires Resting(w0, Outcome(w0, log), Apart(w0.table, q))
    requires DependsDoneIn(Outcome(w0, log).table, Apart(w0.table, q))
    requires forall k | k in q :: k in w0.table && Usable(w0.table[k])
    ensures ReadyFrom(Outcome(w0, log), q, 0)
  {
    var w := Outcome(w0, log);
    RunPlan(w0, log);
    hide Initial, Legal, Outcome, Panics, Ready, SamePlan, Unordered, Resting, Apart, DependsDoneIn;
    forall k | k in q ensures k in w.table && Ready(w.table[k]) && !Panics(w.table[k]) && Usable(w.table[k]) {
      MembersReady(w0, log, q, k);
      PlanFor(w0, w, k);
    }
  }

  /** All of the measurements are brought up once everything apart from them is complete. */
  lemma BringUpAll(w0: World, log: seq<Event>, q: seq<nat>) returns (full: seq<Event>)
    requires Initial(w0) && Looped(w0, log) && NoDup(q) && q != [] && Unordered(w0.table, q)
    requires Resting(w0, Outcome(w0, log), Apart(w0.table, q))
    requires DependsDoneIn(Outcome(w0, log).table, Apart(w0.table, q))
    requires forall k | k in q :: k in w0.table && Usable(w0.table[k])
    requires Together(w0, q)
    ensures Looped(w0, full) && PlaceOf(full) == BringingUp(q[|q| - 1]) && Cohort(Outcome(w0, full), q)
    ensures OnlyStarts(Outcome(w0, log), Outcome(w0, full), q)
    ensures ReadyFrom(Outcome(w0, log), q, 0)
  {
    AllReady(w0, log, q);
    RestingCohort(w0, Outcome(w0, log), Apart(w0.table, q));
    hide Initial, Looped, Outcome, Cohort, Together, NoDup, Unordered, Resting, Apart, DependsDoneIn;
    hide ReadyFrom, OnlyStarts, Usable, HostsOf;
    assert q[..0] == [];
    full := BringUpRest(w0, log, q, 0);
  }

  // ---- Nothing else ready

  lemma NeedsMember(w0: World, m: nat, ks: seq<nat>, y: nat) returns (k: nat)
    requires Beside(w0, m, ks) && y !in ks + [m] && y in w0.table && CanBeReady(w0.table, y)
    requires CanStart(w0.table, y) <==> !Panics(w0.table[y])
    requires y !in Apart(w0.table, ks + [m])
    ensures k in ks + [m] && Needs(w0.table, y, k)
  {
    hide CanBeReady, Needs, CanStart, Panics, Staffable, Usable, NoDup;
    if Panics(w0.table[y]) && !Needs(w0.table, y, m) {
      assert Threatens(w0.table, m, y);
      k :| k in ks && Needs(w0.table, y, k);
    } else if Needs(w0.table, y, m) {
      k := m;
    } else {
      k :| k in ks + [m] && Needs(w0.table, y, k);
    }
  }

  /** When everything apart is complete and the rest is running, whatever could be ready needs some of it. */
  lemma HeldBack(w0: World, log: seq<Event>, m: nat, ks: seq<nat>, y: nat)
    requires Initial(w0) && Legal(w0, log) && Beside(w0, m, ks) && y !in ks + [m]
    requires DependsDoneIn(Outcome(w0, log).table, Apart(w0.table, ks + [m]))
    requires ReadyFrom(Outcome(w0, log), ks + [m], 0)
    requires y in Outcome(w0, log).table
    ensures !Ready(Outcome(w0, log).table[y])
  {
    var w, tbl := Outcome(w0, log), w0.table;
    if Ready(w.table[y]) {
      ReadyCanBeReady(w0, log, y);
      InitialPending(w0);
      CanStartIff(tbl, y);
      RunSize(w0, log);
      hide Initial, Legal, Outcome, CanBeReady, Needs, CanStart, Panics, Staffable, Usable, NoDup;
      var k := NeedsMember(w0, m, ks, y);
      NeededComplete(w0, log, y, k);
    }
  }

  lemma RestsAtFirst(w0: World, s: set<nat>)
    requires Initial(w0)
    ensures Resting(w0, w0, s)
  {
  }

  lemma NotItself(tbl: Table, m: nat)
    ensures !Needs(tbl, m, m)
  {
  }

  lemma BesideUnordered(w0: World, m: nat, ks: seq<nat>)
    requires Beside(w0, m, ks) && CanStart(w0.table, m) && Usable(w0.table[m])
    ensures NoDup(ks + [m]) && Unordered(w0.table, ks + [m])
    ensures forall k | k in ks + [m] :: k in w0.table && Usable(w0.table[k])
    ensures Together(w0, ks + [m])
  {
    hide CanStart, Needs, Usable, Staffable, Threatens;
    forall k, l | k in ks + [m] && l in ks + [m] ensures CanStart(w0.table, k) && !Needs(w0.table, k, l) {
      if k == m && l == m {
        NotItself(w0.table, m);
      } else if k == m || l == m {
        assert Independent(w0.table, m, if k == m then l else k);
      }
    }
  }

  lemma NoneReadyAfter(w0: World, log: seq<Event>, m: nat, ks: seq<nat>, v: World)
    requires Initial(w0) && Legal(w0, log) && Beside(w0, m, ks)
    requires DependsDoneIn(Outcome(w0, log).table, Apart(w0.table, ks + [m]))
    requires ReadyFrom(Outcome(w0, log), ks + [m], 0)
    requires OnlyStarts(Outcome(w0, log), v, ks + [m]) && Cohort(v, ks + [m])
    ensures NoReady(v)
  {
    hide Initial, Legal, Outcome, Beside, DependsDoneIn, ReadyFrom, NoDup, Usable, Full, AllAt;
    forall y | y in v.table ensures !Ready(v.table[y]) {
      if y in ks + [m] {
        assert Running(v, y);
      } else {
        HeldBack(w0, log, m, ks, y);
      }
    }
  }

  /** A run that has `m` authenticating beside these others, with nothing left to hand out. */
  lemma StableBase(w0: World, m: nat, ks: seq<nat>) returns (log: seq<Event>)
    requires Initial(w0) && Beside(w0, m, ks) && CanStart(w0.table, m) && Usable(w0.table[m])
    ensures Looped(w0, log) && PlaceOf(log) == BringingUp(m)
    ensures Cohort(Outcome(w0, log), ks + [m]) && NoReady(Outcome(w0, log))
  {
    var q := ks + [m];
    var s := Apart(w0.table, q);
    BesideUnordered(w0, m, ks);
    ApartUnblocked(w0, q);
    LoopedStart(w0);
    RestsAtFirst(w0, s);
    hide Initial, Looped, Outcome, Cohort, Together, NoDup, Unordered, Resting, Apart, NoReady, Unblocked, Beside;
    hide CanStart, Usable, OnlyStarts, ReadyFrom;
    var before := Drain(w0, [], s);
    log := BringUpAll(w0, before, q);
    NoneReadyAfter(w0, before, m, ks, Outcome(w0, log));
  }

  // ---- Others to be started meanwhile

  ghost predicate OnlyRuns(w: World, m: nat) {
    forall k | k in w.table && w.table[k].status == InProgress :: k == m
  }

  ghost function Untried(w0: World, w: World, m: nat): set<nat> {
    set k | k in IndependentOf(w0.table, m) && k in w.table && w.table[k].status != Complete
  }

  /** The scheduler can be consulted `n` more times: it has nothing to hand out, or enough that does not panic. */
  ghost predicate Supply(w0: World, w: World, m: nat, n: nat) {
    NoReady(w) || (OnlyRuns(w, m) && |Untried(w0, w, m)| >= n)
  }

  lemma WithNeeded(tbl: Table, m: nat)
    requires DependsPending(tbl) && CanStart(tbl, m)
    ensures Closed(tbl, {m} + NeededBy(tbl, m))
  {
    CanStartIff(tbl, m);
    var s := {m} + NeededBy(tbl, m);
    hide CanStart, Needs, CanBeReady, Panics;
    forall y | y in s ensures y in Pending(tbl) && forall d | d in tbl[y].depends :: d in s {
      if y != m {
        NeededStartable(tbl, m, y);
      }
      PendingOnly(tbl, y);
      forall d | d in tbl[y].depends && d != m ensures d in NeededBy(tbl, m) {
        DependsCanStart(tbl, y, d);
        PendingOnly(tbl, d);
        if y == m {
          DependNeeded(tbl, m, d);
        } else {
          NeedsThrough(tbl, m, y, d);
        }
      }
    }
  }

  lemma AllUntried(w0: World, w: World, v: World, m: nat)
    requires Initial(w0) && Resting(w0, w, {m} + NeededBy(w0.table, m))
    requires m in w.table && v.table == Started(w.table, m, 0)
    ensures Untried(w0, v, m) == IndependentOf(w0.table, m)
  {
    hide Initial, CanStart, Needs, Panics;
    forall k | k in IndependentOf(w0.table, m) ensures k in Untried(w0, v, m) {
      PendingOnly(w0.table, k);
    }
  }

  lemma UsableStill(w0: World, w: World, m: nat)
    requires SamePlan(w0, w) && m in w0.table && Usable(w0.table[m])
    ensures m in w.table && Usable(w.table[m])
  {
  }

  lemma SoleRoom(w0: World, w: World, m: nat)
    requires SamePlan(w0, w) && m in w0.table && Staffable(w0.clients, w0.table[m].hosts)
    ensures RoomFor(w, [], m)
  {
    hide SamePlan, Staffable;
    assert [m][..0] == [];
    assert HostsOf(w0.table, [m]) == HostsOf(w0.table, []) + w0.table[m].hosts == w0.table[m].hosts;
    SameRoom(w0, w, [m]);
    assert [] + [m] == [m];
  }

  /** A run that has `m` ready, nothing running, and nothing completed but what `m` needs. */
  lemma AloneReady(w0: World, m: nat) returns (log: seq<Event>)
    requires Initial(w0) && CanStart(w0.table, m)
    ensures Looped(w0, log) && Resting(w0, Outcome(w0, log), {m} + NeededBy(w0.table, m))
    ensures Enabled(Outcome(w0, log), Start(m, 0))
  {
    var s := {m} + NeededBy(w0.table, m);
    InitialPending(w0);
    CanStartIff(w0.table, m);
    WithNeeded(w0.table, m);
    ClosedPending(w0.table, s);
    hide CanStart, NeededBy, CanBeReady, Panics, Closed, Initial, Looped, Outcome, Resting;
    log := ReachReady(w0, s, m);
    RestingMore(w0, Outcome(w0, log), s);
    StartOnce(w0, log, m);
  }

  /** A run that has `m` authenticating alone, with nothing independent of it completed. */
  lemma AloneBase(w0: World, m: nat) returns (log: seq<Event>)
    requires Initial(w0) && GetsStaffed(w0, m) && Usable(w0.table[m])
    ensures Looped(w0, log) && PlaceOf(log) == BringingUp(m)
    ensures Cohort(Outcome(w0, log), [m]) && Untried(w0, Outcome(w0, log), m) == IndependentOf(w0.table, m)
  {
    var before := AloneReady(w0, m);
    var w := Outcome(w0, before);
    RunPlan(w0, before);
    RestingCohort(w0, w, {m} + NeededBy(w0.table, m));
    hide CanStart, NeededBy, Initial, Looped, Outcome, Cohort, Resting, Usable, Untried, IndependentOf, RoomFor;
    hide SamePlan, Enabled, NoDup, HostsOf, Staffable;
    SoleRoom(w0, w, m);
    UsableStill(w0, w, m);
    log := BringUp(w0, before, [], m);
    assert [] + [m] == [m];
    AllUntried(w0, w, Outcome(w0, log), m);
  }

  lemma CohortAround(w: World, q: seq<nat>, m: nat)
    requires Inv(w) && Cohort(w, q) && m in q
    ensures Around(w, m) && AllAt(w.clients, m, 2) && m !in w.extended
    ensures q == [m] ==> OnlyRuns(w, m)
  {
    NoZero(w);
    CohortHead(w, q);
    hide Inv, NoDup, Paired, Awaits;
  }

  /** A run that has just brought `m` up, and in which it can be kept at work. */
  lemma Assembled(w0: World, m: nat, n: nat) returns (log: seq<Event>)
    requires Initial(w0) && GetsStaffed(w0, m) && Usable(w0.table[m]) && Outlasts(w0, m, n)
    ensures Looped(w0, log) && PlaceOf(log) == BringingUp(m)
    ensures var w := Outcome(w0, log);
      Around(w, m) && AllAt(w.clients, m, 2) && m !in w.extended && Supply(w0, w, m, n)
  {
    hide Initial, Beside, CanStart, Outcome, Cohort, Around, AllAt, NoReady, Untried, OnlyRuns, IndependentOf, Inv;
    hide Usable;
    if ks :| Beside(w0, m, ks) {
      log := StableBase(w0, m, ks);
      RunInv(w0, log);
      CohortAround(Outcome(w0, log), ks + [m], m);
    } else {
      log := AloneBase(w0, m);
      RunInv(w0, log);
      CohortAround(Outcome(w0, log), [m], m);
    }
  }
}
