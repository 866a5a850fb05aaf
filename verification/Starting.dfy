/**
 * Which schedules some run finishes, which measurements some run starts, and in which order every run starts
 * them. The runs that are found keep to the order of the main loop.
 */
module Starting {
  import opened Sequences
  import opened Schedule
  import opened Clients
  import opened Staffing
  import opened Protocol
  import opened Runs
  import opened Progress
  import opened Liveness
  import opened Heads
  import opened History
  import opened Looping

  /** A pending measurement in no blocked set. */
  ghost predicate CanStart(tbl: Table, m: nat) {
    m in Pending(tbl) && forall c: set<nat> | Blocked(tbl, c) :: m !in c
  }

  /** A pending measurement that repeats no depend and whose depends can all be started. */
  ghost predicate CanBeReady(tbl: Table, m: nat) {
    m in Pending(tbl) && NoDup(tbl[m].depends) && forall d | d in tbl[m].depends :: CanStart(tbl, d)
  }

  ghost predicate Closed(tbl: Table, s: set<nat>) {
    forall k | k in s :: k in Pending(tbl) && forall d | d in tbl[k].depends :: d in s
  }

  /** Every pending set that is closed under depends and has `m` in it has `d` in it, too. */
  ghost predicate Needs(tbl: Table, m: nat, d: nat) {
    d != m && forall s: set<nat> | Closed(tbl, s) && m in s :: d in s
  }

  ghost function Startable(tbl: Table): set<nat> {
    set k | k in tbl && CanStart(tbl, k)
  }

  lemma DependsCanStart(tbl: Table, m: nat, d: nat)
    requires CanStart(tbl, m) && DependsPending(tbl) && d in tbl[m].depends
    ensures CanStart(tbl, d)
  {
    hide Panics;
    forall c: set<nat> | Blocked(tbl, c) ensures d !in c {
      assert !Blocked(tbl, c + {m});
    }
  }

  /** What can be started is what can be ready and does not stop the program then. */
  lemma CanStartIff(tbl: Table, m: nat)
    requires DependsPending(tbl)
    ensures CanStart(tbl, m) <==> CanBeReady(tbl, m) && !Panics(tbl[m])
  {
    hide Panics;
    if CanStart(tbl, m) {
      assert !Blocked(tbl, {m});
      forall d | d in tbl[m].depends ensures CanStart(tbl, d) {
        DependsCanStart(tbl, m, d);
      }
    }
  }

  lemma PendingOnly(tbl: Table, m: nat)
    requires CanStart(tbl, m)
    ensures m in tbl && tbl[m].status != Complete
  {
  }

  lemma NotBlocked(tbl: Table, m: nat, c: set<nat>)
    requires CanStart(tbl, m) && Blocked(tbl, c)
    ensures m !in c
  {
  }

  lemma StartableClosed(tbl: Table)
    requires DependsPending(tbl)
    ensures Closed(tbl, Startable(tbl))
  {
    forall k, d | k in Startable(tbl) && d in tbl[k].depends ensures d in Startable(tbl) {
      DependsCanStart(tbl, k, d);
    }
  }

  /** Whatever a measurement that can be started needs can be started. */
  lemma NeededCanStart(tbl: Table, m: nat, d: nat)
    requires DependsPending(tbl) && CanStart(tbl, m) && (d == m || Needs(tbl, m, d))
    ensures CanStart(tbl, d)
  {
    hide CanStart, Closed;
    StartableClosed(tbl);
    PendingOnly(tbl, m);
    assert m in Startable(tbl);
  }

  /** What lies in a closed set and can be started is closed, too, and nothing of it is blocked. */
  lemma StartableUnblocked(tbl: Table, s: set<nat>)
    requires Closed(tbl, s) && DependsPending(tbl)
    ensures Unblocked(tbl, s * Startable(tbl))
  {
    hide CanStart;
    forall k, d | k in s * Startable(tbl) && d in tbl[k].depends ensures d in s * Startable(tbl) {
      DependsCanStart(tbl, k, d);
      PendingOnly(tbl, d);
    }
    forall c: set<nat> | c <= s * Startable(tbl) ensures !Blocked(tbl, c) {
      if Blocked(tbl, c) {
        var k :| k in c;
        NotBlocked(tbl, k, c);
      }
    }
  }

  lemma InitialPending(w0: World)
    requires Initial(w0)
    ensures DependsPending(w0.table)
  {
  }

  lemma PendingWaits(w0: World, m: nat)
    requires Initial(w0) && m in Pending(w0.table)
    ensures m in w0.table && w0.table[m].status == Waiting
  {
  }

  /** Nothing runs, no client is in use, no deadline was reset, and only members of `s` have been completed. */
  ghost predicate Resting(w0: World, w: World, s: set<nat>) {
    && w.clients == w0.clients && w.extended == w0.extended
    && w.table.Keys == w0.table.Keys
    && forall k | k in w.table ::
         w.table[k].status != InProgress && (k !in s ==> w.table[k].status == w0.table[k].status)
  }

  lemma NoneOwned(w0: World, k: nat)
    requires Initial(w0) && k in w0.table
    ensures forall i | 0 <= i < |w0.clients| :: w0.clients[i].owner != k
  {
  }

  lemma ReleasedNone(cs: seq<Client>, k: nat)
    requires forall i | 0 <= i < |cs| :: cs[i].owner != k
    ensures Released(cs, k) == cs
  {
  }

  lemma RestingAllowed(w0: World, w: World, s: set<nat>, p: Place, e: Event)
    requires Resting(w0, w, s) && (e.Start? || e.NoneReady?)
    ensures Allowed(p, w, e)
  {
  }

  lemma FailAllowed(p: Place, w: World, m: nat)
    ensures Allowed(p, w, Fail(m))
  {
  }

  lemma StartFailWorld(w0: World, w: World, k: nat)
    requires Initial(w0) && Inv(w) && Resting(w0, w, Pending(w0.table))
    requires k in w.table && Ready(w.table[k]) && !Panics(w.table[k])
    ensures Enabled(w, Start(k, 0)) && Enabled(Apply(w, Start(k, 0)), Fail(k))
    ensures var w' := Apply(Apply(w, Start(k, 0)), Fail(k));
      && 0 <= Rank(w') < Rank(w)
      && w'.clients == w.clients && w'.extended == w.extended && w'.table.Keys == w.table.Keys
      && forall x | x in w.table :: w'.table[x].status == if x == k then Complete else w.table[x].status
  {
    hide Inv, Rank, Panics;
    StepInv(w, Start(k, 0));
    StepInv(Apply(w, Start(k, 0)), Fail(k));
    RankNonNegative(Apply(Apply(w, Start(k, 0)), Fail(k)));
    StepRank(w, Start(k, 0));
    StepInv(w, Start(k, 0));
    StepRank(Apply(w, Start(k, 0)), Fail(k));
    NoneOwned(w0, k);
    ReleasedNone(w0.clients, k);
  }

  lemma RestingOn(w0: World, w: World, w': World, s: set<nat>, k: nat)
    requires Resting(w0, w, s) && k in s
    requires w'.clients == w.clients && w'.extended == w.extended && w'.table.Keys == w.table.Keys
    requires forall x | x in w.table :: w'.table[x].status == if x == k then Complete else w.table[x].status
    ensures Resting(w0, w', s)
  {
  }

  lemma RestingMore(w0: World, w: World, s: set<nat>)
    requires Resting(w0, w, s) && s <= Pending(w0.table)
    ensures Resting(w0, w, Pending(w0.table))
  {
  }

  /** An iteration in which a measurement is started and its first client cannot be connected. */
  lemma StartThenFail(w0: World, log: seq<Event>, s: set<nat>, k: nat) returns (longer: seq<Event>)
    requires Initial(w0) && Looped(w0, log) && Resting(w0, Outcome(w0, log), s) && s <= Pending(w0.table) && k in s
    requires k in Outcome(w0, log).table && Ready(Outcome(w0, log).table[k]) && !Panics(Outcome(w0, log).table[k])
    ensures Looped(w0, longer) && Resting(w0, Outcome(w0, longer), s)
    ensures var w, w' := Outcome(w0, log), Outcome(w0, longer);
      && 0 <= Rank(w') < Rank(w) && w'.table.Keys == w.table.Keys
      && forall x | x in w.table :: w'.table[x].status == if x == k then Complete else w.table[x].status
  {
    RunInv(w0, log);
    var w, e := Outcome(w0, log), Start(k, 0);
    RestingMore(w0, w, s);
    StartFailWorld(w0, w, k);
    RestingAllowed(w0, w, s, PlaceOf(log), e);
    hide Initial, Outcome, Rank, Inv, Panics, Allowed, Looped, Enabled, Apply, Resting;
    LoopedStep(w0, log, e);
    FailAllowed(PlaceOf(log + [e]), Apply(w, e), k);
    LoopedStep(w0, log + [e], Fail(k));
    longer := log + [e] + [Fail(k)];
    RestingOn(w0, w, Outcome(w0, longer), s, k);
  }

  lemma UnblockedStill(w0: World, log: seq<Event>, s: set<nat>)
    requires Legal(w0, log) && Unblocked(w0.table, s) && s <= Pending(w0.table)
    ensures Unblocked(Outcome(w0, log).table, s)
  {
    hide Blocked;
    RunPlan(w0, log);
    var w := Outcome(w0, log);
    forall c: set<nat> | c <= s ensures !Blocked(w.table, c) {
      if Blocked(w.table, c) {
        BlockedBefore(w0, w, c);
      }
    }
  }

  lemma NextReady(w0: World, log: seq<Event>, s: set<nat>, m: nat) returns (k: nat)
    requires Initial(w0) && Legal(w0, log) && Resting(w0, Outcome(w0, log), s) && Unblocked(Outcome(w0, log).table, s)
    requires var tbl := Outcome(w0, log).table;
      && m in tbl && tbl[m].status == Waiting && NoDup(tbl[m].depends) && !Ready(tbl[m])
      && forall d | d in tbl[m].depends :: d in s
    ensures k in s && k in Outcome(w0, log).table
    ensures k != m && Ready(Outcome(w0, log).table[k]) && !Panics(Outcome(w0, log).table[k])
  {
    RunInv(w0, log);
    hide Initial, Legal, Outcome, Panics;
    var tbl := Outcome(w0, log).table;
    ReadyMeansDependsDone(tbl, m);
    var d :| d in tbl[m].depends && !(d in tbl && tbl[d].status == Complete);
    SomethingReady(tbl, s);
    k :| k in s && Ready(tbl[k]) && !Panics(tbl[k]);
  }

  /** A run that completes only members of `s`, which has all that `m` depends on, and gets `m` ready. */
  lemma {:induction false} Reach(w0: World, log: seq<Event>, s: set<nat>, m: nat) returns (full: seq<Event>)
    requires Initial(w0) && Looped(w0, log) && Resting(w0, Outcome(w0, log), s)
    requires s <= Pending(w0.table) && Unblocked(w0.table, s)
    requires m in w0.table && NoDup(w0.table[m].depends) && forall d | d in w0.table[m].depends :: d in s
    requires Outcome(w0, log).table[m].status == Waiting
    ensures Looped(w0, full) && Resting(w0, Outcome(w0, full), s)
    ensures m in Outcome(w0, full).table && Ready(Outcome(w0, full).table[m])
    decreases Rank(Outcome(w0, log))
  {
    var w := Outcome(w0, log);
    full := log;
    if !Ready(w.table[m]) {
      hide Initial, Looped, Outcome, Rank, Ready, Panics, Unblocked;
      UnblockedStill(w0, log, s);
      RunPlan(w0, log);
      PlanFor(w0, w, m);
      hide SamePlan;
      var k := NextReady(w0, log, s, m);
      hide Resting;
      var longer := StartThenFail(w0, log, s, k);
      full := Reach(w0, longer, s, m);
    }
  }

  /** What has been started can be started: it is in no blocked set. */
  lemma StartedCanStart(w0: World, log: seq<Event>, m: nat)
    requires Initial(w0) && Legal(w0, log) && m in w0.table && w0.table[m].status == Waiting
    requires m in Outcome(w0, log).table && Outcome(w0, log).table[m].status != Waiting
    ensures CanStart(w0.table, m)
  {
    forall c: set<nat> | Blocked(w0.table, c) ensures m !in c {
      BlockedNeverStarts(w0, log, c);
    }
  }

  lemma ClosedPending(tbl: Table, s: set<nat>)
    requires Closed(tbl, s)
    ensures s <= Pending(tbl)
  {
  }

  /** A run that has `m` ready, has completed only members of a closed set, and has nobody at work. */
  lemma ReachReady(w0: World, s: set<nat>, m: nat) returns (log: seq<Event>)
    requires Initial(w0) && CanBeReady(w0.table, m) && Closed(w0.table, s) && m in s
    ensures Looped(w0, log) && Resting(w0, Outcome(w0, log), s)
    ensures m in Outcome(w0, log).table && Ready(Outcome(w0, log).table[m])
  {
    InitialPending(w0);
    PendingWaits(w0, m);
    StartableUnblocked(w0.table, s);
    LoopedStart(w0);
    ClosedPending(w0.table, s);
    assert forall d | d in w0.table[m].depends :: d in s * Startable(w0.table);
    hide Unblocked, CanStart, Closed, CanBeReady;
    log := Reach(w0, [], s * Startable(w0.table), m);
  }

  lemma ReadyCanBeReady(w0: World, log: seq<Event>, m: nat)
    requires Initial(w0) && Legal(w0, log) && m in Outcome(w0, log).table && Ready(Outcome(w0, log).table[m])
    ensures CanBeReady(w0.table, m)
  {
    var w := Outcome(w0, log);
    RunInv(w0, log);
    RunPlan(w0, log);
    InitialPending(w0);
    ReadyMeansDependsDone(w.table, m);
    hide Initial, Legal, Outcome, Inv, CanStart;
    forall d | d in w0.table[m].depends ensures CanStart(w0.table, d) {
      PendingWaits(w0, d);
      StartedCanStart(w0, log, d);
    }
  }

  /**
   * Some run gets to hand out a measurement if and only if it is pending, repeats no depend, and its depends
   * can be started.
   */
  lemma ReadyIffCanBeReady(w0: World, m: nat)
    requires Initial(w0)
    ensures (exists log :: Looped(w0, log) && m in Outcome(w0, log).table && Ready(Outcome(w0, log).table[m])) <==>
            CanBeReady(w0.table, m)
  {
    if CanBeReady(w0.table, m) {
      assert Closed(w0.table, Pending(w0.table)) by { InitialPending(w0); }
      var log := ReachReady(w0, Pending(w0.table), m);
    }
    if log :| Looped(w0, log) && m in Outcome(w0, log).table && Ready(Outcome(w0, log).table[m]) {
      ReadyCanBeReady(w0, log, m);
    }
  }

  lemma {:induction false} StartsInTable(w0: World, log: seq<Event>, m: nat)
    requires Legal(w0, log) && Starts(log, m) > 0
    ensures m in w0.table
    decreases |log|
  {
    var front, e := log[..|log| - 1], log[|log| - 1];
    RunSize(w0, front);
    if !(e.Start? && e.m == m) {
      StartsInTable(w0, front, m);
    }
  }

  /** Once it is ready and nothing runs, what can be started is started. */
  lemma StartOnce(w0: World, log: seq<Event>, m: nat)
    requires Initial(w0) && CanStart(w0.table, m) && Looped(w0, log) && Resting(w0, Outcome(w0, log), Pending(w0.table))
    requires m in Outcome(w0, log).table && Ready(Outcome(w0, log).table[m])
    ensures Enabled(Outcome(w0, log), Start(m, 0)) && Looped(w0, log + [Start(m, 0)])
    ensures Outcome(w0, log + [Start(m, 0)]) == Apply(Outcome(w0, log), Start(m, 0))
    ensures PlaceOf(log + [Start(m, 0)]) == BringingUp(m)
  {
    InitialPending(w0);
    CanStartIff(w0.table, m);
    RunPlan(w0, log);
    RestingAllowed(w0, Outcome(w0, log), Pending(w0.table), PlaceOf(log), Start(m, 0));
    hide Initial, Looped, Outcome, CanStart, CanBeReady, Panics, Allowed;
    PlanFor(w0, Outcome(w0, log), m);
    LoopedStep(w0, log, Start(m, 0));
  }

  /** Some run starts a measurement if and only if it is pending and in no blocked set. */
  lemma StartedIffCanStart(w0: World, m: nat)
    requires Initial(w0)
    ensures (exists log :: Looped(w0, log) && Starts(log, m) > 0) <==> CanStart(w0.table, m)
  {
    if CanStart(w0.table, m) {
      InitialPending(w0);
      CanStartIff(w0.table, m);
      assert Closed(w0.table, Pending(w0.table));
      var log := ReachReady(w0, Pending(w0.table), m);
      StartOnce(w0, log, m);
      assert (log + [Start(m, 0)])[..|log|] == log;
      assert Starts(log + [Start(m, 0)], m) > 0;
    }
    if log :| Looped(w0, log) && Starts(log, m) > 0 {
      StartsInTable(w0, log, m);
      StatusTellsHistory(w0, log, m);
      StartedCanStart(w0, log, m);
    }
  }

  // ---- Finishing

  lemma DrainNext(w0: World, log: seq<Event>, s: set<nat>, m: nat) returns (k: nat)
    requires Initial(w0) && Legal(w0, log) && Resting(w0, Outcome(w0, log), s)
    requires s <= Pending(w0.table) && Unblocked(w0.table, s)
    requires m in s && m in Outcome(w0, log).table && Outcome(w0, log).table[m].status != Complete
    ensures k in s && k in Outcome(w0, log).table
    ensures Ready(Outcome(w0, log).table[k]) && !Panics(Outcome(w0, log).table[k])
  {
    UnblockedStill(w0, log, s);
    RunInv(w0, log);
    hide Initial, Legal, Outcome, Panics;
    var tbl := Outcome(w0, log).table;
    SomethingReady(tbl, s);
    k :| k in s && Ready(tbl[k]) && !Panics(tbl[k]);
  }

  /** A run that completes all of a set that is closed under depends and has no blocked part. */
  lemma {:induction false} Drain(w0: World, log: seq<Event>, s: set<nat>) returns (full: seq<Event>)
    requires Initial(w0) && Looped(w0, log) && Resting(w0, Outcome(w0, log), s)
    requires s <= Pending(w0.table) && Unblocked(w0.table, s)
    ensures Looped(w0, full) && Resting(w0, Outcome(w0, full), s)
    ensures forall k | k in s :: k in Outcome(w0, full).table && Outcome(w0, full).table[k].status == Complete
    decreases Rank(Outcome(w0, log))
  {
    var w := Outcome(w0, log);
    full := log;
    assert s <= w.table.Keys by { RunSize(w0, log); }
    if m :| m in s && w.table[m].status != Complete {
      var k := DrainNext(w0, log, s, m);
      hide Initial, Looped, Outcome, Rank, Ready, Panics, Unblocked, Resting;
      var longer := StartThenFail(w0, log, s, k);
      full := Drain(w0, longer, s);
    }
  }

  lemma PendingUnblocked(w0: World)
    requires Initial(w0) && Viable(w0.table)
    ensures Unblocked(w0.table, Pending(w0.table))
  {
    hide Blocked, Panics;
  }

  lemma AllDrained(w0: World, w: World)
    requires Initial(w0) && Resting(w0, w, Pending(w0.table))
    requires forall k | k in Pending(w0.table) :: k in w.table && w.table[k].status == Complete
    ensures AllComplete(w.table)
  {
  }

  /** Some run finishes a schedule if and only if no set of its measurements is blocked. */
  lemma FinishableIffViable(w0: World)
    requires Initial(w0)
    ensures (exists log :: Looped(w0, log) && AllComplete(Outcome(w0, log).table)) <==> Viable(w0.table)
  {
    if Viable(w0.table) {
      LoopedStart(w0);
      PendingUnblocked(w0);
      var log := Drain(w0, [], Pending(w0.table));
      AllDrained(w0, Outcome(w0, log));
    } else {
      var c :| Blocked(w0.table, c);
      forall log | Looped(w0, log) ensures !AllComplete(Outcome(w0, log).table) {
        BlockedNeverStarts(w0, log, c);
        var m :| m in c;
      }
    }
  }

  // ---- What must have ended before a start

  ghost predicate StartAt(log: seq<Event>, p: nat, m: nat) {
    p < |log| && log[p].Start? && log[p].m == m
  }

  /** Whatever has been started since the load depends only on what is complete. */
  ghost predicate DependsEnded(w0: World, tbl: Table) {
    forall k | k in tbl && k in w0.table && w0.table[k].status == Waiting && tbl[k].status != Waiting ::
      forall d | d in tbl[k].depends :: d in tbl && tbl[d].status == Complete
  }

  ghost function EndedIn(tbl: Table, s: set<nat>): set<nat> {
    set k | k in s && k in tbl && tbl[k].status == Complete
  }

  lemma StepDependsEnded(w0: World, w: World, e: Event)
    requires Tracked(w.table) && Enabled(w, e) && DependsEnded(w0, w.table)
    ensures DependsEnded(w0, Apply(w, e).table)
  {
    hide Full, AllAt, Within, Fits, OwnedClasses, Pairs, Released, Panics;
    if e.Start? {
      ReadyMeansDependsDone(w.table, e.m);
    }
  }

  lemma {:induction false} RunDependsEnded(w0: World, log: seq<Event>)
    requires Initial(w0) && Legal(w0, log)
    ensures DependsEnded(w0, Outcome(w0, log).table)
    decreases |log|
  {
    if log != [] {
      var front, e := log[..|log| - 1], log[|log| - 1];
      RunDependsEnded(w0, front);
      RunInv(w0, front);
      StepDependsEnded(w0, Outcome(w0, front), e);
    }
  }

  /** At a start, the measurement together with all that have ended is closed under depends. */
  lemma EndedClosed(w0: World, log: seq<Event>, m: nat)
    requires Initial(w0) && Legal(w0, log) && m in Outcome(w0, log).table && Ready(Outcome(w0, log).table[m])
    ensures Closed(w0.table, {m} + EndedIn(Outcome(w0, log).table, Pending(w0.table)))
  {
    RunInv(w0, log);
    RunPlan(w0, log);
    RunDependsEnded(w0, log);
    ReadyMeansDependsDone(Outcome(w0, log).table, m);
    InitialPending(w0);
  }

  /** In every run `d` has ended, once, by the time `m` starts. */
  ghost predicate AlwaysEndsFirst(w0: World, d: nat, m: nat) {
    forall log, p | Looped(w0, log) && StartAt(log, p, m) :: Ends(log[..p], d) == 1
  }

  lemma AtStart(w0: World, log: seq<Event>, p: nat, m: nat)
    requires Initial(w0) && Legal(w0, log) && StartAt(log, p, m) && m in Pending(w0.table)
    ensures Legal(w0, log[..p]) && m in Outcome(w0, log[..p]).table && Ready(Outcome(w0, log[..p]).table[m])
    ensures CanStart(w0.table, m)
  {
    hide Legal, Outcome, Initial;
    PrefixLegal(w0, log, p);
    PendingWaits(w0, m);
    StartedCanStart(w0, log[..p + 1], m);
  }

  lemma NeededEnds(w0: World, log: seq<Event>, p: nat, m: nat, d: nat)
    requires Initial(w0) && Legal(w0, log) && StartAt(log, p, m) && m in Pending(w0.table) && d in Pending(w0.table)
    requires !CanStart(w0.table, m) || Needs(w0.table, m, d)
    ensures Ends(log[..p], d) == 1
  {
    hide Legal, Outcome, Initial, CanStart, Closed, Ready, Pending;
    AtStart(w0, log, p, m);
    EndedClosed(w0, log[..p], m);
    assert d in EndedIn(Outcome(w0, log[..p]).table, Pending(w0.table));
    PendingWaits(w0, d);
    StatusTellsHistory(w0, log[..p], d);
  }

  /** If `m` does not need `d`, some run starts it while `d` has not ended. */
  lemma StartWithout(w0: World, m: nat, d: nat) returns (log: seq<Event>)
    requires Initial(w0) && CanStart(w0.table, m) && !Needs(w0.table, m, d) && d in Pending(w0.table)
    ensures log != [] && Looped(w0, log) && StartAt(log, |log| - 1, m) && Ends(log[..|log| - 1], d) == 0
  {
    InitialPending(w0);
    CanStartIff(w0.table, m);
    var s := Pending(w0.table);
    if d != m {
      s :| Closed(w0.table, s) && m in s && d !in s;
    }
    var before := ReachReady(w0, s, m);
    ClosedPending(w0.table, s);
    RestingMore(w0, Outcome(w0, before), s);
    hide Looped, Outcome, Closed, CanBeReady, Panics;
    StartOnce(w0, before, m);
    log := before + [Start(m, 0)];
    assert log[..|log| - 1] == before;
    StatusTellsHistory(w0, before, d);
  }

  /**
   * In every run of a schedule, `d` has ended when `m` starts if and only if `m` is never started or needs
   * `d`, directly or through others.
   */
  lemma EndsFirstIffNeeded(w0: World, m: nat, d: nat)
    requires Initial(w0) && m in Pending(w0.table) && d in Pending(w0.table)
    ensures AlwaysEndsFirst(w0, d, m) <==> !CanStart(w0.table, m) || Needs(w0.table, m, d)
  {
    hide Pending, CanStart, Needs;
    forall log, p | Looped(w0, log) && StartAt(log, p, m) && (!CanStart(w0.table, m) || Needs(w0.table, m, d))
      ensures Ends(log[..p], d) == 1
    {
      NeededEnds(w0, log, p, m, d);
    }
    if CanStart(w0.table, m) && !Needs(w0.table, m, d) {
      var log := StartWithout(w0, m, d);
      assert StartAt(log, |log| - 1, m);
    }
  }
}
