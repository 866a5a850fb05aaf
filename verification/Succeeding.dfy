/** What a run can get done: which measurements can succeed, and which can report. */
module Succeeding {
  import opened Sequences
  import opened Schedule
  import opened Clients
  import opened Staffing
  import opened Protocol
  import opened Runs
  import opened Progress
  import opened Liveness
  import opened Heads
  import opened History
  import opened Looping
  import opened Starting
  import opened Crews
  import opened Outlasting
  import opened Handshakes
  import opened Assembly

  // ---- One iteration after another

  /** Measurement `m` is at stage `s` and can be kept at work through `n` more consultations of the scheduler. */
  ghost predicate Standing(w0: World, w: World, m: nat, s: nat, n: nat) {
    Around(w, m) && AllAt(w.clients, m, s) && (m in w.extended <==> s >= 8) && Supply(w0, w, m, n)
  }

  /** What later iterations leave as it is, or for the better. */
  ghost predicate Kept(w: World, v: World, m: nat) {
    && w.table.Keys == v.table.Keys
    && (NoReady(w) ==> NoReady(v)) && (OnlyRuns(w, m) ==> OnlyRuns(v, m))
  }

  lemma KeptSame(w: World, v: World, m: nat)
    requires v.table == w.table
    ensures Kept(w, v, m)
  {
  }

  lemma KeptOn(w: World, v: World, u: World, m: nat)
    requires Kept(w, v, m) && Kept(v, u, m)
    ensures Kept(w, u, m)
  {
  }

  lemma SupplySame(w0: World, w: World, v: World, m: nat, n: nat)
    requires Supply(w0, w, m, n) && v.table == w.table
    ensures Supply(w0, v, m, n)
  {
  }

  lemma UntriedApart(w0: World, w: World, m: nat)
    requires w.table.Keys == w0.table.Keys
    ensures Untried(w0, w, m) <= Apart(w0.table, [m])
    ensures m !in Apart(w0.table, [m])
    ensures forall x | x in Untried(w0, w, m) :: w.table[x].status != Complete
    ensures forall k | k in Apart(w0.table, [m]) && w.table[k].status != Complete ::
              k in Untried(w0, w, m) || Needs(w0.table, m, k)
  {
    hide CanStart, Needs;
  }

  /** While others are left to be started, one of them is ready and does not panic. */
  lemma NextOther(w0: World, log: seq<Event>, m: nat, n: nat) returns (k: nat)
    requires Initial(w0) && Legal(w0, log) && Running(Outcome(w0, log), m) && OnlyRuns(Outcome(w0, log), m)
    requires |Untried(w0, Outcome(w0, log), m)| >= n >= 1
    ensures k in Untried(w0, Outcome(w0, log), m) && k != m
    ensures Ready(Outcome(w0, log).table[k]) && !Panics(Outcome(w0, log).table[k])
  {
    var w, s := Outcome(w0, log), Apart(w0.table, [m]);
    ApartUnblocked(w0, [m]);
    UnblockedStill(w0, log, s);
    RunInv(w0, log);
    RunSize(w0, log);
    UntriedApart(w0, w, m);
    hide Initial, Legal, Outcome, Unblocked, CanStart, Needs, Panics, Untried, Apart;
    var x :| x in Untried(w0, w, m);
    SomethingReady(w.table, s);
    k :| k in s && Ready(w.table[k]) && !Panics(w.table[k]);
    if Needs(w0.table, m, k) {
      NeededComplete(w0, log, m, k);
    }
  }

  lemma ReleasedOnly(w: World, k: nat)
    requires Inv(w) && Enabled(w, Start(k, 0))
    ensures Released(w.clients, k) == w.clients
  {
    NoneYet(w, Start(k, 0));
    ReleasedNone(w.clients, k);
  }

  /** The world after `k` was started and failed. */
  ghost function Tried(w: World, k: nat): World
    requires k in w.table && Ready(w.table[k]) && !Panics(w.table[k])
  {
    Apply(Apply(w, Start(k, 0)), Fail(k))
  }

  lemma TriedWorld(w: World, k: nat)
    requires Inv(w) && k in w.table && Ready(w.table[k]) && !Panics(w.table[k])
    ensures Enabled(w, Start(k, 0)) && Enabled(Apply(w, Start(k, 0)), Fail(k))
    ensures var v := Tried(w, k);
      && v.clients == w.clients && v.extended == w.extended && v.table.Keys == w.table.Keys
      && forall x | x in w.table ::
           && v.table[x].status == (if x == k then Complete else w.table[x].status)
           && v.table[x].hosts == w.table[x].hosts && v.table[x].dur == w.table[x].dur
  {
    ReleasedOnly(w, k);
    hide Inv, Panics, Released;
  }

  lemma TriedAround(w: World, k: nat, m: nat)
    requires Inv(w) && Around(w, m) && k in w.table && Ready(w.table[k]) && !Panics(w.table[k])
    ensures Around(Tried(w, k), m) && (OnlyRuns(w, m) ==> OnlyRuns(Tried(w, k), m))
  {
    TriedWorld(w, k);
    var v := Tried(w, k);
    hide Inv, Panics, Tried;
    forall x | Running(v, x) && x != m ensures Paired(v, x) && Awaits(v, x) {
      SamePaired(w, v, x);
    }
    hide Awaits;
  }

  lemma UntriedLess(w0: World, w: World, v: World, k: nat, m: nat)
    requires k in w.table && v.table.Keys == w.table.Keys
    requires forall x | x in w.table :: v.table[x].status == (if x == k then Complete else w.table[x].status)
    ensures Untried(w0, v, m) == Untried(w0, w, m) - {k}
  {
    hide IndependentOf;
  }

  lemma TriedSupply(w0: World, w: World, k: nat, m: nat, n: nat)
    requires Inv(w) && OnlyRuns(w, m) && k in Untried(w0, w, m) && |Untried(w0, w, m)| >= n >= 1
    requires Ready(w.table[k]) && !Panics(w.table[k])
    ensures |Untried(w0, Tried(w, k), m)| >= n - 1
  {
    TriedWorld(w, k);
    var v := Tried(w, k);
    hide Inv, Panics, Tried, OnlyRuns, Ready;
    UntriedLess(w0, w, v, k, m);
    hide Untried;
  }

  lemma ConsultAllowed(w: World, m: nat, s: nat, p: Place, e: Event)
    requires Around(w, m) && AllAt(w.clients, m, s) && 2 <= s && (m in w.extended <==> s >= 8)
    requires p == Replying && (e.Start? || e.NoneReady?)
    ensures Allowed(p, w, e)
  {
    HeadAround(w, m, s);
  }

  lemma ConsultOther(w0: World, log: seq<Event>, m: nat, s: nat, n: nat) returns (full: seq<Event>)
    requires Initial(w0) && Looped(w0, log) && PlaceOf(log) == Replying && s in {3, 5, 7, 9} && n >= 1
    requires Standing(w0, Outcome(w0, log), m, s, n) && !NoReady(Outcome(w0, log))
    ensures Looped(w0, full) && PlaceOf(full) == Passing
    ensures Standing(w0, Outcome(w0, full), m, s, n - 1) && Kept(Outcome(w0, log), Outcome(w0, full), m)
  {
    var w := Outcome(w0, log);
    var k := NextOther(w0, log, m, n);
    RunInv(w0, log);
    ConsultAllowed(w, m, s, PlaceOf(log), Start(k, 0));
    TriedWorld(w, k);
    TriedAround(w, k, m);
    TriedSupply(w0, w, k, m, n);
    FailAllowed(BringingUp(k), Apply(w, Start(k, 0)), k);
    hide Initial, Looped, Outcome, Around, Allowed, Untried, OnlyRuns, NoReady, Inv, Enabled, Apply, Panics, Ready;
    LoopedStep(w0, log, Start(k, 0));
    LoopedStep(w0, log + [Start(k, 0)], Fail(k));
    full := log + [Start(k, 0)] + [Fail(k)];
  }

  /** The scheduler is consulted once more, and what it hands out fails at once. */
  lemma Consult(w0: World, log: seq<Event>, m: nat, s: nat, n: nat) returns (full: seq<Event>)
    requires Initial(w0) && Looped(w0, log) && PlaceOf(log) == Replying && s in {3, 5, 7, 9} && n >= 1
    requires Standing(w0, Outcome(w0, log), m, s, n)
    ensures Looped(w0, full) && PlaceOf(full) == Passing
    ensures Standing(w0, Outcome(w0, full), m, s, n - 1) && Kept(Outcome(w0, log), Outcome(w0, full), m)
  {
    var w := Outcome(w0, log);
    if NoReady(w) {
      ConsultAllowed(w, m, s, PlaceOf(log), NoneReady);
      hide Initial, Looped, Outcome, Around, AllAt, Allowed;
      LoopedStep(w0, log, NoneReady);
      full := log + [NoneReady];
    } else {
      full := ConsultOther(w0, log, m, s, n);
    }
  }

  lemma StillRuns(w: World, m: nat)
    requires Around(w, m)
    ensures m in w.table && w.table[m].hosts != [] && Running(w, m) && Full(w, m)
  {
  }

  lemma Fitting(w0: World, w: World, m: nat, s: nat, n: nat, p: Place)
    requires Standing(w0, w, m, s, n) && 2 <= s <= 8 && s != 7
    requires if s % 2 == 1 then p == Passing else p == Passing || p == BringingUp(m)
    ensures PlaceFor(p, w, m, s) && Around(w, m) && AllAt(w.clients, m, s) && (m in w.extended <==> s >= 7)
  {
    hide Around, AllAt, Supply;
  }

  lemma StandsOn(w0: World, w: World, v: World, m: nat, s: nat, n: nat)
    requires Standing(w0, w, m, s, n) && OnlySteps(w, v, m) && s != 7
    requires Around(v, m) && AllAt(v.clients, m, s + 1)
    ensures Standing(w0, v, m, s + 1, n) && Kept(w, v, m)
  {
    SameEntries(w, v, m);
    SupplySame(w0, w, v, m, n);
    KeptSame(w, v, m);
    hide Around, AllAt, Supply, Kept, OnlySteps;
  }

  lemma StillWell(w0: World, w: World, m: nat)
    requires SamePlan(w0, w) && Around(w, m) && m in w0.table && !MisusesBg(w0.table[m])
    ensures m in w.table && !MisusesBg(w.table[m])
  {
    SameMisuse(w0, w, m);
  }

  /** The clients of `m` are sent the command that is due in a pass. */
  lemma Command(w0: World, log: seq<Event>, m: nat, s: nat, n: nat) returns (full: seq<Event>)
    requires Initial(w0) && Looped(w0, log) && PlaceOf(log) == Passing && s in {3, 5}
    requires Standing(w0, Outcome(w0, log), m, s, n)
    requires m in w0.table && !MisusesBg(w0.table[m])
    ensures Looped(w0, full) && PlaceOf(full) == Passing
    ensures Standing(w0, Outcome(w0, full), m, s + 1, n) && Kept(Outcome(w0, log), Outcome(w0, full), m)
  {
    var w := Outcome(w0, log);
    LoopedLegal(w0, log);
    hide Initial, Looped, Legal, Outcome, Around, AllAt, MisusesBg, SamePlan, Kept, OnlySteps, Standing, PlaceFor;
    RunPlan(w0, log);
    Fitting(w0, w, m, s, n, PlaceOf(log));
    StillWell(w0, w, m);
    full := LiftAll(w0, log, m, s);
    StandsOn(w0, w, Outcome(w0, full), m, s, n);
  }

  /** All of them reply. */
  lemma Answer(w0: World, log: seq<Event>, m: nat, s: nat, n: nat) returns (full: seq<Event>)
    requires Initial(w0) && Looped(w0, log) && s in {2, 4, 6, 8}
    requires PlaceOf(log) == Passing || PlaceOf(log) == BringingUp(m)
    requires Standing(w0, Outcome(w0, log), m, s, n)
    ensures Looped(w0, full) && PlaceOf(full) == Replying
    ensures Standing(w0, Outcome(w0, full), m, s + 1, n) && Kept(Outcome(w0, log), Outcome(w0, full), m)
  {
    var w := Outcome(w0, log);
    LoopedLegal(w0, log);
    hide Initial, Looped, Legal, Outcome, Around, AllAt, MisusesBg, Kept, OnlySteps, Standing, PlaceFor;
    Fitting(w0, w, m, s, n, PlaceOf(log));
    full := LiftAll(w0, log, m, s);
    StandsOn(w0, w, Outcome(w0, full), m, s, n);
  }

  lemma ExtendWorld(w0: World, w: World, m: nat, n: nat)
    requires Around(w, m) && AllAt(w.clients, m, 7) && m !in w.extended && Supply(w0, w, m, n)
    ensures Enabled(w, Extend(m, 0))
    ensures var v := Apply(w, Extend(m, 0));
      && Around(v, m) && AllAt(v.clients, m, 7) && m in v.extended && Supply(w0, v, m, n) && Kept(w, v, m)
      && v.table[m].deadline == Slack(v.table[m].dur)
  {
    var v := WithDeadline(w, m, 0);
    assert Untried(w0, v, m) == Untried(w0, w, m) by { hide IndependentOf; }
    hide IndependentOf, Untried;
    forall k | Running(v, k) && k != m ensures Paired(v, k) && Awaits(v, k) {
      SamePaired(w, v, k);
    }
    hide Awaits, Paired;
  }

  /** In the last pass the deadline is reset and the clients are sent the command to measure. */
  lemma BeginMeasuring(w0: World, log: seq<Event>, m: nat, n: nat) returns (full: seq<Event>)
    requires Initial(w0) && Looped(w0, log) && PlaceOf(log) == Passing && Standing(w0, Outcome(w0, log), m, 7, n)
    ensures Looped(w0, full) && PlaceOf(full) == Passing
    ensures Standing(w0, Outcome(w0, full), m, 8, n) && Kept(Outcome(w0, log), Outcome(w0, full), m)
    ensures m in Outcome(w0, full).table
    ensures Outcome(w0, full).table[m].deadline == Slack(Outcome(w0, full).table[m].dur)
  {
    var w := Outcome(w0, log);
    ExtendWorld(w0, w, m, n);
    hide Initial, Looped, Outcome, Around, AllAt, Supply, MisusesBg, Kept, Enabled, Apply;
    LoopedStep(w0, log, Extend(m, 0));
    var v := Outcome(w0, log + [Extend(m, 0)]);
    full := LiftAll(w0, log + [Extend(m, 0)], m, 7);
    SameEntries(v, Outcome(w0, full), m);
    SupplySame(w0, v, Outcome(w0, full), m, n);
    KeptSame(v, Outcome(w0, full), m);
    KeptOn(w, v, Outcome(w0, full), m);
    StillRuns(Outcome(w0, full), m);
  }

  /** From authenticating to authenticated. */
  lemma Authenticated(w0: World, m: nat, n: nat) returns (log: seq<Event>)
    requires Initial(w0) && GetsStaffed(w0, m) && Usable(w0.table[m]) && Outlasts(w0, m, n + 1)
    ensures Looped(w0, log) && PlaceOf(log) == Passing && Standing(w0, Outcome(w0, log), m, 3, n)
  {
    hide Initial, Looped, Outcome, Around, AllAt, Supply, Kept, GetsStaffed, Usable, Outlasts;
    log := Assembled(w0, m, n + 1);
    log := Answer(w0, log, m, 2, n + 1);
    log := Consult(w0, log, m, 3, n + 1);
  }

  // ---- Success

  /** If client `j` is past the connect command, the host entry it is paired with does not misuse its class. */
  ghost predicate ToldWell(w: World, j: nat) {
    j < |w.clients| && Stage(w.clients[j].state) >= 4 && w.clients[j].owner in w.table ==>
      forall k: nat | Pairs(w.clients, w.table[w.clients[j].owner].hosts, j, k) ::
        IsBg(w.clients[j].cls) ==> w.table[w.clients[j].owner].hosts[k].conns == 1
  }

  /** A command to an authenticated client carries the values of its host entry, and has not stopped the program. */
  lemma SentWell(w: World, e: Event, j: nat, k: nat)
    requires Inv(w) && Enabled(w, e) && e.Send? && e.j == j && j < |w.clients| && Stage(w.clients[j].state) == 3
    requires w.clients[j].owner in w.table && Pairs(w.clients, w.table[w.clients[j].owner].hosts, j, k)
    ensures IsBg(w.clients[j].cls) ==> w.table[w.clients[j].owner].hosts[k].conns == 1
  {
    var m := w.clients[j].owner;
    NoZero(w);
    WorksForRunning(w, j);
    hide Inv, IsBg, Full, Within;
    PartnerUnique(w.clients, w.table[m].hosts, m, j, k, j, e.host);
  }

  lemma SameJob(w: World, v: World, j: nat)
    requires SamePlan(w, v) && j < |w.clients|
    ensures j < |v.clients| && v.clients[j].cls == w.clients[j].cls
    ensures v.table.Keys == w.table.Keys
  {
  }

  lemma CrewPairs(w: World, v: World, hosts: seq<Host>, m: nat, j: nat, k: nat)
    requires SameCrew(w, v, m) && j < |v.clients| && v.clients[j].owner == m && Pairs(v.clients, hosts, j, k)
    ensures Pairs(w.clients, hosts, j, k) && k < |hosts|
  {
    PairingSame(v.clients, w.clients, hosts, m, j, k);
  }

  lemma StepToldWell(w: World, e: Event, j: nat)
    requires Inv(w) && Enabled(w, e) && ToldWell(w, j)
    ensures ToldWell(Apply(w, e), j)
  {
    var v := Apply(w, e);
    StepPlan(w, e);
    if j < |v.clients| && Stage(v.clients[j].state) >= 4 && v.clients[j].owner in v.table {
      var m := v.clients[j].owner;
      StepInv(w, e);
      NoZero(v);
      StageStep(w, e, j);
      CrewStep(w, e, j, m);
      PlanFor(w, v, m);
      SameJob(w, v, j);
      var hosts := w.table[m].hosts;
      hide Inv, Apply, Enabled, IsBg, SamePlan, Pairs;
      forall k: nat | Pairs(v.clients, hosts, j, k) ensures IsBg(v.clients[j].cls) ==> hosts[k].conns == 1 {
        CrewPairs(w, v, hosts, m, j, k);
        if Stage(w.clients[j].state) == 3 {
          SentWell(w, e, j, k);
        }
      }
    }
  }

  lemma {:induction false} RunToldWell(w0: World, log: seq<Event>, j: nat)
    requires Initial(w0) && Legal(w0, log)
    ensures ToldWell(Outcome(w0, log), j)
    decreases |log|
  {
    if log != [] {
      hide ToldWell;
      RunToldWell(w0, log[..|log| - 1], j);
      RunInv(w0, log[..|log| - 1]);
      StepToldWell(Outcome(w0, log[..|log| - 1]), log[|log| - 1], j);
    }
  }

  /** A measurement all of whose clients are past the connect command has told each background client one connection. */
  lemma DoneWell(w0: World, log: seq<Event>, m: nat)
    requires Initial(w0) && Legal(w0, log) && Running(Outcome(w0, log), m) && Full(Outcome(w0, log), m)
    requires var cs := Outcome(w0, log).clients;
      forall i | 0 <= i < |cs| && cs[i].owner == m :: Stage(cs[i].state) >= 4
    ensures !MisusesBg(Outcome(w0, log).table[m])
  {
    var w := Outcome(w0, log);
    RunInv(w0, log);
    hide Legal, Outcome, Initial;
    if MisusesBg(w.table[m]) {
      var j, k := MisusedPartner(w, m);
      RunToldWell(w0, log, j);
    }
  }

  ghost predicate CanSucceed(w0: World, m: nat) {
    m in w0.table && GetsStaffed(w0, m) && w0.table[m].hosts != [] && !MisusesBg(w0.table[m])
  }

  /** A fully connected measurement whose clients are all past the connect command could succeed. */
  lemma WellCould(w0: World, log: seq<Event>, m: nat)
    requires Initial(w0) && Legal(w0, log)
    requires var w := Outcome(w0, log);
      && Running(w, m) && w.table[m].hosts != [] && Full(w, m)
      && forall i | 0 <= i < |w.clients| && w.clients[i].owner == m :: Stage(w.clients[i].state) >= 4
    ensures CanSucceed(w0, m)
  {
    var w := Outcome(w0, log);
    RunInv(w0, log);
    NoZero(w);
    RunPlan(w0, log);
    PlanFor(w0, w, m);
    SameMisuse(w0, w, m);
    DoneWell(w0, log, m);
    var j := OwnsSomeone(w, m);
    hide Initial, Legal, Outcome, SamePlan, Inv, GetsStaffed, MisusesBg, Full;
    StaffedFromList(w0, log, j);
  }

  /** Client `j` works for `m` and is measuring, so it may report. */
  ghost predicate Reports(w: World, j: nat, m: nat) {
    j < |w.clients| && w.clients[j].owner == m && w.clients[j].state == Measuring
  }

  lemma ReportsFull(w: World, j: nat, m: nat)
    requires Inv(w) && Reports(w, j, m)
    ensures Running(w, m) && w.table[m].hosts != [] && Full(w, m)
    ensures forall i | 0 <= i < |w.clients| && w.clients[i].owner == m :: Stage(w.clients[i].state) >= 4
  {
    hide Tracked, Manned, DistinctFds, ExtendedLate;
    assert Stage(w.clients[j].state) == 8;
    OwnedNone(w.clients, m);
  }

  lemma OnwardsLate(w0: World, log: seq<Event>, m: nat, n: nat) returns (full: seq<Event>)
    requires Initial(w0) && Looped(w0, log) && PlaceOf(log) == Passing
    requires Standing(w0, Outcome(w0, log), m, 4, n + 2) && CanSucceed(w0, m)
    ensures Looped(w0, full) && PlaceOf(full) == Passing
    ensures Standing(w0, Outcome(w0, full), m, 8, n) && Kept(Outcome(w0, log), Outcome(w0, full), m)
    ensures m in Outcome(w0, full).table
    ensures Outcome(w0, full).table[m].deadline == Slack(Outcome(w0, full).table[m].dur)
  {
    hide Initial, Legal, Outcome, Standing, Kept, GetsStaffed;
    var l5 := Answer(w0, log, m, 4, n + 2);
    var p5 := Consult(w0, l5, m, 5, n + 2);
    KeptOn(Outcome(w0, log), Outcome(w0, l5), Outcome(w0, p5), m);
    var l6 := Command(w0, p5, m, 5, n + 1);
    KeptOn(Outcome(w0, log), Outcome(w0, p5), Outcome(w0, l6), m);
    var l7 := Answer(w0, l6, m, 6, n + 1);
    KeptOn(Outcome(w0, log), Outcome(w0, l6), Outcome(w0, l7), m);
    var p7 := Consult(w0, l7, m, 7, n + 1);
    KeptOn(Outcome(w0, log), Outcome(w0, l7), Outcome(w0, p7), m);
    full := BeginMeasuring(w0, p7, m, n);
    KeptOn(Outcome(w0, log), Outcome(w0, p7), Outcome(w0, full), m);
  }

  /** From authenticating to measuring. */
  lemma Onwards(w0: World, log: seq<Event>, m: nat, n: nat) returns (full: seq<Event>)
    requires Initial(w0) && Looped(w0, log) && PlaceOf(log) == BringingUp(m)
    requires Standing(w0, Outcome(w0, log), m, 2, n + 3) && CanSucceed(w0, m)
    ensures Looped(w0, full) && PlaceOf(full) == Passing
    ensures Standing(w0, Outcome(w0, full), m, 8, n) && Kept(Outcome(w0, log), Outcome(w0, full), m)
    ensures m in Outcome(w0, full).table
    ensures Outcome(w0, full).table[m].deadline == Slack(Outcome(w0, full).table[m].dur)
  {
    hide Initial, Legal, Outcome, Standing, Kept, GetsStaffed;
    var l3 := Answer(w0, log, m, 2, n + 3);
    var p3 := Consult(w0, l3, m, 3, n + 3);
    KeptOn(Outcome(w0, log), Outcome(w0, l3), Outcome(w0, p3), m);
    var l4 := Command(w0, p3, m, 3, n + 2);
    KeptOn(Outcome(w0, log), Outcome(w0, p3), Outcome(w0, l4), m);
    full := OnwardsLate(w0, l4, m, n);
    KeptOn(Outcome(w0, log), Outcome(w0, l4), Outcome(w0, full), m);
  }

  lemma StandsAtFirst(w0: World, w: World, m: nat, n: nat)
    requires Around(w, m) && AllAt(w.clients, m, 2) && m !in w.extended && Supply(w0, w, m, n)
    ensures Standing(w0, w, m, 2, n)
  {
  }

  lemma HasUse(w0: World, m: nat)
    requires CanSucceed(w0, m)
    ensures m in w0.table && GetsStaffed(w0, m) && Usable(w0.table[m])
  {
  }

  /** A run that gets all clients of `m` measuring, with `n` more iterations in sight. */
  lemma ReachMeasuring(w0: World, m: nat, n: nat) returns (log: seq<Event>)
    requires Initial(w0) && CanSucceed(w0, m) && Outlasts(w0, m, n + 3)
    ensures Looped(w0, log) && PlaceOf(log) == Passing && Standing(w0, Outcome(w0, log), m, 8, n)
  {
    HasUse(w0, m);
    hide Initial, Looped, Outcome, Around, AllAt, Supply, CanSucceed, GetsStaffed, Usable, Outlasts;
    log := Assembled(w0, m, n + 3);
    StandsAtFirst(w0, Outcome(w0, log), m, n + 3);
    log := Onwards(w0, log, m, n);
  }

  lemma FinishDue(w0: World, w: World, m: nat, n: nat, p: Place)
    requires Standing(w0, w, m, 9, n) && p == Passing
    ensures Enabled(w, Finish(m)) && Allowed(p, w, Finish(m))
  {
  }

  lemma ReachSuccess(w0: World, m: nat) returns (log: seq<Event>)
    requires Initial(w0) && CanSucceed(w0, m) && Outlasts(w0, m, 4)
    ensures Looped(w0, log) && Enabled(Outcome(w0, log), Finish(m))
    ensures Allowed(PlaceOf(log), Outcome(w0, log), Finish(m))
  {
    hide Initial, Legal, Outcome, CanSucceed, Outlasts, Standing, Enabled, Allowed, Kept;
    log := ReachMeasuring(w0, m, 1);
    log := Answer(w0, log, m, 8, 1);
    log := Consult(w0, log, m, 9, 1);
    FinishDue(w0, Outcome(w0, log), m, 0, PlaceOf(log));
  }

  /** At stage `s`, at least these many consultations have been outlasted. */
  lemma StageOutlasts(w0: World, log: seq<Event>, m: nat, j: nat, n: nat)
    requires Initial(w0) && Looped(w0, log) && Running(Outcome(w0, log), m)
    requires j < |Outcome(w0, log).clients| && Outcome(w0, log).clients[j].owner == m
    requires Stage(Outcome(w0, log).clients[j].state) > 2 * n - 2 + StagesIn(PlaceOf(log))
    ensures Outlasts(w0, m, n)
  {
    StageByConsults(w0, log, m);
    assert Stage(Outcome(w0, log).clients[j].state) <= 2 * Consults(log, m) + StagesIn(PlaceOf(log));
    hide Initial, Looped, Outcome, Outlasts;
    MustOutlast(w0, log, m, n);
  }

  lemma MustSucceed(w0: World, log: seq<Event>, m: nat)
    requires Initial(w0) && Looped(w0, log) && Enabled(Outcome(w0, log), Finish(m))
    requires Allowed(PlaceOf(log), Outcome(w0, log), Finish(m))
    ensures CanSucceed(w0, m) && Outlasts(w0, m, 4)
  {
    hide Initial, CanSucceed, Outlasts, Beside;
    WellCould(w0, log, m);
    OpenPlaces(PlaceOf(log), Outcome(w0, log));
    var j := OwnsSomeone(Outcome(w0, log), m);
    StageOutlasts(w0, log, m, j, 4);
  }

  /**
   * Some run gets to finish a measurement successfully if and only if it can be started, has a duration and
   * hosts, there are clients enough for it, no background class is given other than one connection, and it
   * can be kept at work through four more iterations.
   */
  lemma SucceedsIff(w0: World, m: nat)
    requires Initial(w0)
    ensures (exists log ::
               && Looped(w0, log) && Enabled(Outcome(w0, log), Finish(m))
               && Allowed(PlaceOf(log), Outcome(w0, log), Finish(m))) <==>
            CanSucceed(w0, m) && Outlasts(w0, m, 4)
  {
    hide Initial, CanSucceed, Outlasts, Legal, Outcome, Enabled, Allowed;
    if CanSucceed(w0, m) && Outlasts(w0, m, 4) {
      var log := ReachSuccess(w0, m);
    }
    if log :|
      && Looped(w0, log) && Enabled(Outcome(w0, log), Finish(m))
      && Allowed(PlaceOf(log), Outcome(w0, log), Finish(m))
    {
      MustSucceed(w0, log, m);
    }
  }

  lemma ReportDue(w0: World, w: World, m: nat, n: nat, p: Place) returns (j: nat)
    requires Standing(w0, w, m, 8, n) && p == Passing
    ensures Reports(w, j, m) && Allowed(p, w, Lines(j))
  {
    HeadAround(w, m, 8);
    j := OwnsSomeone(w, m);
  }

  lemma ReportRuns(w: World, j: nat, m: nat, p: Place)
    requires Inv(w) && Reports(w, j, m)
    ensures Running(w, m) && j < |w.clients| && w.clients[j].owner == m && Stage(w.clients[j].state) > 4 + StagesIn(p)
  {
    hide Inv;
    ReportsFull(w, j, m);
  }

  lemma MustReport(w0: World, log: seq<Event>, j: nat, m: nat)
    requires Initial(w0) && Looped(w0, log) && Reports(Outcome(w0, log), j, m)
    ensures CanSucceed(w0, m) && Outlasts(w0, m, 3)
  {
    var w := Outcome(w0, log);
    LoopedLegal(w0, log);
    hide Initial, Looped, Legal, Outcome, CanSucceed, Outlasts, Inv, Full, Reports, StagesIn, PlaceOf, Running;
    RunInv(w0, log);
    ReportRuns(w, j, m, PlaceOf(log));
    StageOutlasts(w0, log, m, j, 3);
    ReportsFull(w, j, m);
    WellCould(w0, log, m);
  }

  /** Some run has a report read for a measurement under the same condition, with three iterations instead of four. */
  lemma ReportsIff(w0: World, m: nat)
    requires Initial(w0)
    ensures (exists log, j: nat ::
               && Looped(w0, log) && Reports(Outcome(w0, log), j, m)
               && Allowed(PlaceOf(log), Outcome(w0, log), Lines(j))) <==>
            CanSucceed(w0, m) && Outlasts(w0, m, 3)
  {
    hide Initial, CanSucceed, Outlasts, Legal, Outcome, Reports, Allowed, Standing;
    if CanSucceed(w0, m) && Outlasts(w0, m, 3) {
      var log := ReachMeasuring(w0, m, 0);
      var j := ReportDue(w0, Outcome(w0, log), m, 0, PlaceOf(log));
    }
    if log, j: nat :|
      && Looped(w0, log) && Reports(Outcome(w0, log), j, m)
      && Allowed(PlaceOf(log), Outcome(w0, log), Lines(j))
    {
      MustReport(w0, log, j, m);
    }
  }

  // ---- Schedules without reachable panics

  /** When nothing that can be ready panics, whatever gets staffed can be kept at work for as long as it takes. */
  lemma NoThreatOutlasts(w0: World, m: nat, n: nat)
    requires m in w0.table && GetsStaffed(w0, m)
    requires forall x | x in w0.table && CanBeReady(w0.table, x) :: !Panics(w0.table[x])
    ensures Beside(w0, m, []) && Outlasts(w0, m, n)
  {
    hide CanBeReady, Panics, CanStart, Needs, Staffable;
    assert [] + [m] == [m] && [m][..0] == [];
    assert HostsOf(w0.table, [m]) == HostsOf(w0.table, []) + w0.table[m].hosts == w0.table[m].hosts;
  }
}
