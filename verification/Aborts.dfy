/** When the program stops itself: the inputs on which some run reaches a panic or a failing assertion. */
module Aborts {
  import opened Sequences
  import opened Schedule
  import opened Clients
  import opened Staffing
  import opened Protocol
  import opened Runs
  import opened Progress
  import opened Liveness
  import opened History
  import opened Looping
  import opened Starting
  import opened Crews
  import opened Outlasting
  import opened Handshakes
  import opened Succeeding

  /** After this run the code gets to do something that stops the program. */
  ghost predicate Crashes(w0: World, log: seq<Event>, e: Event) {
    && Looped(w0, log) && Attempted(Outcome(w0, log), e) && Allowed(PlaceOf(log), Outcome(w0, log), e)
    && Stops(Outcome(w0, log), e)
  }

  /** Nothing in the schedule can stop the program. */
  ghost predicate Harmless(w0: World) {
    forall m | m in w0.table ::
      && (CanBeReady(w0.table, m) ==> !Panics(w0.table[m]))
      && (GetsStaffed(w0, m) ==> !MisusesBg(w0.table[m]))
  }

  /** A panic is reached by starting a measurement that panics and can be ready. */
  lemma PanicCause(w0: World, log: seq<Event>, e: Event)
    requires Initial(w0) && Crashes(w0, log, e) && e.Start?
    ensures e.m in w0.table && CanBeReady(w0.table, e.m) && Panics(w0.table[e.m])
  {
    RunPlan(w0, log);
    hide Initial, Legal, Outcome, SamePlan, Panics;
    PlanFor(w0, Outcome(w0, log), e.m);
    ReadyCanBeReady(w0, log, e.m);
  }

  lemma TellsWho(w: World, e: Event)
    requires Inv(w) && Attempted(w, e) && Stops(w, e) && e.Send?
    ensures e.j < |w.clients| && Stage(w.clients[e.j].state) == 3
    ensures var m := w.clients[e.j].owner; m != 0 && Running(w, m) && Full(w, m) && MisusesBg(w.table[m])
  {
    NoZero(w);
    WorksForRunning(w, e.j);
    hide Inv;
    var m := w.clients[e.j].owner;
    assert w.table[m].hosts[e.host].cls == w.clients[e.j].cls && w.table[m].hosts[e.host].conns != 1;
  }

  lemma TellPlace(p: Place, w: World, e: Event)
    requires Allowed(p, w, e) && Stops(w, e) && e.Send?
    ensures StagesIn(p) == 2
  {
    OpenPlaces(p, w);
  }

  /** The assertion fails for a measurement that misuses a background class, gets staffed, and outlasts an iteration. */
  lemma AssertCause(w0: World, log: seq<Event>, e: Event) returns (m: nat)
    requires Initial(w0) && Crashes(w0, log, e) && e.Send?
    ensures m in w0.table && GetsStaffed(w0, m) && MisusesBg(w0.table[m]) && Outlasts(w0, m, 1)
  {
    var w := Outcome(w0, log);
    LoopedLegal(w0, log);
    TellPlace(PlaceOf(log), w, e);
    hide Initial, Looped, Legal, Outcome, Inv, SamePlan, Allowed, PlaceOf, StagesIn;
    RunInv(w0, log);
    TellsWho(w, e);
    hide Attempted, Stops, MisusesBg, Full, GetsStaffed;
    m := w.clients[e.j].owner;
    RunPlan(w0, log);
    SameMisuse(w0, w, m);
    StaffedFromList(w0, log, e.j);
    StageOutlasts(w0, log, m, e.j, 1);
  }

  lemma ReachPanic(w0: World, m: nat) returns (log: seq<Event>, e: Event)
    requires Initial(w0) && CanBeReady(w0.table, m) && Panics(w0.table[m])
    ensures Crashes(w0, log, e) && e.Start?
  {
    InitialPending(w0);
    assert Closed(w0.table, Pending(w0.table));
    log := ReachReady(w0, Pending(w0.table), m);
    RunPlan(w0, log);
    e := Start(m, 0);
    RestingAllowed(w0, Outcome(w0, log), Pending(w0.table), PlaceOf(log), e);
    hide Initial, Looped, Outcome, Closed, CanBeReady, Pending, Panics, Allowed;
    PlanFor(w0, Outcome(w0, log), m);
  }

  /** The client that is paired with a misused entry is to be told its connections. */
  lemma BadTell(w: World, m: nat) returns (e: Event)
    requires Inv(w) && Running(w, m) && Full(w, m) && AllAt(w.clients, m, 3) && MisusesBg(w.table[m])
    ensures e.Send? && Attempted(w, e) && Stops(w, e) && Allowed(Passing, w, e)
  {
    var j, k := MisusedPartner(w, m);
    NoZero(w);
    WorksForRunning(w, j);
    WithinFrom(w.clients, m, 3);
    hide Inv, IsBg, Pairs, Within, Full, MisusesBg;
    e := Send(j, k, TestSpeed(w.table[m].fp, w.table[m].hosts[k].conns, w.clients[j].isBg));
  }

  lemma MisusesUsable(w0: World, m: nat)
    requires m in w0.table && GetsStaffed(w0, m) && MisusesBg(w0.table[m])
    ensures Usable(w0.table[m])
  {
  }

  lemma AuthenticatedAt(w0: World, w: World, m: nat, n: nat)
    requires Standing(w0, w, m, 3, n)
    ensures Running(w, m) && Full(w, m) && AllAt(w.clients, m, 3)
  {
  }

  lemma ReachAssert(w0: World, m: nat) returns (log: seq<Event>, e: Event)
    requires Initial(w0) && m in w0.table && GetsStaffed(w0, m) && MisusesBg(w0.table[m]) && Outlasts(w0, m, 1)
    ensures Crashes(w0, log, e) && e.Send?
  {
    MisusesUsable(w0, m);
    log := Authenticated(w0, m, 0);
    LoopedLegal(w0, log);
    hide Initial, Legal, Looped, Outcome, Inv, MisusesBg, GetsStaffed, Full, AllAt, Standing, SamePlan, Allowed;
    var w := Outcome(w0, log);
    RunInv(w0, log);
    RunPlan(w0, log);
    AuthenticatedAt(w0, w, m, 0);
    SameMisuse(w0, w, m);
    hide Attempted, Stops;
    e := BadTell(w, m);
  }

  // ---- The exact conditions

  /**
   * Some run reaches a start that panics if and only if a measurement that panics is pending, repeats no
   * depend, and depends only on what can be started.
   */
  lemma PanicReached(w0: World)
    requires Initial(w0)
    ensures (exists log, e: Event :: Crashes(w0, log, e) && e.Start?) <==>
            exists m :: m in w0.table && CanBeReady(w0.table, m) && Panics(w0.table[m])
    ensures forall m | m in w0.table :: Panics(w0.table[m]) <==>
              || 3 * w0.table[m].dur >= 4294967296 || '\0' in w0.table[m].fp
              || exists i :: 0 <= i < |w0.table[m].hosts| && '\0' in w0.table[m].hosts[i].cls
  {
    hide Initial, Crashes, CanBeReady, Panics;
    forall m | m in w0.table
      ensures Panics(w0.table[m]) <==>
              || 3 * w0.table[m].dur >= 4294967296 || '\0' in w0.table[m].fp
              || exists i :: 0 <= i < |w0.table[m].hosts| && '\0' in w0.table[m].hosts[i].cls
    {
      PanicsIff(w0.table[m]);
    }
    if log, e: Event :| Crashes(w0, log, e) && e.Start? {
      PanicCause(w0, log, e);
    }
    if m :| m in w0.table && CanBeReady(w0.table, m) && Panics(w0.table[m]) {
      var log, e := ReachPanic(w0, m);
    }
  }

  /**
   * Some run fails the assertion in `tc_tell_connect` if and only if a measurement that gives a background
   * class other than one connection can be started, has a duration, can be staffed from the client list, and
   * can be kept at work through one more iteration.
   */
  lemma AssertReached(w0: World)
    requires Initial(w0)
    ensures (exists log, e: Event :: Crashes(w0, log, e) && e.Send?) <==>
            exists m :: m in w0.table && GetsStaffed(w0, m) && MisusesBg(w0.table[m]) && Outlasts(w0, m, 1)
    ensures forall m | m in w0.table :: MisusesBg(w0.table[m]) <==>
              exists i :: 0 <= i < |w0.table[m].hosts| &&
                          "bg" <= w0.table[m].hosts[i].cls && w0.table[m].hosts[i].conns != 1
  {
    hide Initial, Crashes, GetsStaffed, Outlasts;
    forall m | m in w0.table
      ensures MisusesBg(w0.table[m]) <==>
              exists i :: 0 <= i < |w0.table[m].hosts| &&
                          "bg" <= w0.table[m].hosts[i].cls && w0.table[m].hosts[i].conns != 1
    {
      MisusesIff(w0.table[m]);
    }
    hide MisusesBg;
    if log, e: Event :| Crashes(w0, log, e) && e.Send? {
      var m := AssertCause(w0, log, e);
    }
    if m :| m in w0.table && GetsStaffed(w0, m) && MisusesBg(w0.table[m]) && Outlasts(w0, m, 1) {
      var log, e := ReachAssert(w0, m);
    }
  }

  lemma OnlyTwoKinds(w0: World, log: seq<Event>, e: Event)
    requires Crashes(w0, log, e)
    ensures e.Start? || e.Send?
  {
  }

  /**
   * No run stops the program if and only if the schedule and the client list are harmless: where no panic can
   * be reached, whatever misuses a background class and gets staffed gets as far as the assertion.
   */
  lemma CrashesIffHarmful(w0: World)
    requires Initial(w0)
    ensures (exists log, e: Event :: Crashes(w0, log, e)) <==> !Harmless(w0)
  {
    PanicReached(w0);
    AssertReached(w0);
    hide Initial, Crashes, CanBeReady, Panics, GetsStaffed, MisusesBg, Outlasts;
    if log, e: Event :| Crashes(w0, log, e) {
      OnlyTwoKinds(w0, log, e);
    }
    if !(exists m :: m in w0.table && CanBeReady(w0.table, m) && Panics(w0.table[m])) {
      if m :| m in w0.table && GetsStaffed(w0, m) && MisusesBg(w0.table[m]) {
        NoThreatOutlasts(w0, m, 1);
      }
    }
  }

  // ---- What the coordinator may rely on

  lemma HarmlessReady(w0: World, log: seq<Event>, m: nat)
    requires Initial(w0) && Harmless(w0) && Legal(w0, log)
    requires m in Outcome(w0, log).table && Ready(Outcome(w0, log).table[m])
    ensures !Panics(Outcome(w0, log).table[m])
  {
    hide Initial, Legal, Outcome, CanBeReady, Panics, GetsStaffed, MisusesBg;
    RunPlan(w0, log);
    PlanFor(w0, Outcome(w0, log), m);
    ReadyCanBeReady(w0, log, m);
  }

  /** What runs has been started without a panic. */
  lemma RunningNoPanic(w0: World, log: seq<Event>, m: nat)
    requires Initial(w0) && Legal(w0, log) && Running(Outcome(w0, log), m)
    ensures !Panics(Outcome(w0, log).table[m])
  {
    InitialPending(w0);
    CanStartIff(w0.table, m);
    hide Initial, Legal, Outcome, CanStart, CanBeReady, Panics;
    RunPlan(w0, log);
    PlanFor(w0, Outcome(w0, log), m);
    StartedWaited(w0, log, m);
  }

  /** On harmless input a fully connected measurement asks one connection of each background client. */
  lemma HarmlessStaffed(w0: World, log: seq<Event>, j: nat)
    requires Initial(w0) && Harmless(w0) && Legal(w0, log) && j < |Outcome(w0, log).clients|
    requires var w := Outcome(w0, log);
      w.clients[j].owner != 0 && w.clients[j].owner in w.table && Full(w, w.clients[j].owner)
    ensures var w := Outcome(w0, log); !MisusesBg(w.table[w.clients[j].owner])
  {
    var m := Outcome(w0, log).clients[j].owner;
    RunPlan(w0, log);
    PlanFor(w0, Outcome(w0, log), m);
    SameMisuse(w0, Outcome(w0, log), m);
    hide Initial, Legal, Outcome, CanBeReady, Panics, GetsStaffed, MisusesBg, Full, SamePlan;
    StaffedFromList(w0, log, j);
  }
}
