/**
 * Runs that bring measurements up and take them through the handshake, in the order of the main loop.
 */
module Handshakes {
  import opened Sequences
  import opened Schedule
  import opened Clients
  import opened Staffing
  import opened Protocol
  import opened Runs
  import opened Progress
  import opened Liveness
  import opened Heads
  import opened History
  import opened Looping
  import opened Starting
  import opened Crews

  // ---- Bringing up

  /** Exactly these measurements run, and each is fully connected and waits for its first replies. */
  ghost predicate Cohort(w: World, ks: seq<nat>) {
    && NoDup(ks) && w.extended == {}
    && (forall k | k in w.table && w.table[k].status == InProgress :: k in ks)
    && (forall k | k in ks :: Running(w, k) && Full(w, k) && Usable(w.table[k]) && AllAt(w.clients, k, 2))
    && forall i | 0 <= i < |w.clients| && w.clients[i].owner != 0 :: w.clients[i].owner in ks
  }

  /** The same, and beside them `m` runs and is being connected. */
  ghost predicate Joining(w: World, ks: seq<nat>, m: nat) {
    && NoDup(ks) && m !in ks && w.extended == {}
    && Running(w, m) && Usable(w.table[m]) && AllAt(w.clients, m, 1)
    && (forall k | k in w.table && w.table[k].status == InProgress :: k in ks || k == m)
    && (forall k | k in ks :: Running(w, k) && Full(w, k) && Usable(w.table[k]) && AllAt(w.clients, k, 2))
    && forall i | 0 <= i < |w.clients| && w.clients[i].owner != 0 :: w.clients[i].owner in ks || w.clients[i].owner == m
  }

  ghost predicate RoomFor(w: World, ks: seq<nat>, m: nat) {
    && (forall k | k in ks + [m] :: k in w.table)
    && Staffable(w.clients, HostsOf(w.table, ks + [m]))
  }

  lemma PairedAt(w: World, m: nat, s: nat)
    requires m in w.table && Usable(w.table[m]) && Full(w, m) && AllAt(w.clients, m, s) && s >= 2
    requires m in w.extended ==> s >= 8
    ensures Paired(w, m)
  {
  }

  lemma AwaitsAt(w: World, m: nat, s: nat)
    requires m in w.table && Usable(w.table[m]) && Full(w, m) && AllAt(w.clients, m, s) && s in {2, 4, 6, 8}
    ensures Awaits(w, m)
  {
    var j := OwnsSomeone(w, m);
  }

  lemma CohortHead(w: World, ks: seq<nat>)
    requires Cohort(w, ks)
    ensures AtHead(w) && AllAwait(w)
  {
    hide Paired, Awaits, Full, Usable, AllAt;
    forall k | Running(w, k) ensures Paired(w, k) && Awaits(w, k) {
      PairedAt(w, k, 2);
      AwaitsAt(w, k, 2);
    }
  }

  lemma PrefixShort(w: World, m: nat)
    requires Inv(w) && Running(w, m) && |OwnedClasses(w.clients, m)| < |w.table[m].hosts|
    ensures var cls := w.table[m].hosts[|OwnedClasses(w.clients, m)|].cls;
      multiset(OwnedClasses(w.clients, m))[cls] < multiset(Classes(w.table[m].hosts))[cls]
  {
    var hosts, n := w.table[m].hosts, |OwnedClasses(w.clients, m)|;
    var cls := hosts[n].cls;
    HostRankStep(hosts, n, cls);
    HostRankMonotone(hosts, n + 1, |hosts|, cls);
    assert Classes(hosts)[..|hosts|] == Classes(hosts);
  }

  lemma LastHosts(tbl: Table, ks: seq<nat>, m: nat, cls: string)
    requires forall k | k in ks + [m] :: k in tbl
    ensures forall k | k in ks :: k in tbl
    ensures multiset(Classes(HostsOf(tbl, ks + [m])))[cls] ==
            multiset(Classes(HostsOf(tbl, ks)))[cls] + multiset(Classes(tbl[m].hosts))[cls]
  {
    forall k | k in ks ensures k in tbl {
      assert k in ks + [m];
    }
    assert (ks + [m])[..|ks|] == ks;
    ClassesConcat(HostsOf(tbl, ks), tbl[m].hosts);
  }

  /** There is an unused client for the next host entry. */
  lemma MissingClient(w: World, ks: seq<nat>, m: nat) returns (j: nat)
    requires Inv(w) && Joining(w, ks, m) && RoomFor(w, ks, m) && !Full(w, m)
    ensures |OwnedClasses(w.clients, m)| < |w.table[m].hosts|
    ensures j < |w.clients| && w.clients[j].owner == 0
    ensures w.clients[j].cls == w.table[m].hosts[|OwnedClasses(w.clients, m)|].cls
  {
    RoomLeft(w, m);
    var hosts, n := w.table[m].hosts, |OwnedClasses(w.clients, m)|;
    var cls := hosts[n].cls;
    OwnedInHosts(w, ks, cls);
    OwnedInSplit(w.clients, ToSet(ks), m, cls);
    PrefixShort(w, m);
    LastHosts(w.table, ks, m, cls);
    hide Inv, OwnedIn, OwnedClasses, ClientClasses, HostsOf;
    j := OtherClient(w.clients, ToSet(ks) + {m}, cls);
  }

  lemma JoinMore(w: World, ks: seq<nat>, m: nat, e: Event)
    requires Joining(w, ks, m) && e.Connect? && e.m == m && Enabled(w, e) && 0 !in w.table
    ensures Joining(Apply(w, e), ks, m)
  {
    hide Usable, NoDup;
    forall k | k in ks ensures Full(Apply(w, e), k) && AllAt(Apply(w, e).clients, k, 2) {
      OwnedSame(w.clients, Apply(w, e).clients, k);
    }
  }

  lemma NextClient(w: World, ks: seq<nat>, m: nat) returns (e: Event)
    requires Inv(w) && Joining(w, ks, m) && RoomFor(w, ks, m) && !Full(w, m)
    ensures e.Connect? && e.m == m && Enabled(w, e) && Joining(Apply(w, e), ks, m)
    ensures Apply(w, e).table == w.table
    ensures |OwnedClasses(Apply(w, e).clients, m)| == |OwnedClasses(w.clients, m)| + 1
  {
    var j := MissingClient(w, ks, m);
    var fd := FreshFd(w.clients);
    e := Connect(j, m, fd);
    NoZero(w);
    OwnedAdd(w.clients, j, w.clients[j].(fd := fd, state := Connected, owner := m), m);
    hide Inv, OwnedClasses, Full, RoomFor;
    JoinMore(w, ks, m, e);
  }

  lemma RoomStays(w: World, e: Event, ks: seq<nat>, m: nat)
    requires Enabled(w, e) && RoomFor(w, ks, m) && Apply(w, e).table == w.table
    ensures RoomFor(Apply(w, e), ks, m)
  {
    StillStaffable(w, e, HostsOf(w.table, ks + [m]));
  }

  /** Connect the clients that are missing. */
  lemma {:induction false} ConnectAll(w0: World, log: seq<Event>, ks: seq<nat>, m: nat) returns (full: seq<Event>)
    requires Initial(w0) && Looped(w0, log) && PlaceOf(log) == BringingUp(m)
    requires Joining(Outcome(w0, log), ks, m) && RoomFor(Outcome(w0, log), ks, m)
    ensures Looped(w0, full) && PlaceOf(full) == BringingUp(m)
    ensures Joining(Outcome(w0, full), ks, m) && Full(Outcome(w0, full), m)
    ensures Outcome(w0, full).table == Outcome(w0, log).table
    decreases var w := Outcome(w0, log); |w.table[m].hosts| - |OwnedClasses(w.clients, m)|
  {
    var w := Outcome(w0, log);
    RunInv(w0, log);
    full := log;
    if !Full(w, m) {
      RoomLeft(w, m);
      hide Initial, Looped, Outcome, Inv, RoomFor, OwnedClasses, Joining, Enabled, Apply;
      var e := NextClient(w, ks, m);
      RoomStays(w, e, ks, m);
      LoopedStep(w0, log, e);
      full := ConnectAll(w0, log + [e], ks, m);
    }
  }

  // ---- Steps of the handshake

  /** The command that is due at an odd stage can be sent, unless it is one that stops the program. */
  lemma SendDue(w: World, m: nat, j: nat) returns (e: Event)
    requires Inv(w) && Running(w, m) && Full(w, m) && j < |w.clients| && w.clients[j].owner == m
    requires Within(w.clients, m, Stage(w.clients[j].state)) && Stage(w.clients[j].state) in {1, 3, 5, 7}
    requires Stage(w.clients[j].state) == 3 ==> !MisusesBg(w.table[m])
    requires Stage(w.clients[j].state) == 7 ==> m in w.extended
    ensures e.Send? && e.j == j && Enabled(w, e)
  {
    var k := PartnerFor(w, m, j);
    hide Inv, Pairs, Within, Full, IsBg;
    var c, hosts := w.clients[j], w.table[m].hosts;
    e := match Stage(c.state)
      case 1 => Send(j, 0, Authenticate)
      case 3 => Send(j, k, TestSpeed(w.table[m].fp, hosts[k].conns, c.isBg))
      case 5 => Send(j, k, ResetRate(hosts[k].bw, if c.isBg then 1 else 32))
      case _ => Send(j, 0, Measure(w.table[m].dur));
  }

  lemma ReplyDue(w: World, m: nat, j: nat) returns (e: Event)
    requires Running(w, m) && j < |w.clients| && w.clients[j].owner == m
    requires Within(w.clients, m, Stage(w.clients[j].state)) && Stage(w.clients[j].state) in {2, 4, 6, 8}
    ensures e.Good? && e.j == j && Enabled(w, e)
  {
    e := Good(j);
  }

  /** Between the two worlds only clients of `m` have taken steps. */
  ghost predicate OnlySteps(w: World, v: World, m: nat) {
    && v.table == w.table && v.extended == w.extended && |v.clients| == |w.clients|
    && forall i | 0 <= i < |w.clients| ::
         && v.clients[i].owner == w.clients[i].owner && v.clients[i].cls == w.clients[i].cls
         && (w.clients[i].owner != m ==> v.clients[i] == w.clients[i])
  }

  /** `m` is fully connected, and whatever else runs awaits a reply. */
  ghost predicate Around(w: World, m: nat) {
    && m > 0 && Running(w, m) && Full(w, m) && Usable(w.table[m])
    && forall k | Running(w, k) && k != m :: Paired(w, k) && Awaits(w, k)
  }

  lemma AroundSteps(w: World, v: World, m: nat)
    requires Around(w, m) && OnlySteps(w, v, m)
    ensures Around(v, m)
  {
    OwnedSame(w.clients, v.clients, m);
    hide Usable;
    forall k | Running(v, k) && k != m ensures Paired(v, k) && Awaits(v, k) {
      SamePaired(w, v, k);
      var j :| 0 <= j < |w.clients| && w.clients[j].owner == k && Stage(w.clients[j].state) in {2, 4, 6, 8};
      assert v.clients[j] == w.clients[j];
    }
  }

  lemma HeadAround(w: World, m: nat, s: nat)
    requires Around(w, m) && AllAt(w.clients, m, s) && 2 <= s && (m in w.extended ==> s >= 8)
    ensures AtHead(w) && (s in {2, 4, 6, 8} ==> AllAwait(w))
  {
    PairedAt(w, m, s);
    if s in {2, 4, 6, 8} {
      AwaitsAt(w, m, s);
    }
    hide Paired, Awaits, Full, Usable, AllAt;
  }

  /** Where an iteration has to be for the clients of `m` to step on from stage `lo`. */
  ghost predicate PlaceFor(p: Place, w: World, m: nat, lo: nat) {
    if lo == 1 then p == BringingUp(m)
    else if lo % 2 == 1 then p == Passing
    else p == Replying || ((p.BringingUp? || p.Passing?) && AllAt(w.clients, m, lo))
  }

  ghost function PlaceAfter(m: nat, lo: nat): Place {
    if lo == 1 then BringingUp(m) else if lo % 2 == 1 then Passing else Replying
  }

  lemma StepPlace(w: World, m: nat, e: Event, p: Place, lo: nat)
    requires (e.Send? || e.Good?) && Enabled(w, e) && e.j < |w.clients| && w.clients[e.j].owner == m
    requires Stage(w.clients[e.j].state) == lo && 1 <= lo <= 8
    requires Around(w, m) && PlaceFor(p, w, m, lo) && (m in w.extended <==> lo >= 7)
    ensures Allowed(p, w, e) && NextPlace(p, e) == PlaceAfter(m, lo)
    ensures OnlySteps(w, Apply(w, e), m)
  {
    hide Paired, Awaits, Full, Usable, Pairs;
    if lo % 2 == 0 && p != Replying {
      hide AllAt;
      HeadAround(w, m, lo);
    }
    hide AtHead, AllAwait, Around;
  }

  lemma AfterFits(w: World, m: nat, lo: nat)
    requires 1 <= lo <= 8
    ensures PlaceFor(PlaceAfter(m, lo), w, m, lo)
  {
  }

  lemma StepWithin(w: World, m: nat, e: Event, lo: nat)
    requires (e.Send? || e.Good?) && Enabled(w, e) && e.j < |w.clients| && w.clients[e.j].owner == m
    requires Within(w.clients, m, lo) && Stage(w.clients[e.j].state) == lo <= 8
    ensures Within(Apply(w, e).clients, m, lo)
  {
    hide Fits, OwnedClasses;
  }

  lemma Lagging(cs: seq<Client>, m: nat, lo: nat) returns (j: nat)
    requires Within(cs, m, lo) && !AllAt(cs, m, lo + 1)
    ensures j < |cs| && cs[j].owner == m && Stage(cs[j].state) == lo
  {
    j :| 0 <= j < |cs| && cs[j].owner == m && Stage(cs[j].state) != lo + 1;
  }

  /** What is due for a client at stage `lo`, a command or a reply. */
  lemma StepDue(w: World, m: nat, j: nat, lo: nat) returns (e: Event)
    requires Inv(w) && Around(w, m) && Within(w.clients, m, lo) && 1 <= lo <= 8
    requires j < |w.clients| && w.clients[j].owner == m && Stage(w.clients[j].state) == lo
    requires lo == 3 ==> !MisusesBg(w.table[m])
    requires m in w.extended <==> lo >= 7
    ensures (e.Send? || e.Good?) && e.j == j && Enabled(w, e)
  {
    hide Inv, Within, MisusesBg, Enabled, Full, Paired, Awaits;
    if lo % 2 == 1 {
      e := SendDue(w, m, j);
    } else {
      e := ReplyDue(w, m, j);
    }
  }

  /** One more client of `m` takes the step from stage `lo`. */
  lemma LiftOne(w: World, m: nat, lo: nat, p: Place) returns (e: Event)
    requires Inv(w) && Around(w, m) && Within(w.clients, m, lo) && 1 <= lo <= 8 && PlaceFor(p, w, m, lo)
    requires lo == 3 ==> !MisusesBg(w.table[m])
    requires m in w.extended <==> lo >= 7
    requires !AllAt(w.clients, m, lo + 1)
    ensures Enabled(w, e) && Steps(e) && Allowed(p, w, e) && NextPlace(p, e) == PlaceAfter(m, lo)
    ensures OnlySteps(w, Apply(w, e), m) && Within(Apply(w, e).clients, m, lo)
  {
    hide Inv, Enabled, Apply, MisusesBg, Around, PlaceFor, PlaceAfter, Allowed, NextPlace, Within, AllAt, OnlySteps;
    var j := Lagging(w.clients, m, lo);
    e := StepDue(w, m, j, lo);
    StepPlace(w, m, e, p, lo);
    StepWithin(w, m, e, lo);
  }

  lemma WithinFrom(cs: seq<Client>, m: nat, s: nat)
    requires AllAt(cs, m, s)
    ensures Within(cs, m, s)
  {
  }

  lemma StepsOn(w: World, v: World, u: World, m: nat)
    requires OnlySteps(w, v, m) && OnlySteps(v, u, m)
    ensures OnlySteps(w, u, m)
  {
  }

  lemma SameEntries(w: World, v: World, m: nat)
    requires OnlySteps(w, v, m)
    ensures v.table == w.table && v.extended == w.extended
  {
  }

  /** The rest of the clients of `m` take the step from stage `lo`. */
  lemma {:induction false} LiftRest(w0: World, log: seq<Event>, m: nat, lo: nat) returns (full: seq<Event>)
    requires Initial(w0) && Looped(w0, log) && 1 <= lo <= 8
    requires var w := Outcome(w0, log);
      && Around(w, m) && Within(w.clients, m, lo) && PlaceOf(log) == PlaceAfter(m, lo)
      && (lo == 3 ==> !MisusesBg(w.table[m])) && (m in w.extended <==> lo >= 7)
    ensures Looped(w0, full) && PlaceOf(full) == PlaceAfter(m, lo)
    ensures OnlySteps(Outcome(w0, log), Outcome(w0, full), m) && AllAt(Outcome(w0, full).clients, m, lo + 1)
    decreases Rank(Outcome(w0, log))
  {
    var w := Outcome(w0, log);
    RunInv(w0, log);
    RankNonNegative(w);
    full := log;
    if !AllAt(w.clients, m, lo + 1) {
      AfterFits(w, m, lo);
      hide Initial, Looped, Outcome, Inv, Rank, Around, Within, AllAt, MisusesBg, Enabled, Apply, Allowed, PlaceFor;
      hide NextPlace, PlaceAfter, OnlySteps;
      var e := LiftOne(w, m, lo, PlaceOf(log));
      StepRank(w, e);
      LoopedStep(w0, log, e);
      RunInv(w0, log + [e]);
      RankNonNegative(Outcome(w0, log + [e]));
      AroundSteps(w, Outcome(w0, log + [e]), m);
      SameEntries(w, Outcome(w0, log + [e]), m);
      full := LiftRest(w0, log + [e], m, lo);
      StepsOn(w, Outcome(w0, log + [e]), Outcome(w0, full), m);
    }
  }

  lemma SomeoneThere(w: World, m: nat, lo: nat)
    requires Around(w, m) && AllAt(w.clients, m, lo)
    ensures !AllAt(w.clients, m, lo + 1)
  {
    var j := OwnsSomeone(w, m);
  }

  /** All clients of `m` take the step from stage `lo`. */
  lemma LiftAll(w0: World, log: seq<Event>, m: nat, lo: nat) returns (full: seq<Event>)
    requires Initial(w0) && Looped(w0, log) && 1 <= lo <= 8
    requires var w := Outcome(w0, log);
      && Around(w, m) && AllAt(w.clients, m, lo) && PlaceFor(PlaceOf(log), w, m, lo)
      && (lo == 3 ==> !MisusesBg(w.table[m])) && (m in w.extended <==> lo >= 7)
    ensures Looped(w0, full) && PlaceOf(full) == PlaceAfter(m, lo)
    ensures OnlySteps(Outcome(w0, log), Outcome(w0, full), m) && AllAt(Outcome(w0, full).clients, m, lo + 1)
    ensures Around(Outcome(w0, full), m)
  {
    var w := Outcome(w0, log);
    RunInv(w0, log);
    WithinFrom(w.clients, m, lo);
    SomeoneThere(w, m, lo);
    hide Initial, Looped, Outcome, Inv, Around, Within, AllAt, MisusesBg, Enabled, Apply, Allowed, PlaceFor;
    hide NextPlace, PlaceAfter, OnlySteps;
    var e := LiftOne(w, m, lo, PlaceOf(log));
    LoopedStep(w0, log, e);
    var v := Outcome(w0, log + [e]);
    AroundSteps(w, v, m);
    SameEntries(w, v, m);
    full := LiftRest(w0, log + [e], m, lo);
    StepsOn(w, v, Outcome(w0, full), m);
    AroundSteps(w, Outcome(w0, full), m);
  }

  // ---- One measurement more

  lemma StartKeepsRoom(w: World, ks: seq<nat>, m: nat)
    requires Enabled(w, Start(m, 0)) && RoomFor(w, ks, m)
    ensures RoomFor(Apply(w, Start(m, 0)), ks, m)
  {
    var v := Apply(w, Start(m, 0));
    hide Panics, Staffable;
    forall k | k in ks + [m] ensures k in v.table && v.table[k].hosts == w.table[k].hosts {
      assert k in w.table;
    }
    HostsOfSame(w.table, v.table, ks + [m]);
  }

  lemma StartJoins(w: World, ks: seq<nat>, m: nat)
    requires Inv(w) && Cohort(w, ks) && Enabled(w, Start(m, 0)) && Usable(w.table[m])
    ensures Joining(Apply(w, Start(m, 0)), ks, m) && m > 0
    ensures RoomFor(w, ks, m) ==> RoomFor(Apply(w, Start(m, 0)), ks, m)
  {
    if RoomFor(w, ks, m) {
      StartKeepsRoom(w, ks, m);
    }
    NoZero(w);
    hide Inv, NoDup, Panics, RoomFor;
    assert m !in ks;
  }

  lemma JoiningAround(w: World, ks: seq<nat>, m: nat)
    requires Inv(w) && Joining(w, ks, m) && Full(w, m)
    ensures Around(w, m) && m !in w.extended
  {
    NoZero(w);
    hide Inv, NoDup;
    forall k | Running(w, k) && k != m ensures Paired(w, k) && Awaits(w, k) {
      PairedAt(w, k, 2);
      AwaitsAt(w, k, 2);
    }
  }

  lemma JoinedCohort(w: World, v: World, ks: seq<nat>, m: nat)
    requires Joining(w, ks, m) && Full(w, m) && OnlySteps(w, v, m) && AllAt(v.clients, m, 2)
    ensures Cohort(v, ks + [m])
  {
    hide Usable;
    forall k | k in ks + [m] ensures Running(v, k) && Full(v, k) && AllAt(v.clients, k, 2) && Usable(v.table[k]) {
      assert k in ks || k == m;
      OwnedSame(w.clients, v.clients, k);
    }
  }

  lemma JoiningStage(w: World, ks: seq<nat>, m: nat)
    requires Joining(w, ks, m)
    ensures AllAt(w.clients, m, 1)
  {
  }

  /** An iteration that starts, connects and authenticates `m` beside those of a cohort. */
  lemma BringUp(w0: World, log: seq<Event>, ks: seq<nat>, m: nat) returns (full: seq<Event>)
    requires Initial(w0) && Looped(w0, log) && Cohort(Outcome(w0, log), ks)
    requires Enabled(Outcome(w0, log), Start(m, 0)) && Usable(Outcome(w0, log).table[m])
    requires RoomFor(Outcome(w0, log), ks, m)
    ensures Looped(w0, full) && PlaceOf(full) == BringingUp(m)
    ensures Cohort(Outcome(w0, full), ks + [m])
    ensures m in Outcome(w0, log).table && Outcome(w0, full).table == Started(Outcome(w0, log).table, m, 0)
  {
    var w, e := Outcome(w0, log), Start(m, 0);
    RunInv(w0, log);
    CohortHead(w, ks);
    StartJoins(w, ks, m);
    LoopedStep(w0, log, e);
    hide Initial, Looped, Outcome, Inv, Cohort, Joining, RoomFor, Full, AllAt, Around, OnlySteps, Usable, MisusesBg;
    full := ConnectAll(w0, log + [e], ks, m);
    var v := Outcome(w0, full);
    RunInv(w0, full);
    JoiningAround(v, ks, m);
    JoiningStage(v, ks, m);
    full := LiftAll(w0, full, m, 1);
    JoinedCohort(v, Outcome(w0, full), ks, m);
    SameEntries(v, Outcome(w0, full), m);
  }
}
