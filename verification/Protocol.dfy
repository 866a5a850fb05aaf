/**
 * What the coordinator does, one event at a time.
 *
 * A world is the client array with the scheduler's table. `Attempted` says when the code gets to do
 * something, `Stops` when that stops the program, `Enabled` when it happens, and `Apply` what it does; the
 * coordinator's methods are proved to produce only enabled events, and the theorems about whole runs are
 * about sequences of them. Nothing happens in a run after the program has stopped.
 */
module Protocol {
  import opened Sequences
  import opened Schedule
  import opened Clients
  import opened Staffing

  /** `extended` remembers the measurements whose deadline was reset. */
  datatype World = World(clients: seq<Client>, table: Table, extended: set<nat>)

  datatype Event =
    | Start(m: nat, now: nat)         // the scheduler hands out measurement m, and its names become C strings
    | NoneReady                       // the scheduler has nothing to hand out
    | Connect(j: nat, m: nat, fd: int) // client j is connected for m
    | Send(j: nat, host: nat, msg: Message) // client j is sent a command, with the values of a host entry if it has any
    | Good(j: nat)                    // client j gives the good reply it was waited on for
    | Lines(j: nat)                   // client j gives result lines
    | Extend(m: nat, now: nat)        // the deadline of m is reset
    | Finish(m: nat)                  // m succeeded, its clients are given up
    | Fail(m: nat)                    // m failed, its clients are given up

  ghost predicate Running(w: World, m: nat) {
    m in w.table && w.table[m].status == InProgress
  }

  /** Every client of `m` is at stage `lo` or just past it. */
  ghost predicate Within(cs: seq<Client>, m: nat, lo: nat) {
    forall i | 0 <= i < |cs| && cs[i].owner == m :: lo <= Stage(cs[i].state) <= lo + 1
  }

  ghost predicate AllAt(cs: seq<Client>, m: nat, s: nat) {
    forall i | 0 <= i < |cs| && cs[i].owner == m :: Stage(cs[i].state) == s
  }

  ghost predicate Full(w: World, m: nat)
    requires m in w.table
  {
    |OwnedClasses(w.clients, m)| == |w.table[m].hosts|
  }

  /** The message fits the state of the client and carries the values of the host entry it is paired with. */
  ghost predicate Fits(w: World, j: nat, host: nat, msg: Message)
    requires j < |w.clients| && w.clients[j].owner in w.table
  {
    var c := w.clients[j];
    var m := w.table[c.owner];
    match msg
    case Authenticate => c.state == Connected
    case TestSpeed(fp, conns, bg) =>
      c.state == Authed && Pairs(w.clients, m.hosts, j, host) &&
      fp == m.fp && conns == m.hosts[host].conns && bg == c.isBg
    case ResetRate(bw, accumulate) =>
      c.state == ConnectedTarget && Pairs(w.clients, m.hosts, j, host) &&
      bw == m.hosts[host].bw && accumulate == (if c.isBg then 1 else 32)
    case Measure(dur) => c.state == BwSet && dur == m.dur && c.owner in w.extended
  }

  /** The scheduler has nothing to hand out. */
  ghost predicate NoReady(w: World) {
    forall k | k in w.table :: !Ready(w.table[k])
  }

  ghost predicate Attempted(w: World, e: Event) {
    match e
    case Start(m, now) => m in w.table && Ready(w.table[m])
    case NoneReady => NoReady(w)
    case Connect(j, m, fd) =>
      && Running(w, m)
      && j < |w.clients| && w.clients[j].owner == 0
      && fd >= 0 && (forall i | 0 <= i < |w.clients| :: w.clients[i].fd != fd)
      && w.table[m].dur > 0 && |OwnedClasses(w.clients, m)| < |w.table[m].hosts|
      && w.clients[j].cls == w.table[m].hosts[|OwnedClasses(w.clients, m)|].cls
      && AllAt(w.clients, m, 1)
    case Send(j, host, msg) =>
      && j < |w.clients| && Running(w, w.clients[j].owner) && Full(w, w.clients[j].owner)
      && Fits(w, j, host, msg)
      && Within(w.clients, w.clients[j].owner, Stage(w.clients[j].state))
    case Good(j) =>
      && j < |w.clients| && Running(w, w.clients[j].owner)
      && w.clients[j].state in {Authing, ToldConnectTarget, SettingBw, Measuring}
      && Within(w.clients, w.clients[j].owner, Stage(w.clients[j].state))
    case Lines(j) => j < |w.clients| && w.clients[j].state == Measuring
    case Extend(m, now) =>
      Running(w, m) && w.table[m].hosts != [] && Full(w, m) && AllAt(w.clients, m, 7) && m !in w.extended
    case Finish(m) => Running(w, m) && w.table[m].hosts != [] && Full(w, m) && AllAt(w.clients, m, 9)
    case Fail(m) => Running(w, m)
  }

  /** What stops the program: a start that panics, and the assertion in `tc_tell_connect`. */
  ghost predicate Stops(w: World, e: Event) {
    match e
    case Start(m, _) => m in w.table && Panics(w.table[m])
    case Send(_, _, TestSpeed(_, conns, bg)) => bg && conns != 1
    case _ => false
  }

  ghost predicate Enabled(w: World, e: Event) {
    Attempted(w, e) && !Stops(w, e)
  }

  ghost function GivenUp(w: World, m: nat): World
    requires m in w.table
  {
    w.(clients := Released(w.clients, m), table := Completed(w.table, m))
  }

  /** The deadline of `m` set anew. */
  ghost function WithDeadline(w: World, m: nat, now: nat): World
    requires m in w.table
  {
    w.(table := w.table[m := w.table[m].(deadline := now + Slack(w.table[m].dur))], extended := w.extended + {m})
  }

  ghost function Apply(w: World, e: Event): World
    requires Enabled(w, e)
  {
    match e
    case Start(m, now) => w.(table := Started(w.table, m, now))
    case NoneReady => w
    case Connect(j, m, fd) => w.(clients := w.clients[j := w.clients[j].(fd := fd, state := Connected, owner := m)])
    case Send(j, _, _) => w.(clients := w.clients[j := w.clients[j].(state := Next(w.clients[j].state))])
    case Good(j) => w.(clients := w.clients[j := w.clients[j].(state := Next(w.clients[j].state))])
    case Lines(j) => w
    case Extend(m, now) => WithDeadline(w, m, now)
    case Finish(m) => GivenUp(w, m)
    case Fail(m) => GivenUp(w, m)
  }

  // ---- The invariant

  /** Unused, unowned and without a descriptor are the same thing; no client is left in the failed state. */
  ghost predicate ClientsOk(cs: seq<Client>) {
    forall j | 0 <= j < |cs| ::
      && (cs[j].owner == 0 <==> cs[j].state == Invalid)
      && (cs[j].owner == 0 <==> cs[j].fd == -1)
      && cs[j].fd >= -1
      && cs[j].state != Failed
      && cs[j].isBg == IsBg(cs[j].cls)
  }

  /** Clients work for running measurements with a duration. */
  ghost predicate OwnersRun(w: World) {
    forall j | 0 <= j < |w.clients| && w.clients[j].owner != 0 ::
      Running(w, w.clients[j].owner) && w.table[w.clients[j].owner].dur > 0
  }

  /** A running measurement owns clients for a prefix of its host list. */
  ghost predicate Manned(w: World) {
    forall m | Running(w, m) ::
      && |OwnedClasses(w.clients, m)| <= |w.table[m].hosts|
      && multiset(OwnedClasses(w.clients, m)) ==
         multiset(Classes(w.table[m].hosts)[..|OwnedClasses(w.clients, m)|])
  }

  /** No client gets past `connected` before the whole host list is connected. */
  ghost predicate FullBeforeAuth(w: World) {
    forall j | 0 <= j < |w.clients| && Stage(w.clients[j].state) >= 2 ::
      w.clients[j].owner in w.table && Full(w, w.clients[j].owner)
  }

  /** Clients of one measurement are never more than one stage apart. */
  ghost predicate Adjacent(cs: seq<Client>) {
    forall i, j | 0 <= i < |cs| && 0 <= j < |cs| && cs[i].owner == cs[j].owner ::
      Stage(cs[i].state) <= Stage(cs[j].state) + 1
  }

  ghost predicate ExtendedLate(w: World) {
    forall m | m in w.extended ::
      && m in w.table && w.table[m].status != Waiting
      && (w.table[m].status == InProgress ==>
            Full(w, m) && forall i | 0 <= i < |w.clients| && w.clients[i].owner == m :: Stage(w.clients[i].state) >= 7)
  }

  ghost predicate Inv(w: World) {
    && Tracked(w.table)
    && ClientsOk(w.clients)
    && DistinctFds(w.clients)
    && OwnersRun(w)
    && Manned(w)
    && FullBeforeAuth(w)
    && Adjacent(w.clients)
    && ExtendedLate(w)
  }

  /** What a freshly loaded schedule and client list look like. */
  ghost predicate Initial(w: World) {
    && (forall j | 0 <= j < |w.clients| ::
          w.clients[j] == Client(w.clients[j].cls, IsBg(w.clients[j].cls), -1, Invalid, 0))
    && Unstarted(w.table)
    && w.extended == {}
  }

  lemma InitialInv(w: World)
    requires Initial(w)
    ensures Inv(w)
  {
  }

  lemma FullStaffed(w: World, m: nat)
    requires Inv(w) && Running(w, m) && Full(w, m)
    ensures Staffed(w.clients, w.table[m].hosts, m)
  {
    var hc := Classes(w.table[m].hosts);
    assert hc[..|hc|] == hc;
  }

  // ---- Every event keeps the invariant

  lemma MannedKept(w: World, w': World)
    requires Manned(w)
    requires forall m | Running(w', m) ::
               Running(w, m) && w'.table[m].hosts == w.table[m].hosts &&
               OwnedClasses(w'.clients, m) == OwnedClasses(w.clients, m)
    ensures Manned(w')
  {
  }

  /** One client takes a step and nothing else changes. */
  ghost predicate Advances(w: World, j: nat, w': World) {
    && j < |w.clients| && Running(w, w.clients[j].owner) && Full(w, w.clients[j].owner)
    && 1 <= Stage(w.clients[j].state) <= 8
    && Within(w.clients, w.clients[j].owner, Stage(w.clients[j].state))
    && w' == w.(clients := w.clients[j := w.clients[j].(state := Next(w.clients[j].state))])
  }

  lemma AdvanceOwned(w: World, j: nat, w': World, m: nat)
    requires Advances(w, j, w')
    ensures OwnedClasses(w'.clients, m) == OwnedClasses(w.clients, m)
  {
    OwnedSame(w.clients, w'.clients, m);
  }

  lemma AdvanceManned(w: World, j: nat, w': World)
    requires Advances(w, j, w') && Manned(w)
    ensures Manned(w')
  {
    forall m | Running(w', m) ensures OwnedClasses(w'.clients, m) == OwnedClasses(w.clients, m) {
      AdvanceOwned(w, j, w', m);
    }
    MannedKept(w, w');
  }

  lemma AdvanceFull(w: World, j: nat, w': World)
    requires Advances(w, j, w') && FullBeforeAuth(w) && ExtendedLate(w)
    ensures FullBeforeAuth(w') && ExtendedLate(w')
  {
    forall i | 0 <= i < |w'.clients| && Stage(w'.clients[i].state) >= 2
      ensures w'.clients[i].owner in w'.table && Full(w', w'.clients[i].owner)
    {
      AdvanceOwned(w, j, w', w.clients[i].owner);
    }
    forall m | m in w'.extended && w'.table[m].status == InProgress ensures Full(w', m) {
      AdvanceOwned(w, j, w', m);
    }
  }

  lemma AdvanceInv(w: World, j: nat, w': World)
    requires Advances(w, j, w') && Inv(w)
    ensures Inv(w')
  {
    hide Tracked, Manned, FullBeforeAuth, ExtendedLate;
    AdvanceManned(w, j, w');
    AdvanceFull(w, j, w');
  }

  /** A client with no owner joins `m`; what the other measurements own is unchanged. */
  lemma ConnectOwned(cs: seq<Client>, j: nat, c: Client, m: nat, hosts: seq<Host>)
    requires j < |cs| && cs[j].owner == 0 && c.owner == m > 0
    requires |OwnedClasses(cs, m)| < |hosts| && c.cls == hosts[|OwnedClasses(cs, m)|].cls
    requires multiset(OwnedClasses(cs, m)) == multiset(Classes(hosts)[..|OwnedClasses(cs, m)|])
    ensures |OwnedClasses(cs[j := c], m)| == |OwnedClasses(cs, m)| + 1
    ensures multiset(OwnedClasses(cs[j := c], m)) == multiset(Classes(hosts)[..|OwnedClasses(cs[j := c], m)|])
  {
    var hc, n := Classes(hosts), |OwnedClasses(cs, m)|;
    OwnedAdd(cs, j, c, m);
    assert hc[..n + 1] == hc[..n] + [hc[n]];
  }

  lemma ConnectManned(w: World, j: nat, m: nat, fd: int)
    requires 0 !in w.table && Manned(w) && Enabled(w, Connect(j, m, fd))
    ensures Manned(Apply(w, Connect(j, m, fd)))
  {
    var w' := Apply(w, Connect(j, m, fd));
    ConnectOwned(w.clients, j, w'.clients[j], m, w.table[m].hosts);
    forall m2 | Running(w', m2)
      ensures |OwnedClasses(w'.clients, m2)| <= |w'.table[m2].hosts|
      ensures multiset(OwnedClasses(w'.clients, m2)) ==
              multiset(Classes(w'.table[m2].hosts)[..|OwnedClasses(w'.clients, m2)|])
    {
      assert Running(w, m2);
      if m2 != m {
        OwnedSame(w.clients, w'.clients, m2);
      }
    }
  }

  lemma ConnectFull(w: World, j: nat, m: nat, fd: int)
    requires Enabled(w, Connect(j, m, fd)) && m > 0 && 0 !in w.table
    requires FullBeforeAuth(w) && ExtendedLate(w)
    ensures FullBeforeAuth(Apply(w, Connect(j, m, fd))) && ExtendedLate(Apply(w, Connect(j, m, fd)))
  {
    var w' := Apply(w, Connect(j, m, fd));
    forall k: nat | k > 0 && k != m ensures OwnedClasses(w'.clients, k) == OwnedClasses(w.clients, k) {
      OwnedSame(w.clients, w'.clients, k);
    }
    forall i | 0 <= i < |w'.clients| && Stage(w'.clients[i].state) >= 2
      ensures w'.clients[i].owner in w'.table && Full(w', w'.clients[i].owner)
    {
      assert w'.clients[i] == w.clients[i];
      assert Full(w, w.clients[i].owner);
    }
  }

  lemma ConnectClients(w: World, j: nat, m: nat, fd: int)
    requires Enabled(w, Connect(j, m, fd)) && m > 0
    requires ClientsOk(w.clients) && DistinctFds(w.clients) && OwnersRun(w) && Adjacent(w.clients)
    ensures ClientsOk(Apply(w, Connect(j, m, fd)).clients) && DistinctFds(Apply(w, Connect(j, m, fd)).clients)
    ensures OwnersRun(Apply(w, Connect(j, m, fd))) && Adjacent(Apply(w, Connect(j, m, fd)).clients)
  {
  }

  lemma ConnectInv(w: World, j: nat, m: nat, fd: int)
    requires Inv(w) && Enabled(w, Connect(j, m, fd))
    ensures Inv(Apply(w, Connect(j, m, fd)))
  {
    hide Manned, FullBeforeAuth, ExtendedLate, ClientsOk, DistinctFds, OwnersRun, Adjacent;
    ConnectManned(w, j, m, fd);
    ConnectFull(w, j, m, fd);
    ConnectClients(w, j, m, fd);
  }

  lemma GivenUpOwned(w: World, m: nat, m2: nat)
    requires m > 0 && m2 > 0 && m in w.table && m2 != m
    ensures OwnedClasses(GivenUp(w, m).clients, m2) == OwnedClasses(w.clients, m2)
  {
    ReleasedOwners(w.clients, m, m2);
  }

  lemma GivenUpManned(w: World, m: nat)
    requires 0 !in w.table && Running(w, m) && Manned(w)
    ensures Manned(GivenUp(w, m))
  {
    forall m2 | Running(GivenUp(w, m), m2)
      ensures Running(w, m2) && GivenUp(w, m).table[m2].hosts == w.table[m2].hosts
      ensures OwnedClasses(GivenUp(w, m).clients, m2) == OwnedClasses(w.clients, m2)
    {
      assert m2 > 0 && m2 != m;
      GivenUpOwned(w, m, m2);
    }
    MannedKept(w, GivenUp(w, m));
  }

  lemma GivenUpFull(w: World, m: nat)
    requires 0 !in w.table && Running(w, m) && FullBeforeAuth(w)
    ensures FullBeforeAuth(GivenUp(w, m))
  {
    var w' := GivenUp(w, m);
    forall i | 0 <= i < |w'.clients| && Stage(w'.clients[i].state) >= 2
      ensures w'.clients[i].owner in w'.table && Full(w', w'.clients[i].owner)
    {
      assert w'.clients[i] == w.clients[i] && w.clients[i].owner != m;
      GivenUpOwned(w, m, w.clients[i].owner);
    }
  }

  lemma GivenUpExtended(w: World, m: nat)
    requires 0 !in w.table && Running(w, m) && ExtendedLate(w)
    ensures ExtendedLate(GivenUp(w, m))
  {
    var w' := GivenUp(w, m);
    forall k | k in w'.extended && w'.table[k].status == InProgress
      ensures Full(w', k)
      ensures forall i | 0 <= i < |w'.clients| && w'.clients[i].owner == k :: Stage(w'.clients[i].state) >= 7
    {
      GivenUpOwned(w, m, k);
      forall i | 0 <= i < |w'.clients| && w'.clients[i].owner == k ensures Stage(w'.clients[i].state) >= 7 {
        assert w'.clients[i] == w.clients[i];
      }
    }
  }

  lemma GivenUpClients(w: World, m: nat)
    requires m > 0 && Running(w, m)
    requires ClientsOk(w.clients) && DistinctFds(w.clients) && OwnersRun(w) && Adjacent(w.clients)
    ensures ClientsOk(GivenUp(w, m).clients) && DistinctFds(GivenUp(w, m).clients)
    ensures OwnersRun(GivenUp(w, m)) && Adjacent(GivenUp(w, m).clients)
  {
    var cs := GivenUp(w, m).clients;
    assert forall j | 0 <= j < |cs| :: cs[j] == if w.clients[j].owner == m then Unused(w.clients[j]) else w.clients[j];
    forall i, j | 0 <= i < |cs| && 0 <= j < |cs| && cs[i].owner == cs[j].owner
      ensures Stage(cs[i].state) <= Stage(cs[j].state) + 1
    {
      if cs[i].owner == 0 {
        assert cs[i].state == Invalid && cs[j].state == Invalid;
      } else {
        assert cs[i] == w.clients[i] && cs[j] == w.clients[j];
      }
    }
  }

  lemma GivenUpInv(w: World, m: nat)
    requires Inv(w) && Running(w, m)
    ensures Inv(GivenUp(w, m))
  {
    hide FullBeforeAuth, Manned, ExtendedLate, ClientsOk, DistinctFds, OwnersRun, Adjacent;
    CompletedTracked(w.table, m);
    GivenUpManned(w, m);
    GivenUpFull(w, m);
    GivenUpExtended(w, m);
    GivenUpClients(w, m);
  }

  lemma StartManned(w: World, m: nat, now: nat)
    requires m > 0 && OwnersRun(w) && Manned(w) && Enabled(w, Start(m, now))
    ensures Manned(Apply(w, Start(m, now))) && OwnersRun(Apply(w, Start(m, now)))
  {
    var w' := Apply(w, Start(m, now));
    assert OwnedClasses(w.clients, m) == [] by {
      OwnedNone(w.clients, m);
      forall j | 0 <= j < |w.clients| ensures w.clients[j].owner != m {
        assert w.clients[j].owner != 0 ==> Running(w, w.clients[j].owner);
      }
    }
    forall k | Running(w', k)
      ensures |OwnedClasses(w'.clients, k)| <= |w'.table[k].hosts|
      ensures multiset(OwnedClasses(w'.clients, k)) ==
              multiset(Classes(w'.table[k].hosts)[..|OwnedClasses(w'.clients, k)|])
    {
      assert k != m ==> Running(w, k);
    }
  }

  lemma StartFull(w: World, m: nat, now: nat)
    requires m > 0 && ExtendedLate(w) && FullBeforeAuth(w) && Enabled(w, Start(m, now))
    ensures ExtendedLate(Apply(w, Start(m, now))) && FullBeforeAuth(Apply(w, Start(m, now)))
  {
    var w' := Apply(w, Start(m, now));
    forall i | 0 <= i < |w'.clients| && Stage(w'.clients[i].state) >= 2
      ensures w'.clients[i].owner in w'.table && Full(w', w'.clients[i].owner)
    {
      assert Full(w, w.clients[i].owner);
    }
  }

  lemma StartInv(w: World, m: nat, now: nat)
    requires Inv(w) && Enabled(w, Start(m, now))
    ensures Inv(Apply(w, Start(m, now)))
  {
    hide FullBeforeAuth, Manned, ExtendedLate, ClientsOk, DistinctFds, OwnersRun, Adjacent;
    StartedTracked(w.table, m, now);
    StartManned(w, m, now);
    StartFull(w, m, now);
  }

  lemma ExtendTracked(tbl: Table, m: nat, now: nat)
    requires Tracked(tbl) && m in tbl
    ensures Tracked(tbl[m := tbl[m].(deadline := now + Slack(tbl[m].dur))])
  {
  }

  lemma ExtendFull(w: World, m: nat, now: nat)
    requires Enabled(w, Extend(m, now)) && FullBeforeAuth(w) && ExtendedLate(w) && OwnersRun(w)
    ensures FullBeforeAuth(Apply(w, Extend(m, now))) && ExtendedLate(Apply(w, Extend(m, now)))
    ensures OwnersRun(Apply(w, Extend(m, now)))
  {
    var w' := Apply(w, Extend(m, now));
    forall i | 0 <= i < |w'.clients| && Stage(w'.clients[i].state) >= 2
      ensures w'.clients[i].owner in w'.table && Full(w', w'.clients[i].owner)
    {
      assert Full(w, w.clients[i].owner);
    }
  }

  lemma ExtendManned(w: World, m: nat, now: nat)
    requires Enabled(w, Extend(m, now)) && Manned(w)
    ensures Manned(Apply(w, Extend(m, now)))
  {
    MannedKept(w, Apply(w, Extend(m, now)));
  }

  lemma ExtendInv(w: World, m: nat, now: nat)
    requires Inv(w) && Enabled(w, Extend(m, now))
    ensures Inv(Apply(w, Extend(m, now)))
  {
    hide Tracked, Manned, FullBeforeAuth, ExtendedLate, OwnersRun;
    ExtendTracked(w.table, m, now);
    ExtendManned(w, m, now);
    ExtendFull(w, m, now);
  }

  lemma GoodAdvances(w: World, j: nat)
    requires FullBeforeAuth(w) && Enabled(w, Good(j))
    ensures Advances(w, j, Apply(w, Good(j)))
  {
  }

  lemma StepInv(w: World, e: Event)
    requires Inv(w) && Enabled(w, e)
    ensures Inv(Apply(w, e))
  {
    hide Tracked, FullBeforeAuth, Manned, ExtendedLate, ClientsOk, DistinctFds, OwnersRun, Adjacent;
    match e
    case Start(m, now) => StartInv(w, m, now);
    case NoneReady =>
    case Connect(j, m, fd) => ConnectInv(w, j, m, fd);
    case Send(j, _, _) => AdvanceInv(w, j, Apply(w, e));
    case Good(j) =>
      GoodAdvances(w, j);
      AdvanceInv(w, j, Apply(w, e));
    case Lines(_) =>
    case Extend(m, now) => ExtendInv(w, m, now);
    case Finish(m) => GivenUpInv(w, m);
    case Fail(m) => GivenUpInv(w, m);
  }
}
