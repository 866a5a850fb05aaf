/** What every run has in common: theorems about all sequences of events the coordinator can produce. */
module History {
  import opened Sequences
  import opened Schedule
  import opened Clients
  import opened Staffing
  import opened Protocol
  import opened Runs
  import opened Progress
  import opened Liveness
  import opened Heads

  // ---- Starts and ends

  /** How often measurement `m` was started. */
  ghost function Starts(log: seq<Event>, m: nat): nat {
    if log == [] then 0 else
      Starts(log[..|log| - 1], m) + var e := log[|log| - 1]; if e.Start? && e.m == m then 1 else 0
  }

  /** How often measurement `m` was finished or failed. */
  ghost function Ends(log: seq<Event>, m: nat): nat {
    if log == [] then 0 else
      Ends(log[..|log| - 1], m) + var e := log[|log| - 1]; if (e.Finish? || e.Fail?) && e.m == m then 1 else 0
  }

  ghost function Successes(log: seq<Event>): nat {
    if log == [] then 0 else Successes(log[..|log| - 1]) + if log[|log| - 1].Finish? then 1 else 0
  }

  ghost function Failures(log: seq<Event>): nat {
    if log == [] then 0 else Failures(log[..|log| - 1]) + if log[|log| - 1].Fail? then 1 else 0
  }

  ghost function StartsFor(s: Status): nat {
    if s == Waiting then 0 else 1
  }

  ghost function EndsFor(s: Status): nat {
    if s == Complete then 1 else 0
  }

  lemma StatusStep(w: World, e: Event, m: nat)
    requires Enabled(w, e) && m in w.table
    ensures var a, b := w.table[m].status, Apply(w, e).table[m].status;
      && StartsFor(b) == StartsFor(a) + (if e.Start? && e.m == m then 1 else 0)
      && EndsFor(b) == EndsFor(a) + if (e.Finish? || e.Fail?) && e.m == m then 1 else 0
  {
  }

  /**
   * A measurement of the schedule is waiting until its one start and complete from its one end on; one left
   * over from an earlier schedule neither starts nor ends.
   */
  lemma {:induction false} StatusTellsHistory(w0: World, log: seq<Event>, m: nat)
    requires Initial(w0) && Legal(w0, log) && m in w0.table
    ensures m in Outcome(w0, log).table
    ensures w0.table[m].status == Waiting ==>
              && Starts(log, m) == StartsFor(Outcome(w0, log).table[m].status)
              && Ends(log, m) == EndsFor(Outcome(w0, log).table[m].status)
    ensures w0.table[m].status != Waiting ==>
              Outcome(w0, log).table[m].status == Complete && Starts(log, m) == 0 && Ends(log, m) == 0
    decreases |log|
  {
    hide Enabled, Apply;
    RunSize(w0, log);
    if log != [] {
      StatusTellsHistory(w0, log[..|log| - 1], m);
      StatusStep(Outcome(w0, log[..|log| - 1]), log[|log| - 1], m);
    }
  }

  /**
   * The order of starts is a topological order, for every schedule: when a measurement starts, it has not
   * been started before, and everything it depends on has been started and has ended, each exactly once.
   */
  lemma StartsFollowDependencies(w0: World, log: seq<Event>, p: nat)
    requires Initial(w0) && Legal(w0, log) && p < |log| && log[p].Start?
    ensures log[p].m in w0.table
    ensures Starts(log[..p], log[p].m) == 0
    ensures forall d | d in w0.table[log[p].m].depends :: Starts(log[..p], d) == 1 && Ends(log[..p], d) == 1
    ensures NoDup(w0.table[log[p].m].depends)
  {
    var m := log[p].m;
    PrefixLegal(w0, log, p);
    RunInv(w0, log[..p]);
    RunPlan(w0, log[..p]);
    var tbl := Outcome(w0, log[..p]).table;
    ReadyMeansDependsDone(tbl, m);
    StatusTellsHistory(w0, log[..p], m);
    forall d | d in w0.table[m].depends ensures Starts(log[..p], d) == 1 && Ends(log[..p], d) == 1 {
      StatusTellsHistory(w0, log[..p], d);
    }
  }

  ghost function CompleteIds(tbl: Table): set<nat> {
    set k | k in tbl && tbl[k].status == Complete
  }

  lemma CompleteAdd(tbl: Table, m: nat)
    requires m in tbl && tbl[m].status == InProgress
    ensures |CompleteIds(Completed(tbl, m))| == |CompleteIds(tbl)| + 1
  {
    assert CompleteIds(Completed(tbl, m)) == CompleteIds(tbl) + {m};
  }

  lemma CompleteSame(tbl: Table, m: nat, entry: Measurement)
    requires m in tbl && tbl[m].status != Complete && entry.status != Complete
    ensures CompleteIds(tbl[m := entry]) == CompleteIds(tbl)
  {
  }

  lemma CompleteStep(w: World, e: Event)
    requires Enabled(w, e)
    ensures |CompleteIds(Apply(w, e).table)| == |CompleteIds(w.table)| + if e.Finish? || e.Fail? then 1 else 0
  {
    hide Full, Pairs, Fits, AllAt, Within, OwnedClasses, CompleteIds, Completed;
    if e.Finish? || e.Fail? {
      CompleteAdd(w.table, e.m);
    } else if e.Start? || e.Extend? {
      CompleteSame(w.table, e.m, Apply(w, e).table[e.m]);
    }
  }

  /** Successes and failures together count the measurements that have been completed since the load. */
  lemma {:induction false} EndsAreCounted(w0: World, log: seq<Event>)
    requires Initial(w0) && Legal(w0, log)
    ensures Successes(log) + Failures(log) + |CompleteIds(w0.table)| == |CompleteIds(Outcome(w0, log).table)|
    decreases |log|
  {
    if log != [] {
      var front, e := log[..|log| - 1], log[|log| - 1];
      EndsAreCounted(w0, front);
      CompleteStep(Outcome(w0, front), e);
    }
  }

  lemma LeftoversCounted(tbl: Table)
    requires Unstarted(tbl)
    ensures |CompleteIds(tbl)| == 0 <==> forall k | k in tbl :: tbl[k].status == Waiting
  {
    if k :| k in tbl && tbl[k].status == Complete {
      assert k in CompleteIds(tbl);
    }
  }

  /**
   * When everything is complete, every client is given up, and successes and failures add up to all that was
   * not left over from earlier schedules: to the size of the table exactly when nothing was left over.
   */
  lemma FinishedRun(w0: World, log: seq<Event>)
    requires Initial(w0) && Legal(w0, log) && AllComplete(Outcome(w0, log).table)
    ensures Successes(log) + Failures(log) == |w0.table| - |CompleteIds(w0.table)|
    ensures Successes(log) + Failures(log) == |w0.table| <==> forall k | k in w0.table :: w0.table[k].status == Waiting
    ensures Outcome(w0, log).clients == w0.clients
  {
    EndsAreCounted(w0, log);
    RunPlan(w0, log);
    RunInv(w0, log);
    var w := Outcome(w0, log);
    assert CompleteIds(w.table) == w0.table.Keys;
    LeftoversCounted(w0.table);
    forall j | 0 <= j < |w.clients| ensures w.clients[j] == w0.clients[j] {
      assert !Running(w, w.clients[j].owner);
    }
  }

  // ---- The phase barrier

  /** Commands sent to client `j` since it was last connected. */
  ghost function Sends(log: seq<Event>, j: nat): nat {
    if log == [] then 0 else
      var e := log[|log| - 1];
      if e.Connect? && e.j == j then 0 else Sends(log[..|log| - 1], j) + if e.Send? && e.j == j then 1 else 0
  }

  /** Good replies from client `j` since it was last connected. */
  ghost function Replies(log: seq<Event>, j: nat): nat {
    if log == [] then 0 else
      var e := log[|log| - 1];
      if e.Connect? && e.j == j then 0 else Replies(log[..|log| - 1], j) + if e.Good? && e.j == j then 1 else 0
  }

  /** How one event moves the stage of a client. */
  lemma StageStep(w: World, e: Event, j: nat)
    requires Enabled(w, e) && j < |w.clients| && Inv(w)
    ensures j < |Apply(w, e).clients|
    ensures var c, c' := w.clients[j], Apply(w, e).clients[j];
      c'.owner != 0 ==>
        if e.Connect? && e.j == j then c'.state == Connected
        else
          && c.owner == c'.owner
          && (e.Send? && e.j == j ==> Stage(c.state) in {1, 3, 5, 7} && Stage(c'.state) == Stage(c.state) + 1)
          && (e.Good? && e.j == j ==> Stage(c.state) in {2, 4, 6, 8} && Stage(c'.state) == Stage(c.state) + 1)
          && (!((e.Send? || e.Good?) && e.j == j) ==> c'.state == c.state)
    ensures w.clients[j].owner != 0 ==> Stage(w.clients[j].state) >= 1
  {
    hide Tracked, Manned, FullBeforeAuth, ExtendedLate, Adjacent, DistinctFds, Full, Pairs;
  }

  /** The stage of a client in use is what has been sent to it and answered since it was connected. */
  lemma {:induction false} StageTellsHistory(w0: World, log: seq<Event>, j: nat)
    requires Initial(w0) && Legal(w0, log) && j < |w0.clients|
    ensures j < |Outcome(w0, log).clients|
    ensures var c := Outcome(w0, log).clients[j];
      c.owner != 0 ==> Sends(log, j) == Stage(c.state) / 2 && Replies(log, j) == (Stage(c.state) - 1) / 2
    decreases |log|
  {
    hide Enabled, Apply, Inv;
    RunSize(w0, log);
    if log != [] {
      hide Initial;
      var front, e := log[..|log| - 1], log[|log| - 1];
      StageTellsHistory(w0, front, j);
      RunInv(w0, front);
      StageStep(Outcome(w0, front), e, j);
    }
  }

  /** Which command comes when: authenticate, connect, set the rate, measure. */
  ghost function CommandNumber(msg: Message): nat {
    match msg
    case Authenticate => 0
    case TestSpeed(_, _, _) => 1
    case ResetRate(_, _) => 2
    case Measure(_) => 3
  }

  lemma RunningIsPositive(w: World, m: nat)
    requires Tracked(w.table) && Running(w, m)
    ensures m > 0
  {
  }

  lemma BarrierStages(w: World, j: nat, i: nat, e: Event)
    requires Inv(w) && e.Send? && e.j == j && Enabled(w, e) && i < |w.clients|
    requires w.clients[i].owner == w.clients[j].owner
    ensures w.clients[j].owner != 0 && Stage(w.clients[j].state) == 2 * CommandNumber(e.msg) + 1
    ensures Stage(w.clients[j].state) <= Stage(w.clients[i].state) <= Stage(w.clients[j].state) + 1
  {
    hide Manned, FullBeforeAuth, ExtendedLate, Adjacent, DistinctFds, Full, Pairs;
    RunningIsPositive(w, w.clients[j].owner);
  }

  lemma SentToClient(w: World, e: Event)
    requires Enabled(w, e) && (e.Send? || e.Good?)
    ensures e.j < |w.clients|
  {
  }

  /**
   * The phase barrier. A client gets its commands in order, none skipped or repeated, and when it is sent
   * one, every client of the same measurement has been sent, and has given its good reply to, all the
   * earlier ones; none is ahead by more than this command.
   */
  lemma PhaseBarrier(w0: World, log: seq<Event>, p: nat, i: nat)
    requires Initial(w0) && Legal(w0, log) && p < |log| && log[p].Send? && i < |w0.clients|
    ensures Legal(w0, log[..p]) && |Outcome(w0, log[..p]).clients| == |w0.clients| && log[p].j < |w0.clients|
    ensures Sends(log[..p], log[p].j) == Replies(log[..p], log[p].j) == CommandNumber(log[p].msg)
    ensures Outcome(w0, log[..p]).clients[i].owner == Outcome(w0, log[..p]).clients[log[p].j].owner ==>
              && Replies(log[..p], i) == CommandNumber(log[p].msg)
              && CommandNumber(log[p].msg) <= Sends(log[..p], i) <= CommandNumber(log[p].msg) + 1
  {
    hide Enabled, Apply, Inv, Initial, Legal, Outcome;
    PrefixLegal(w0, log, p);
    RunInv(w0, log[..p]);
    RunSize(w0, log[..p]);
    var w := Outcome(w0, log[..p]);
    SentToClient(w, log[p]);
    StageTellsHistory(w0, log[..p], log[p].j);
    BarrierStages(w, log[p].j, log[p].j, log[p]);
    if w.clients[i].owner == w.clients[log[p].j].owner {
      StageTellsHistory(w0, log[..p], i);
      BarrierStages(w, log[p].j, i, log[p]);
    }
  }

  // ---- One pairing for both passes

  /** Client `j` is still working for `m`, and `m` still owns the same clients. */
  ghost predicate SameCrew(w: World, v: World, m: nat) {
    && |v.clients| == |w.clients|
    && forall i | 0 <= i < |w.clients| ::
         (w.clients[i].owner == m <==> v.clients[i].owner == m) && w.clients[i].cls == v.clients[i].cls
  }

  lemma CrewStep(w: World, e: Event, j: nat, m: nat)
    requires Inv(w) && Enabled(w, e) && j < |w.clients| && m > 0
    requires w.clients[j].owner == m && Stage(w.clients[j].state) >= 2
    requires !(e.Connect? && e.j == j)
    requires Apply(w, e).clients[j].owner != 0
    ensures Apply(w, e).clients[j].owner == m && Stage(Apply(w, e).clients[j].state) >= 2
    ensures SameCrew(w, Apply(w, e), m)
  {
    hide Tracked, Manned, ExtendedLate, Adjacent, DistinctFds, ClientsOk, Pairs, OwnedClasses;
    assert Running(w, m) && Full(w, m);
  }

  /** Only connecting gives a client an owner. */
  lemma StillOwned(w: World, e: Event, j: nat)
    requires Enabled(w, e) && j < |w.clients| && !(e.Connect? && e.j == j)
    requires Apply(w, e).clients[j].owner != 0
    ensures w.clients[j].owner != 0
  {
  }

  /** Once authentication has begun, a measurement keeps its crew for as long as the client works for it. */
  lemma {:induction false} CrewKept(w0: World, log: seq<Event>, p: nat, q: nat, j: nat)
    requires Initial(w0) && Legal(w0, log) && p <= q <= |log| && j < |w0.clients|
    requires forall n | p <= n < q :: !(log[n].Connect? && log[n].j == j)
    requires Legal(w0, log[..p]) && Legal(w0, log[..q])
    requires |Outcome(w0, log[..p]).clients| == |w0.clients| == |Outcome(w0, log[..q]).clients|
    requires Outcome(w0, log[..p]).clients[j].owner != 0 && Stage(Outcome(w0, log[..p]).clients[j].state) >= 2
    requires Outcome(w0, log[..q]).clients[j].owner != 0
    ensures var w, v := Outcome(w0, log[..p]), Outcome(w0, log[..q]);
      v.clients[j].owner == w.clients[j].owner && Stage(v.clients[j].state) >= 2 && SameCrew(w, v, w.clients[j].owner)
    decreases q - p
  {
    hide Enabled, Apply, Inv, Initial, Legal, Outcome;
    if p < q {
      var r := q - 1;
      PrefixLegal(w0, log, r);
      RunSize(w0, log[..r]);
      RunInv(w0, log[..r]);
      var v, e := Outcome(w0, log[..r]), log[r];
      StillOwned(v, e, j);
      CrewKept(w0, log, p, r, j);
      CrewStep(v, e, j, v.clients[j].owner);
    }
  }

  lemma OnePartner(w: World, v: World, w0: World, j: nat, a: Event, b: Event)
    requires j < |w.clients| && SamePlan(w0, w) && SamePlan(w0, v)
    requires a.Send? && a.msg.TestSpeed? && a.j == j && Enabled(w, a)
    requires b.Send? && b.msg.ResetRate? && b.j == j && Enabled(v, b)
    requires v.clients[j].owner == w.clients[j].owner && SameCrew(w, v, w.clients[j].owner)
    ensures a.host == b.host
    ensures exists m :: m in w0.table && a.host < |w0.table[m].hosts| &&
              a.msg.fp == w0.table[m].fp && a.msg.conns == w0.table[m].hosts[a.host].conns &&
              b.msg.bw == w0.table[m].hosts[a.host].bw
  {
    var m := w.clients[j].owner;
    var hosts := w0.table[m].hosts;
    assert Pairs(w.clients, hosts, j, a.host) && Pairs(v.clients, hosts, j, b.host);
    PairingSame(w.clients, v.clients, hosts, m, j, a.host);
    PartnerUnique(v.clients, hosts, m, j, a.host, j, b.host);
  }

  /**
   * The connect pass and the later bandwidth pass pair a client with the same host entry, so it gets its
   * connection count and its bandwidth from one place.
   */
  lemma SamePairing(w0: World, log: seq<Event>, p: nat, q: nat)
    requires Initial(w0) && Legal(w0, log) && p < q < |log|
    requires log[p].Send? && log[p].msg.TestSpeed? && log[q].Send? && log[q].msg.ResetRate? && log[p].j == log[q].j
    requires forall n | p <= n < q :: !(log[n].Connect? && log[n].j == log[p].j)
    ensures log[p].host == log[q].host
    ensures exists m :: m in w0.table && log[p].host < |w0.table[m].hosts| &&
              log[p].msg.fp == w0.table[m].fp &&
              log[p].msg.conns == w0.table[m].hosts[log[p].host].conns &&
              log[q].msg.bw == w0.table[m].hosts[log[p].host].bw
  {
    hide Enabled, Apply, Inv, Initial, SamePlan, SameCrew;
    var j := log[p].j;
    PrefixLegal(w0, log, p);
    PrefixLegal(w0, log, q);
    RunSize(w0, log[..p]);
    RunSize(w0, log[..q]);
    RunPlan(w0, log[..p]);
    RunPlan(w0, log[..q]);
    RunInv(w0, log[..p]);
    RunInv(w0, log[..q]);
    var w, v := Outcome(w0, log[..p]), Outcome(w0, log[..q]);
    SentToClient(w, log[p]);
    SentToClient(v, log[q]);
    BarrierStages(w, j, j, log[p]);
    BarrierStages(v, j, j, log[q]);
    CrewKept(w0, log, p, q, j);
    OnePartner(w, v, w0, j, log[p], log[q]);
  }

  // ---- Deadlines

  ghost function Extensions(log: seq<Event>, m: nat): nat {
    if log == [] then 0 else
      Extensions(log[..|log| - 1], m) + var e := log[|log| - 1]; if e.Extend? && e.m == m then 1 else 0
  }

  /** The deadline of `m` was set by the event at `p`: its start or its reset. */
  ghost predicate SetsDeadline(e: Event, m: nat, deadline: nat, dur: nat) {
    (e.Start? || e.Extend?) && e.m == m && deadline == e.now + 3 * dur / 2
  }

  /** A deadline is reset at most once. */
  lemma {:induction false} ExtendedOnce(w0: World, log: seq<Event>, m: nat)
    requires Initial(w0) && Legal(w0, log)
    ensures Extensions(log, m) == if m in Outcome(w0, log).extended then 1 else 0
    decreases |log|
  {
    if log != [] {
      ExtendedOnce(w0, log[..|log| - 1], m);
    }
  }

  lemma DeadlineStep(w: World, e: Event, m: nat)
    requires Enabled(w, e) && Running(Apply(w, e), m) && !((e.Start? || e.Extend?) && e.m == m)
    ensures Running(w, m) && w.table[m].deadline == Apply(w, e).table[m].deadline
  {
  }

  /** The deadline of a running measurement is 3 * dur / 2 seconds after its start, or after its one reset. */
  lemma {:induction false} DeadlineOrigin(w0: World, log: seq<Event>, m: nat) returns (p: nat)
    requires Initial(w0) && Legal(w0, log) && Running(Outcome(w0, log), m)
    ensures m in w0.table
    ensures p < |log| && SetsDeadline(log[p], m, Outcome(w0, log).table[m].deadline, w0.table[m].dur)
    ensures Extensions(log, m) <= 1
    decreases |log|
  {
    ExtendedOnce(w0, log, m);
    RunSize(w0, log);
    var front, e := log[..|log| - 1], log[|log| - 1];
    RunPlan(w0, front);
    if (e.Start? || e.Extend?) && e.m == m {
      p := |log| - 1;
    } else {
      DeadlineStep(Outcome(w0, front), e, m);
      p := DeadlineOrigin(w0, front, m);
    }
  }

  /**
   * A measurement found due at time `t` was started, or had its one reset, at most 3 * dur / 2 seconds
   * before. The checks at the head of the main loop leave no other measurement running.
   */
  lemma DueMeansRecent(w0: World, log: seq<Event>, m: nat, t: nat)
    requires Initial(w0) && Legal(w0, log) && Running(Outcome(w0, log), m)
    requires Outcome(w0, log).table[m].deadline >= t
    ensures m in w0.table
    ensures exists p :: 0 <= p < |log| && (log[p].Start? || log[p].Extend?) && log[p].m == m &&
              t <= log[p].now + 3 * w0.table[m].dur / 2
  {
    hide Initial, Legal, Outcome;
    var p := DeadlineOrigin(w0, log, m);
  }

  // ---- What the commands say

  lemma SentFits(w: World, e: Event)
    requires Inv(w) && Enabled(w, e) && e.Send?
    ensures e.j < |w.clients| && w.clients[e.j].owner in w.table
    ensures w.clients[e.j].isBg <==> "bg" <= w.clients[e.j].cls
    ensures Fits(w, e.j, e.host, e.msg)
  {
    hide Tracked, Manned, FullBeforeAuth, ExtendedLate, Adjacent, OwnersRun, DistinctFds, Fits, Within, Full;
  }

  lemma SameClient(w0: World, w: World, j: nat)
    requires SamePlan(w0, w) && j < |w.clients|
    ensures |w.clients| == |w0.clients| && w.clients[j].cls == w0.clients[j].cls
  {
  }

  /**
   * Every command in every run carries what the schedule says: the relay and the connections or the rate of a host
   * entry of the client's own class, the background flag and an accumulation of 1 for classes that begin with
   * "bg" and of 32 for others, and the duration.
   */
  lemma SentAsScheduled(w0: World, log: seq<Event>, p: nat)
    requires Initial(w0) && Legal(w0, log) && p < |log| && log[p].Send?
    ensures Legal(w0, log[..p])
    ensures var e, cs := log[p], Outcome(w0, log[..p]).clients;
      && e.j < |cs| == |w0.clients| && cs[e.j].owner in w0.table
      && var m, cls := w0.table[cs[e.j].owner], w0.clients[e.j].cls;
         match e.msg
         case Authenticate => true
         case TestSpeed(fp, conns, bg) =>
           && e.host < |m.hosts| && m.hosts[e.host].cls == cls
           && fp == m.fp && conns == m.hosts[e.host].conns && (bg <==> "bg" <= cls)
         case ResetRate(bw, accumulate) =>
           && e.host < |m.hosts| && m.hosts[e.host].cls == cls
           && bw == m.hosts[e.host].bw && accumulate == if "bg" <= cls then 1 else 32
         case Measure(dur) => dur == m.dur
  {
    PrefixLegal(w0, log, p);
    RunInv(w0, log[..p]);
    RunPlan(w0, log[..p]);
    hide Initial, Legal, Outcome, SamePlan, Inv;
    var w, e := Outcome(w0, log[..p]), log[p];
    SentFits(w, e);
    PlanFor(w0, w, w.clients[e.j].owner);
    SameClient(w0, w, e.j);
  }
}
