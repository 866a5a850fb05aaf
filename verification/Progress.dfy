/**
 * A rank on worlds that every event drops, except the arrival of result lines and the one deadline reset.
 */
module Progress {
  import opened Sequences
  import opened Schedule
  import opened Clients
  import opened Staffing
  import opened Protocol
  import opened Runs

  /** What is left to do for a measurement before any of its clients has taken a step. */
  ghost function Base(m: Measurement): nat {
    match m.status
    case Waiting => 10 * |m.hosts| + 2
    case InProgress => 10 * |m.hosts| + 1
    case Complete => 0
  }

  ghost function SumBase(tbl: Table, ks: set<nat>): nat
    requires ks <= tbl.Keys
    decreases ks
  {
    if ks == {} then 0 else
      var k :| k in ks;
      Base(tbl[k]) + SumBase(tbl, ks - {k})
  }

  lemma {:induction false} SumBasePick(tbl: Table, ks: set<nat>, k: nat)
    requires k in ks && ks <= tbl.Keys
    ensures SumBase(tbl, ks) == Base(tbl[k]) + SumBase(tbl, ks - {k})
    decreases ks
  {
    var p :| p in ks && SumBase(tbl, ks) == Base(tbl[p]) + SumBase(tbl, ks - {p});
    if p != k {
      SumBasePick(tbl, ks - {p}, k);
      SumBasePick(tbl, ks - {k}, p);
      assert ks - {p} - {k} == ks - {k} - {p};
    }
  }

  lemma {:induction false} SumBaseSame(tbl: Table, tbl2: Table, ks: set<nat>)
    requires ks <= tbl.Keys && ks <= tbl2.Keys
    requires forall k | k in ks :: Base(tbl[k]) == Base(tbl2[k])
    ensures SumBase(tbl, ks) == SumBase(tbl2, ks)
    decreases ks
  {
    if ks != {} {
      var k :| k in ks;
      SumBasePick(tbl, ks, k);
      SumBasePick(tbl2, ks, k);
      SumBaseSame(tbl, tbl2, ks - {k});
    }
  }

  /** Changing one entry changes the sum by the difference of its base. */
  lemma SumBaseChange(tbl: Table, tbl2: Table, m: nat)
    requires tbl2.Keys == tbl.Keys && m in tbl
    requires forall k | k in tbl && k != m :: Base(tbl2[k]) == Base(tbl[k])
    ensures SumBase(tbl2, tbl2.Keys) - SumBase(tbl, tbl.Keys) == Base(tbl2[m]) - Base(tbl[m])
  {
    SumBasePick(tbl, tbl.Keys, m);
    SumBasePick(tbl2, tbl2.Keys, m);
    SumBaseSame(tbl, tbl2, tbl.Keys - {m});
  }

  ghost function SumStage(cs: seq<Client>): nat {
    if cs == [] then 0 else SumStage(cs[..|cs| - 1]) + Stage(cs[|cs| - 1].state)
  }

  lemma {:induction false} SumStageChange(cs: seq<Client>, j: nat, c: Client)
    requires j < |cs|
    ensures SumStage(cs[j := c]) == SumStage(cs) - Stage(cs[j].state) + Stage(c.state)
  {
    var n := |cs| - 1;
    if j == n {
      assert cs[j := c][..n] == cs[..n];
    } else {
      SumStageChange(cs[..n], j, c);
      assert cs[j := c][..n] == cs[..n][j := c];
    }
  }

  /** Giving up the clients of `m` lowers the sum by at most 9 for each of them. */
  lemma {:induction false} SumStageReleased(cs: seq<Client>, m: nat)
    requires forall i | 0 <= i < |cs| :: cs[i].state != Failed
    ensures SumStage(cs) <= SumStage(Released(cs, m)) + 9 * |OwnedClasses(cs, m)|
  {
    if cs != [] {
      var n := |cs| - 1;
      SumStageReleased(cs[..n], m);
      assert Released(cs, m)[..n] == Released(cs[..n], m);
    }
  }

  ghost function Rank(w: World): int {
    SumBase(w.table, w.table.Keys) - SumStage(w.clients)
  }

  lemma ReleasedStays(cs: seq<Client>, m: nat, ks: set<nat>)
    requires forall i | 0 <= i < |cs| :: cs[i].state != Failed && (cs[i].owner == 0 ==> cs[i].state == Invalid)
    requires forall i | 0 <= i < |cs| && cs[i].owner != 0 :: cs[i].owner in ks
    ensures var ds := Released(cs, m);
      && (forall i | 0 <= i < |ds| :: ds[i].state != Failed && (ds[i].owner == 0 ==> ds[i].state == Invalid))
      && (forall i | 0 <= i < |ds| && ds[i].owner != 0 :: ds[i].owner in ks - {m})
  {
  }

  lemma {:induction false} AllUnused(cs: seq<Client>)
    requires forall i | 0 <= i < |cs| :: cs[i].state == Invalid
    ensures SumStage(cs) == 0
  {
    if cs != [] {
      AllUnused(cs[..|cs| - 1]);
    }
  }

  lemma {:induction false} StageBound(cs: seq<Client>, tbl: Table, ks: set<nat>)
    requires ks <= tbl.Keys && 0 !in ks
    requires forall i | 0 <= i < |cs| :: cs[i].state != Failed && (cs[i].owner == 0 ==> cs[i].state == Invalid)
    requires forall i | 0 <= i < |cs| && cs[i].owner != 0 :: cs[i].owner in ks
    requires forall k | k in ks :: 10 * |OwnedClasses(cs, k)| <= Base(tbl[k])
    ensures SumStage(cs) <= SumBase(tbl, ks)
    decreases ks
  {
    if ks == {} {
      AllUnused(cs);
    } else {
      hide Released, OwnedClasses, Base;
      var m :| m in ks;
      var ds := Released(cs, m);
      SumStageReleased(cs, m);
      SumBasePick(tbl, ks, m);
      ReleasedStays(cs, m, ks);
      forall k | k in ks - {m} ensures OwnedClasses(ds, k) == OwnedClasses(cs, k) {
        ReleasedOwners(cs, m, k);
      }
      StageBound(ds, tbl, ks - {m});
    }
  }

  lemma SumBaseSubset(tbl: Table, ks: set<nat>)
    requires ks <= tbl.Keys
    ensures SumBase(tbl, ks) <= SumBase(tbl, tbl.Keys)
    decreases tbl.Keys - ks
  {
    if forall k | k in tbl :: k in ks {
      assert ks == tbl.Keys;
    } else {
      var k :| k in tbl && k !in ks;
      SumBasePick(tbl, ks + {k}, k);
      assert ks + {k} - {k} == ks;
      SumBaseSubset(tbl, ks + {k});
    }
  }

  lemma TableIds(tbl: Table)
    requires Tracked(tbl)
    ensures 0 !in tbl
  {
  }

  lemma RankNonNegative(w: World)
    requires Inv(w)
    ensures Rank(w) >= 0
  {
    hide Tracked, FullBeforeAuth, DistinctFds, ExtendedLate, Adjacent;
    var ks := set k | k in w.table && w.table[k].status == InProgress;
    TableIds(w.table);
    forall k | k in ks ensures 10 * |OwnedClasses(w.clients, k)| <= Base(w.table[k]) {
      assert Running(w, k);
    }
    StageBound(w.clients, w.table, ks);
    SumBaseSubset(w.table, ks);
  }

  ghost predicate Steps(e: Event) {
    !e.Lines? && !e.Extend? && !e.NoneReady?
  }

  lemma GivenUpRank(w: World, m: nat)
    requires Inv(w) && Running(w, m)
    ensures Rank(GivenUp(w, m)) < Rank(w)
  {
    hide Tracked, FullBeforeAuth, DistinctFds, ExtendedLate, Adjacent;
    SumBaseChange(w.table, Completed(w.table, m), m);
    SumStageReleased(w.clients, m);
  }

  lemma TableRank(w: World, e: Event)
    requires Enabled(w, e) && (e.Start? || e.Extend?)
    ensures Rank(Apply(w, e)) == Rank(w) - if e.Start? then 1 else 0
  {
    hide Full, AllAt;
    SumBaseChange(w.table, Apply(w, e).table, e.m);
  }

  lemma HandshakeRank(w: World, e: Event)
    requires ClientsOk(w.clients) && Enabled(w, e) && (e.Connect? || e.Send? || e.Good?)
    ensures Rank(Apply(w, e)) == Rank(w) - 1
  {
    hide Full, AllAt, Within, Pairs, SumBase, OwnedClasses;
    var w' := Apply(w, e);
    assert Stage(w'.clients[e.j].state) == Stage(w.clients[e.j].state) + 1;
    SumStageChange(w.clients, e.j, w'.clients[e.j]);
  }

  /** Every event lowers the rank, except the two that change nothing and a deadline reset, which keeps it. */
  lemma StepRank(w: World, e: Event)
    requires Inv(w) && Enabled(w, e)
    ensures Steps(e) ==> Rank(Apply(w, e)) < Rank(w)
    ensures e.Extend? ==> Rank(Apply(w, e)) == Rank(w)
    ensures e.Lines? || e.NoneReady? ==> Apply(w, e) == w
  {
    hide Tracked, FullBeforeAuth, DistinctFds, ExtendedLate, Adjacent, Manned, OwnersRun, ClientsOk, Rank;
    hide Full, AllAt, Within, Fits;
    match e
    case Start(_, _) => TableRank(w, e);
    case Connect(_, _, _) => HandshakeRank(w, e);
    case Send(_, _, _) => HandshakeRank(w, e);
    case Good(_) => HandshakeRank(w, e);
    case Lines(_) =>
    case NoneReady =>
    case Extend(_, _) => TableRank(w, e);
    case Finish(m) => GivenUpRank(w, m);
    case Fail(m) => GivenUpRank(w, m);
  }

  ghost function StepCount(log: seq<Event>): nat {
    if log == [] then 0 else StepCount(log[..|log| - 1]) + if Steps(log[|log| - 1]) then 1 else 0
  }

  /**
   * Whatever the sockets, replies and clock do, and even for a schedule that can never finish, a run takes
   * at most as many steps as the initial rank: two for every measurement and ten for every host entry.
   */
  lemma {:induction false} StepBudget(w0: World, log: seq<Event>)
    requires Initial(w0) && Legal(w0, log)
    ensures StepCount(log) + Rank(Outcome(w0, log)) <= Rank(w0)
    ensures StepCount(log) <= Rank(w0)
    decreases |log|
  {
    RunInv(w0, log);
    RankNonNegative(Outcome(w0, log));
    if log != [] {
      var front := log[..|log| - 1];
      StepBudget(w0, front);
      RunInv(w0, front);
      StepRank(Outcome(w0, front), log[|log| - 1]);
    }
  }

  lemma InitialRank(w0: World)
    requires Initial(w0)
    ensures Rank(w0) == SumBase(w0.table, w0.table.Keys)
    ensures forall k | k in w0.table ::
              Base(w0.table[k]) == if w0.table[k].status == Waiting then 10 * |w0.table[k].hosts| + 2 else 0
  {
    AllUnused(w0.clients);
  }
}
