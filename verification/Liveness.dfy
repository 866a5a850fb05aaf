/** Which schedules can be run to the end: exactly those without a set of measurements that hold each other up. */
module Liveness {
  import opened Sequences
  import opened Schedule
  import opened Clients
  import opened Protocol
  import opened Runs
  import opened Progress
  import opened Staffing

  /** Each member repeats a depend, stops the program when started, or depends on a member: none can be first. */
  ghost predicate Blocked(tbl: Table, c: set<nat>) {
    && c != {}
    && forall m | m in c ::
         && m in tbl && tbl[m].status != Complete
         && (!NoDup(tbl[m].depends) || Panics(tbl[m]) || exists d :: d in tbl[m].depends && d in c)
  }

  ghost predicate Viable(tbl: Table) {
    forall c: set<nat> :: !Blocked(tbl, c)
  }

  /** What never changes about the schedule and the clients, and that a status never goes back. */
  ghost predicate SamePlan(w: World, w': World) {
    && w'.table.Keys == w.table.Keys
    && (forall k | k in w.table ::
          && (w.table[k].status == Complete ==> w'.table[k].status == Complete)
          && (w'.table[k].status == Waiting ==> w.table[k].status == Waiting)
          && w'.table[k].depends == w.table[k].depends
          && w'.table[k].hosts == w.table[k].hosts
          && w'.table[k].dur == w.table[k].dur
          && w'.table[k].fp == w.table[k].fp)
    && |w'.clients| == |w.clients|
    && forall i | 0 <= i < |w.clients| ::
         w'.clients[i].cls == w.clients[i].cls && w'.clients[i].isBg == w.clients[i].isBg
  }

  lemma StepPlan(w: World, e: Event)
    requires Enabled(w, e)
    ensures SamePlan(w, Apply(w, e))
  {
    hide Full, AllAt, Within, Fits, OwnedClasses, Pairs;
  }

  lemma {:induction false} RunPlan(w0: World, log: seq<Event>)
    requires Legal(w0, log)
    ensures SamePlan(w0, Outcome(w0, log))
    decreases |log|
  {
    if log != [] {
      RunPlan(w0, log[..|log| - 1]);
      StepPlan(Outcome(w0, log[..|log| - 1]), log[|log| - 1]);
    }
  }

  /** Clients keep their places and the schedule its entries. */
  lemma RunSize(w0: World, log: seq<Event>)
    requires Legal(w0, log)
    ensures |Outcome(w0, log).clients| == |w0.clients| && Outcome(w0, log).table.Keys == w0.table.Keys
  {
    RunPlan(w0, log);
  }

  lemma PlanFor(w0: World, w: World, m: nat)
    requires SamePlan(w0, w) && m in w.table
    ensures m in w0.table && w.table[m].hosts == w0.table[m].hosts && w.table[m].dur == w0.table[m].dur
    ensures w.table[m].fp == w0.table[m].fp && w.table[m].depends == w0.table[m].depends
    ensures Panics(w.table[m]) <==> Panics(w0.table[m])
  {
  }

  /** What is blocked now was blocked before: statuses only move on. */
  lemma BlockedBefore(w: World, w': World, c: set<nat>)
    requires SamePlan(w, w') && Blocked(w'.table, c)
    ensures Blocked(w.table, c)
  {
    hide Panics;
    forall m | m in c
      ensures m in w.table && w.table[m].status != Complete
      ensures !NoDup(w.table[m].depends) || Panics(w.table[m]) || exists d :: d in w.table[m].depends && d in c
    {
      PlanFor(w, w', m);
    }
  }

  lemma StaysViable(w0: World, log: seq<Event>)
    requires Legal(w0, log) && Viable(w0.table)
    ensures Viable(Outcome(w0, log).table)
  {
    hide Blocked;
    RunPlan(w0, log);
    forall c: set<nat> ensures !Blocked(Outcome(w0, log).table, c) {
      if Blocked(Outcome(w0, log).table, c) {
        BlockedBefore(w0, Outcome(w0, log), c);
      }
    }
  }

  lemma BlockedStep(w0: World, w: World, e: Event, c: set<nat>)
    requires Tracked(w.table) && Enabled(w, e) && SamePlan(w0, w) && Blocked(w0.table, c)
    requires forall m | m in c :: w.table[m].status == Waiting
    ensures forall m | m in c :: m in Apply(w, e).table && Apply(w, e).table[m].status == Waiting
  {
    hide Full, AllAt, Within, Fits, OwnedClasses, Pairs, Released, Panics;
    if e.Start? && e.m in c {
      PlanFor(w0, w, e.m);
      ReadyMeansDependsDone(w.table, e.m);
    }
  }

  /** A blocked set stays waiting, whatever happens. */
  lemma {:induction false} BlockedNeverStarts(w0: World, log: seq<Event>, c: set<nat>)
    requires Initial(w0) && Legal(w0, log) && Blocked(w0.table, c)
    ensures forall m | m in c :: m in Outcome(w0, log).table && Outcome(w0, log).table[m].status == Waiting
    decreases |log|
  {
    hide Panics;
    if log != [] {
      var front, e := log[..|log| - 1], log[|log| - 1];
      BlockedNeverStarts(w0, front, c);
      RunInv(w0, front);
      RunPlan(w0, front);
      BlockedStep(w0, Outcome(w0, front), e, c);
    }
  }

  /** Closed under depends, and without a blocked part. */
  ghost predicate Unblocked(tbl: Table, s: set<nat>) {
    && (forall k | k in s :: k in tbl && (tbl[k].status != Complete ==> forall d | d in tbl[k].depends :: d in s))
    && forall c: set<nat> | c <= s :: !Blocked(tbl, c)
  }

  /** With nothing of such a set running and something of it incomplete, something of it is ready and does not panic. */
  lemma SomethingReady(tbl: Table, s: set<nat>)
    requires Tracked(tbl) && Unblocked(tbl, s)
    requires forall k | k in s :: tbl[k].status != InProgress
    requires exists k :: k in s && tbl[k].status != Complete
    ensures exists k :: k in s && Ready(tbl[k]) && !Panics(tbl[k])
  {
    hide Panics;
    var c := set k | k in s && tbl[k].status == Waiting;
    var k0 :| k0 in s && tbl[k0].status != Complete;
    assert k0 in c;
    assert !Blocked(tbl, c);
    if forall k | k in s :: !Ready(tbl[k]) || Panics(tbl[k]) {
      forall m | m in c
        ensures !NoDup(tbl[m].depends) || Panics(tbl[m]) || exists d :: d in tbl[m].depends && d in c
      {
        ReadyMeansDependsDone(tbl, m);
        if NoDup(tbl[m].depends) && !Panics(tbl[m]) {
          var d :| d in tbl[m].depends && (d !in tbl || tbl[d].status != Complete);
          assert d in c;
        }
      }
    }
  }

  lemma ViableUnblocked(tbl: Table)
    requires Tracked(tbl) && Viable(tbl)
    ensures Unblocked(tbl, tbl.Keys)
  {
  }

  // ---- The same condition as an order

  /** The measurements still to be done. */
  ghost function Pending(tbl: Table): set<nat> {
    set k | k in tbl && tbl[k].status != Complete
  }

  ghost predicate PartlyOrdered(tbl: Table, order: seq<nat>) {
    forall i | 0 <= i < |order| ::
      && order[i] in Pending(tbl)
      && NoDup(tbl[order[i]].depends) && !Panics(tbl[order[i]])
      && forall d | d in tbl[order[i]].depends :: d in order[..i]
  }

  /** Every pending measurement is listed, repeats no depend, does not panic, and comes after all it depends on. */
  ghost predicate Ordered(tbl: Table, order: seq<nat>) {
    && (forall k | k in Pending(tbl) :: k in order)
    && PartlyOrdered(tbl, order)
  }

  lemma {:induction false} OrderAvoidsBlocked(tbl: Table, order: seq<nat>, c: set<nat>, n: nat)
    requires PartlyOrdered(tbl, order) && Blocked(tbl, c) && n <= |order|
    ensures forall i | 0 <= i < n :: order[i] !in c
  {
    if n > 0 {
      OrderAvoidsBlocked(tbl, order, c, n - 1);
      forall d | d in tbl[order[n - 1]].depends ensures d !in c {
        var i :| 0 <= i < n - 1 && order[i] == d;
      }
    }
  }

  /** Pending measurements depend on pending ones only, as just after a load. */
  ghost predicate DependsPending(tbl: Table) {
    forall k | k in Pending(tbl) :: forall d | d in tbl[k].depends :: d in Pending(tbl)
  }

  lemma {:induction false} ExtendOrder(tbl: Table, order: seq<nat>) returns (full: seq<nat>)
    requires Viable(tbl) && PartlyOrdered(tbl, order) && DependsPending(tbl)
    ensures Ordered(tbl, full)
    decreases Pending(tbl) - ToSet(order)
  {
    hide Panics;
    var rest := Pending(tbl) - ToSet(order);
    full := order;
    if k :| k in rest {
      assert !Blocked(tbl, rest);
      var m :| m in rest && NoDup(tbl[m].depends) && !Panics(tbl[m]) && forall d | d in tbl[m].depends :: d !in rest;
      var longer := order + [m];
      forall i | 0 <= i < |longer|
        ensures longer[i] in Pending(tbl) && NoDup(tbl[longer[i]].depends) && !Panics(tbl[longer[i]])
        ensures forall d | d in tbl[longer[i]].depends :: d in longer[..i]
      {
        if i < |order| {
          assert longer[..i] == order[..i];
        } else {
          assert longer[..i] == order;
        }
      }
      assert ToSet(longer) == ToSet(order) + {m};
      full := ExtendOrder(tbl, longer);
    } else {
      forall k | k in Pending(tbl) ensures k in order {
        assert k !in rest;
      }
    }
  }

  lemma OrderedViable(tbl: Table, order: seq<nat>)
    requires Ordered(tbl, order)
    ensures Viable(tbl)
  {
    hide PartlyOrdered;
    forall c: set<nat> ensures !Blocked(tbl, c) {
      if Blocked(tbl, c) {
        var m :| m in c;
        assert m in Pending(tbl);
        OrderAvoidsBlocked(tbl, order, c, |order|);
      }
    }
  }

  /** Being viable is having a topological order of what is pending, without repeated depends or panics. */
  lemma ViableIffOrdered(tbl: Table)
    requires DependsPending(tbl)
    ensures Viable(tbl) <==> exists order :: Ordered(tbl, order)
  {
    hide Viable, Ordered, DependsPending;
    if Viable(tbl) {
      var order := ExtendOrder(tbl, []);
    }
    if order :| Ordered(tbl, order) {
      OrderedViable(tbl, order);
    }
  }
}
