/** The coordinator's bookkeeping on values: known ids, deadlines, and what its passes leave behind. */
module Bookkeeping {
  import opened Sequences
  import opened Schedule
  import opened Clients
  import opened Staffing
  import opened Protocol
  import opened Runs
  import opened Progress
  import opened Heads
  import opened Passes
  import opened Polling
  import opened Liveness
  import opened Rounds
  import opened History
  import opened Looping

  /** The ids are distinct and, `x` aside, the running measurements. */
  ghost predicate Knows(ids: seq<nat>, w: World, x: nat) {
    && NoDup(ids)
    && (forall m :: m in ids ==> Running(w, m))
    && (forall m | Running(w, m) && m != x :: m in ids)
  }

  lemma KnownDistinct(ids: seq<nat>, w: World, x: nat)
    requires Knows(ids, w, x)
    ensures NoDup(ids)
  {
  }

  lemma KnowsGivenUp(ids: seq<nat>, ids2: seq<nat>, w: World, m: nat)
    requires Knows(ids, w, m) && Running(w, m)
    requires m !in ids ==> ids2 == ids
    requires forall i | 0 <= i < |ids| && ids[i] == m :: ids2 == SwapRemove(ids, i)
    ensures Knows(ids2, GivenUp(w, m), 0)
  {
    if m in ids {
      var i :| 0 <= i < |ids| && ids[i] == m;
      SwapRemoveElements(ids, i);
      assert ToSet(ids2) == ToSet(ids) - {m};
      assert forall k :: k in ids2 <==> k in ToSet(ids2);
    }
    forall k ensures k in ids2 <==> k in ids && k != m {}
  }

  lemma LinesEnabled(w: World, j: nat)
    requires j < |w.clients| && w.clients[j].state == Measuring
    ensures Enabled(w, Lines(j)) && Apply(w, Lines(j)) == w
  {
  }

  lemma KnowsKept(ids: seq<nat>, w: World, w': World, x: nat)
    requires Knows(ids, w, x)
    requires forall m :: Running(w', m) <==> Running(w, m)
    ensures Knows(ids, w', x)
  {
  }

  lemma HeadAfterReply(w: World, j: nat, ids: seq<nat>)
    requires Enabled(w, Good(j))
    requires AtHeadExcept(Apply(w, Good(j)), w.clients[j].owner)
    requires Paired(Apply(w, Good(j)), w.clients[j].owner)
    requires Knows(ids, w, 0)
    ensures AtHead(Apply(w, Good(j))) && Knows(ids, Apply(w, Good(j)), 0)
  {
    hide Paired;
    KnowsKept(ids, w, Apply(w, Good(j)), 0);
  }

  // ---- The failsafe sweep on values

  /**
   * What the sweep that started at `t0` and ended at `now` does to the known ids: it keeps only ids that
   * were due at `t0` or later, and completes exactly the others it dropped, all overdue by `now`.
   */
  ghost predicate Swept(ids0: seq<nat>, tbl0: Table, t0: nat, ids: seq<nat>, tbl: Table, now: nat) {
    && (forall m | m in ids ::
          m in ids0 && m in tbl0 && m in tbl && tbl[m].deadline == tbl0[m].deadline && tbl0[m].deadline >= t0)
    && (forall m | m in ids0 && m !in ids ::
          m in tbl0 && m in tbl && tbl0[m].deadline < now && tbl[m].status == Complete)
  }

  ghost predicate Sweeping(ids0: seq<nat>, tbl0: Table, t0: nat, ids: seq<nat>, i: nat, tbl: Table, now: nat) {
    && i <= |ids| && NoDup(ids)
    && (forall m | m in ids :: m in ids0 && m in tbl0 && m in tbl && tbl[m].deadline == tbl0[m].deadline)
    && (forall k | 0 <= k < i :: tbl0[ids[k]].deadline >= t0)
    && (forall m | m in ids0 && m !in ids ::
          m in tbl0 && m in tbl && tbl0[m].deadline < now && tbl[m].status == Complete)
  }

  lemma SweepStart(ids: seq<nat>, tbl: Table, t0: nat)
    requires NoDup(ids) && forall m | m in ids :: m in tbl
    ensures Sweeping(ids, tbl, t0, ids, 0, tbl, t0)
  {
  }

  lemma SweepLater(ids0: seq<nat>, tbl0: Table, t0: nat, ids: seq<nat>, i: nat, tbl: Table, now: nat, later: nat)
    requires Sweeping(ids0, tbl0, t0, ids, i, tbl, now) && now <= later
    ensures Sweeping(ids0, tbl0, t0, ids, i, tbl, later)
  {
  }

  lemma SweepKept(ids0: seq<nat>, tbl0: Table, t0: nat, ids: seq<nat>, i: nat, tbl: Table, now: nat)
    requires Sweeping(ids0, tbl0, t0, ids, i, tbl, now) && i < |ids| && t0 <= now
    requires ids[i] in tbl && now <= tbl[ids[i]].deadline
    ensures Sweeping(ids0, tbl0, t0, ids, i + 1, tbl, now)
  {
    assert ids[i] in ids;
  }

  lemma SweepFailed(ids0: seq<nat>, tbl0: Table, t0: nat, ids: seq<nat>, i: nat, tbl: Table, now: nat)
    requires Sweeping(ids0, tbl0, t0, ids, i, tbl, now) && i < |ids|
    requires ids[i] in tbl && now > tbl[ids[i]].deadline
    ensures Sweeping(ids0, tbl0, t0, SwapRemove(ids, i), i, Completed(tbl, ids[i]), now)
  {
    var rest, m0 := SwapRemove(ids, i), ids[i];
    assert m0 in ids;
    SwapRemoveElements(ids, i);
    forall m ensures m in rest <==> m in ids && m != m0 {
      assert m in ToSet(rest) <==> m in ToSet(ids) - {m0};
    }
    forall k | 0 <= k < i ensures rest[k] == ids[k] {
      assert rest[..i][k] == ids[..i][k];
    }
  }

  lemma SweepEnd(ids0: seq<nat>, tbl0: Table, t0: nat, ids: seq<nat>, i: nat, tbl: Table, now: nat)
    requires Sweeping(ids0, tbl0, t0, ids, i, tbl, now) && i == |ids|
    ensures Swept(ids0, tbl0, t0, ids, tbl, now)
  {
    forall m | m in ids ensures tbl0[m].deadline >= t0 {
      var k :| 0 <= k < |ids| && ids[k] == m;
    }
  }

  /** The loop over the known ids has seen exactly `visited`, and of what it kept each awaits a reply. */
  ghost predicate Visiting(ids0: seq<nat>, ids: seq<nat>, i: nat, visited: seq<nat>, w: World) {
    && i <= |ids| && NoDup(ids) && (forall m | m in ids :: m > 0)
    && NoDup(visited)
    && (forall k | 0 <= k < i :: Awaits(w, ids[k]) && ids[k] in visited)
    && (forall k | i <= k < |ids| :: ids[k] !in visited)
    && (forall m :: m in ids0 <==> m in visited || m in ids)
  }

  lemma VisitingStart(ids: seq<nat>, w: World)
    requires NoDup(ids) && forall m | m in ids :: m > 0
    ensures Visiting(ids, ids, 0, [], w)
  {
  }

  lemma VisitingKept(ids0: seq<nat>, ids: seq<nat>, i: nat, visited: seq<nat>, w: World, w': World)
    requires visited != [] && Visiting(ids0, ids, i, visited[..|visited| - 1], w)
    requires i < |ids| && visited[|visited| - 1] == ids[i]
    requires Awaits(w', ids[i]) && OthersAwait(w, w', ids[i])
    ensures Visiting(ids0, ids, i + 1, visited, w')
  {
    hide Awaits;
    var v := visited[..|visited| - 1];
    assert visited == v + [ids[i]];
    forall k | 0 <= k < i ensures Awaits(w', ids[k]) {
      assert ids[k] != ids[i] && ids[k] in ids;
    }
  }

  lemma VisitingRemoved(ids0: seq<nat>, ids: seq<nat>, i: nat, visited: seq<nat>, w: World, w': World)
    requires visited != [] && Visiting(ids0, ids, i, visited[..|visited| - 1], w)
    requires i < |ids| && visited[|visited| - 1] == ids[i]
    requires OthersAwait(w, w', ids[i])
    ensures Visiting(ids0, SwapRemove(ids, i), i, visited, w')
  {
    hide Awaits;
    var v, rest := visited[..|visited| - 1], SwapRemove(ids, i);
    assert visited == v + [ids[i]];
    SwapRemoveElements(ids, i);
    forall m ensures m in ids <==> m in rest || m == ids[i] {
      assert m in ToSet(rest) <==> m in ToSet(ids) - {ids[i]};
    }
    forall k | 0 <= k < i ensures Awaits(w', rest[k]) && rest[k] in visited {
      assert rest[..i][k] == ids[..i][k];
      assert ids[k] != ids[i] && ids[k] in ids;
    }
    forall k | i <= k < |rest| ensures rest[k] !in visited {
      if k == i {
        assert rest[k] == ids[|ids| - 1];
      } else {
        assert rest[k] == ids[k];
      }
    }
  }

  lemma VisitingEnd(ids0: seq<nat>, ids: seq<nat>, i: nat, visited: seq<nat>, w: World)
    requires Visiting(ids0, ids, i, visited, w) && i == |ids|
    ensures forall m | m in ids :: Awaits(w, m)
    ensures NoDup(visited) && forall m :: m in visited <==> m in ids0
  {
    forall m | m in ids ensures Awaits(w, m) && m in visited {
      var k :| 0 <= k < |ids| && ids[k] == m;
    }
  }

  /** How one turn of the loop over the known ids ends. */
  datatype Turn = Kept | Removed | Aborted

  lemma OthersAwaitSame(w: World, m: nat)
    ensures OthersAwait(w, w, m)
  {
  }

  lemma AdvancedAt(w: World, m: nat, j: nat)
    requires j < |w.clients|
    ensures |Advanced(w, m, j).clients| == |w.clients| && Advanced(w, m, j).clients[j] == w.clients[j]
    ensures Advanced(w, m, j).table == w.table
  {
  }

  lemma OthersAwaitAlso(w: World, w1: World, w2: World, m: nat)
    requires w1.clients == w.clients && OthersAwait(w1, w2, m)
    ensures OthersAwait(w, w2, m)
  {
    forall k | k != m && k > 0 && Awaits(w, k) ensures Awaits(w2, k) {
      var j :| 0 <= j < |w.clients| && w.clients[j].owner == k && Stage(w.clients[j].state) in {2, 4, 6, 8};
      assert w1.clients[j].owner == k;
      assert Awaits(w1, k);
    }
  }

  /** What resetting the deadline does to the bookkeeping around the world. */
  lemma ExtendFacts(w: World, ids: seq<nat>, m: nat, before: nat, now: nat)
    requires Inv(w) && Knows(ids, w, m) && DueSoon(w.table, before) && before <= now
    requires Running(w, m) && w.table[m].hosts != [] && Full(w, m) && AllAt(w.clients, m, 7) && m !in w.extended
    ensures Enabled(w, Extend(m, now))
    ensures Knows(ids, Apply(w, Extend(m, now)), m)
    ensures DueSoon(Apply(w, Extend(m, now)).table, now)
    ensures var w1 := Apply(w, Extend(m, now));
      Running(w1, m) && Full(w1, m) && AllAt(w1.clients, m, 7) && w1.table[m].hosts == w.table[m].hosts &&
      w1.table[m].dur == w.table[m].dur
  {
    hide Inv;
    KnowsKept(ids, w, Apply(w, Extend(m, now)), m);
  }

  lemma RunningId(w: World, m: nat)
    requires Inv(w) && Running(w, m)
    ensures m > 0 && w.table[m].id == m && ClientsOk(w.clients)
  {
  }

  /** What the loop invariant says about one known id. */
  lemma KnownAtHead(w: World, ids: seq<nat>, m: nat)
    requires Inv(w) && AtHead(w) && Knows(ids, w, 0) && m in ids
    ensures Running(w, m) && Paired(w, m) && AtHeadExcept(w, m) && Knows(ids, w, m)
    ensures m > 0 && w.table[m].hosts != [] && w.table[m].dur > 0 && Full(w, m)
  {
    RunningId(w, m);
    TableIds(w.table);
  }

  /** A pass over a measurement that owns clients changes the world. */
  lemma NothingStays(w: World, m: nat, s: nat)
    requires Running(w, m) && Full(w, m) && w.table[m].hosts != [] && AllAt(w.clients, m, s) && 1 <= s <= 8
    ensures Advanced(w, m, |w.clients|) != w
  {
    var j := OwnsSomeone(w, m);
    assert Advanced(w, m, |w.clients|).clients[j].state != w.clients[j].state;
  }

  lemma TakenSize(cs: seq<Client>, hosts: seq<Host>, m: nat, j: nat, used: seq<bool>)
    requires Taken(cs, hosts, m, j, used)
    ensures |used| == |hosts|
  {
  }

  lemma MessageFits(w: World, m: nat, j: nat, k: nat, setBw: bool)
    requires Running(w, m) && j < |w.clients| && w.clients[j].owner == m
    requires AllAt(w.clients, m, if setBw then 5 else 3)
    requires Pairs(w.clients, w.table[m].hosts, j, k)
    ensures k < |w.table[m].hosts| && w.table[m].hosts[k].cls == w.clients[j].cls
    ensures setBw ==>
              && w.clients[j].state == ConnectedTarget
              && Fits(w, j, k, ResetRate(w.table[m].hosts[k].bw, if w.clients[j].isBg then 1 else 32))
    ensures !setBw ==>
              && w.clients[j].state == Authed
              && Fits(w, j, k, TestSpeed(w.table[m].fp, w.table[m].hosts[k].conns, w.clients[j].isBg))
  {
  }

  lemma InvTracked(w: World)
    requires Inv(w)
    ensures Tracked(w.table)
  {
  }

  lemma DueSoonLater(tbl: Table, now: nat, later: nat)
    requires DueSoon(tbl, now) && now <= later
    ensures DueSoon(tbl, later)
  {
  }

  /** What starting a measurement does to the bookkeeping around the world. */
  lemma StartFacts(w: World, ids: seq<nat>, id: nat, now: nat)
    requires Inv(w) && AtHead(w) && Knows(ids, w, 0) && DueSoon(w.table, now) && id in w.table && Ready(w.table[id])
    requires !Panics(w.table[id])
    ensures Enabled(w, Start(id, now)) && AtHeadExcept(w, id) && id > 0
    ensures Knows(ids, Apply(w, Start(id, now)), id) && id !in ids
    ensures DueSoon(Apply(w, Start(id, now)).table, now)
    ensures OwnedClasses(w.clients, id) == []
    ensures id !in w.extended
  {
    hide Tracked, FullBeforeAuth, DistinctFds, Adjacent, Manned, ClientsOk, Paired, Panics;
    TableIds(w.table);
    OwnedNone(w.clients, id);
    forall j | 0 <= j < |w.clients| ensures w.clients[j].owner != id {
      assert w.clients[j].owner != 0 ==> Running(w, w.clients[j].owner);
    }
    forall m | Running(Apply(w, Start(id, now)), m) && m != id ensures m in ids {
      assert Running(w, m) && m != 0;
    }
  }

  lemma RoomForOne(w: World, ids: seq<nat>, id: nat)
    requires Inv(w) && Knows(ids, w, id) && AtHeadExcept(w, id) && id !in ids
    requires Running(w, id) && Full(w, id) && w.table[id].hosts != []
    ensures |ids| + 1 <= |w.clients|
  {
    hide Inv;
    assert NoDup(ids + [id]);
    forall m | m in ids + [id] ensures Running(w, m) && Full(w, m) && w.table[m].hosts != [] {
      assert m != id ==> m in ids;
    }
    RunningAtMostClients(w, ids + [id]);
  }

  lemma KnowsAppend(ids: seq<nat>, w: World, id: nat)
    requires Knows(ids, w, id) && id !in ids && Running(w, id)
    ensures Knows(ids + [id], w, id)
  {
  }

  /** From `w` all clients of `m` have been connected and sent the authentication, and nothing else has happened. */
  ghost predicate Authenticates(w: World, m: nat, v: World) {
    && m in w.table && v.table == w.table
    && Full(v, m) && AllAt(v.clients, m, 2)
    && GivenUp(v, m) == GivenUp(w, m)
  }

  /**
   * What becomes of a measurement that is started: it is up, it has no duration or no hosts, too few clients
   * accepted a connection, or an authentication could not be sent.
   */
  datatype Fate = Up | Unusable | Short(refused: set<int>) | Unsent

  /** The fate of `m` fits the clients there were: when they are short, those in `refused` were unused. */
  ghost predicate Explains(fate: Fate, cs: seq<Client>, m: Measurement) {
    match fate
    case Up => Usable(m) && !Lacking(cs, {}, m.hosts)
    case Unusable => !Usable(m)
    case Short(refused) =>
      Usable(m) && Lacking(cs, refused, m.hosts) && forall i | i in refused :: 0 <= i < |cs| && cs[i].owner == 0
    case Unsent => Usable(m) && !Lacking(cs, {}, m.hosts)
  }

  /**
   * When no connection is refused, a usable measurement is short of clients exactly when some class has fewer
   * unused clients than host entries: one whose clients are busy is failed, not postponed.
   */
  lemma ShortWhenBusy(fate: Fate, cs: seq<Client>, m: Measurement)
    requires Explains(fate, cs, m) && (fate.Short? ==> fate.refused == {})
    ensures fate.Short? <==> Usable(m) && Lacking(cs, {}, m.hosts)
    ensures fate.Short? <==> m.dur > 0 && exists cls :: UnusedOf(cs, {}, cls) < EntriesOf(m.hosts, cls)
  {
    LackingIff(cs, {}, m.hosts);
    if m.hosts == [] {
      forall cls ensures EntriesOf(m.hosts, cls) == 0 {
        EntriesCounted(m.hosts, cls);
        assert Classes(m.hosts) == [];
      }
    }
  }

  /** Measurement `m` was started and is known and authenticating, or was started and given up at once. */
  ghost predicate BroughtUp(w: World, ids: seq<nat>, m: nat, now: nat, fate: Fate, v: World, ids2: seq<nat>) {
    && Enabled(w, Start(m, now))
    && Explains(fate, w.clients, w.table[m])
    && var s := Apply(w, Start(m, now));
       if fate.Up? then ids2 == ids + [m] && Authenticates(s, m, v) else ids2 == ids && v == GivenUp(s, m)
  }

  lemma SameMeasurement(fate: Fate, w: World, m: nat, now: nat)
    requires Enabled(w, Start(m, now)) && Explains(fate, w.clients, Apply(w, Start(m, now)).table[m])
    ensures Explains(fate, w.clients, w.table[m])
  {
    hide Lacking, Panics;
  }

  /** Whoever works for `m` now was unused before, and everyone else is as before. */
  lemma JoinedFrom(w: World, v: World, m: nat)
    requires m > 0 && m in w.table && m in v.table && GivenUp(v, m) == GivenUp(w, m)
    requires ClientsOk(w.clients) && OwnedClasses(w.clients, m) == []
    ensures |v.clients| == |w.clients|
    ensures forall i | 0 <= i < |w.clients| :: v.clients[i].cls == w.clients[i].cls
    ensures forall i | 0 <= i < |w.clients| :: v.clients[i].owner != m ==> v.clients[i] == w.clients[i]
    ensures forall i | 0 <= i < |w.clients| :: v.clients[i].owner == m ==> w.clients[i].owner == 0
  {
    OwnedNone(w.clients, m);
    assert GivenUp(v, m).clients == GivenUp(w, m).clients;
    forall i | 0 <= i < |w.clients|
      ensures v.clients[i].cls == w.clients[i].cls
      ensures v.clients[i].owner != m ==> v.clients[i] == w.clients[i]
      ensures v.clients[i].owner == m ==> w.clients[i].owner == 0
    {
      assert GivenUp(v, m).clients[i] == GivenUp(w, m).clients[i];
    }
  }

  /** Clients for a prefix of the host list are too few of the class that comes next. */
  lemma PrefixLacks(owned: seq<string>, hosts: seq<Host>, n: nat)
    requires n < |hosts| && multiset(owned) == multiset(Classes(hosts)[..n])
    ensures multiset(owned)[hosts[n].cls] < multiset(Classes(hosts))[hosts[n].cls]
  {
    var cls := hosts[n].cls;
    HostRankStep(hosts, n, cls);
    HostRankMonotone(hosts, n + 1, |hosts|, cls);
    assert Classes(hosts)[..|hosts|] == Classes(hosts);
  }

  /** The entry at index `n` found no client: all unused ones of its class are in `refused`. */
  lemma FoundLacking(w: World, v: World, m: nat, n: nat, refused: set<int>)
    requires Inv(w) && Inv(v) && Running(w, m) && Running(v, m) && v.table == w.table
    requires GivenUp(v, m) == GivenUp(w, m) && OwnedClasses(w.clients, m) == []
    requires n == |OwnedClasses(v.clients, m)| && n < |w.table[m].hosts|
    requires forall i :: i in refused <==>
               0 <= i < |v.clients| && v.clients[i].cls == w.table[m].hosts[n].cls && v.clients[i].owner == 0
    ensures Lacking(w.clients, refused, w.table[m].hosts)
    ensures forall i | i in refused :: 0 <= i < |w.clients| && w.clients[i].owner == 0
  {
    hide OwnedClasses, Spare, GivenUp, Classes, Tracked, FullBeforeAuth, DistinctFds, ExtendedLate, Adjacent, OwnersRun;
    var hosts := w.table[m].hosts;
    RunningId(w, m);
    JoinedFrom(w, v, m);
    PrefixLacks(OwnedClasses(v.clients, m), hosts, n);
    hide Inv, ClientsOk, Manned;
    SpareAtMost(w.clients, v.clients, refused, m, hosts[n].cls);
  }

  lemma FoundEnough(w: World, v: World, m: nat)
    requires Inv(w) && Inv(v) && Running(w, m) && Running(v, m) && v.table == w.table && Full(v, m)
    requires GivenUp(v, m) == GivenUp(w, m) && OwnedClasses(w.clients, m) == []
    ensures !Lacking(w.clients, {}, w.table[m].hosts)
  {
    RunningId(w, m);
    JoinedFrom(w, v, m);
    FullStaffed(v, m);
    hide Inv, OwnedClasses, Spare, GivenUp;
    forall cls ensures multiset(Spare(w.clients, {}))[cls] >= multiset(Classes(w.table[m].hosts))[cls] {
      OwnedWasSpare(w.clients, v.clients, m, cls);
    }
  }

  /** What was done for the clients of `m` half-way through a pass is undone by giving it up. */
  lemma AdvancedUndone(w: World, m: nat, n: nat)
    requires m in w.table
    ensures GivenUp(Advanced(w, m, n), m) == GivenUp(w, m)
  {
    assert Released(Advanced(w, m, n).clients, m) == Released(w.clients, m);
  }

  lemma AdvancedTable(w: World, m: nat, n: nat)
    ensures Advanced(w, m, n).table == w.table
  {
  }

  lemma FullLater(w: World, m: nat, n: nat)
    requires Running(w, m) && Full(w, m)
    ensures Full(Advanced(w, m, n), m)
  {
    OwnedSame(w.clients, Advanced(w, m, n).clients, m);
  }

  /** So is connecting a client that was unused. */
  lemma ConnectUndone(w: World, j: nat, m: nat, fd: int)
    requires Enabled(w, Connect(j, m, fd)) && ClientsOk(w.clients) && m > 0
    ensures GivenUp(Apply(w, Connect(j, m, fd)), m) == GivenUp(w, m)
  {
    var v := Apply(w, Connect(j, m, fd));
    assert v.clients[j] == w.clients[j].(fd := fd, state := Connected, owner := m);
    assert Released(v.clients, m) == Released(w.clients, m);
  }

  /** The pass over `m` is over: its clients are paired again. */
  lemma HeadAgain(w: World, w': World, ids: seq<nat>, m: nat)
    requires w' == Advanced(w, m, |w.clients|)
    requires AtHeadExcept(w', m) && Running(w', m) && Paired(w', m) && Knows(ids, w', m) && m in ids
    ensures AtHead(w') && Knows(ids, w', 0)
  {
  }

  lemma AdvancedStart(w: World, m: nat)
    ensures Advanced(w, m, 0) == w
  {
    assert Advanced(w, m, 0).clients == w.clients;
  }

  lemma ConnectStep(w: World, j: nat, m: nat, fd: int)
    requires Inv(w) && Running(w, m) && w.table[m].dur > 0 && j < |w.clients| && w.clients[j].owner == 0
    requires fd >= 0 && forall i | 0 <= i < |w.clients| :: w.clients[i].fd != fd
    requires |OwnedClasses(w.clients, m)| < |w.table[m].hosts|
    requires w.clients[j].cls == w.table[m].hosts[|OwnedClasses(w.clients, m)|].cls
    requires AllAt(w.clients, m, 1)
    ensures Enabled(w, Connect(j, m, fd))
    ensures |OwnedClasses(Apply(w, Connect(j, m, fd)).clients, m)| == |OwnedClasses(w.clients, m)| + 1
    ensures AllAt(Apply(w, Connect(j, m, fd)).clients, m, 1)
  {
    RunningId(w, m);
    hide Inv;
    var e := Connect(j, m, fd);
    OwnedAdd(w.clients, j, Apply(w, e).clients[j], m);
  }

  lemma DueSoonGivenUp(tbl: Table, m: nat, clock: nat)
    requires DueSoon(tbl, clock) && m in tbl
    ensures DueSoon(Completed(tbl, m), clock)
  {
  }

  // ---- Where an iteration is

  /** The passes go on: nothing is being brought up, or what is has just been sent the authentication. */
  ghost predicate InPasses(p: Place, w: World) {
    p == Passing || (p.BringingUp? && Running(w, p.m) && Full(w, p.m) && AllAt(w.clients, p.m, 2))
  }

  /** Replies are being read, or can be. */
  ghost predicate Hears(p: Place, w: World) {
    p == Replying || (p != Over && AllAwait(w))
  }

  lemma PassesOpen(p: Place, w: World)
    requires InPasses(p, w)
    ensures Open(p, w) && p != Over && (AllAwait(w) ==> Hears(p, w))
  {
  }

  lemma PassesAgain(w: World)
    ensures InPasses(Passing, w) && Open(Passing, w)
  {
  }

  lemma JustUp(w: World, m: nat)
    requires Running(w, m) && Full(w, m) && AllAt(w.clients, m, 2)
    ensures InPasses(BringingUp(m), w)
  {
  }

  lemma HearsSettled(p: Place, w: World)
    requires Hears(p, w) || p == Over
    ensures Settled(p, w)
  {
  }

  lemma StartPlace(p: Place, w: World, m: nat, now: nat)
    requires AtHead(w) && Settled(p, w)
    ensures Allowed(p, w, Start(m, now)) && NextPlace(p, Start(m, now)) == BringingUp(m)
    ensures Allowed(p, w, NoneReady) && NextPlace(p, NoneReady) == Passing
  {
  }

  lemma NoneLeft(w: World)
    requires NoReady(w)
    ensures Enabled(w, NoneReady) && Apply(w, NoneReady) == w
  {
  }

  lemma ConnectPlace(w: World, j: nat, m: nat, fd: int)
    ensures Allowed(BringingUp(m), w, Connect(j, m, fd))
    ensures NextPlace(BringingUp(m), Connect(j, m, fd)) == BringingUp(m)
  {
  }

  lemma AuthPlace(w: World, j: nat, m: nat)
    requires j < |w.clients| && w.clients[j].owner == m
    ensures Allowed(BringingUp(m), w, Send(j, 0, Authenticate))
    ensures NextPlace(BringingUp(m), Send(j, 0, Authenticate)) == BringingUp(m)
  {
  }

  lemma SendPlace(p: Place, w: World, j: nat, host: nat, msg: Message)
    requires Open(p, w) && !msg.Authenticate?
    ensures Allowed(p, w, Send(j, host, msg)) && NextPlace(p, Send(j, host, msg)) == Passing
  {
  }

  lemma PassPlace(p: Place, w: World, m: nat, now: nat)
    requires Open(p, w)
    ensures Allowed(p, w, Extend(m, now)) && NextPlace(p, Extend(m, now)) == Passing
    ensures Allowed(p, w, Finish(m)) && NextPlace(p, Finish(m)) == Passing
  {
  }

  lemma HearPlace(p: Place, w: World, j: nat)
    requires AtHead(w) && Hears(p, w)
    ensures Allowed(p, w, Good(j)) && NextPlace(p, Good(j)) == Replying
    ensures Allowed(p, w, Lines(j)) && NextPlace(p, Lines(j)) == Replying
  {
  }

  lemma FailPlace(p: Place, w: World, m: nat)
    ensures Allowed(p, w, Fail(m))
    ensures NextPlace(BringingUp(m), Fail(m)) == Passing
  {
  }

  lemma FailsOtherwise(m: nat)
    ensures NextPlace(Passing, Fail(m)) == Over
  {
  }

  lemma RepliesOn(w: World)
    ensures Hears(Replying, w)
  {
  }

  /** A failure keeps an iteration that could be over so. */
  lemma SettledGivenUp(p: Place, w: World, m: nat)
    requires Inv(w) && Running(w, m) && Settled(p, w)
    ensures Settled(NextPlace(p, Fail(m)), GivenUp(w, m))
  {
    RunningId(w, m);
    GivenUpOthersAwait(w, m);
    TableIds(w.table);
    hide Inv, Awaits;
    if AllAwait(w) {
      forall k | Running(GivenUp(w, m), k) ensures Awaits(GivenUp(w, m), k) {
        assert Running(w, k) && k != m && k > 0;
      }
    }
  }

  /** A measurement that is due for a pass is not the one just brought up, so its failure ends the iteration. */
  lemma FailsInPass(p: Place, w: World, m: nat, s: nat)
    requires InPasses(p, w) && Running(w, m) && Full(w, m) && w.table[m].hosts != [] && AllAt(w.clients, m, s) && s != 2
    ensures NextPlace(p, Fail(m)) == Over
  {
    var j := OwnsSomeone(w, m);
  }

  lemma AllKnownAwait(ids: seq<nat>, w: World)
    requires Inv(w) && Knows(ids, w, 0) && forall m | m in ids :: Awaits(w, m)
    ensures AllAwait(w)
  {
    TableIds(w.table);
  }

  // ---- Replies

  /** The client has taken the step its good reply stands for, or it has reported and goes on measuring. */
  ghost predicate Answered(c: Client, d: Client) {
    d == c.(state := Next(c.state)) || (c.state == Measuring && d == c)
  }
}
