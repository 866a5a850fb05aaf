/**
 * Worlds between the coordinator's passes: what holds whenever no measurement is half-way through a
 * pass, and what one pass over one measurement leaves alone.
 */
module Heads {
  import opened Sequences
  import opened Schedule
  import opened Clients
  import opened Staffing
  import opened Protocol

  /**
   * The measurement is fully connected and its clients sit in one phase pair: {authing, authed},
   * {told, connected}, {setting, set} or {measuring, done}.
   */
  ghost predicate Paired(w: World, m: nat)
    requires m in w.table
  {
    && w.table[m].dur > 0 && w.table[m].hosts != []
    && Full(w, m)
    && (forall i | 0 <= i < |w.clients| && w.clients[i].owner == m :: Stage(w.clients[i].state) >= 2)
    && (forall i, j |
          0 <= i < |w.clients| && 0 <= j < |w.clients| && w.clients[i].owner == m && w.clients[j].owner == m ::
          Stage(w.clients[i].state) / 2 == Stage(w.clients[j].state) / 2)
    && (m in w.extended ==>
          forall i | 0 <= i < |w.clients| && w.clients[i].owner == m :: Stage(w.clients[i].state) >= 8)
  }

  ghost predicate AtHead(w: World) {
    forall m | Running(w, m) :: Paired(w, m)
  }

  ghost predicate AtHeadExcept(w: World, x: nat) {
    forall m | Running(w, m) && m != x :: Paired(w, m)
  }

  /** The measurement an event is about. */
  ghost function Subject(w: World, e: Event): nat
    requires Enabled(w, e)
  {
    match e
    case Start(m, _) => m
    case NoneReady => 0
    case Connect(_, m, _) => m
    case Send(j, _, _) => w.clients[j].owner
    case Good(j) => w.clients[j].owner
    case Lines(j) => w.clients[j].owner
    case Extend(m, _) => m
    case Finish(m) => m
    case Fail(m) => m
  }

  /** Seen from measurement `m`, the two worlds are the same. */
  ghost predicate SameFor(w: World, w': World, m: nat) {
    && |w'.clients| == |w.clients|
    && (Running(w', m) ==> Running(w, m) && w'.table[m].hosts == w.table[m].hosts && w'.table[m].dur == w.table[m].dur)
    && (forall i | 0 <= i < |w.clients| && (w.clients[i].owner == m || w'.clients[i].owner == m) ::
          w'.clients[i] == w.clients[i])
    && (m in w'.extended <==> m in w.extended)
  }

  lemma SamePaired(w: World, w': World, m: nat)
    requires SameFor(w, w', m) && Running(w', m) && Paired(w, m)
    ensures Paired(w', m)
  {
    OwnedSame(w.clients, w'.clients, m);
  }

  lemma OtherUntouched(w: World, e: Event, m: nat)
    requires Inv(w) && Enabled(w, e) && Subject(w, e) != m && m > 0
    ensures SameFor(w, Apply(w, e), m)
  {
    hide Tracked, FullBeforeAuth, DistinctFds, ExtendedLate, Adjacent, Manned, OwnersRun;
  }

  /** An event about `x` leaves every other measurement at its head. */
  lemma OthersStay(w: World, e: Event, x: nat)
    requires Inv(w) && Enabled(w, e) && Subject(w, e) == x && AtHeadExcept(w, x)
    ensures AtHeadExcept(Apply(w, e), x)
    ensures e.Finish? || e.Fail? ==> AtHead(Apply(w, e))
  {
    hide FullBeforeAuth, DistinctFds, ExtendedLate, Adjacent, Manned, OwnersRun, Paired, ClientsOk;
    forall m | Running(Apply(w, e), m) && m != x ensures Paired(Apply(w, e), m) {
      OtherUntouched(w, e, m);
      SamePaired(w, Apply(w, e), m);
    }
  }

  lemma OwnsSomeone(w: World, m: nat) returns (j: nat)
    requires m in w.table && Full(w, m) && w.table[m].hosts != []
    ensures j < |w.clients| && w.clients[j].owner == m
  {
    OwnedNone(w.clients, m);
    j :| 0 <= j < |w.clients| && w.clients[j].owner == m;
  }

  /** Some client of `m` has been sent a command and not answered yet. */
  ghost predicate Awaits(w: World, m: nat) {
    exists j :: 0 <= j < |w.clients| && w.clients[j].owner == m && Stage(w.clients[j].state) in {2, 4, 6, 8}
  }

  /** No lost wake-up: a paired measurement awaits a reply unless all its clients have answered. */
  lemma AwaitsOrAnswered(w: World, m: nat)
    requires Inv(w) && Running(w, m) && Paired(w, m)
    ensures || Awaits(w, m)
            || AllAt(w.clients, m, 3) || AllAt(w.clients, m, 5) || AllAt(w.clients, m, 7) || AllAt(w.clients, m, 9)
  {
    hide Tracked, FullBeforeAuth, DistinctFds, ExtendedLate, Adjacent, Manned, OwnersRun;
    var j := OwnsSomeone(w, m);
    if !Awaits(w, m) {
      forall i | 0 <= i < |w.clients| && w.clients[i].owner == m
        ensures Stage(w.clients[i].state) == Stage(w.clients[j].state)
      {
        assert Stage(w.clients[i].state) !in {2, 4, 6, 8} && Stage(w.clients[j].state) !in {2, 4, 6, 8};
      }
    }
  }

  ghost function Owns(w: World, m: nat): (j: int)
    requires exists j :: 0 <= j < |w.clients| && w.clients[j].owner == m
    ensures 0 <= j < |w.clients| && w.clients[j].owner == m
  {
    var j :| 0 <= j < |w.clients| && w.clients[j].owner == m;
    j
  }

  ghost function Indices(n: nat): (r: set<int>)
    ensures |r| == n
    ensures forall i :: i in r <==> 0 <= i < n
  {
    if n == 0 then {} else Indices(n - 1) + {n - 1}
  }

  /** Distinct running measurements own disjoint, non-empty sets of clients, so there are at most as many as clients. */
  lemma RunningAtMostClients(w: World, ids: seq<nat>)
    requires Inv(w) && NoDup(ids)
    requires forall m | m in ids :: Running(w, m) && Full(w, m) && w.table[m].hosts != []
    ensures |ids| <= |w.clients|
  {
    hide Inv;
    SetSize(ids);
    var ks := ToSet(ids);
    forall m | m in ks ensures exists j :: 0 <= j < |w.clients| && w.clients[j].owner == m {
      var j := OwnsSomeone(w, m);
    }
    var f := map m | m in ks :: Owns(w, m);
    Pigeonhole(ks, f, Indices(|w.clients|));
  }

  /** The clients waiting for a reply, by index. */
  ghost function Waiters(cs: seq<Client>): set<int> {
    set i | i in Indices(|cs|) && Stage(cs[i].state) in {2, 4, 6, 8}
  }

  ghost function AwaitingClient(w: World, m: nat): (j: int)
    requires Awaits(w, m)
    ensures j in Waiters(w.clients) && w.clients[j].owner == m
  {
    var j :| 0 <= j < |w.clients| && w.clients[j].owner == m && Stage(w.clients[j].state) in {2, 4, 6, 8};
    j
  }

  /** When each of these measurements awaits a reply, at least as many clients do. */
  lemma WaitersCoverRunning(w: World, ids: seq<nat>)
    requires NoDup(ids)
    requires forall m | m in ids :: Awaits(w, m)
    ensures |ids| <= |Waiters(w.clients)|
  {
    SetSize(ids);
    var f := map m | m in ToSet(ids) :: AwaitingClient(w, m);
    Pigeonhole(ToSet(ids), f, Waiters(w.clients));
  }
}
