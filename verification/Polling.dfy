/** The descriptor lists the coordinator waits on, and what the environment may report about them. */
module Polling {
  import opened Sequences
  import opened Clients
  import opened Protocol
  import opened Heads
  import opened Schedule
  import opened Staffing

  /** The descriptors of the clients in state `st`, in client order. */
  ghost function FdsIn(cs: seq<Client>, st: CState): seq<int> {
    if cs == [] then [] else FdsIn(cs[..|cs| - 1], st) + if cs[|cs| - 1].state == st then [cs[|cs| - 1].fd] else []
  }

  lemma {:induction false} FdsInMember(cs: seq<Client>, st: CState, fd: int)
    ensures fd in FdsIn(cs, st) <==> exists j :: 0 <= j < |cs| && cs[j].fd == fd && cs[j].state == st
  {
    if cs != [] {
      var front := cs[..|cs| - 1];
      FdsInMember(front, st, fd);
      assert cs[|cs| - 1].fd == fd && cs[|cs| - 1].state == st ==>
          exists j :: 0 <= j < |cs| && cs[j].fd == fd && cs[j].state == st;
      if j :| 0 <= j < |front| && front[j].fd == fd && front[j].state == st {
        assert cs[j].fd == fd;
      }
    }
  }

  lemma WaitersLast(cs: seq<Client>)
    requires cs != []
    ensures |Waiters(cs)| == |Waiters(cs[..|cs| - 1])| + if Stage(cs[|cs| - 1].state) in {2, 4, 6, 8} then 1 else 0
  {
    var n := |cs| - 1;
    var rest, last := Waiters(cs[..n]), if Stage(cs[n].state) in {2, 4, 6, 8} then {n} else {};
    forall i ensures i in Waiters(cs) <==> i in rest || i in last {
      assert 0 <= i < n ==> cs[..n][i] == cs[i];
    }
    assert Waiters(cs) == rest + last;
  }

  /** Together the four lists have one entry for every client that waits for a reply. */
  lemma {:induction false} ListsAreWaiters(cs: seq<Client>)
    ensures |FdsIn(cs, Authing)| + |FdsIn(cs, ToldConnectTarget)| + |FdsIn(cs, SettingBw)| + |FdsIn(cs, Measuring)| ==
            |Waiters(cs)|
  {
    if cs == [] {
      assert Waiters(cs) == {};
    } else {
      WaitersLast(cs);
      hide Waiters;
      ListsAreWaiters(cs[..|cs| - 1]);
    }
  }

  datatype Poll = Poll(authing: seq<int>, connecting: seq<int>, setting: seq<int>, measuring: seq<int>) {
    function Interesting(): nat {
      |authing| + |connecting| + |setting| + |measuring|
    }

    ghost predicate Lists(cs: seq<Client>) {
      && authing == FdsIn(cs, Authing)
      && connecting == FdsIn(cs, ToldConnectTarget)
      && setting == FdsIn(cs, SettingBw)
      && measuring == FdsIn(cs, Measuring)
    }
  }

  /** What `epoll_wait` may answer: an error, a timeout, or distinct descriptors among those registered. */
  predicate EpollOutcome(p: Poll, result: int, events: seq<int>) {
    && |events| == (if result > 0 then result else 0)
    && (forall a, b | 0 <= a < b < |events| :: events[a] != events[b])
    && (forall fd | fd in events :: fd in p.authing || fd in p.connecting || fd in p.setting || fd in p.measuring)
  }

  method EpollWait(p: Poll) returns (result: int, events: seq<int>)
    ensures EpollOutcome(p, result, events)
  {
    assert EpollOutcome(p, -1, []);
    result, events :| EpollOutcome(p, result, events);
  }

  /**
   * No lost wake-up: when every known measurement awaits a reply, at least as many descriptors are waited
   * on as measurements are known, so waiting on none means that none is known.
   */
  lemma NoLostWakeup(w: World, ids: seq<nat>, p: Poll)
    requires p.Lists(w.clients) && NoDup(ids)
    requires forall m | m in ids :: Awaits(w, m)
    ensures |ids| <= p.Interesting()
  {
    WaitersCoverRunning(w, ids);
    ListsAreWaiters(w.clients);
  }

  /** A descriptor is waited on only if some client waits for a reply. */
  lemma SomeWaiter(cs: seq<Client>, p: Poll) returns (j: nat)
    requires p.Lists(cs) && p.Interesting() > 0
    ensures j < |cs| && Stage(cs[j].state) in {2, 4, 6, 8}
  {
    ListsAreWaiters(cs);
    var i :| i in Waiters(cs);
    j := i;
  }

  /** A registered descriptor belongs to exactly one client, which is in the state of its list. */
  lemma Registered(cs: seq<Client>, p: Poll, fd: int)
    requires p.Lists(cs) && ClientsOk(cs)
    ensures fd in p.authing || fd in p.connecting || fd in p.setting || fd in p.measuring ==>
              fd >= 0 && exists j :: 0 <= j < |cs| && cs[j].fd == fd
    ensures forall j | 0 <= j < |cs| && DistinctFds(cs) && cs[j].fd == fd && fd >= 0 ::
              && (fd in p.authing <==> cs[j].state == Authing)
              && (fd in p.connecting <==> cs[j].state == ToldConnectTarget)
              && (fd in p.setting <==> cs[j].state == SettingBw)
              && (fd in p.measuring <==> cs[j].state == Measuring)
  {
    FdsInMember(cs, Authing, fd);
    FdsInMember(cs, ToldConnectTarget, fd);
    FdsInMember(cs, SettingBw, fd);
    FdsInMember(cs, Measuring, fd);
  }

  lemma RepliesWithin(w: World, j: nat)
    requires j < |w.clients| && w.clients[j].owner in w.table && Paired(w, w.clients[j].owner)
    requires w.clients[j].state in {Authing, ToldConnectTarget, SettingBw, Measuring}
    ensures Within(w.clients, w.clients[j].owner, Stage(w.clients[j].state))
  {
    forall i | 0 <= i < |w.clients| && w.clients[i].owner == w.clients[j].owner
      ensures Stage(w.clients[j].state) <= Stage(w.clients[i].state) <= Stage(w.clients[j].state) + 1
    {
      assert Stage(w.clients[i].state) / 2 == Stage(w.clients[j].state) / 2;
    }
  }

  lemma NextSameHalf(s: CState)
    requires s in {Authing, ToldConnectTarget, SettingBw, Measuring}
    ensures Stage(Next(s)) / 2 == Stage(s) / 2 && Stage(Next(s)) > Stage(s) >= 2
  {
  }

  /** A good reply keeps the measurement in its phase pair. */
  lemma GoodStaysPaired(w: World, j: nat)
    requires j < |w.clients| && Running(w, w.clients[j].owner) && Paired(w, w.clients[j].owner)
    requires w.clients[j].state in {Authing, ToldConnectTarget, SettingBw, Measuring}
    ensures Enabled(w, Good(j)) && Paired(Apply(w, Good(j)), w.clients[j].owner)
  {
    RepliesWithin(w, j);
    hide Within;
    var cs := w.clients[j := w.clients[j].(state := Next(w.clients[j].state))];
    assert Apply(w, Good(j)) == w.(clients := cs);
    NextSameHalf(w.clients[j].state);
    OwnedSame(w.clients, cs, w.clients[j].owner);
  }
}
