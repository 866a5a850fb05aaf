/** One pass of the coordinator over the clients of a measurement, sending each its next command. */
module Passes {
  import opened Sequences
  import opened Schedule
  import opened Clients
  import opened Staffing
  import opened Protocol
  import opened Heads

  /** The world after the clients of `m` below index `n` have taken a step. */
  ghost function Advanced(w: World, m: nat, n: nat): World {
    w.(clients := seq(|w.clients|, k requires 0 <= k < |w.clients| =>
      if k < n && w.clients[k].owner == m then w.clients[k].(state := Next(w.clients[k].state)) else w.clients[k]))
  }

  lemma AdvancedStep(w: World, m: nat, n: nat)
    requires n < |w.clients|
    ensures Advanced(w, m, 0) == w
    ensures w.clients[n].owner != m ==> Advanced(w, m, n + 1) == Advanced(w, m, n)
    ensures w.clients[n].owner == m ==>
      Advanced(w, m, n + 1) ==
      Advanced(w, m, n).(clients := Advanced(w, m, n).clients[n := w.clients[n].(state := Next(w.clients[n].state))])
  {
    assert Advanced(w, m, 0).clients == w.clients;
    if w.clients[n].owner == m {
      assert Advanced(w, m, n + 1).clients ==
             Advanced(w, m, n).clients[n := w.clients[n].(state := Next(w.clients[n].state))];
    } else {
      assert Advanced(w, m, n + 1).clients == Advanced(w, m, n).clients;
    }
  }

  /** In the middle of a pass over clients that started on one stage, the next client may be sent its command. */
  lemma SendEnabled(w: World, m: nat, n: nat, s: nat, host: nat, msg: Message)
    requires Inv(w) && Running(w, m) && Full(w, m) && AllAt(w.clients, m, s) && 1 <= s <= 8
    requires n < |w.clients| && w.clients[n].owner == m
    requires Fits(w, n, host, msg) && !Stops(w, Send(n, host, msg))
    ensures Enabled(Advanced(w, m, n), Send(n, host, msg))
    ensures Apply(Advanced(w, m, n), Send(n, host, msg)) == Advanced(w, m, n + 1)
  {
    hide Tracked, FullBeforeAuth, DistinctFds, ExtendedLate, Adjacent, Manned, OwnersRun, ClientsOk;
    var v := Advanced(w, m, n);
    OwnedSame(w.clients, v.clients, m);
    if msg.TestSpeed? || msg.ResetRate? {
      PairingSame(w.clients, v.clients, w.table[m].hosts, m, n, host);
    }
    AdvancedStep(w, m, n);
    assert Within(v.clients, m, s);
  }

  /** After a whole pass everyone is one stage further on and a reply is awaited. */
  lemma PassDone(w: World, m: nat, s: nat)
    requires Running(w, m) && Full(w, m) && AllAt(w.clients, m, s) && s in {1, 3, 5, 7}
    requires m > 0 && w.table[m].hosts != [] && w.table[m].dur > 0
    requires m in w.extended ==> s == 7
    ensures Paired(Advanced(w, m, |w.clients|), m)
    ensures Awaits(Advanced(w, m, |w.clients|), m)
    ensures AllAt(Advanced(w, m, |w.clients|).clients, m, s + 1)
  {
    var v := Advanced(w, m, |w.clients|);
    assert forall k | 0 <= k < |w.clients| && w.clients[k].owner == m :: Stage(v.clients[k].state) == s + 1;
    OwnedSame(w.clients, v.clients, m);
    var j := OwnsSomeone(w, m);
    assert v.clients[j].owner == m && Stage(v.clients[j].state) in {2, 4, 6, 8};
  }

  // ---- The greedy search for a host entry

  /** An entry is taken exactly when as many clients of its class have been served as come up to it. */
  ghost predicate Taken(cs: seq<Client>, hosts: seq<Host>, m: nat, j: nat, used: seq<bool>) {
    && j <= |cs| && |used| == |hosts|
    && forall k | 0 <= k < |hosts| ::
         used[k] <==> HostRank(hosts, k, hosts[k].cls) < ClientRank(cs, m, j, hosts[k].cls)
  }

  lemma TakenNone(cs: seq<Client>, hosts: seq<Host>, m: nat, used: seq<bool>)
    requires |used| == |hosts| && forall k | 0 <= k < |hosts| :: !used[k]
    ensures Taken(cs, hosts, m, 0, used)
  {
    assert cs[..0] == [];
  }

  lemma TakenSkip(cs: seq<Client>, hosts: seq<Host>, m: nat, j: nat, used: seq<bool>)
    requires Taken(cs, hosts, m, j, used) && j < |cs| && cs[j].owner != m
    ensures Taken(cs, hosts, m, j + 1, used)
  {
    forall k | 0 <= k < |hosts|
      ensures ClientRank(cs, m, j + 1, hosts[k].cls) == ClientRank(cs, m, j, hosts[k].cls)
    {
      ClientRankStep(cs, m, j, hosts[k].cls);
    }
  }

  /** The first free entry of the client's class is the one the client is paired with. */
  lemma FirstFreePairs(cs: seq<Client>, hosts: seq<Host>, m: nat, j: nat, k: nat, used: seq<bool>)
    requires Taken(cs, hosts, m, j, used) && j < |cs| && cs[j].owner == m
    requires k < |hosts| && hosts[k].cls == cs[j].cls && !used[k]
    requires forall i | 0 <= i < k :: hosts[i].cls == cs[j].cls ==> used[i]
    ensures Pairs(cs, hosts, j, k)
  {
    var cls := cs[j].cls;
    if HostRank(hosts, k, cls) > ClientRank(cs, m, j, cls) {
      var i := HostAtRank(hosts, k, cls, ClientRank(cs, m, j, cls));
    }
  }

  lemma TakenNext(cs: seq<Client>, hosts: seq<Host>, m: nat, j: nat, k: nat, used: seq<bool>)
    requires Taken(cs, hosts, m, j, used) && j < |cs| && cs[j].owner == m
    requires Pairs(cs, hosts, j, k)
    ensures Taken(cs, hosts, m, j + 1, used[k := true])
  {
    var cls := cs[j].cls;
    forall i | 0 <= i < |hosts|
      ensures used[k := true][i] <==> HostRank(hosts, i, hosts[i].cls) < ClientRank(cs, m, j + 1, hosts[i].cls)
    {
      ClientRankStep(cs, m, j, hosts[i].cls);
      if i != k && hosts[i].cls == cls {
        if i < k {
          HostRankStep(hosts, i, cls);
          HostRankMonotone(hosts, i + 1, k, cls);
        } else {
          HostRankStep(hosts, k, cls);
          HostRankMonotone(hosts, k + 1, i, cls);
        }
      }
    }
  }

  /** A staffed measurement has a free entry for each client not served yet. */
  lemma FreeEntryExists(cs: seq<Client>, hosts: seq<Host>, m: nat, j: nat, used: seq<bool>)
    requires Taken(cs, hosts, m, j, used) && j < |cs| && cs[j].owner == m && Staffed(cs, hosts, m)
    ensures exists k :: 0 <= k < |hosts| && hosts[k].cls == cs[j].cls && !used[k]
  {
    var cls := cs[j].cls;
    StaffedRanks(cs, hosts, m, cls);
    ClientRankStep(cs, m, j, cls);
    ClientRankMonotone(cs, m, j + 1, |cs|, cls);
    var k := HostAtRank(hosts, |hosts|, cls, ClientRank(cs, m, j, cls));
    assert hosts[k].cls == cls && !used[k];
  }

  /** Once every client of a staffed measurement is served, no entry is left. */
  lemma AllTaken(cs: seq<Client>, hosts: seq<Host>, m: nat, used: seq<bool>)
    requires Taken(cs, hosts, m, |cs|, used) && Staffed(cs, hosts, m)
    ensures forall k | 0 <= k < |hosts| :: used[k]
  {
    hide HostRank, ClientRank, Staffed;
    forall k | 0 <= k < |hosts| ensures used[k] {
      StaffedRanks(cs, hosts, m, hosts[k].cls);
      HostRankStep(hosts, k, hosts[k].cls);
      HostRankMonotone(hosts, k + 1, |hosts|, hosts[k].cls);
    }
  }

  /** The measurements other than `m` that awaited a reply still do. */
  ghost predicate OthersAwait(w: World, w': World, m: nat) {
    forall k | k != m && k > 0 && Awaits(w, k) :: Awaits(w', k)
  }

  lemma AdvancedOthersAwait(w: World, m: nat)
    ensures OthersAwait(w, Advanced(w, m, |w.clients|), m)
  {
    forall k | k != m && k > 0 && Awaits(w, k) ensures Awaits(Advanced(w, m, |w.clients|), k) {
      var j :| 0 <= j < |w.clients| && w.clients[j].owner == k && Stage(w.clients[j].state) in {2, 4, 6, 8};
      assert Advanced(w, m, |w.clients|).clients[j] == w.clients[j];
    }
  }

  lemma GivenUpOthersAwait(w: World, m: nat)
    requires m in w.table
    ensures OthersAwait(w, GivenUp(w, m), m)
  {
    forall k | k != m && k > 0 && Awaits(w, k) ensures Awaits(GivenUp(w, m), k) {
      var j :| 0 <= j < |w.clients| && w.clients[j].owner == k && Stage(w.clients[j].state) in {2, 4, 6, 8};
      assert GivenUp(w, m).clients[j] == w.clients[j];
    }
  }

  /** A measurement that awaits a reply has not been fully answered. */
  lemma AwaitsNotAnswered(w: World, m: nat)
    requires Awaits(w, m)
    ensures !AllAt(w.clients, m, 3) && !AllAt(w.clients, m, 5) && !AllAt(w.clients, m, 7) && !AllAt(w.clients, m, 9)
  {
  }

  /** The deadline of a measurement all of whose bandwidths are just set was never reset. */
  lemma NotExtendedYet(w: World, m: nat, s: nat)
    requires Running(w, m) && Paired(w, m) && AllAt(w.clients, m, s) && s <= 7
    ensures m !in w.extended
  {
    var j := OwnsSomeone(w, m);
  }
}
