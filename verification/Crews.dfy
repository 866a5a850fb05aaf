/** The clients that measurements own together, and whether there are enough of them. */
module Crews {
  import opened Sequences
  import opened Schedule
  import opened Clients
  import opened Staffing
  import opened Protocol
  import opened Runs
  import opened Progress
  import opened Liveness
  import opened Heads
  import opened History
  import opened Starting

  ghost function ClientClasses(cs: seq<Client>): (r: seq<string>)
    ensures |r| == |cs|
  {
    seq(|cs|, i requires 0 <= i < |cs| => cs[i].cls)
  }

  /** The client list has as many clients of each class as the host list asks for. */
  ghost predicate Staffable(cs: seq<Client>, hosts: seq<Host>) {
    forall cls :: multiset(Classes(hosts))[cls] <= multiset(ClientClasses(cs))[cls]
  }

  /** The measurement can be started, has a duration, and there are clients enough for it. */
  ghost predicate GetsStaffed(w0: World, m: nat) {
    CanStart(w0.table, m) && w0.table[m].dur > 0 && Staffable(w0.clients, w0.table[m].hosts)
  }

  /** How many clients are of a class. */
  ghost function ClientsOf(cs: seq<Client>, cls: string): nat {
    |set i | 0 <= i < |cs| && cs[i].cls == cls|
  }

  lemma ClientsCounted(cs: seq<Client>, cls: string)
    ensures multiset(ClientClasses(cs))[cls] == ClientsOf(cs, cls)
  {
    CountIs(ClientClasses(cs), cls);
    var a := set i | 0 <= i < |ClientClasses(cs)| && ClientClasses(cs)[i] == cls;
    assert a == set i | 0 <= i < |cs| && cs[i].cls == cls;
  }

  /** The list has at least as many clients of each class as there are host entries of it. */
  lemma StaffableIff(cs: seq<Client>, hosts: seq<Host>)
    ensures Staffable(cs, hosts) <==> forall cls :: EntriesOf(hosts, cls) <= ClientsOf(cs, cls)
  {
    hide ClientClasses, Classes, EntriesOf, ClientsOf;
    forall cls
      ensures multiset(ClientClasses(cs))[cls] == ClientsOf(cs, cls)
      ensures multiset(Classes(hosts))[cls] == EntriesOf(hosts, cls)
    {
      ClientsCounted(cs, cls);
      EntriesCounted(hosts, cls);
    }
    if Staffable(cs, hosts) {
      forall cls ensures EntriesOf(hosts, cls) <= ClientsOf(cs, cls) {
        assert multiset(Classes(hosts))[cls] <= multiset(ClientClasses(cs))[cls];
      }
    }
  }

  lemma {:induction false} OwnedAmong(cs: seq<Client>, m: nat, cls: string)
    ensures multiset(OwnedClasses(cs, m))[cls] <= multiset(ClientClasses(cs))[cls]
  {
    if cs != [] {
      var front := cs[..|cs| - 1];
      OwnedAmong(front, m, cls);
      assert ClientClasses(cs) == ClientClasses(front) + [cs[|cs| - 1].cls];
    }
  }

  lemma SameClasses(w0: World, w: World)
    requires SamePlan(w0, w)
    ensures ClientClasses(w.clients) == ClientClasses(w0.clients)
  {
  }

  lemma StartedWaited(w0: World, log: seq<Event>, m: nat)
    requires Initial(w0) && Legal(w0, log) && Running(Outcome(w0, log), m)
    ensures m in w0.table && CanStart(w0.table, m)
  {
    RunSize(w0, log);
    StatusTellsHistory(w0, log, m);
    StartedCanStart(w0, log, m);
  }

  lemma WorksForRunning(w: World, j: nat)
    requires Inv(w) && j < |w.clients| && w.clients[j].owner != 0
    ensures Running(w, w.clients[j].owner) && w.table[w.clients[j].owner].dur > 0
    ensures w.clients[j].isBg == IsBg(w.clients[j].cls)
  {
  }

  /** Whatever runs could be started, and whatever has its clients beyond connecting got staffed. */
  lemma StaffedFromList(w0: World, log: seq<Event>, j: nat)
    requires Initial(w0) && Legal(w0, log) && j < |Outcome(w0, log).clients|
    requires var w := Outcome(w0, log);
      w.clients[j].owner != 0 && w.clients[j].owner in w.table && Full(w, w.clients[j].owner)
    ensures GetsStaffed(w0, Outcome(w0, log).clients[j].owner)
  {
    var w := Outcome(w0, log);
    var m := w.clients[j].owner;
    RunInv(w0, log);
    RunPlan(w0, log);
    hide Initial, Legal, Outcome, SamePlan;
    WorksForRunning(w, j);
    StartedWaited(w0, log, m);
    FullStaffed(w, m);
    SameClasses(w0, w);
    hide Inv, OwnedClasses, ClientClasses, CanStart;
    PlanFor(w0, w, m);
    forall cls ensures multiset(Classes(w0.table[m].hosts))[cls] <= multiset(ClientClasses(w0.clients))[cls] {
      OwnedAmong(w.clients, m, cls);
    }
  }

  lemma NoZero(w: World)
    requires Inv(w)
    ensures 0 !in w.table
  {
    TableIds(w.table);
  }

  lemma PartnerFor(w: World, m: nat, j: nat) returns (k: nat)
    requires Inv(w) && Running(w, m) && Full(w, m) && j < |w.clients| && w.clients[j].owner == m
    ensures Pairs(w.clients, w.table[m].hosts, j, k)
    ensures k < |w.table[m].hosts| && w.table[m].hosts[k].cls == w.clients[j].cls
    ensures m > 0 && w.clients[j].isBg == IsBg(w.clients[j].cls)
  {
    FullStaffed(w, m);
    NoZero(w);
    WorksForRunning(w, j);
    hide Inv, Staffed, Running, Full, IsBg;
    PerfectMatching(w.clients, w.table[m].hosts, m);
    k :| Pairs(w.clients, w.table[m].hosts, j, k);
  }

  lemma PartnerOf(cs: seq<Client>, hosts: seq<Host>, m: nat, k: nat) returns (j: nat)
    requires HasClient(cs, hosts, m, k)
    ensures Pairs(cs, hosts, j, k) && j < |cs| && cs[j].owner == m && k < |hosts| && hosts[k].cls == cs[j].cls
  {
    j :| Pairs(cs, hosts, j, k) && cs[j].owner == m;
  }

  /** A misused entry has a client. */
  lemma MisusedPartner(w: World, m: nat) returns (j: nat, k: nat)
    requires Inv(w) && Running(w, m) && Full(w, m) && MisusesBg(w.table[m])
    ensures Pairs(w.clients, w.table[m].hosts, j, k) && j < |w.clients| && w.clients[j].owner == m
    ensures k < |w.table[m].hosts| && w.table[m].hosts[k].conns != 1 && IsBg(w.clients[j].cls)
  {
    FullStaffed(w, m);
    hide Inv, IsBg, Pairs, Staffed, Running, Full;
    var hosts := w.table[m].hosts;
    k :| 0 <= k < |hosts| && IsBg(hosts[k].cls) && hosts[k].conns != 1;
    PerfectMatching(w.clients, hosts, m);
    j := PartnerOf(w.clients, hosts, m, k);
  }

  lemma SameMisuse(w0: World, w: World, m: nat)
    requires SamePlan(w0, w) && m in w.table
    ensures m in w0.table && (MisusesBg(w.table[m]) <==> MisusesBg(w0.table[m]))
  {
  }

  lemma {:induction false} FreshFd(cs: seq<Client>) returns (fd: int)
    ensures fd >= 0 && forall i | 0 <= i < |cs| :: cs[i].fd < fd
  {
    if cs == [] {
      fd := 0;
    } else {
      var last := cs[|cs| - 1].fd;
      fd := FreshFd(cs[..|cs| - 1]);
      fd := if fd > last then fd else last + 1;
    }
  }

  lemma ClientClassesStep(cs: seq<Client>)
    ensures cs == [] ==> ClientClasses(cs) == []
    ensures cs != [] ==> ClientClasses(cs) == ClientClasses(cs[..|cs| - 1]) + [cs[|cs| - 1].cls]
  {
  }

  lemma StaffableSame(cs: seq<Client>, ds: seq<Client>, hosts: seq<Host>)
    requires ClientClasses(cs) == ClientClasses(ds) && Staffable(cs, hosts)
    ensures Staffable(ds, hosts)
  {
  }

  lemma StillStaffable(w: World, e: Event, hosts: seq<Host>)
    requires Enabled(w, e) && Staffable(w.clients, hosts)
    ensures Staffable(Apply(w, e).clients, hosts)
  {
    hide Staffable;
    StepPlan(w, e);
    SameClasses(w, Apply(w, e));
    StaffableSame(w.clients, Apply(w, e).clients, hosts);
  }

  lemma RoomLeft(w: World, m: nat)
    requires Inv(w) && Running(w, m) && !Full(w, m)
    ensures |OwnedClasses(w.clients, m)| < |w.table[m].hosts|
  {
  }

  // ---- Several measurements at once

  /** The classes of the clients that measurements in `s` own. */
  ghost function OwnedIn(cs: seq<Client>, s: set<nat>): seq<string> {
    if cs == [] then [] else
      OwnedIn(cs[..|cs| - 1], s) + (if cs[|cs| - 1].owner in s then [cs[|cs| - 1].cls] else [])
  }

  lemma {:induction false} OwnedInSplit(cs: seq<Client>, s: set<nat>, m: nat, cls: string)
    requires m !in s
    ensures multiset(OwnedIn(cs, s + {m}))[cls] == multiset(OwnedIn(cs, s))[cls] + multiset(OwnedClasses(cs, m))[cls]
  {
    if cs != [] {
      OwnedInSplit(cs[..|cs| - 1], s, m, cls);
    }
  }

  lemma {:induction false} OwnedInNone(cs: seq<Client>)
    ensures OwnedIn(cs, {}) == []
  {
    if cs != [] {
      OwnedInNone(cs[..|cs| - 1]);
    }
  }

  lemma {:induction false} OwnedInAmong(cs: seq<Client>, s: set<nat>, cls: string)
    ensures multiset(OwnedIn(cs, s))[cls] <= multiset(ClientClasses(cs))[cls]
  {
    hide ClientClasses;
    ClientClassesStep(cs);
    if cs != [] {
      OwnedInAmong(cs[..|cs| - 1], s, cls);
    }
  }

  lemma {:induction false} OtherClient(cs: seq<Client>, s: set<nat>, cls: string) returns (j: nat)
    requires multiset(OwnedIn(cs, s))[cls] < multiset(ClientClasses(cs))[cls]
    ensures j < |cs| && cs[j].owner !in s && cs[j].cls == cls
  {
    hide ClientClasses;
    ClientClassesStep(cs);
    if cs != [] {
      var front := cs[..|cs| - 1];
      if cs[|cs| - 1].owner !in s && cs[|cs| - 1].cls == cls {
        j := |cs| - 1;
      } else {
        j := OtherClient(front, s, cls);
      }
    }
  }

  /** The host lists of these measurements, one after another. */
  ghost function HostsOf(tbl: Table, ks: seq<nat>): seq<Host>
    requires forall k | k in ks :: k in tbl
  {
    if ks == [] then [] else HostsOf(tbl, ks[..|ks| - 1]) + tbl[ks[|ks| - 1]].hosts
  }

  lemma ClassesConcat(a: seq<Host>, b: seq<Host>)
    ensures Classes(a + b) == Classes(a) + Classes(b)
  {
  }

  /** Fully connected measurements own together what their host lists ask for. */
  lemma {:induction false} OwnedInHosts(w: World, ks: seq<nat>, cls: string)
    requires Inv(w) && NoDup(ks) && forall k | k in ks :: Running(w, k) && Full(w, k)
    ensures multiset(OwnedIn(w.clients, ToSet(ks)))[cls] == multiset(Classes(HostsOf(w.table, ks)))[cls]
  {
    hide Inv, OwnedIn;
    if ks == [] {
      assert ToSet(ks) == {};
      OwnedInNone(w.clients);
    } else {
      var front, m := ks[..|ks| - 1], ks[|ks| - 1];
      assert ks == front + [m];
      assert m !in ToSet(front) && ToSet(ks) == ToSet(front) + {m};
      OwnedInHosts(w, front, cls);
      OwnedInSplit(w.clients, ToSet(front), m, cls);
      FullStaffed(w, m);
      ClassesConcat(HostsOf(w.table, front), w.table[m].hosts);
    }
  }

  lemma {:induction false} HostsOfSame(tbl: Table, tbl2: Table, ks: seq<nat>)
    requires forall k | k in ks :: k in tbl && k in tbl2 && tbl2[k].hosts == tbl[k].hosts
    ensures HostsOf(tbl2, ks) == HostsOf(tbl, ks)
  {
    if ks != [] {
      HostsOfSame(tbl, tbl2, ks[..|ks| - 1]);
    }
  }

  /** Running measurements that are fully connected are staffed from the client list together. */
  lemma StaffedTogether(w0: World, w: World, ks: seq<nat>)
    requires Inv(w) && SamePlan(w0, w) && NoDup(ks) && forall k | k in ks :: Running(w, k) && Full(w, k)
    ensures forall k | k in ks :: k in w0.table
    ensures Staffable(w0.clients, HostsOf(w0.table, ks))
  {
    SameClasses(w0, w);
    forall k | k in ks ensures k in w0.table && w.table[k].hosts == w0.table[k].hosts {
      PlanFor(w0, w, k);
    }
    hide Inv, SamePlan, OwnedIn, ClientClasses, HostsOf, Full, NoDup;
    HostsOfSame(w0.table, w.table, ks);
    forall cls
      ensures multiset(Classes(HostsOf(w0.table, ks)))[cls] <= multiset(ClientClasses(w0.clients))[cls]
    {
      OwnedInHosts(w, ks, cls);
      OwnedInAmong(w.clients, ToSet(ks), cls);
    }
  }
}
