/** Which clients a measurement owns, and how the greedy class matching pairs them with its host list. */
module Staffing {
  import opened Sequences
  import opened Schedule
  import opened Clients

  /** The classes of the clients that measurement `m` owns, in the order of the client array. */
  ghost function OwnedClasses(cs: seq<Client>, m: nat): seq<string> {
    if cs == [] then [] else
      OwnedClasses(cs[..|cs| - 1], m) + (if cs[|cs| - 1].owner == m then [cs[|cs| - 1].cls] else [])
  }

  /** The classes of the unused clients that are not among `refused`. */
  ghost function Spare(cs: seq<Client>, refused: set<int>): seq<string> {
    if cs == [] then [] else
      Spare(cs[..|cs| - 1], refused) +
      (if cs[|cs| - 1].owner == 0 && |cs| - 1 !in refused then [cs[|cs| - 1].cls] else [])
  }

  /** Of some class there are fewer unused clients outside `refused` than host entries. */
  ghost predicate Lacking(cs: seq<Client>, refused: set<int>, hosts: seq<Host>) {
    exists cls :: multiset(Spare(cs, refused))[cls] < multiset(Classes(hosts))[cls]
  }

  lemma {:induction false} CountIs(s: seq<string>, x: string)
    ensures multiset(s)[x] == |set i | 0 <= i < |s| && s[i] == x|
  {
    var here := set i | 0 <= i < |s| && s[i] == x;
    if s == [] {
      assert here == {};
    } else {
      var n := |s| - 1;
      CountIs(s[..n], x);
      assert s == s[..n] + [s[n]];
      var before := set i | 0 <= i < |s[..n]| && s[..n][i] == x;
      assert here == before + if s[n] == x then {n} else {};
    }
  }

  /** How many host entries are of a class. */
  ghost function EntriesOf(hosts: seq<Host>, cls: string): nat {
    |set k | 0 <= k < |hosts| && hosts[k].cls == cls|
  }

  /** How many clients of a class are unused and not refused. */
  ghost function UnusedOf(cs: seq<Client>, refused: set<int>, cls: string): nat {
    |set i | 0 <= i < |cs| && cs[i].owner == 0 && i !in refused && cs[i].cls == cls|
  }

  lemma EntriesCounted(hosts: seq<Host>, cls: string)
    ensures multiset(Classes(hosts))[cls] == EntriesOf(hosts, cls)
  {
    CountIs(Classes(hosts), cls);
    var a := set i | 0 <= i < |Classes(hosts)| && Classes(hosts)[i] == cls;
    assert a == set k | 0 <= k < |hosts| && hosts[k].cls == cls;
  }

  lemma UnusedStep(cs: seq<Client>, refused: set<int>, cls: string)
    requires cs != []
    ensures var n := |cs| - 1;
      UnusedOf(cs, refused, cls) ==
      UnusedOf(cs[..n], refused, cls) + if cs[n].owner == 0 && n !in refused && cs[n].cls == cls then 1 else 0
  {
    var n := |cs| - 1;
    var here := set i | 0 <= i < |cs| && cs[i].owner == 0 && i !in refused && cs[i].cls == cls;
    var front := cs[..n];
    var before := set i | 0 <= i < |front| && front[i].owner == 0 && i !in refused && front[i].cls == cls;
    var last := if cs[n].owner == 0 && n !in refused && cs[n].cls == cls then {n} else {};
    forall i ensures i in here <==> i in before || i in last {
      assert 0 <= i < n ==> front[i] == cs[i];
    }
    assert here == before + last && before !! last;
  }

  lemma {:induction false} UnusedCounted(cs: seq<Client>, refused: set<int>, cls: string)
    ensures multiset(Spare(cs, refused))[cls] == UnusedOf(cs, refused, cls)
  {
    var here := set i | 0 <= i < |cs| && cs[i].owner == 0 && i !in refused && cs[i].cls == cls;
    if cs == [] {
      assert here == {};
    } else {
      UnusedStep(cs, refused, cls);
      hide UnusedOf;
      UnusedCounted(cs[..|cs| - 1], refused, cls);
    }
  }

  /** Clients are lacking when of some class fewer are unused and not refused than there are entries. */
  lemma LackingIff(cs: seq<Client>, refused: set<int>, hosts: seq<Host>)
    ensures Lacking(cs, refused, hosts) <==> exists cls :: UnusedOf(cs, refused, cls) < EntriesOf(hosts, cls)
  {
    hide Spare, Classes, UnusedOf, EntriesOf;
    forall cls
      ensures multiset(Spare(cs, refused))[cls] == UnusedOf(cs, refused, cls)
      ensures multiset(Classes(hosts))[cls] == EntriesOf(hosts, cls)
    {
      UnusedCounted(cs, refused, cls);
      EntriesCounted(hosts, cls);
    }
    if cls :| UnusedOf(cs, refused, cls) < EntriesOf(hosts, cls) {
      assert multiset(Spare(cs, refused))[cls] < multiset(Classes(hosts))[cls];
    }
  }

  lemma {:induction false} SpareAtMost(cs: seq<Client>, ds: seq<Client>, refused: set<int>, m: nat, cls: string)
    requires |cs| == |ds|
    requires forall i | 0 <= i < |cs| ::
               cs[i].owner == 0 && cs[i].cls == cls && i !in refused ==> ds[i].owner == m && ds[i].cls == cls
    ensures multiset(Spare(cs, refused))[cls] <= multiset(OwnedClasses(ds, m))[cls]
  {
    if cs != [] {
      SpareAtMost(cs[..|cs| - 1], ds[..|ds| - 1], refused, m, cls);
    }
  }

  lemma {:induction false} OwnedWasSpare(cs: seq<Client>, ds: seq<Client>, m: nat, cls: string)
    requires |cs| == |ds|
    requires forall i | 0 <= i < |cs| :: ds[i].owner == m ==> cs[i].owner == 0 && cs[i].cls == ds[i].cls
    ensures multiset(OwnedClasses(ds, m))[cls] <= multiset(Spare(cs, {}))[cls]
  {
    if cs != [] {
      OwnedWasSpare(cs[..|cs| - 1], ds[..|ds| - 1], m, cls);
    }
  }

  /** All clients of `m` given up. */
  ghost function Released(cs: seq<Client>, m: nat): (r: seq<Client>)
    ensures |r| == |cs|
  {
    seq(|cs|, i requires 0 <= i < |cs| => if cs[i].owner == m then Unused(cs[i]) else cs[i])
  }

  lemma {:induction false} OwnedSame(cs: seq<Client>, ds: seq<Client>, m: nat)
    requires |cs| == |ds|
    requires forall i | 0 <= i < |cs| ::
               cs[i].owner == m || ds[i].owner == m ==> cs[i].owner == ds[i].owner && cs[i].cls == ds[i].cls
    ensures OwnedClasses(cs, m) == OwnedClasses(ds, m)
  {
    if cs != [] {
      OwnedSame(cs[..|cs| - 1], ds[..|cs| - 1], m);
    }
  }

  lemma {:induction false} OwnedNone(cs: seq<Client>, m: nat)
    ensures OwnedClasses(cs, m) == [] <==> forall i | 0 <= i < |cs| :: cs[i].owner != m
  {
    if cs != [] {
      var front := cs[..|cs| - 1];
      OwnedNone(front, m);
      if forall i | 0 <= i < |front| :: front[i].owner != m {
      } else {
        var i :| 0 <= i < |front| && front[i].owner == m;
        assert cs[i].owner == m;
      }
    }
  }

  lemma {:induction false} OwnedAdd(cs: seq<Client>, j: nat, c: Client, m: nat)
    requires j < |cs| && cs[j].owner != m && c.owner == m
    ensures multiset(OwnedClasses(cs[j := c], m)) == multiset(OwnedClasses(cs, m)) + multiset{c.cls}
    ensures |OwnedClasses(cs[j := c], m)| == |OwnedClasses(cs, m)| + 1
  {
    var ds, n := cs[j := c], |cs| - 1;
    if j == n {
      assert ds[..n] == cs[..n];
    } else {
      OwnedAdd(cs[..n], j, c, m);
      assert ds[..n] == cs[..n][j := c];
    }
    assert |multiset(OwnedClasses(ds, m))| == |multiset(OwnedClasses(cs, m))| + 1;
  }

  lemma ReleasedOwners(cs: seq<Client>, m: nat, m2: nat)
    requires m > 0 && m2 > 0
    ensures m2 == m ==> OwnedClasses(Released(cs, m), m2) == []
    ensures m2 != m ==> OwnedClasses(Released(cs, m), m2) == OwnedClasses(cs, m2)
  {
    if m == m2 {
      OwnedNone(Released(cs, m), m);
    } else {
      OwnedSame(cs, Released(cs, m), m2);
    }
  }

  // ---- Pairing clients with host entries

  /** How many owned clients of `cls` come before index `j`. */
  ghost function ClientRank(cs: seq<Client>, m: nat, j: nat, cls: string): nat
    requires j <= |cs|
  {
    multiset(OwnedClasses(cs[..j], m))[cls]
  }

  /** How many host entries of `cls` come before index `k`. */
  ghost function HostRank(hosts: seq<Host>, k: nat, cls: string): nat
    requires k <= |hosts|
  {
    multiset(Classes(hosts)[..k])[cls]
  }

  /** Client `j` goes with host entry `k`: same class, and the same place among those of that class. */
  ghost predicate Pairs(cs: seq<Client>, hosts: seq<Host>, j: nat, k: nat) {
    && j < |cs| && k < |hosts|
    && hosts[k].cls == cs[j].cls
    && ClientRank(cs, cs[j].owner, j, cs[j].cls) == HostRank(hosts, k, cs[j].cls)
  }

  ghost predicate HasClient(cs: seq<Client>, hosts: seq<Host>, m: nat, k: nat) {
    exists j: nat :: Pairs(cs, hosts, j, k) && cs[j].owner == m
  }

  /** The owned clients have exactly the classes the host list asks for. */
  ghost predicate Staffed(cs: seq<Client>, hosts: seq<Host>, m: nat) {
    multiset(OwnedClasses(cs, m)) == multiset(Classes(hosts))
  }

  lemma StaffedRanks(cs: seq<Client>, hosts: seq<Host>, m: nat, cls: string)
    requires Staffed(cs, hosts, m)
    ensures ClientRank(cs, m, |cs|, cls) == HostRank(hosts, |hosts|, cls)
  {
    assert cs[..|cs|] == cs && Classes(hosts)[..|hosts|] == Classes(hosts);
  }

  lemma HostRankStep(hosts: seq<Host>, k: nat, cls: string)
    requires k < |hosts|
    ensures HostRank(hosts, k + 1, cls) == HostRank(hosts, k, cls) + if hosts[k].cls == cls then 1 else 0
  {
    assert Classes(hosts)[..k + 1] == Classes(hosts)[..k] + [hosts[k].cls];
  }

  lemma ClientRankStep(cs: seq<Client>, m: nat, j: nat, cls: string)
    requires j < |cs|
    ensures ClientRank(cs, m, j + 1, cls) ==
            ClientRank(cs, m, j, cls) + if cs[j].owner == m && cs[j].cls == cls then 1 else 0
  {
    assert cs[..j + 1][..j] == cs[..j];
  }

  lemma {:induction false} HostRankMonotone(hosts: seq<Host>, k: nat, l: nat, cls: string)
    requires k <= l <= |hosts|
    ensures HostRank(hosts, k, cls) <= HostRank(hosts, l, cls)
    decreases l - k
  {
    if k < l {
      HostRankStep(hosts, k, cls);
      HostRankMonotone(hosts, k + 1, l, cls);
    }
  }

  lemma {:induction false} ClientRankMonotone(cs: seq<Client>, m: nat, j: nat, l: nat, cls: string)
    requires j <= l <= |cs|
    ensures ClientRank(cs, m, j, cls) <= ClientRank(cs, m, l, cls)
    decreases l - j
  {
    if j < l {
      ClientRankStep(cs, m, j, cls);
      ClientRankMonotone(cs, m, j + 1, l, cls);
    }
  }

  /** Ranks leave no gaps: every smaller rank belongs to an earlier entry of the class. */
  lemma {:induction false} HostAtRank(hosts: seq<Host>, n: nat, cls: string, r: nat) returns (k: nat)
    requires n <= |hosts| && r < HostRank(hosts, n, cls)
    ensures k < n && hosts[k].cls == cls && HostRank(hosts, k, cls) == r
    decreases n
  {
    HostRankStep(hosts, n - 1, cls);
    if hosts[n - 1].cls == cls && HostRank(hosts, n - 1, cls) == r {
      k := n - 1;
    } else {
      k := HostAtRank(hosts, n - 1, cls, r);
    }
  }

  lemma {:induction false} ClientAtRank(cs: seq<Client>, m: nat, n: nat, cls: string, r: nat) returns (j: nat)
    requires n <= |cs| && r < ClientRank(cs, m, n, cls)
    ensures j < n && cs[j].owner == m && cs[j].cls == cls && ClientRank(cs, m, j, cls) == r
    decreases n
  {
    ClientRankStep(cs, m, n - 1, cls);
    if cs[n - 1].owner == m && cs[n - 1].cls == cls && ClientRank(cs, m, n - 1, cls) == r {
      j := n - 1;
    } else {
      j := ClientAtRank(cs, m, n - 1, cls, r);
    }
  }

  /** A client has at most one partner, and so has a host entry. */
  lemma PartnerUnique(cs: seq<Client>, hosts: seq<Host>, m: nat, j: nat, k: nat, j2: nat, k2: nat)
    requires Pairs(cs, hosts, j, k) && Pairs(cs, hosts, j2, k2)
    requires cs[j].owner == m && cs[j2].owner == m
    ensures j == j2 <==> k == k2
  {
    if j == j2 {
      if k < k2 {
        HostRankStep(hosts, k, cs[j].cls);
        HostRankMonotone(hosts, k + 1, k2, cs[j].cls);
      } else if k2 < k {
        HostRankStep(hosts, k2, cs[j].cls);
        HostRankMonotone(hosts, k2 + 1, k, cs[j].cls);
      }
    } else if k == k2 {
      var a, b := if j < j2 then j else j2, if j < j2 then j2 else j;
      ClientRankStep(cs, m, a, cs[j].cls);
      ClientRankMonotone(cs, m, a + 1, b, cs[j].cls);
    }
  }

  /**
   * The pairing is a perfect matching of a staffed measurement: every owned client has exactly one host
   * entry, of its own class, and every host entry has exactly one owned client.
   */
  lemma PerfectMatching(cs: seq<Client>, hosts: seq<Host>, m: nat)
    requires Staffed(cs, hosts, m)
    ensures forall j: nat | j < |cs| && cs[j].owner == m :: exists k: nat :: Pairs(cs, hosts, j, k)
    ensures forall k: nat | k < |hosts| :: HasClient(cs, hosts, m, k)
    ensures forall j: nat, k: nat, j2: nat, k2: nat |
              Pairs(cs, hosts, j, k) && Pairs(cs, hosts, j2, k2) && cs[j].owner == m && cs[j2].owner == m ::
              j == j2 <==> k == k2
  {
    forall j: nat | j < |cs| && cs[j].owner == m ensures exists k: nat :: Pairs(cs, hosts, j, k) {
      StaffedRanks(cs, hosts, m, cs[j].cls);
      ClientRankStep(cs, m, j, cs[j].cls);
      ClientRankMonotone(cs, m, j + 1, |cs|, cs[j].cls);
      var k := HostAtRank(hosts, |hosts|, cs[j].cls, ClientRank(cs, m, j, cs[j].cls));
      assert Pairs(cs, hosts, j, k);
    }
    forall k: nat | k < |hosts| ensures HasClient(cs, hosts, m, k) {
      var cls := hosts[k].cls;
      StaffedRanks(cs, hosts, m, cls);
      HostRankStep(hosts, k, cls);
      HostRankMonotone(hosts, k + 1, |hosts|, cls);
      var j := ClientAtRank(cs, m, |cs|, cls, HostRank(hosts, k, cls));
      assert Pairs(cs, hosts, j, k);
    }
    forall j: nat, k: nat, j2: nat, k2: nat |
      Pairs(cs, hosts, j, k) && Pairs(cs, hosts, j2, k2) && cs[j].owner == m && cs[j2].owner == m
      ensures j == j2 <==> k == k2
    {
      PartnerUnique(cs, hosts, m, j, k, j2, k2);
    }
  }

  /** The pairing looks only at classes and owners. */
  lemma PairingSame(cs: seq<Client>, ds: seq<Client>, hosts: seq<Host>, m: nat, j: nat, k: nat)
    requires |cs| == |ds| && j < |cs| && cs[j].owner == m && Pairs(cs, hosts, j, k)
    requires forall i | 0 <= i < |cs| :: (cs[i].owner == m <==> ds[i].owner == m) && cs[i].cls == ds[i].cls
    ensures Pairs(ds, hosts, j, k)
  {
    OwnedSame(cs[..j], ds[..j], m);
  }
}
