/** From the lines of a schedule to the first world of a run, and what loading lets through that it should not. */
module Startup {
  import opened Sequences
  import opened Text
  import opened Schedule
  import opened ScheduleText
  import opened Generator
  import opened Clients
  import opened Protocol
  import opened Runs
  import opened Liveness
  import opened History
  import opened Looping
  import opened Starting
  import opened Crews
  import opened Outlasting
  import opened Succeeding
  import opened Aborts

  /** Clients as `tc_client_file_read` leaves them. */
  ghost predicate AsRead(cs: seq<Client>) {
    forall i | 0 <= i < |cs| :: cs[i] == Client(cs[i].cls, IsBg(cs[i].cls), -1, Invalid, 0)
  }

  /** A schedule loaded over what earlier ones left, and a client list, make a first world. */
  lemma LoadedInitial(cs: seq<Client>, tbl: Table, ms: seq<Measurement>)
    requires AsRead(cs) && Tracked(tbl) && AllComplete(tbl)
    requires NoDup(IdsOf(ms)) && DependsKnown(ms) && forall i | 0 <= i < |ms| :: Fresh(ms[i])
    ensures Initial(World(cs, Inserted(tbl, ms), {}))
  {
    hide Inserted, IdsOf, NoDup, DependsKnown, IsBg;
    FreshUnstarted(tbl, ms);
  }

  // ---- Boundaries of the load checks

  function Plain(id: nat, depends: seq<nat>): Measurement {
    Measurement(id, "F", 30, Waiting, [Host("a", 1, 1)], depends, [], 0)
  }

  function Cycle(): seq<Measurement> {
    [Plain(1, []), Plain(2, [3]), Plain(3, [2])]
  }

  /**
   * Loading accepts a cycle as long as something else can start: with 2 and 3 depending on each other the
   * load succeeds, but no run ever finishes.
   */
  lemma CycleIsLoaded()
    ensures NoDup(IdsOf(Cycle())) && DependsKnown(Cycle()) && Cycle()[0].depends == []
    ensures forall i | 0 <= i < |Cycle()| :: Fresh(Cycle()[i])
    ensures !Viable(Inserted(map[], Cycle()))
  {
    var ms := Cycle();
    assert IdsOf(ms) == [1, 2, 3];
    InsertedIsAll(map[], ms);
    hide Inserted;
    var tbl := Inserted(map[], ms);
    assert tbl[ms[1].id] == ms[1] && tbl[ms[2].id] == ms[2];
    assert 3 in tbl[2].depends && 2 in tbl[3].depends;
    assert Blocked(tbl, {2, 3});
  }

  /** Loading accepts a repeated depend, and the measurement that repeats it never starts. */
  lemma RepeatIsLoaded()
    ensures var ms := [Plain(1, []), Plain(2, [1, 1])];
      NoDup(IdsOf(ms)) && DependsKnown(ms) && (forall i | 0 <= i < |ms| :: Fresh(ms[i])) && ms[0].depends == [] &&
      !Viable(Inserted(map[], ms))
  {
    var ms := [Plain(1, []), Plain(2, [1, 1])];
    assert IdsOf(ms) == [1, 2];
    InsertedIsAll(map[], ms);
    var tbl := Inserted(map[], ms);
    assert tbl[2] == ms[1];
    assert tbl[2].depends[0] == tbl[2].depends[1];
    assert Blocked(tbl, {2});
  }

  function OneHost(fp: string, dur: nat, host: Host): Measurement {
    Measurement(1, fp, dur, Waiting, [host], [], [], 0)
  }

  lemma OneHostParses(fp: string, dur: nat, host: Host)
    requires IsWord(fp) && dur < U32_LIMIT
    requires IsName(host.cls) && host.cls != "bg" && host.bw < U32_LIMIT && host.conns < U32_LIMIT
    ensures FromLine(Line(OneHost(fp, dur, host), "0")) == Parsed(OneHost(fp, dur, host))
  {
    hide Line, FromLine, IsName, IsWord;
    ParsePrinted(OneHost(fp, dur, host), "0");
  }

  /** The first world of a schedule of one measurement without depends. */
  ghost function Sole(m: Measurement, cs: seq<Client>): World {
    World(cs, Inserted(map[], [m]), {})
  }

  lemma SoleReady(m: Measurement, cs: seq<Client>)
    requires AsRead(cs) && Fresh(m) && m.id == 1 && m.depends == []
    ensures Initial(Sole(m, cs)) && Sole(m, cs).table == map[1 := m] && CanBeReady(Sole(m, cs).table, 1)
    ensures !Panics(m) ==> CanStart(Sole(m, cs).table, 1)
  {
    hide Panics;
    var ms := [m];
    assert IdsOf(ms) == [1];
    InsertedIsAll(map[], ms);
    LoadedInitial(cs, map[], ms);
    hide Inserted, Initial;
    assert Inserted(map[], ms) == map[1 := ms[0]];
    CanStartIff(map[1 := m], 1);
  }

  /** The parser accepts a class that merely begins with "bg" with two connections; with such a client a run crashes. */
  lemma BadClassCrashes(cs: seq<Client>, i: nat)
    requires AsRead(cs) && i < |cs| && cs[i].cls == "bg2"
    ensures var m := OneHost("F", 30, Host("bg2", 5, 2));
      FromLine(Line(m, "0")) == Parsed(m) && exists log, e: Event :: Crashes(Sole(m, cs), log, e) && e.Send?
  {
    hide Line, FromLine, Initial, CanStart, CanBeReady, Crashes;
    var host := Host("bg2", 5, 2);
    var m := OneHost("F", 30, host);
    assert host.cls[2] == '2';
    OneHostParses("F", 30, host);
    SoleReady(m, cs);
    assert ClientClasses(cs)[i] == "bg2";
    assert Classes([host]) == ["bg2"];
    assert GetsStaffed(Sole(m, cs), 1);
    assert m.hosts[0].conns != 1 && IsBg(m.hosts[0].cls);
    NoThreatOutlasts(Sole(m, cs), 1, 1);
    AssertReached(Sole(m, cs));
  }

  /** It accepts a duration whose triple does not fit in 32 bits; with any client list a run crashes. */
  lemma BadDurationCrashes(cs: seq<Client>)
    requires AsRead(cs)
    ensures var m := OneHost("F", 2000000000, Host("a", 5, 2));
      FromLine(Line(m, "0")) == Parsed(m) && exists log, e: Event :: Crashes(Sole(m, cs), log, e) && e.Start?
  {
    hide Line, FromLine, Initial, CanStart, CanBeReady, Crashes;
    var m := OneHost("F", 2000000000, Host("a", 5, 2));
    OneHostParses("F", 2000000000, Host("a", 5, 2));
    SoleReady(m, cs);
    PanicReached(Sole(m, cs));
  }

  /** And a name with a NUL in it. */
  lemma BadNameCrashes(cs: seq<Client>)
    requires AsRead(cs)
    ensures var m := OneHost("F\0", 30, Host("a", 5, 2));
      FromLine(Line(m, "0")) == Parsed(m) && exists log, e: Event :: Crashes(Sole(m, cs), log, e) && e.Start?
  {
    hide Line, FromLine, Initial, CanStart, CanBeReady, Crashes;
    var m := OneHost("F\0", 30, Host("a", 5, 2));
    assert m.fp[1] == '\0';
    OneHostParses("F\0", 30, Host("a", 5, 2));
    SoleReady(m, cs);
    PanicReached(Sole(m, cs));
  }

  /** Two measurements without depends, the second of which panics when it is started. */
  function Doomed(host: Host): seq<Measurement> {
    [OneHost("F", 30, host), Measurement(2, "F", 2000000000, Waiting, [Host("a", 5, 2)], [], [], 0)]
  }

  ghost function DoomedWorld(host: Host, cs: seq<Client>): World {
    World(cs, Inserted(map[], Doomed(host)), {})
  }

  lemma DoomedTable(host: Host, cs: seq<Client>)
    requires AsRead(cs) && !HasNul(host.cls)
    ensures Initial(DoomedWorld(host, cs))
    ensures var tbl := DoomedWorld(host, cs).table;
      && tbl == map[1 := Doomed(host)[0], 2 := Doomed(host)[1]]
      && CanBeReady(tbl, 1) && CanBeReady(tbl, 2) && Panics(tbl[2]) && !Panics(tbl[1])
  {
    var ms := Doomed(host);
    assert IdsOf(ms) == [1, 2];
    InsertedIsAll(map[], ms);
    LoadedInitial(cs, map[], ms);
    hide Inserted, Initial;
    assert Inserted(map[], ms) == map[1 := ms[0], 2 := ms[1]] by {
      assert ms[0].id == 1 && ms[1].id == 2;
    }
    assert !HasNul("F") && !HasNul(host.cls);
  }

  lemma DoomedThreat(host: Host, cs: seq<Client>)
    requires AsRead(cs) && !HasNul(host.cls)
    ensures CanStart(DoomedWorld(host, cs).table, 1) && !CanStart(DoomedWorld(host, cs).table, 2)
    ensures Threatens(DoomedWorld(host, cs).table, 1, 2)
  {
    var w0 := DoomedWorld(host, cs);
    DoomedTable(host, cs);
    InitialPending(w0);
    hide Inserted, Initial, CanBeReady, Panics, NoDup;
    CanStartIff(w0.table, 1);
    CanStartIff(w0.table, 2);
    hide CanStart;
    assert Closed(w0.table, {2});
  }

  lemma DoomedLasts(host: Host, cs: seq<Client>, n: nat)
    requires AsRead(cs) && !HasNul(host.cls)
    ensures Outlasts(DoomedWorld(host, cs), 1, n) <==> n == 0
  {
    var w0 := DoomedWorld(host, cs);
    DoomedTable(host, cs);
    DoomedThreat(host, cs);
    hide Inserted, Doomed, Initial, CanBeReady, Panics, CanStart, Needs, Threatens, Beside, AsRead;
    NothingIndependent(w0.table, 1);
    NothingBeside(w0, 1, 2);
  }

  /**
   * Whatever clients there are and whatever its host entry asks for, a measurement gets nowhere when another
   * one is ready that panics: the first can be started, but in no run does it succeed or fail the assertion.
   */
  lemma DoomedGetsNowhere(host: Host, cs: seq<Client>)
    requires AsRead(cs) && !HasNul(host.cls)
    ensures CanStart(DoomedWorld(host, cs).table, 1)
    ensures !exists log ::
              var w0 := DoomedWorld(host, cs);
              && Looped(w0, log) && Enabled(Outcome(w0, log), Finish(1))
              && Allowed(PlaceOf(log), Outcome(w0, log), Finish(1))
    ensures !exists log, e: Event :: Crashes(DoomedWorld(host, cs), log, e) && e.Send?
  {
    var w0 := DoomedWorld(host, cs);
    DoomedTable(host, cs);
    DoomedThreat(host, cs);
    DoomedLasts(host, cs, 1);
    DoomedLasts(host, cs, 4);
    hide Initial, CanStart, CanBeReady, Panics, Outlasts, Crashes, Looped, Enabled, Allowed;
    SucceedsIff(w0, 1);
    AssertReached(w0);
  }

  // ---- Generated schedules

  /** Names without separators, numbers that fit, and "bg" meaning background at 125000 bytes per second. */
  ghost predicate ClassesOk(cm: ClassMap) {
    forall cls | cls in cm ::
      && IsName(cls) && cm[cls] < U32_LIMIT
      && (IsBg(cls) ==> cls == "bg")
      && (cls == "bg" ==> cm[cls] == 125000)
  }

  ghost predicate PlanOk(plan: Plan) {
    forall s: nat, fp | s < |plan| && fp in plan[s] :: IsWord(fp) && ClassesOk(plan[s][fp])
  }

  lemma ShareSmall(n: nat)
    requires n > 0
    ensures Share(n) <= TOTAL_CONNS
  {
  }

  lemma HostsPrintable(hosts: seq<Host>, cm: ClassMap)
    requires HostsFor(hosts, cm) && ClassesOk(cm)
    ensures hosts != [] && BackgroundOk(hosts)
    ensures forall i | 0 <= i < |hosts| ::
              && IsName(hosts[i].cls) && hosts[i].bw < U32_LIMIT && hosts[i].conns < U32_LIMIT
              && (IsBg(hosts[i].cls) ==> hosts[i].conns == 1)
  {
    hide IsName, IsBg;
    var other :| other in Others(cm);
    assert other in ToSet(Classes(hosts));
    ShareSmall(|Others(cm)|);
    forall i, j | 0 <= i < j < |hosts| ensures !(hosts[i].cls == "bg" && hosts[j].cls == "bg") {
      assert Classes(hosts)[i] != Classes(hosts)[j];
    }
  }

  /** Depends point back: each names an earlier measurement of the set before. */
  lemma DependsPointBack(ms: seq<Measurement>, layer: seq<nat>, i: nat)
    requires Layered(ms, layer) && i < |ms|
    ensures NoDup(ms[i].depends)
    ensures forall d :: d in ms[i].depends <==> layer[i] > 0 && 1 <= d <= i && layer[d - 1] == layer[i] - 1
  {
    if layer[i] > 0 {
      LayerIdsRange(layer, layer[i] - 1);
    }
  }

  lemma DependsPrintable(ms: seq<Measurement>, layer: seq<nat>, i: nat)
    requires Layered(ms, layer) && i < |ms| < U32_LIMIT
    ensures ms[i].id == i + 1 && ms[i].status == Waiting && ms[i].finished == [] && ms[i].deadline == 0
    ensures ms[i].id !in ms[i].depends && forall k | 0 <= k < |ms[i].depends| :: 0 < ms[i].depends[k] < U32_LIMIT
  {
    DependsPointBack(ms, layer, i);
    forall k | 0 <= k < |ms[i].depends| ensures 0 < ms[i].depends[k] < U32_LIMIT {
      assert ms[i].depends[k] in ms[i].depends;
    }
  }

  lemma GeneratedPrintable(plan: Plan, lines: seq<string>, ms: seq<Measurement>, layer: seq<nat>, i: nat)
    requires Generated(plan, lines, ms, layer) && PlanOk(plan) && i < |ms| < U32_LIMIT
    ensures Printable(ms[i]) && Fresh(ms[i])
  {
    hide IsName, IsWord, IsBg, Listed, NoneTwice, LineFor, BackgroundOk, Layered, HostsFor, ClassesOk;
    DependsPrintable(ms, layer, i);
    assert Serves(plan, ms[i], layer[i]);
    var s, fp := layer[i], ms[i].fp;
    assert s < |plan| && fp in plan[s];
    assert IsWord(fp) && ClassesOk(plan[s][fp]);
    HostsPrintable(ms[i].hosts, plan[s][fp]);
  }

  /** Every generated line is read back as the measurement it was generated for. */
  lemma GeneratedParses(plan: Plan, lines: seq<string>, ms: seq<Measurement>, layer: seq<nat>, i: nat)
    requires Generated(plan, lines, ms, layer) && PlanOk(plan) && i < |ms| < U32_LIMIT
    ensures FromLine(lines[i]) == Parsed(ms[i])
  {
    GeneratedPrintable(plan, lines, ms, layer, i);
    hide Printable, Line, FromLine, DependText;
    assert LineFor(lines[i], ms[i]);
    var dep :| DependText(ms[i].depends, dep) && lines[i] == Line(ms[i], dep);
    ParsePrinted(ms[i], dep);
  }

  /** A generated schedule passes the load checks. */
  lemma GeneratedLoads(ms: seq<Measurement>, layer: seq<nat>)
    requires Layered(ms, layer)
    ensures NoDup(IdsOf(ms)) && DependsKnown(ms)
    ensures ms != [] ==> ms[0].depends == []
  {
    forall i | 0 <= i < |ms| ensures forall d | d in ms[i].depends :: d in IdsOf(ms) {
      DependsPointBack(ms, layer, i);
      forall d | d in ms[i].depends ensures d in IdsOf(ms) {
        assert IdsOf(ms)[d - 1] == d;
      }
    }
    if ms != [] {
      DependsPointBack(ms, layer, 0);
      assert ToSet(ms[0].depends) == {};
      SetSize(ms[0].depends);
    }
  }

  lemma EntryOrdered(ms: seq<Measurement>, layer: seq<nat>, i: nat)
    requires Layered(ms, layer) && i < |ms|
    ensures NoDup(ms[i].depends) && forall d | d in ms[i].depends :: d in IdsOf(ms)[..i]
    ensures ms[i].status == Waiting
  {
    DependsPointBack(ms, layer, i);
    forall d | d in ms[i].depends ensures d in IdsOf(ms)[..i] {
      assert IdsOf(ms)[..i][d - 1] == d;
    }
  }

  lemma IdsOrder(tbl: Table, ms: seq<Measurement>)
    requires forall i | 0 <= i < |ms| :: ms[i].id in tbl && tbl[ms[i].id] == ms[i] && ms[i].status == Waiting
    requires forall i | 0 <= i < |ms| :: NoDup(ms[i].depends) && forall d | d in ms[i].depends :: d in IdsOf(ms)[..i]
    requires forall i | 0 <= i < |ms| :: !Panics(ms[i])
    ensures PartlyOrdered(tbl, IdsOf(ms))
  {
    hide NoDup, Panics;
    forall i | 0 <= i < |ms|
      ensures IdsOf(ms)[i] in Pending(tbl) && NoDup(tbl[IdsOf(ms)[i]].depends) && !Panics(tbl[IdsOf(ms)[i]])
      ensures forall d | d in tbl[IdsOf(ms)[i]].depends :: d in IdsOf(ms)[..i]
    {
      assert IdsOf(ms)[i] == ms[i].id;
    }
  }

  /** The ids of a layered schedule in their own order are a topological order. */
  lemma LayeredOrdered(ms: seq<Measurement>, layer: seq<nat>)
    requires Layered(ms, layer) && forall i | 0 <= i < |ms| :: !Panics(ms[i])
    ensures Ordered(Inserted(map[], ms), IdsOf(ms))
  {
    hide Inserted, Layered, NoDup, DependsKnown, IdsOf, PartlyOrdered, Panics;
    GeneratedLoads(ms, layer);
    InsertedIsAll(map[], ms);
    forall i | 0 <= i < |ms|
      ensures NoDup(ms[i].depends) && forall d | d in ms[i].depends :: d in IdsOf(ms)[..i]
      ensures ms[i].status == Waiting
    {
      EntryOrdered(ms, layer, i);
    }
    IdsOrder(Inserted(map[], ms), ms);
  }

  lemma LayeredIds(ms: seq<Measurement>, layer: seq<nat>)
    requires Layered(ms, layer)
    ensures forall k :: k in IdsOf(ms) <==> 1 <= k <= |ms|
  {
    forall k ensures k in IdsOf(ms) <==> 1 <= k <= |ms| {
      if 1 <= k <= |ms| {
        assert IdsOf(ms)[k - 1] == k;
      }
    }
  }

  lemma LayeredKeys(ms: seq<Measurement>)
    requires NoDup(IdsOf(ms))
    ensures forall k :: k in Inserted(map[], ms) <==> k in IdsOf(ms)
  {
    InsertedIsAll(map[], ms);
  }

  lemma LayeredEntry(ms: seq<Measurement>, layer: seq<nat>, k: nat)
    requires Layered(ms, layer)
    ensures k in Inserted(map[], ms) <==> 1 <= k <= |ms|
    ensures 1 <= k <= |ms| ==>
              k in Inserted(map[], ms) && Inserted(map[], ms)[k] == ms[k - 1] && ms[k - 1].status == Waiting
  {
    LayeredIds(ms, layer);
    GeneratedLoads(ms, layer);
    LayeredKeys(ms);
    hide Inserted, NoDup, DependsKnown, IdsOf;
    if k in IdsOf(ms) {
      var i := EntryOf(map[], ms, k);
    }
  }

  /** The table of a layered schedule: id `i + 1` holds the measurement at index `i`, waiting. */
  lemma LayeredTable(ms: seq<Measurement>, layer: seq<nat>)
    requires Layered(ms, layer)
    ensures |ms| == |layer|
    ensures forall k :: k in Pending(Inserted(map[], ms)) <==> 1 <= k <= |ms|
    ensures forall k | 1 <= k <= |ms| :: k in Inserted(map[], ms) && Inserted(map[], ms)[k] == ms[k - 1]
  {
    hide Inserted;
    assert |ms| == |layer|;
    hide Layered;
    forall k: nat
      ensures k in Pending(Inserted(map[], ms)) <==> 1 <= k <= |ms|
      ensures 1 <= k <= |ms| ==> k in Inserted(map[], ms) && Inserted(map[], ms)[k] == ms[k - 1]
    {
      LayeredEntry(ms, layer, k);
    }
  }

  /** A schedule laid out like a generated one can be run to the end exactly when no measurement in it panics. */
  lemma LayeredViableIff(ms: seq<Measurement>, layer: seq<nat>)
    requires Layered(ms, layer)
    ensures Viable(Inserted(map[], ms)) <==> forall i | 0 <= i < |ms| :: !Panics(ms[i])
  {
    hide Inserted, Ordered, Panics;
    if forall i | 0 <= i < |ms| :: !Panics(ms[i]) {
      LayeredOrdered(ms, layer);
      OrderedViable(Inserted(map[], ms), IdsOf(ms));
    } else {
      var i :| 0 <= i < |ms| && Panics(ms[i]);
      LayeredTable(ms, layer);
      assert Inserted(map[], ms)[i + 1] == ms[i];
      assert Blocked(Inserted(map[], ms), {i + 1});
    }
  }

  ghost predicate NoNuls(plan: Plan) {
    forall s: nat, fp | s < |plan| && fp in plan[s] :: !HasNul(fp) && forall cls | cls in plan[s][fp] :: !HasNul(cls)
  }

  lemma NamesFrom(hosts: seq<Host>, cm: ClassMap)
    requires HostsFor(hosts, cm) && forall cls | cls in cm :: !HasNul(cls)
    ensures forall i | 0 <= i < |hosts| :: !HasNul(hosts[i].cls)
  {
    hide HasNul, Others, Share;
  }

  lemma GeneratedSound(plan: Plan, lines: seq<string>, ms: seq<Measurement>, layer: seq<nat>, i: nat)
    requires Generated(plan, lines, ms, layer) && PlanOk(plan) && NoNuls(plan) && i < |ms|
    ensures !Panics(ms[i]) && !MisusesBg(ms[i])
  {
    hide IsName, IsWord, IsBg, Listed, NoneTwice, LineFor, BackgroundOk, Layered, HostsFor, ClassesOk, HasNul;
    assert Serves(plan, ms[i], layer[i]);
    var s, fp := layer[i], ms[i].fp;
    assert s < |plan| && fp in plan[s];
    assert IsWord(fp) && ClassesOk(plan[s][fp]);
    assert !HasNul(fp) && forall cls | cls in plan[s][fp] :: !HasNul(cls);
    HostsPrintable(ms[i].hosts, plan[s][fp]);
    NamesFrom(ms[i].hosts, plan[s][fp]);
  }

  lemma GeneratedNoPanic(plan: Plan, lines: seq<string>, ms: seq<Measurement>, layer: seq<nat>)
    requires Generated(plan, lines, ms, layer) && PlanOk(plan) && NoNuls(plan)
    ensures Layered(ms, layer) && |ms| == |layer| && forall i | 0 <= i < |ms| :: !Panics(ms[i])
  {
    hide Panics, MisusesBg, PlanOk, NoNuls, Serves, LineFor, Listed;
    forall i | 0 <= i < |ms| ensures !Panics(ms[i]) {
      GeneratedSound(plan, lines, ms, layer, i);
    }
  }

  /** A schedule generated from names without NULs can be run to the end. */
  lemma GeneratedViable(plan: Plan, lines: seq<string>, ms: seq<Measurement>, layer: seq<nat>)
    requires Generated(plan, lines, ms, layer) && PlanOk(plan) && NoNuls(plan)
    ensures Viable(Inserted(map[], ms))
  {
    hide Generated, Panics, PlanOk, NoNuls, Viable, Inserted, Layered;
    GeneratedNoPanic(plan, lines, ms, layer);
    LayeredViableIff(ms, layer);
  }

  /** And nothing can stop the program on it, whatever the client list. */
  lemma GeneratedHarmless(plan: Plan, lines: seq<string>, ms: seq<Measurement>, layer: seq<nat>, cs: seq<Client>)
    requires Generated(plan, lines, ms, layer) && PlanOk(plan) && NoNuls(plan)
    ensures Harmless(World(cs, Inserted(map[], ms), {}))
  {
    GeneratedLoads(ms, layer);
    InsertedIsAll(map[], ms);
    hide Generated, Inserted, CanBeReady, GetsStaffed, Panics, MisusesBg, PlanOk, NoNuls, DependsKnown;
    forall k | k in Inserted(map[], ms) ensures !Panics(Inserted(map[], ms)[k]) && !MisusesBg(Inserted(map[], ms)[k]) {
      var i := EntryOf(map[], ms, k);
      GeneratedSound(plan, lines, ms, layer, i);
    }
  }

  // ---- Sets run one after another

  ghost predicate NoGap(layer: seq<nat>, lo: nat, hi: nat) {
    forall s | lo < s < hi :: s in layer
  }

  /** Id `k` is that of measurement `j`, or of one in an earlier set from which no empty set separates it. */
  ghost predicate Leads(layer: seq<nat>, k: nat, j: nat)
    requires j < |layer|
  {
    1 <= k <= |layer| && (k - 1 == j || (layer[k - 1] < layer[j] && NoGap(layer, layer[k - 1], layer[j])))
  }

  ghost function Behind(layer: seq<nat>, j: nat): set<nat>
    requires j < |layer|
  {
    set k: nat | k <= |layer| && Leads(layer, k, j)
  }

  lemma LeadsBack(layer: seq<nat>, k: nat, d: nat, j: nat)
    requires j < |layer| && Leads(layer, k, j)
    requires 1 <= d <= |layer| && layer[k - 1] > 0 && layer[d - 1] == layer[k - 1] - 1
    ensures Leads(layer, d, j)
  {
    forall s | layer[d - 1] < s < layer[j] ensures s in layer {
      assert layer[k - 1] in layer;
    }
  }

  lemma BehindClosed(ms: seq<Measurement>, layer: seq<nat>, j: nat)
    requires Layered(ms, layer) && j < |layer|
    ensures Closed(Inserted(map[], ms), Behind(layer, j))
  {
    LayeredTable(ms, layer);
    hide Inserted, Layered, Pending, NoGap;
    var tbl := Inserted(map[], ms);
    forall k | k in Behind(layer, j)
      ensures k in Pending(tbl) && forall d | d in tbl[k].depends :: d in Behind(layer, j)
    {
      DependsPointBack(ms, layer, k - 1);
      forall d | d in tbl[k].depends ensures d in Behind(layer, j) {
        LeadsBack(layer, k, d, j);
      }
    }
  }

  lemma {:induction false} GapFreeReached(ms: seq<Measurement>, layer: seq<nat>, j: nat, i: nat, s: set<nat>)
    requires Layered(ms, layer) && j < |ms| && i < |ms|
    requires layer[i] < layer[j] && NoGap(layer, layer[i], layer[j])
    requires Closed(Inserted(map[], ms), s) && j + 1 in s
    ensures i + 1 in s
    decreases j
  {
    LayeredTable(ms, layer);
    DependsPointBack(ms, layer, j);
    hide Inserted, Pending;
    var t := layer[j] - 1;
    if layer[i] == t {
      assert i < j;
      assert i + 1 in ms[j].depends;
    } else {
      assert t in layer;
      var k :| 0 <= k < |layer| && layer[k] == t;
      assert k < j;
      assert k + 1 in ms[j].depends;
      GapFreeReached(ms, layer, k, i, s);
    }
  }

  /** A measurement needs one of an earlier set exactly when no set between the two is empty. */
  lemma NeedsIffNoGap(ms: seq<Measurement>, layer: seq<nat>, j: nat, i: nat)
    requires Layered(ms, layer) && j < |ms| && i < |ms|
    ensures Needs(Inserted(map[], ms), j + 1, i + 1) <==> layer[i] < layer[j] && NoGap(layer, layer[i], layer[j])
  {
    hide Layered, NoGap, Closed, Inserted;
    LayeredTable(ms, layer);
    var tbl := Inserted(map[], ms);
    if layer[i] < layer[j] && NoGap(layer, layer[i], layer[j]) {
      forall s: set<nat> | Closed(tbl, s) && j + 1 in s ensures i + 1 in s {
        GapFreeReached(ms, layer, j, i, s);
      }
    }
    BehindClosed(ms, layer, j);
    assert j + 1 in Behind(layer, j);
  }

  lemma LayeredDepends(ms: seq<Measurement>, layer: seq<nat>)
    requires Layered(ms, layer)
    ensures DependsPending(Inserted(map[], ms))
  {
    LayeredTable(ms, layer);
    hide Inserted, Pending, Layered;
    var tbl := Inserted(map[], ms);
    forall k, d | k in Pending(tbl) && d in tbl[k].depends ensures d in Pending(tbl) {
      DependsPointBack(ms, layer, k - 1);
    }
  }

  /** What leads to a measurement that `j` depends on leads to `j`. */
  lemma LeadsThrough(layer: seq<nat>, k: nat, d: nat, j: nat)
    requires j < |layer| && d < |layer| && layer[j] > 0 && layer[d] == layer[j] - 1 && Leads(layer, k, d)
    ensures Leads(layer, k, j)
  {
    forall s | layer[k - 1] < s < layer[j] ensures s in layer {
      assert layer[d] in layer;
    }
  }

  /** Neither measurement `j` nor anything that leads to it panics. */
  ghost predicate SoundBehind(ms: seq<Measurement>, layer: seq<nat>, j: nat)
    requires |ms| == |layer| && j < |layer|
  {
    forall k | k in Behind(layer, j) :: !Panics(ms[k - 1])
  }

  lemma SoundSmaller(ms: seq<Measurement>, layer: seq<nat>, d: nat, j: nat)
    requires |ms| == |layer| && j < |layer| && d < |layer| && layer[j] > 0 && layer[d] == layer[j] - 1
    requires SoundBehind(ms, layer, j)
    ensures SoundBehind(ms, layer, d)
  {
    hide Panics, NoGap, Leads;
    forall k | k in Behind(layer, d) ensures k in Behind(layer, j) {
      LeadsThrough(layer, k, d, j);
    }
  }

  lemma SoundHere(ms: seq<Measurement>, layer: seq<nat>, j: nat)
    requires |ms| == |layer| && j < |layer| && SoundBehind(ms, layer, j)
    ensures !Panics(ms[j])
  {
    assert j + 1 in Behind(layer, j);
  }

  /** The entry of measurement `j` in the table of a layered schedule. */
  lemma LayeredRow(ms: seq<Measurement>, layer: seq<nat>, j: nat)
    requires Layered(ms, layer) && |ms| == |layer| && j < |layer|
    ensures j + 1 in Pending(Inserted(map[], ms)) && Inserted(map[], ms)[j + 1] == ms[j] && NoDup(ms[j].depends)
    ensures forall d | d in ms[j].depends :: 1 <= d <= j && layer[j] > 0 && layer[d - 1] == layer[j] - 1
  {
    LayeredEntry(ms, layer, j + 1);
    DependsPointBack(ms, layer, j);
  }

  lemma {:induction false} SoundCanStart(ms: seq<Measurement>, layer: seq<nat>, j: nat)
    requires Layered(ms, layer) && |ms| == |layer| && j < |layer| && SoundBehind(ms, layer, j)
    ensures CanStart(Inserted(map[], ms), j + 1)
    decreases j
  {
    hide Inserted, Pending, Layered, Panics, CanStart, SoundBehind, NoDup;
    LayeredRow(ms, layer, j);
    LayeredDepends(ms, layer);
    SoundHere(ms, layer, j);
    forall d | d in ms[j].depends ensures CanStart(Inserted(map[], ms), d) {
      SoundSmaller(ms, layer, d - 1, j);
      SoundCanStart(ms, layer, d - 1);
    }
    CanStartIff(Inserted(map[], ms), j + 1);
  }

  lemma LeaderCanStart(ms: seq<Measurement>, layer: seq<nat>, j: nat, k: nat)
    requires Layered(ms, layer) && |ms| == |layer| && j < |layer| && CanStart(Inserted(map[], ms), j + 1)
    requires k in Behind(layer, j)
    ensures !Panics(ms[k - 1])
  {
    hide Inserted, Layered, Panics, Pending, NoGap, CanStart, Needs, CanBeReady;
    LayeredDepends(ms, layer);
    LayeredEntry(ms, layer, k);
    NeedsIffNoGap(ms, layer, j, k - 1);
    NeededCanStart(Inserted(map[], ms), j + 1, k);
    CanStartIff(Inserted(map[], ms), k);
  }

  /** A measurement can be started exactly when neither it nor anything that leads to it panics. */
  lemma LayeredCanStart(ms: seq<Measurement>, layer: seq<nat>, j: nat)
    requires Layered(ms, layer) && |ms| == |layer| && j < |layer|
    ensures CanStart(Inserted(map[], ms), j + 1) <==> SoundBehind(ms, layer, j)
  {
    hide Inserted, Layered, Panics, CanStart;
    if CanStart(Inserted(map[], ms), j + 1) {
      forall k | k in Behind(layer, j) ensures !Panics(ms[k - 1]) {
        LeaderCanStart(ms, layer, j, k);
      }
    }
    if SoundBehind(ms, layer, j) {
      SoundCanStart(ms, layer, j);
    }
  }

  lemma InPending(ms: seq<Measurement>, layer: seq<nat>, i: nat)
    requires Layered(ms, layer) && i < |ms|
    ensures i + 1 in Pending(Inserted(map[], ms))
  {
    LayeredTable(ms, layer);
  }

  /**
   * In every run of a schedule laid out like a generated one, a measurement of one set has ended when one of
   * another starts, if and only if its set is the earlier one and no set between the two is empty, or the
   * other is never started because something that leads to it panics. An empty set erases the dependency
   * text, and some run starts what follows it at once.
   */
  lemma SetsInOrderIffNoGap(w0: World, ms: seq<Measurement>, layer: seq<nat>, j: nat, i: nat)
    requires Initial(w0) && Layered(ms, layer) && w0.table == Inserted(map[], ms)
    requires |ms| == |layer| && j < |layer| && i < |layer|
    ensures AlwaysEndsFirst(w0, i + 1, j + 1) <==>
            (layer[i] < layer[j] && NoGap(layer, layer[i], layer[j])) || !SoundBehind(ms, layer, j)
  {
    hide Initial, Inserted, Layered, NoGap, Needs, CanStart, AlwaysEndsFirst, SoundBehind, Pending;
    NeedsIffNoGap(ms, layer, j, i);
    LayeredCanStart(ms, layer, j);
    InPending(ms, layer, j);
    InPending(ms, layer, i);
    EndsFirstIffNeeded(w0, j + 1, i + 1);
  }

  /** For a schedule generated from names without NULs: sets run one after another, except across an empty one. */
  lemma GeneratedInOrder(plan: Plan, lines: seq<string>, w0: World, ms: seq<Measurement>, layer: seq<nat>, j: nat,
                         i: nat)
    requires Generated(plan, lines, ms, layer) && PlanOk(plan) && NoNuls(plan)
    requires Initial(w0) && w0.table == Inserted(map[], ms) && j < |layer| && i < |layer|
    ensures AlwaysEndsFirst(w0, i + 1, j + 1) <==> layer[i] < layer[j] && NoGap(layer, layer[i], layer[j])
  {
    hide Generated, Panics, PlanOk, NoNuls, Inserted, Initial, AlwaysEndsFirst, NoGap, Layered;
    GeneratedNoPanic(plan, lines, ms, layer);
    SetsInOrderIffNoGap(w0, ms, layer, j, i);
  }
}
