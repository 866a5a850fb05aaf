/** The schedule generator: one line for every relay of every set, each depending on the whole set before. */
module Generator {
  import opened Sequences
  import opened Text
  import opened Schedule
  import opened ScheduleText

  /** One relay's classes with their bandwidths in bytes per second. */
  type ClassMap = map<string, nat>

  /** The JSON input: a list of sets, each giving relays their class maps. */
  type Plan = seq<map<string, ClassMap>>

  const TOTAL_CONNS: nat := 160

  function Others(cm: ClassMap): set<string> {
    cm.Keys - {"bg"}
  }

  /** Connections for each host that is not a background host: 160 shared out, rounded up. */
  function Share(n: nat): (c: nat)
    requires n > 0
    ensures 160 <= c * n < 160 + n
  {
    var conn := TOTAL_CONNS / n;
    if conn * n < TOTAL_CONNS then
      assert (conn + 1) * n == conn * n + n;
      conn + 1
    else conn
  }

  function Sum(ns: seq<nat>): nat {
    if ns == [] then 0 else Sum(ns[..|ns| - 1]) + ns[|ns| - 1]
  }

  /** The hosts list every class once, with its bandwidth and its connections. */
  ghost predicate HostsFor(hosts: seq<Host>, cm: ClassMap) {
    && Others(cm) != {}
    && NoDup(Classes(hosts)) && ToSet(Classes(hosts)) == cm.Keys
    && forall i | 0 <= i < |hosts| ::
         && hosts[i].cls in cm && hosts[i].bw == cm[hosts[i].cls]
         && hosts[i].conns == if hosts[i].cls == "bg" then 1 else Share(|Others(cm)|)
  }

  /** The classes of one relay in the arbitrary order of a hash map, with their bandwidths. */
  method CollectClasses(cm: ClassMap) returns (classes: seq<string>, bws: seq<nat>)
    ensures |classes| == |bws| && NoDup(classes) && ToSet(classes) == cm.Keys
    ensures forall i | 0 <= i < |classes| :: classes[i] in cm && bws[i] == cm[classes[i]]
  {
    classes, bws := [], [];
    var todo := cm.Keys;
    while todo != {}
      invariant |classes| == |bws| && NoDup(classes)
      invariant todo <= cm.Keys && ToSet(classes) == cm.Keys - todo
      invariant forall i | 0 <= i < |classes| :: classes[i] in cm && bws[i] == cm[classes[i]]
      decreases todo
    {
      var cls :| cls in todo;
      assert cls !in ToSet(classes);
      assert ToSet(classes + [cls]) == ToSet(classes) + {cls};
      classes, bws := classes + [cls], bws + [cm[cls]];
      todo := todo - {cls};
    }
  }

  lemma LastOut(classes: seq<string>)
    requires classes != [] && NoDup(classes)
    ensures var front, last := classes[..|classes| - 1], classes[|classes| - 1];
      NoDup(front) && last !in ToSet(front) && ToSet(classes) == ToSet(front) + {last} &&
      |ToSet(classes) - {"bg"}| == |ToSet(front) - {"bg"}| + if last == "bg" then 0 else 1
  {
    var front, last := classes[..|classes| - 1], classes[|classes| - 1];
    assert classes == front + [last];
    assert last !in ToSet(front);
    if last == "bg" {
      assert ToSet(classes) - {"bg"} == ToSet(front) - {"bg"};
    } else {
      assert ToSet(classes) - {"bg"} == (ToSet(front) - {"bg"}) + {last};
    }
  }

  function Times(c: nat, k: nat): (p: nat)
    ensures p == c * k
  {
    if k == 0 then 0 else
      assert c * k == c * (k - 1) + c;
      Times(c, k - 1) + c
  }

  /** How many entries are not background. */
  function Normal(classes: seq<string>): (n: nat)
    ensures n <= |classes|
  {
    if classes == [] then 0 else Normal(classes[..|classes| - 1]) + if classes[|classes| - 1] == "bg" then 0 else 1
  }

  /** The entries that are not background get `c` connections each. */
  lemma {:induction false} SumCounted(classes: seq<string>, conns: seq<nat>, c: nat)
    requires |classes| == |conns|
    requires forall i | 0 <= i < |classes| :: conns[i] == if classes[i] == "bg" then 1 else c
    ensures Sum(conns) == Times(c, Normal(classes)) + |classes| - Normal(classes)
  {
    if classes != [] {
      var n := |classes| - 1;
      SumCounted(classes[..n], conns[..n], c);
    }
  }

  lemma {:induction false} BgOnce(classes: seq<string>)
    requires NoDup(classes)
    ensures |classes| - Normal(classes) == if "bg" in ToSet(classes) then 1 else 0
    ensures |ToSet(classes) - {"bg"}| == Normal(classes)
  {
    if classes == [] {
      assert ToSet(classes) - {"bg"} == {};
    } else {
      hide ToSet, NoDup;
      LastOut(classes);
      BgOnce(classes[..|classes| - 1]);
    }
  }

  /**
   * The connections add up to 160 shared out over the hosts that are not background, plus one for a
   * background host: at least 160 and fewer than 160 plus one for each of them.
   */
  lemma TotalConnections(hosts: seq<Host>, cm: ClassMap)
    requires HostsFor(hosts, cm)
    ensures var extra := if "bg" in cm then 1 else 0; var n := |Others(cm)|;
      160 + extra <= Sum(Conns(hosts)) < 160 + n + extra
  {
    SumCounted(Classes(hosts), Conns(hosts), Share(|Others(cm)|));
    BgOnce(Classes(hosts));
    assert ToSet(Classes(hosts)) - {"bg"} == Others(cm);
    assert "bg" in cm <==> "bg" in ToSet(Classes(hosts));
  }

  method FillConns(classes: seq<string>, conn: nat) returns (conns: seq<nat>)
    ensures |conns| == |classes|
    ensures forall i | 0 <= i < |classes| :: conns[i] == if classes[i] == "bg" then 1 else conn
  {
    conns := [];
    var i := 0;
    while i < |classes|
      invariant 0 <= i <= |classes| && |conns| == i
      invariant forall k | 0 <= k < i :: conns[k] == if classes[k] == "bg" then 1 else conn
    {
      conns := conns + [if classes[i] == "bg" then 1 else conn];
      i := i + 1;
    }
  }

  lemma OthersSize(cm: ClassMap)
    ensures |Others(cm)| == |cm.Keys| - if "bg" in cm then 1 else 0
    ensures Others(cm) == {} <==> |Others(cm)| == 0
  {
    if "bg" in cm {
      assert cm.Keys == Others(cm) + {"bg"};
    } else {
      assert cm.Keys == Others(cm);
    }
  }

  /** The connection count of every class; `None` stands for the division by zero when only "bg" is there. */
  method ConnsFor(classes: seq<string>, ghost cm: ClassMap) returns (r: Option<seq<nat>>)
    requires NoDup(classes) && ToSet(classes) == cm.Keys
    ensures r.Some? <==> Others(cm) != {}
    ensures r.Some? ==> |r.value| == |classes|
    ensures r.Some? ==>
              forall i | 0 <= i < |classes| :: r.value[i] == if classes[i] == "bg" then 1 else Share(|Others(cm)|)
  {
    var hasBg := "bg" in classes;
    assert hasBg <==> "bg" in ToSet(classes);
    SetSize(classes);
    OthersSize(cm);
    var n := if hasBg then |classes| - 1 else |classes|;
    if n == 0 {
      return None;
    }
    var conn := TOTAL_CONNS / n;
    if conn * n < TOTAL_CONNS {
      conn := conn + 1;
    }
    assert conn == Share(n);
    var conns := FillConns(classes, conn);
    r := Some(conns);
  }

  // ---- The whole schedule

  /** The ids of the measurements of set `s`; the measurement at index `i` has id `i + 1`. */
  function LayerIds(layer: seq<nat>, s: nat): seq<nat> {
    if layer == [] then [] else
      LayerIds(layer[..|layer| - 1], s) + if layer[|layer| - 1] == s then [|layer|] else []
  }

  function DependIds(layer: seq<nat>, s: nat): seq<nat> {
    if s == 0 then [] else LayerIds(layer, s - 1)
  }

  /** `ms[i]` belongs to set `layer[i]`: ids count up through the sets, and each set depends on the one before. */
  ghost predicate Layered(ms: seq<Measurement>, layer: seq<nat>) {
    && |ms| == |layer|
    && (forall i, j | 0 <= i < j < |layer| :: layer[i] <= layer[j])
    && (forall i | 0 <= i < |ms| ::
          ms[i].id == i + 1 && ms[i].status == Waiting && ms[i].finished == [] && ms[i].deadline == 0)
    && (forall i | 0 <= i < |ms| :: ms[i].depends == DependIds(layer, layer[i]))
  }

  /** The line is the printed form of the measurement. */
  ghost predicate LineFor(line: string, m: Measurement) {
    exists dep :: DependText(m.depends, dep) && line == Line(m, dep)
  }

  /** The measurement at index `i` is for a relay of its set, with that relay's hosts and 30 seconds. */
  ghost predicate Serves(plan: Plan, m: Measurement, s: nat) {
    s < |plan| && m.fp in plan[s] && HostsFor(m.hosts, plan[s][m.fp]) && m.dur == 30
  }

  ghost predicate Listed(ms: seq<Measurement>, layer: seq<nat>, t: nat, fp: string) {
    exists i :: 0 <= i < |ms| && i < |layer| && layer[i] == t && ms[i].fp == fp
  }

  ghost predicate EachServes(plan: Plan, ms: seq<Measurement>, layer: seq<nat>) {
    |ms| == |layer| && forall i | 0 <= i < |ms| :: Serves(plan, ms[i], layer[i])
  }

  ghost predicate NoneTwice(ms: seq<Measurement>, layer: seq<nat>) {
    |ms| == |layer| && forall i, j | 0 <= i < j < |ms| && layer[i] == layer[j] :: ms[i].fp != ms[j].fp
  }

  /** Every relay of every set before `s`, and of set `s` exactly those not in `todo`, has a measurement. */
  ghost predicate Covers(plan: Plan, ms: seq<Measurement>, layer: seq<nat>, s: nat, todo: set<string>) {
    && |ms| == |layer|
    && (forall fp | fp in todo :: !Listed(ms, layer, s, fp))
    && (forall t: nat, fp | t <= s && t < |plan| && fp in plan[t] :: Listed(ms, layer, t, fp) || (t == s && fp in todo))
  }

  /** The generator's state: what has been printed, and the dependency text for the set being printed. */
  ghost predicate Printing(lines: seq<string>, ms: seq<Measurement>, layer: seq<nat>, s: nat, dep: string) {
    && Layered(ms, layer) && (forall i | 0 <= i < |layer| :: layer[i] <= s)
    && |lines| == |ms| && (forall i | 0 <= i < |ms| :: LineFor(lines[i], ms[i]))
    && DependText(DependIds(layer, s), dep)
  }

  lemma {:induction false} LayerIdsRange(layer: seq<nat>, s: nat)
    ensures NoDup(LayerIds(layer, s))
    ensures forall d :: d in LayerIds(layer, s) <==> 1 <= d <= |layer| && layer[d - 1] == s
  {
    if layer != [] {
      var front := layer[..|layer| - 1];
      LayerIdsRange(front, s);
      assert forall i | 0 <= i < |front| :: front[i] == layer[i];
      assert |layer| !in LayerIds(front, s);
    }
  }

  lemma LayerIdsAppend(layer: seq<nat>, s: nat, t: nat)
    ensures LayerIds(layer + [t], s) == if t == s then LayerIds(layer, s) + [|layer| + 1] else LayerIds(layer, s)
  {
    assert (layer + [t])[..|layer|] == layer;
  }

  lemma LayeredAppend(ms: seq<Measurement>, layer: seq<nat>, s: nat, m: Measurement)
    requires Layered(ms, layer) && forall i | 0 <= i < |layer| :: layer[i] <= s
    requires m.id == |ms| + 1 && m.status == Waiting && m.finished == [] && m.deadline == 0
    requires m.depends == DependIds(layer, s)
    ensures Layered(ms + [m], layer + [s])
    ensures DependIds(layer + [s], s) == DependIds(layer, s)
  {
    forall t: nat | t <= s ensures DependIds(layer + [s], t) == DependIds(layer, t) {
      if t > 0 {
        LayerIdsAppend(layer, t - 1, s);
      }
    }
  }

  lemma ListedAppend(ms: seq<Measurement>, layer: seq<nat>, s: nat, m: Measurement, t: nat, fp: string)
    requires |ms| == |layer|
    ensures Listed(ms + [m], layer + [s], t, fp) <==> Listed(ms, layer, t, fp) || (t == s && fp == m.fp)
  {
    if Listed(ms, layer, t, fp) {
      var i :| 0 <= i < |ms| && i < |layer| && layer[i] == t && ms[i].fp == fp;
      assert (ms + [m])[i] == ms[i] && (layer + [s])[i] == layer[i];
    }
    assert (ms + [m])[|ms|] == m && (layer + [s])[|layer|] == s;
    if Listed(ms + [m], layer + [s], t, fp) && !(t == s && fp == m.fp) {
      var i :| 0 <= i < |ms + [m]| && i < |layer + [s]| && (layer + [s])[i] == t && (ms + [m])[i].fp == fp;
      assert i < |ms| && ms[i].fp == fp && layer[i] == t;
    }
  }

  lemma CoversAppend(plan: Plan, ms: seq<Measurement>, layer: seq<nat>, s: nat, todo: set<string>, m: Measurement)
    requires Covers(plan, ms, layer, s, todo) && m.fp in todo
    ensures Covers(plan, ms + [m], layer + [s], s, todo - {m.fp})
  {
    hide Listed;
    forall t: nat, fp
      ensures Listed(ms + [m], layer + [s], t, fp) <==> Listed(ms, layer, t, fp) || (t == s && fp == m.fp)
    {
      ListedAppend(ms, layer, s, m, t, fp);
    }
  }

  lemma NoneTwiceAppend(ms: seq<Measurement>, layer: seq<nat>, s: nat, m: Measurement)
    requires NoneTwice(ms, layer) && !Listed(ms, layer, s, m.fp)
    ensures NoneTwice(ms + [m], layer + [s])
  {
  }

  /** Nothing is listed for a set that has not been reached. */
  lemma NotReached(ms: seq<Measurement>, layer: seq<nat>, s: nat, fp: string)
    requires forall i | 0 <= i < |layer| :: layer[i] < s
    ensures !Listed(ms, layer, s, fp)
  {
  }

  lemma CoversNextSet(plan: Plan, ms: seq<Measurement>, layer: seq<nat>, s: nat)
    requires Covers(plan, ms, layer, s, {}) && s + 1 < |plan| && forall i | 0 <= i < |layer| :: layer[i] <= s
    ensures Covers(plan, ms, layer, s + 1, plan[s + 1].Keys)
  {
    var t := s + 1;
    forall fp | fp in plan[t] ensures !Listed(ms, layer, t, fp) {
      NotReached(ms, layer, t, fp);
    }
  }

  lemma ZippedServe(classes: seq<string>, bws: seq<nat>, conns: seq<nat>, cm: ClassMap)
    requires |classes| == |bws| == |conns| && NoDup(classes) && ToSet(classes) == cm.Keys && Others(cm) != {}
    requires forall i | 0 <= i < |classes| :: classes[i] in cm && bws[i] == cm[classes[i]]
    requires forall i | 0 <= i < |classes| :: conns[i] == if classes[i] == "bg" then 1 else Share(|Others(cm)|)
    ensures HostsFor(Zip(classes, bws, conns), cm)
    ensures Classes(Zip(classes, bws, conns)) == classes
    ensures Bws(Zip(classes, bws, conns)) == bws && Conns(Zip(classes, bws, conns)) == conns
  {
    hide Share, Others;
    assert Classes(Zip(classes, bws, conns)) == classes;
  }

  /** Print one relay's line. */
  method PrintOne(id: nat, fp: string, cm: ClassMap, ghost depends: seq<nat>, dep: string)
    returns (r: Option<string>, ghost m: Measurement)
    requires DependText(depends, dep)
    ensures r.Some? <==> Others(cm) != {}
    ensures r.Some? ==> LineFor(r.value, m) && HostsFor(m.hosts, cm)
    ensures m.id == id && m.fp == fp && m.dur == 30 && m.depends == depends
    ensures m.status == Waiting && m.finished == [] && m.deadline == 0
  {
    var classes, bws := CollectClasses(cm);
    var conns := ConnsFor(classes, cm);
    if conns.None? {
      return None, Measurement(id, fp, 30, Waiting, [], depends, [], 0);
    }
    ghost var hosts := Zip(classes, bws, conns.value);
    m := Measurement(id, fp, 30, Waiting, hosts, depends, [], 0);
    ZippedServe(classes, bws, conns.value, cm);
    TotalConnections(hosts, cm);
    hide HostsFor, Share, Others, LineText, DependText, Sum;
    assert Sum(conns.value) >= TOTAL_CONNS + if "bg" in cm then 1 else 0;
    var line := LineText(id, fp, 30, classes, bws, conns.value, dep);
    assert line == Line(m, dep);
    r := Some(line);
  }

  /** What the generator printed is a layered schedule that serves each relay of each set once. */
  ghost predicate Generated(plan: Plan, lines: seq<string>, ms: seq<Measurement>, layer: seq<nat>) {
    && Layered(ms, layer) && EachServes(plan, ms, layer) && NoneTwice(ms, layer)
    && (forall t: nat, fp | t < |plan| && fp in plan[t] :: Listed(ms, layer, t, fp))
    && |lines| == |ms| && (forall i | 0 <= i < |ms| :: LineFor(lines[i], ms[i]))
  }

  /** One entry for each class, with its bandwidth; what is not background shares 160 connections, rounded up. */
  lemma HostsMean(hosts: seq<Host>, cm: ClassMap)
    requires HostsFor(hosts, cm)
    ensures forall cls | cls in cm :: exists k :: 0 <= k < |hosts| && hosts[k].cls == cls
    ensures forall k, l | 0 <= k < l < |hosts| :: hosts[k].cls != hosts[l].cls
    ensures forall k | 0 <= k < |hosts| ::
              && hosts[k].cls in cm && hosts[k].bw == cm[hosts[k].cls]
              && var n := |cm.Keys - {"bg"}|;
                 if hosts[k].cls == "bg" then hosts[k].conns == 1 else 160 <= hosts[k].conns * n < 160 + n
  {
    hide Share;
    forall cls | cls in cm ensures exists k :: 0 <= k < |hosts| && hosts[k].cls == cls {
      assert cls in ToSet(Classes(hosts));
      var k :| 0 <= k < |hosts| && Classes(hosts)[k] == cls;
    }
    forall k, l | 0 <= k < l < |hosts| ensures hosts[k].cls != hosts[l].cls {
      assert Classes(hosts)[k] != Classes(hosts)[l];
    }
  }

  /** Every relay of every set has one line, for a measurement of 30 seconds with that relay's hosts; ids count up. */
  lemma GeneratedMeans(plan: Plan, lines: seq<string>, ms: seq<Measurement>, layer: seq<nat>)
    requires Generated(plan, lines, ms, layer)
    ensures |lines| == |ms| == |layer| && forall i, j | 0 <= i < j < |ms| :: layer[i] <= layer[j]
    ensures forall i | 0 <= i < |ms| ::
              ms[i].id == i + 1 && ms[i].dur == 30 && layer[i] < |plan| && ms[i].fp in plan[layer[i]]
    ensures forall s: nat, fp | s < |plan| && fp in plan[s] ::
              exists i :: 0 <= i < |ms| && layer[i] == s && ms[i].fp == fp
    ensures forall i, j | 0 <= i < j < |ms| && layer[i] == layer[j] :: ms[i].fp != ms[j].fp
    ensures forall i | 0 <= i < |ms| :: HostsFor(ms[i].hosts, plan[layer[i]][ms[i].fp])
  {
    hide HostsFor, LineFor, DependIds;
    forall i | 0 <= i < |ms| ensures Serves(plan, ms[i], layer[i]) {}
    forall s: nat, fp | s < |plan| && fp in plan[s]
      ensures exists i :: 0 <= i < |ms| && layer[i] == s && ms[i].fp == fp
    {
      assert Listed(ms, layer, s, fp);
    }
  }

  lemma NothingPrinted(plan: Plan)
    ensures Printing([], [], [], 0, "0")
    ensures EachServes(plan, [], []) && NoneTwice([], [])
    ensures |plan| > 0 ==> Covers(plan, [], [], 0, plan[0].Keys)
  {
  }

  /** No id of set `s` has been printed while all printed sets come before it. */
  lemma {:induction false} NoIdsYet(layer: seq<nat>, s: nat)
    requires forall i | 0 <= i < |layer| :: layer[i] < s
    ensures LayerIds(layer, s) == []
  {
    if layer != [] {
      NoIdsYet(layer[..|layer| - 1], s);
    }
  }

  lemma DependsPrinted(lines: seq<string>, ms: seq<Measurement>, layer: seq<nat>, s: nat, dep: string)
    requires Printing(lines, ms, layer, s, dep)
    ensures DependText(DependIds(layer, s), dep)
  {
  }

  lemma PrintedOne(plan: Plan, lines: seq<string>, ms: seq<Measurement>, layer: seq<nat>, s: nat, dep: string,
                   todo: set<string>, line: string, m: Measurement)
    requires s < |plan| && m.fp in todo && todo <= plan[s].Keys
    requires Printing(lines, ms, layer, s, dep) && Covers(plan, ms, layer, s, todo)
    requires EachServes(plan, ms, layer) && NoneTwice(ms, layer)
    requires LineFor(line, m) && HostsFor(m.hosts, plan[s][m.fp]) && m.dur == 30
    requires m.id == |lines| + 1 && m.status == Waiting && m.finished == [] && m.deadline == 0
    requires m.depends == DependIds(layer, s)
    ensures Printing(lines + [line], ms + [m], layer + [s], s, dep)
    ensures Covers(plan, ms + [m], layer + [s], s, todo - {m.fp})
    ensures EachServes(plan, ms + [m], layer + [s]) && NoneTwice(ms + [m], layer + [s])
  {
    hide Layered, LineFor, HostsFor, DependText, DependIds, Listed;
    LayeredAppend(ms, layer, s, m);
    CoversAppend(plan, ms, layer, s, todo, m);
    NoneTwiceAppend(ms, layer, s, m);
  }

  lemma NextSet(plan: Plan, lines: seq<string>, ms: seq<Measurement>, layer: seq<nat>, s: nat, before: string,
                dep: string)
    requires Printing(lines, ms, layer, s, before) && s < |plan| && Covers(plan, ms, layer, s, {})
    requires dep == Join(ShowAll(LayerIds(layer, s)), ',')
    ensures Printing(lines, ms, layer, s + 1, dep) && forall i | 0 <= i < |layer| :: layer[i] < s + 1
    ensures s + 1 < |plan| ==> Covers(plan, ms, layer, s + 1, plan[s + 1].Keys)
  {
    hide Layered, LineFor, Listed, Covers;
    if s + 1 < |plan| {
      CoversNextSet(plan, ms, layer, s);
    }
  }

  lemma AllPrinted(plan: Plan, lines: seq<string>, ms: seq<Measurement>, layer: seq<nat>, dep: string)
    requires Printing(lines, ms, layer, |plan|, dep) && EachServes(plan, ms, layer) && NoneTwice(ms, layer)
    requires |plan| > 0 ==> Covers(plan, ms, layer, |plan| - 1, {})
    ensures Generated(plan, lines, ms, layer)
  {
    hide Layered, LineFor, Listed, EachServes, NoneTwice;
  }

  datatype Output = Printed(lines: seq<string>) | DividedByZero

  /** The loops of `sched_new_from_json` that print a schedule. */
  method Generate(plan: Plan) returns (r: Output, ghost ms: seq<Measurement>, ghost layer: seq<nat>)
    ensures r.Printed? <==> forall s, fp | 0 <= s < |plan| && fp in plan[s] :: Others(plan[s][fp]) != {}
    ensures r.Printed? ==> Generated(plan, r.lines, ms, layer)
  {
    hide Layered, Listed, LineFor, Serves, HostsFor, DependText, DependIds, LayerIds;
    hide NoneTwice, EachServes, Covers, Printing, Others;
    var lines: seq<string> := [];
    ms, layer := [], [];
    var lastIds, s := "0", 0;
    NothingPrinted(plan);
    while s < |plan|
      invariant 0 <= s <= |plan|
      invariant Printing(lines, ms, layer, s, lastIds) && |lines| == |ms| == |layer|
      invariant s < |plan| ==> Covers(plan, ms, layer, s, plan[s].Keys)
      invariant s > 0 && s == |plan| ==> Covers(plan, ms, layer, s - 1, {})
      invariant EachServes(plan, ms, layer) && NoneTwice(ms, layer)
      invariant forall i | 0 <= i < |layer| :: layer[i] < s
      invariant forall t, fp | 0 <= t < s && fp in plan[t] :: Others(plan[t][fp]) != {}
    {
      var newIds: seq<nat> := [];
      var todo := plan[s].Keys;
      NoIdsYet(layer, s);
      while todo != {}
        invariant todo <= plan[s].Keys
        invariant Printing(lines, ms, layer, s, lastIds) && |lines| == |ms| == |layer|
        invariant newIds == LayerIds(layer, s)
        invariant Covers(plan, ms, layer, s, todo)
        invariant EachServes(plan, ms, layer) && NoneTwice(ms, layer)
        invariant forall fp | fp in plan[s] && fp !in todo :: Others(plan[s][fp]) != {}
        decreases todo
      {
        var fp :| fp in todo;
        var line;
        ghost var m;
        DependsPrinted(lines, ms, layer, s, lastIds);
        line, m := PrintOne(|lines| + 1, fp, plan[s][fp], DependIds(layer, s), lastIds);
        if line.None? {
          return DividedByZero, ms, layer;
        }
        PrintedOne(plan, lines, ms, layer, s, lastIds, todo, line.value, m);
        LayerIdsAppend(layer, s, s);
        newIds := newIds + [|lines| + 1];
        lines := lines + [line.value];
        ms, layer := ms + [m], layer + [s];
        todo := todo - {fp};
      }
      ghost var before := lastIds;
      lastIds := Join(ShowAll(newIds), ',');
      NextSet(plan, lines, ms, layer, s, before, lastIds);
      s := s + 1;
    }
    r := Printed(lines);
    AllPrinted(plan, lines, ms, layer, lastIds);
  }
}
