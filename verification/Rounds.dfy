/** Iterations of the main loop as seen from its head, and why there are only finitely many. */
module Rounds {
  import opened Schedule
  import opened Clients
  import opened Protocol
  import opened Runs
  import opened Progress
  import opened Liveness
  import opened Heads
  import opened Looping
  import opened Silence
  import opened Starting
  import opened Crews
  import opened Outlasting
  import opened Handshakes
  import opened Assembly
  import opened Succeeding

  const MAX_NUM_CTRL_SOCKS: nat := 4096
  const MAX_LOOPS_WITHOUT_PROGRESS: nat := 10

  /** Every running measurement is due within its slack from now. */
  ghost predicate DueSoon(tbl: Table, clock: nat) {
    forall m | m in tbl && tbl[m].status == InProgress :: tbl[m].deadline <= clock + Slack(tbl[m].dur)
  }

  /** How an iteration of the main loop ends, seen from its head. */
  datatype Round = Moved(wait: Wait) | TimedOut | OnlyLines | Idle

  /** How the wait of such an iteration ended. */
  ghost function WaitOf(r: Round): Wait {
    match r
    case Moved(wait) => wait
    case TimedOut => Silent
    case OnlyLines => Heard
    case Idle => Skipped
  }

  ghost predicate SomeDue(w: World, t: nat) {
    exists m :: Running(w, m) && w.table[m].deadline >= t
  }

  /** Some client is measuring, so it may report. */
  ghost predicate SomeReports(w: World) {
    exists j :: 0 <= j < |w.clients| && w.clients[j].state == Measuring
  }

  /** Nothing is overdue, nothing can be started, and everything that runs waits for a reply. */
  ghost predicate Waits(w: World, t: nat) {
    && AtHead(w) && AllAwait(w) && NoReady(w)
    && forall m | Running(w, m) :: w.table[m].deadline >= t
  }

  /**
   * Either the rank drops, or nothing at all has changed in the world. In the second case the iteration
   * timed out, or it read result lines and nothing else, or there was nothing running and nothing ready. In
   * any case the counter tells how the wait ended.
   */
  ghost predicate RoundOk(r: Round, w: World, loops: nat, clock: nat, w': World, loops': nat) {
    && loops' == LoopsAfter(loops, WaitOf(r))
    && match r
       case Moved(_) => Rank(w') < Rank(w)
       case TimedOut => w' == w && loops <= 10 && Waits(w, clock) && SomeDue(w, clock)
       case OnlyLines => w' == w && loops <= 10 && Waits(w, clock) && SomeDue(w, clock) && SomeReports(w)
       case Idle => w' == w && (forall m :: !Running(w, m)) && NoReady(w)
  }

  // ---- Termination

  /** The coordinator at the head of its main loop. */
  datatype Head = Head(w: World, loops: nat, clock: nat)

  ghost predicate HeadOk(h: Head) {
    Inv(h.w) && DueSoon(h.w.table, h.clock) && h.loops <= MAX_LOOPS_WITHOUT_PROGRESS + 1
  }

  /** One iteration, from its head to the next one. */
  ghost predicate Iteration(h: Head, r: Round, h': Head) {
    RoundOk(r, h.w, h.loops, h.clock, h'.w, h'.loops) && h'.clock >= h.clock
  }

  ghost function Max(s: set<nat>): (r: nat)
    ensures s != {} ==> r in s
    ensures forall x | x in s :: x <= r
  {
    if s == {} then 0 else
      var x :| x in s;
      var y := Max(s - {x});
      assert forall z | z in s :: z == x || z in s - {x};
      if s == {x} || y < x then x else y
  }

  ghost function DueTimes(tbl: Table): set<nat> {
    set m | m in tbl && tbl[m].status == InProgress :: tbl[m].deadline
  }

  /** Seconds until the last running measurement is overdue. */
  ghost function TimeLeft(w: World, clock: nat): nat {
    var due := DueTimes(w.table);
    if due == {} || Max(due) < clock then 0 else Max(due) + 1 - clock
  }

  lemma TimeLeftBound(h: Head, d: nat)
    requires HeadOk(h) && forall m | m in h.w.table :: Slack(h.w.table[m].dur) <= d
    ensures TimeLeft(h.w, h.clock) <= d + 1
  {
    hide Inv;
    if DueTimes(h.w.table) != {} {
      var m :| m in h.w.table && h.w.table[m].status == InProgress && h.w.table[m].deadline == Max(DueTimes(h.w.table));
      assert h.w.table[m].deadline <= h.clock + Slack(h.w.table[m].dur);
    }
  }

  lemma TimePasses(w: World, clock: nat, later: nat)
    requires clock <= later
    ensures TimeLeft(w, later) <= TimeLeft(w, clock)
    ensures clock < later && SomeDue(w, clock) ==> TimeLeft(w, later) < TimeLeft(w, clock)
  {
    if SomeDue(w, clock) {
      var m :| Running(w, m) && w.table[m].deadline >= clock;
      assert w.table[m].deadline in DueTimes(w.table);
    }
  }

  /** An idle iteration means the schedule is finished or cannot be. */
  lemma IdleMeansOver(w: World)
    requires Inv(w) && Viable(w.table)
    requires (forall m :: !Running(w, m)) && NoReady(w)
    ensures AllComplete(w.table)
  {
    hide Viable, Unblocked;
    if !AllComplete(w.table) {
      forall k | k in w.table ensures w.table[k].status != InProgress {
        assert !Running(w, k);
      }
      ViableUnblocked(w.table);
      var k :| k in w.table && w.table[k].status != Complete;
      assert k in w.table.Keys;
      SomethingReady(w.table, w.table.Keys);
    }
  }

  /**
   * An iteration on an unfinished viable schedule lowers the rank; or it changes nothing, and then it brings
   * the last deadline nearer, or leaves the clock where it was after a timeout or nothing but result lines.
   */
  lemma RoundProgress(h: Head, r: Round, h': Head)
    requires HeadOk(h) && Viable(h.w.table) && Iteration(h, r, h') && !AllComplete(h.w.table)
    ensures !r.Idle?
    ensures r.Moved? ==> Rank(h'.w) < Rank(h.w)
    ensures !r.Moved? ==> h'.w == h.w
    ensures r.TimedOut? ==> h'.loops == h.loops + 1
    ensures r.OnlyLines? ==> h'.loops == 0
    ensures !r.Moved? && h'.clock != h.clock ==> TimeLeft(h'.w, h'.clock) < TimeLeft(h.w, h.clock)
  {
    hide Viable, AllComplete, Inv, DueSoon, TimeLeft, Rank, SomeDue;
    if r.Idle? {
      IdleMeansOver(h.w);
    } else if !r.Moved? {
      TimePasses(h.w, h.clock, h'.clock);
    }
  }

  lemma HeadLoops(h: Head)
    requires HeadOk(h)
    ensures h.loops <= MAX_LOOPS_WITHOUT_PROGRESS + 1
  {
  }

  /** Counting begins afresh with iteration `p`, after a report or with a cutoff, and goes on to head `n`. */
  ghost predicate Counting(hs: seq<Head>, rs: seq<Round>, p: nat, n: nat)
    requires |hs| == |rs| + 1 && n <= |rs|
  {
    && p <= n && (p == 0 || WaitOf(rs[p - 1]) == Heard || (p < n && hs[p].loops > 10))
    && forall i | p <= i < n :: WaitOf(rs[i]) != Heard && (i > p ==> hs[i].loops <= 10)
  }

  lemma SameStretch(hs: seq<Head>, rs: seq<Round>, loops: seq<nat>, waits: seq<Wait>, p: nat, n: nat)
    requires |hs| == |rs| + 1 == |loops| == |waits| + 1 && p <= n <= |rs|
    requires forall i | 0 <= i < |hs| :: loops[i] == hs[i].loops
    requires forall i | 0 <= i < |rs| :: waits[i] == WaitOf(rs[i])
    ensures Stretch(loops, waits, p, n) <==> Counting(hs, rs, p, n)
  {
    hide WaitOf;
    if Stretch(loops, waits, p, n) {
      forall i | p <= i < n ensures WaitOf(rs[i]) != Heard && (i > p ==> hs[i].loops <= 10) {
        assert waits[i] != Heard && (i > p ==> loops[i] <= 10);
      }
    }
    if Counting(hs, rs, p, n) {
      forall i | p <= i < n ensures waits[i] != Heard && (i > p ==> loops[i] <= 10) {
        assert WaitOf(rs[i]) != Heard && (i > p ==> hs[i].loops <= 10);
      }
    }
  }

  /**
   * In every run of the main loop the counter at a head is the number of waits that brought nothing since
   * the last report, the last head that found it above 10, or the beginning; and a head finds it above 10,
   * and fails everything that runs, exactly when there have been eleven.
   */
  lemma CutOffOnlyAfterEleven(hs: seq<Head>, rs: seq<Round>, n: nat)
    requires |hs| == |rs| + 1 && n <= |rs| && hs[0].loops == 0
    requires forall i | 0 <= i < |rs| :: Iteration(hs[i], rs[i], hs[i + 1])
    ensures exists p: nat :: Counting(hs, rs, p, n)
    ensures forall p: nat | Counting(hs, rs, p, n) :: hs[n].loops == |set i | p <= i < n && WaitOf(rs[i]) == Silent|
    ensures hs[n].loops > 10 <==>
            exists p: nat :: Counting(hs, rs, p, n) && |set i | p <= i < n && WaitOf(rs[i]) == Silent| == 11
  {
    var loops := seq(|hs|, i requires 0 <= i < |hs| => hs[i].loops);
    var waits := seq(|rs|, i requires 0 <= i < |rs| => WaitOf(rs[i]));
    hide HeadOk, LoopsAfter, WaitOf, Waits;
    forall i | 0 <= i < |waits| ensures loops[i + 1] == LoopsAfter(loops[i], waits[i]) {
      assert Iteration(hs[i], rs[i], hs[i + 1]);
    }
    CutOffAfterEleven(loops, waits, n);
    forall p: nat | p <= n ensures Stretch(loops, waits, p, n) <==> Counting(hs, rs, p, n) {
      SameStretch(hs, rs, loops, waits, p, n);
    }
    forall p: nat ensures SilentFrom(waits, p, n) == set i | p <= i < n && WaitOf(rs[i]) == Silent {
    }
  }

  // ---- Endless runs

  /** The main loop going on for ever on a viable schedule. */
  ghost predicate Endless(hs: nat -> Head, rs: nat -> Round) {
    forall i: nat ::
      HeadOk(hs(i)) && Viable(hs(i).w.table) && !AllComplete(hs(i).w.table) && Iteration(hs(i), rs(i), hs(i + 1))
  }

  lemma HeadRank(h: Head)
    requires HeadOk(h)
    ensures Rank(h.w) >= 0
  {
    RankNonNegative(h.w);
  }

  lemma ClockForward(h: Head, r: Round, h': Head)
    requires Iteration(h, r, h')
    ensures h'.clock >= h.clock
  {
  }

  /** Lexicographic progress over any number of iterations. */
  lemma {:induction false} LaterHead(hs: nat -> Head, rs: nat -> Round, i: nat, j: nat)
    requires Endless(hs, rs) && i <= j
    ensures 0 <= Rank(hs(j).w) <= Rank(hs(i).w)
    ensures Rank(hs(j).w) < Rank(hs(i).w) ||
            (hs(j).w == hs(i).w && hs(j).clock >= hs(i).clock &&
             (hs(j).clock == hs(i).clock || TimeLeft(hs(j).w, hs(j).clock) < TimeLeft(hs(i).w, hs(i).clock)))
    decreases j - i
  {
    hide HeadOk, Viable, AllComplete, Iteration, Rank, TimeLeft;
    assert HeadOk(hs(i)) && Viable(hs(i).w.table) && !AllComplete(hs(i).w.table) && Iteration(hs(i), rs(i), hs(i + 1));
    HeadRank(hs(i));
    if i < j {
      LaterHead(hs, rs, i + 1, j);
      RoundProgress(hs(i), rs(i), hs(i + 1));
      ClockForward(hs(i), rs(i), hs(i + 1));
    }
  }

  /** Nothing and no clock changes from iteration `n` on. */
  ghost predicate StoppedFrom(hs: nat -> Head, n: nat) {
    forall j: nat | j >= n :: hs(j).w == hs(n).w && hs(j).clock == hs(n).clock
  }

  lemma {:induction false} ComesToStop(hs: nat -> Head, rs: nat -> Round, i: nat) returns (n: nat)
    requires Endless(hs, rs)
    ensures n >= i && StoppedFrom(hs, n)
    decreases Rank(hs(i).w), TimeLeft(hs(i).w, hs(i).clock)
  {
    hide Endless, Rank, TimeLeft;
    LaterHead(hs, rs, i, i);
    if j: nat :| j >= i && (hs(j).w != hs(i).w || hs(j).clock != hs(i).clock) {
      LaterHead(hs, rs, i, j);
      n := ComesToStop(hs, rs, j);
    } else {
      n := i;
    }
  }

  /** Timeouts alone do not go on for ever: they are counted. */
  lemma {:induction false} TimeoutsCounted(hs: nat -> Head, rs: nat -> Round, n: nat, k: nat)
    requires Endless(hs, rs) && StoppedFrom(hs, n) && !SomeReports(hs(n).w)
    ensures hs(n + k).loops >= k
    decreases k
  {
    hide HeadOk, Viable, AllComplete, Rank, SomeReports;
    if k > 0 {
      var i := n + k - 1;
      TimeoutsCounted(hs, rs, n, k - 1);
      assert HeadOk(hs(i)) && Viable(hs(i).w.table) && !AllComplete(hs(i).w.table);
      assert Iteration(hs(i), rs(i), hs(i + 1));
      assert hs(i).w == hs(n).w && hs(i + 1).w == hs(n).w;
      RoundProgress(hs(i), rs(i), hs(i + 1));
    }
  }

  /**
   * The main loop can go on for ever on a viable schedule only with a clock that stops: from some iteration
   * on neither the clock nor anything in the world ever changes again, and some client is measuring.
   */
  lemma EndlessMeansStopped(hs: nat -> Head, rs: nat -> Round) returns (n: nat)
    requires Endless(hs, rs)
    ensures StoppedFrom(hs, n) && SomeReports(hs(n).w)
  {
    n := ComesToStop(hs, rs, 0);
    hide Viable, Iteration, AllComplete, SomeReports, StoppedFrom, Inv, DueSoon;
    assert HeadOk(hs(n + 12));
    if !SomeReports(hs(n).w) {
      TimeoutsCounted(hs, rs, n, 12);
    }
  }

  lemma ReporterDue(w: World, t: nat)
    requires Inv(w) && Waits(w, t) && SomeReports(w)
    ensures SomeDue(w, t) && !AllComplete(w.table)
  {
    var j :| 0 <= j < |w.clients| && w.clients[j].state == Measuring;
    WorksForRunning(w, j);
    hide Inv, AtHead, AllAwait, NoReady;
    assert Running(w, w.clients[j].owner);
  }

  /**
   * At a head where nothing is overdue, nothing can be started and everything that runs waits, the loop can
   * listen for ever to a measuring client that reports without end, if the clock stands still.
   */
  lemma StoppedIsEndless(h: Head)
    requires HeadOk(h) && Viable(h.w.table) && Waits(h.w, h.clock) && SomeReports(h.w) && h.loops == 0
    ensures Endless(_ => h, _ => OnlyLines)
  {
    hide Viable, DueSoon, Inv, Waits, SomeReports, SomeDue, AllComplete;
    ReporterDue(h.w, h.clock);
  }

  lemma MeasuringHead(w: World, m: nat)
    requires Inv(w) && Around(w, m) && AllAt(w.clients, m, 8)
    requires NoReady(w) && OnlyRuns(w, m) && w.table[m].deadline == Slack(w.table[m].dur)
    ensures HeadOk(Head(w, 0, 0)) && Waits(w, 0) && SomeReports(w)
  {
    HeadAround(w, m, 8);
    hide Inv;
    var j := OwnsSomeone(w, m);
    assert w.clients[j].state == Measuring;
  }

  lemma ViableSound(tbl: Table)
    requires Viable(tbl)
    ensures forall x | x in tbl && CanBeReady(tbl, x) :: !Panics(tbl[x])
  {
    hide Panics;
    forall x | x in tbl && CanBeReady(tbl, x) ensures !Panics(tbl[x]) {
      assert !Blocked(tbl, {x});
    }
  }

  lemma SuppliedAtFirst(w0: World, w: World, m: nat, n: nat)
    requires Around(w, m) && AllAt(w.clients, m, 2) && m !in w.extended && NoReady(w)
    ensures Standing(w0, w, m, 2, n)
  {
  }

  lemma WaitsSettled(w: World, t: nat, p: Place)
    requires Waits(w, t)
    ensures Settled(p, w)
  {
  }

  lemma EndlessFrom(w0: World, log: seq<Event>, before: World, m: nat)
    requires Initial(w0) && Looped(w0, log) && Viable(w0.table) && PlaceOf(log) == Passing
    requires var w := Outcome(w0, log);
      && Standing(w0, w, m, 8, 0) && Kept(before, w, m) && NoReady(before) && OnlyRuns(before, m)
      && m in w.table && w.table[m].deadline == Slack(w.table[m].dur)
    ensures Settled(PlaceOf(log), Outcome(w0, log))
    ensures Endless(_ => Head(Outcome(w0, log), 0, 0), _ => OnlyLines)
  {
    LoopedLegal(w0, log);
    hide Initial, Looped, Legal, Outcome, Inv, Viable, Endless, Waits, HeadOk, SomeReports, OnlyRuns, Around, NoReady;
    RunInv(w0, log);
    StaysViable(w0, log);
    MeasuringHead(Outcome(w0, log), m);
    WaitsSettled(Outcome(w0, log), 0, PlaceOf(log));
    StoppedIsEndless(Head(Outcome(w0, log), 0, 0));
  }

  /** Such runs exist on every viable schedule of which a measurement can succeed. */
  lemma EndlessExists(w0: World, m: nat) returns (log: seq<Event>)
    requires Initial(w0) && Viable(w0.table) && CanSucceed(w0, m)
    ensures Looped(w0, log) && Settled(PlaceOf(log), Outcome(w0, log))
    ensures Endless(_ => Head(Outcome(w0, log), 0, 0), _ => OnlyLines)
  {
    HasUse(w0, m);
    ViableSound(w0.table);
    NoThreatOutlasts(w0, m, 3);
    hide Initial, Viable, CanSucceed, Beside, Usable, Panics, CanBeReady, Endless, Waits, HeadOk, SomeReports, Settled;
    hide Outcome, Legal, Inv, Cohort, NoReady, OnlyRuns, Around, AllAt, Standing, Kept;
    log := StableBase(w0, m, []);
    assert [] + [m] == [m];
    RunInv(w0, log);
    CohortAround(Outcome(w0, log), [m], m);
    SuppliedAtFirst(w0, Outcome(w0, log), m, 3);
    var full := Onwards(w0, log, m, 0);
    EndlessFrom(w0, full, Outcome(w0, log), m);
    log := full;
  }

  ghost function Times(e: Event, n: nat): (log: seq<Event>)
    ensures |log| == n
  {
    seq(n, _ => e)
  }

  /** A measuring client can report any number of times, and the world stays as it is. */
  lemma {:induction false} ReportsForEver(w0: World, log: seq<Event>, j: nat, n: nat)
    requires Legal(w0, log) && j < |Outcome(w0, log).clients| && Outcome(w0, log).clients[j].state == Measuring
    ensures Legal(w0, log + Times(Lines(j), n)) && Outcome(w0, log + Times(Lines(j), n)) == Outcome(w0, log)
  {
    if n == 0 {
      assert log + Times(Lines(j), 0) == log;
    } else {
      ReportsForEver(w0, log, j, n - 1);
      Extended(w0, log + Times(Lines(j), n - 1), Lines(j));
      assert log + Times(Lines(j), n) == log + Times(Lines(j), n - 1) + [Lines(j)];
    }
  }

  /** Iterations that have nothing to start and read result lines of client `j`. */
  ghost function Listening(j: nat, n: nat): seq<Event> {
    if n == 0 then [] else Listening(j, n - 1) + [NoneReady, Lines(j)]
  }

  /** Where everything waits, a run goes on with any number of iterations in which a measuring client reports. */
  lemma {:induction false} ListensForEver(w0: World, log: seq<Event>, j: nat, t: nat, n: nat)
    requires Looped(w0, log) && Settled(PlaceOf(log), Outcome(w0, log)) && Waits(Outcome(w0, log), t)
    requires j < |Outcome(w0, log).clients| && Outcome(w0, log).clients[j].state == Measuring
    ensures Looped(w0, log + Listening(j, n)) && Outcome(w0, log + Listening(j, n)) == Outcome(w0, log)
    ensures Settled(PlaceOf(log + Listening(j, n)), Outcome(w0, log))
  {
    hide Looped, Outcome, AtHead, AllAwait, NoReady, PlaceOf;
    if n == 0 {
      assert log + Listening(j, 0) == log;
    } else {
      ListensForEver(w0, log, j, t, n - 1);
      var l := log + Listening(j, n - 1);
      LoopedStep(w0, l, NoneReady);
      LoopedStep(w0, l + [NoneReady], Lines(j));
      assert log + Listening(j, n) == l + [NoneReady] + [Lines(j)];
    }
  }

  // ---- A bound

  /** How many of these iterations began and ended in second `t` of the clock and only read result lines. */
  ghost function LinesIn(hs: seq<Head>, rs: seq<Round>, t: nat): nat
    requires |hs| == |rs| + 1
    decreases |rs|
  {
    if rs == [] then 0 else
      LinesIn(hs[1..], rs[1..], t) + if rs[0].OnlyLines? && hs[0].clock == t && hs[1].clock == t then 1 else 0
  }

  /** An upper bound on iterations, from a rank, the seconds to the last deadline, line-only iterations and timeouts. */
  ghost function Bound(rank: int, time: nat, lines: nat, timeouts: nat, k: nat, d: nat): int {
    rank * ((d + 2) * (12 * (k + 1))) + time * (12 * (k + 1)) + 12 * lines + timeouts
  }

  lemma Scaled(a: int, b: int, u: nat)
    requires a < b
    ensures a * u + u <= b * u
  {
    assert (a + 1) * u <= b * u;
    assert (a + 1) * u == a * u + u;
  }

  lemma Product(a: nat, u: nat)
    ensures a * u >= 0
  {
  }

  lemma RankSum(a: int, b: int, v: int, t: int, s: int, u: int, n: nat, l: nat, e: nat, f: nat, k: nat)
    requires a + v <= b && t + u <= v && s >= 0 && u == 12 * (k + 1) && n <= k && e <= 11
    ensures a + t + 12 * n + e < b + s + 12 * l + f
  {
  }

  lemma RankLowers(a: int, b: int, t: nat, s: nat, n: nat, l: nat, e: nat, f: nat, k: nat, d: nat)
    requires a < b && t <= d + 1 && n <= k && e <= 11
    ensures Bound(a, t, n, e, k, d) < Bound(b, s, l, f, k, d)
  {
    var u: nat := 12 * (k + 1);
    Product(d + 2, u);
    var v: nat := (d + 2) * u;
    Scaled(a, b, v);
    Scaled(t, d + 2, u);
    Product(s, u);
    RankSum(a * v, b * v, v, t * u, s * u, u, n, l, e, f, k);
  }

  lemma TimeLowers(a: int, t: nat, s: nat, n: nat, l: nat, e: nat, f: nat, k: nat, d: nat)
    requires t < s && n <= k && e <= 11
    ensures Bound(a, t, n, e, k, d) < Bound(a, s, l, f, k, d)
  {
    Scaled(t, s, 12 * (k + 1));
  }

  lemma BoundNonNegative(a: nat, t: nat, n: nat, e: nat, k: nat, d: nat)
    ensures Bound(a, t, n, e, k, d) >= 0
  {
    Product(d + 2, 12 * (k + 1));
    Product(a, (d + 2) * (12 * (k + 1)));
    Product(t, 12 * (k + 1));
  }

  /**
   * An upper bound on the iterations still to come when `lines` of them will only read result lines in this
   * second, and no more than `k` in any later one.
   */
  ghost function Budget(h: Head, lines: nat, k: nat, d: nat): int
    requires HeadOk(h)
  {
    Bound(Rank(h.w), TimeLeft(h.w, h.clock), lines, MAX_LOOPS_WITHOUT_PROGRESS + 1 - h.loops, k, d)
  }

  lemma LinesLower(a: int, t: nat, n: nat, l: nat, e: nat, f: nat, k: nat, d: nat)
    requires (l == n + 1 && e <= 11) || (l == n && e < f)
    ensures Bound(a, t, n, e, k, d) < Bound(a, t, l, f, k, d)
  {
  }

  /** Every iteration lowers the budget: by rank, by the time to the last deadline, by reading lines or by a timeout. */
  lemma BudgetDrops(h: Head, r: Round, h': Head, lines: nat, lines': nat, k: nat, d: nat)
    requires HeadOk(h) && HeadOk(h') && Viable(h.w.table) && Iteration(h, r, h') && !AllComplete(h.w.table)
    requires forall m | m in h'.w.table :: Slack(h'.w.table[m].dur) <= d
    requires lines' <= k
    requires h'.clock == h.clock ==> lines == lines' + if r.OnlyLines? then 1 else 0
    ensures Budget(h', lines', k, d) < Budget(h, lines, k, d)
  {
    RoundProgress(h, r, h');
    TimeLeftBound(h', d);
    hide Inv, Rank, TimeLeft, DueSoon, Viable, AllComplete, SomeDue, Bound;
    var e', e := MAX_LOOPS_WITHOUT_PROGRESS + 1 - h'.loops, MAX_LOOPS_WITHOUT_PROGRESS + 1 - h.loops;
    if r.Moved? {
      RankLowers(Rank(h'.w), Rank(h.w), TimeLeft(h'.w, h'.clock), TimeLeft(h.w, h.clock), lines', lines, e', e, k, d);
    } else if h'.clock != h.clock {
      TimeLowers(Rank(h.w), TimeLeft(h'.w, h'.clock), TimeLeft(h.w, h.clock), lines', lines, e', e, k, d);
    } else {
      LinesLower(Rank(h.w), TimeLeft(h.w, h.clock), lines', lines, e', e, k, d);
    }
  }

  lemma BudgetFacts(h: Head, lines: nat, k: nat, d: nat)
    requires HeadOk(h) && lines <= k
    ensures 0 <= Budget(h, lines, k, d) <= Budget(h, k, k, d)
  {
    HeadRank(h);
    BoundNonNegative(Rank(h.w), TimeLeft(h.w, h.clock), lines, MAX_LOOPS_WITHOUT_PROGRESS + 1 - h.loops, k, d);
    hide Rank, TimeLeft, Inv;
  }

  /**
   * Every run of the main loop on a viable schedule ends: however the sockets, the replies and the
   * descriptors behave, if no second of the clock holds more than `k` iterations that only read result
   * lines, there are no more iterations before the schedule is finished than the budget at the first head.
   */
  lemma {:induction false} BoundedIterations(hs: seq<Head>, rs: seq<Round>, k: nat, d: nat)
    requires |hs| == |rs| + 1
    requires forall i | 0 <= i < |hs| ::
               && HeadOk(hs[i]) && Viable(hs[i].w.table)
               && forall m | m in hs[i].w.table :: Slack(hs[i].w.table[m].dur) <= d
    requires forall i | 0 <= i < |rs| :: Iteration(hs[i], rs[i], hs[i + 1]) && !AllComplete(hs[i].w.table)
    requires forall t: nat :: LinesIn(hs, rs, t) <= k
    ensures |rs| <= Budget(hs[0], LinesIn(hs, rs, hs[0].clock), k, d) <= Budget(hs[0], k, k, d)
    decreases |rs|
  {
    hide HeadOk, Iteration, Viable, AllComplete, Budget;
    var lines := LinesIn(hs, rs, hs[0].clock);
    assert HeadOk(hs[0]);
    BudgetFacts(hs[0], lines, k, d);
    if |rs| > 0 {
      assert HeadOk(hs[1]) && Iteration(hs[0], rs[0], hs[1]);
      forall t: nat ensures LinesIn(hs[1..], rs[1..], t) <= k {
        assert LinesIn(hs, rs, t) <= k;
      }
      BoundedIterations(hs[1..], rs[1..], k, d);
      BudgetDrops(hs[0], rs[0], hs[1], lines, LinesIn(hs[1..], rs[1..], hs[1].clock), k, d);
    }
  }
}
