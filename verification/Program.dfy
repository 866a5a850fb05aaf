/** One call of `main_loop_once`: from the text of a schedule and a client list to the counts and the bandwidth file. */
module Program {
  import opened Sequences
  import opened Text
  import opened Schedule
  import opened ScheduleText
  import opened Generator
  import opened Clients
  import opened Protocol
  import opened Progress
  import opened Liveness
  import opened History
  import opened Aborts
  import opened Rounds
  import opened Bookkeeping
  import opened Coordination
  import opened Startup
  import opened Records
  import opened Bandwidth

  /** The measurements of the lines that are not skipped; `None` when one of the lines cannot be read. */
  ghost function ScheduleOf(lines: seq<string>): Option<seq<Measurement>> {
    if lines == [] then Some([]) else
      var front := ScheduleOf(lines[..|lines| - 1]);
      match FromLine(lines[|lines| - 1])
      case Skip => front
      case Panic => None
      case Parsed(m) => if front.Some? then Some(front.value + [m]) else None
  }

  lemma {:induction false} UnreadableStays(lines: seq<string>, n: nat)
    requires n <= |lines| && ScheduleOf(lines[..n]).None?
    ensures ScheduleOf(lines).None?
    decreases |lines|
  {
    if n == |lines| {
      assert lines[..n] == lines;
    } else {
      assert lines[..|lines| - 1][..n] == lines[..n];
      UnreadableStays(lines[..|lines| - 1], n);
    }
  }

  lemma {:induction false} ScheduleFresh(lines: seq<string>)
    ensures ScheduleOf(lines).Some? ==>
              forall i | 0 <= i < |ScheduleOf(lines).value| :: Fresh(ScheduleOf(lines).value[i])
  {
    hide FromLine;
    if lines != [] {
      ScheduleFresh(lines[..|lines| - 1]);
      if FromLine(lines[|lines| - 1]).Parsed? {
        ParsedIsSound(lines[|lines| - 1]);
      }
    }
  }

  ghost function ParsedFlags(lines: seq<string>): (flags: seq<bool>)
    ensures |flags| == |lines|
  {
    seq(|lines|, i requires 0 <= i < |lines| => FromLine(lines[i]).Parsed?)
  }

  lemma {:induction false} ScheduleFlagged(lines: seq<string>)
    ensures ScheduleOf(lines).None? <==> exists i :: 0 <= i < |lines| && FromLine(lines[i]).Panic?
    ensures ScheduleOf(lines).Some? ==>
              var ms, at := ScheduleOf(lines).value, Flagged(ParsedFlags(lines));
              && |at| == |ms|
              && forall k | 0 <= k < |at| :: at[k] < |lines| && FromLine(lines[at[k]]) == Parsed(ms[k])
  {
    hide FromLine;
    if lines != [] {
      var n := |lines| - 1;
      ScheduleFlagged(lines[..n]);
      assert ParsedFlags(lines)[..n] == ParsedFlags(lines[..n]);
      assert lines[n] == lines[|lines| - 1];
      if FromLine(lines[n]).Panic? {
      } else if i :| 0 <= i < |lines| && FromLine(lines[i]).Panic? {
        assert FromLine(lines[..n][i]).Panic?;
      }
    }
  }

  /**
   * Reading stops exactly when some line cannot be read; otherwise the measurements are those of the lines that
   * hold one, each once and in order.
   */
  lemma ScheduleInOrder(lines: seq<string>)
    ensures ScheduleOf(lines).None? <==> exists i :: 0 <= i < |lines| && FromLine(lines[i]).Panic?
    ensures ScheduleOf(lines).Some? ==>
              exists at: seq<nat> ::
                && |at| == |ScheduleOf(lines).value|
                && (forall k, l | 0 <= k < l < |at| :: at[k] < at[l])
                && (forall k | 0 <= k < |at| ::
                      at[k] < |lines| && FromLine(lines[at[k]]) == Parsed(ScheduleOf(lines).value[k]))
                && forall i | 0 <= i < |lines| && FromLine(lines[i]).Parsed? :: i in at
  {
    hide FromLine, ScheduleOf, Flagged;
    ScheduleFlagged(lines);
    FlaggedIs(ParsedFlags(lines));
    var at := Flagged(ParsedFlags(lines));
    forall i | 0 <= i < |lines| && FromLine(lines[i]).Parsed? ensures i in at {
      assert ParsedFlags(lines)[i];
    }
  }

  lemma {:induction false} GeneratedPrefix(plan: Plan, lines: seq<string>, ms: seq<Measurement>, layer: seq<nat>,
                                           n: nat)
    requires Generated(plan, lines, ms, layer) && PlanOk(plan) && n <= |ms| == |lines| && |ms| < U32_LIMIT
    ensures ScheduleOf(lines[..n]) == Some(ms[..n])
  {
    hide FromLine, Generated, PlanOk;
    if n > 0 {
      GeneratedPrefix(plan, lines, ms, layer, n - 1);
      GeneratedParses(plan, lines, ms, layer, n - 1);
      assert lines[..n][..n - 1] == lines[..n - 1] && lines[..n][n - 1] == lines[n - 1];
      assert ms[..n] == ms[..n - 1] + [ms[n - 1]];
    } else {
      assert lines[..0] == [];
    }
  }

  /** The lines of a generated schedule are read as the measurements they were generated for. */
  lemma GeneratedIsRead(plan: Plan, lines: seq<string>, ms: seq<Measurement>, layer: seq<nat>)
    requires Generated(plan, lines, ms, layer) && PlanOk(plan) && |ms| < U32_LIMIT
    ensures ScheduleOf(lines) == Some(ms)
  {
    GeneratedPrefix(plan, lines, ms, layer, |ms|);
    assert lines[..|ms|] == lines && ms[..|ms|] == ms;
  }

  /** What `sched_new` accepts. */
  ghost predicate Accepts(lines: seq<string>) {
    && ScheduleOf(lines).Some?
    && var ms := ScheduleOf(lines).value;
       NoDup(IdsOf(ms)) && DependsKnown(ms) && exists i :: 0 <= i < |ms| && ms[i].depends == []
  }

  /** So a generated schedule with anything in it is accepted. */
  lemma GeneratedAccepted(plan: Plan, lines: seq<string>, ms: seq<Measurement>, layer: seq<nat>)
    requires Generated(plan, lines, ms, layer) && PlanOk(plan) && 0 < |ms| < U32_LIMIT
    ensures Accepts(lines) && ScheduleOf(lines) == Some(ms)
  {
    GeneratedIsRead(plan, lines, ms, layer);
    assert Layered(ms, layer);
    hide Generated, PlanOk, ScheduleOf, Layered;
    GeneratedLoads(ms, layer);
  }

  /** The reading half of `sched_new_from_txt`. */
  method ReadText(lines: seq<string>) returns (r: Option<seq<Measurement>>)
    ensures r == ScheduleOf(lines)
    ensures r.None? <==> exists i :: 0 <= i < |lines| && FromLine(lines[i]).Panic?
    ensures r.Some? ==>
              exists at: seq<nat> ::
                && |at| == |r.value| && (forall k, l | 0 <= k < l < |at| :: at[k] < at[l])
                && (forall k | 0 <= k < |at| :: at[k] < |lines| && FromLine(lines[at[k]]) == Parsed(r.value[k]))
                && forall i | 0 <= i < |lines| && FromLine(lines[i]).Parsed? :: i in at
  {
    hide FromLine;
    var ms: seq<Measurement> := [];
    var i := 0;
    while i < |lines|
      invariant 0 <= i <= |lines| && ScheduleOf(lines[..i]) == Some(ms)
    {
      assert lines[..i + 1][..i] == lines[..i];
      var parsed := NewFromString(lines[i]);
      match parsed {
        case Skip =>
        case Panic =>
          UnreadableStays(lines, i + 1);
          ScheduleInOrder(lines);
          return None;
        case Parsed(m) =>
          ms := ms + [m];
      }
      i := i + 1;
    }
    assert lines[..i] == lines;
    ScheduleInOrder(lines);
    r := Some(ms);
  }

  /** The world in which the main loop begins, over the table that earlier calls have left. */
  ghost function FirstWorld(lines: seq<string>, clients: seq<Client>, tbl: Table): World
    requires ScheduleOf(lines).Some?
  {
    World(clients, Inserted(tbl, ScheduleOf(lines).value), {})
  }

  lemma FirstWorldCounts(lines: seq<string>, clients: seq<Client>, tbl: Table)
    requires Accepts(lines) && AllComplete(tbl)
    ensures var t := FirstWorld(lines, clients, tbl).table;
      && |t| - |CompleteIds(t)| == |ScheduleOf(lines).value|
      && ((forall k | k in t :: t[k].status == Waiting) <==> forall k | k in tbl :: k in IdsOf(ScheduleOf(lines).value))
  {
    var ms := ScheduleOf(lines).value;
    ScheduleFresh(lines);
    InsertedIsAll(tbl, ms);
    hide Inserted, ScheduleOf, DependsKnown;
    var t := Inserted(tbl, ms);
    var ids := ToSet(IdsOf(ms));
    SetSize(IdsOf(ms));
    forall k | k in ids ensures k in t && t[k].status == Waiting {
      var i := EntryOf(tbl, ms, k);
    }
    assert t.Keys == ids + CompleteIds(t);
    assert ids !! CompleteIds(t);
    assert |t| == |t.Keys|;
  }

  /** How a call ends: with the counts and the bandwidth file, or before the main loop. */
  datatype Ending =
    | Ended(success: nat, failure: nat, total: nat, bandwidths: map<string, int>)
    | NoClients
    | Refused

  /**
   * `main_loop_once`. `results` is what the output file holds when the main loop has ended. A schedule that is
   * accepted has to be viable, or the call never returns, and harmless, or some run stops the program.
   *
   * The table is left complete, so that the next call can be made on it; the counts are those of this
   * schedule alone, and the total takes in every id an earlier one has left outside this one.
   */
  method MainLoopOnce(lines: seq<string>, clients: seq<Client>, sched: Scheduler, now: nat, results: seq<string>)
    returns (r: Ending)
    requires Tracked(sched.msms) && AllComplete(sched.msms)
    requires |clients| <= 4096
    requires forall i | 0 <= i < |clients| ::
               clients[i] == Client(clients[i].cls, "bg" <= clients[i].cls, -1, Invalid, 0)
    requires Accepts(lines) ==> Viable(FirstWorld(lines, clients, sched.msms).table)
    requires Accepts(lines) ==> Harmless(FirstWorld(lines, clients, sched.msms))
    modifies sched
    ensures r.NoClients? <==> clients == []
    ensures r.Ended? <==> clients != [] && Accepts(lines)
    ensures r.Ended? ==> Tracked(sched.msms) && AllComplete(sched.msms) && r.total == |sched.msms|
    ensures r.Ended? ==> r.success + r.failure == |ScheduleOf(lines).value|
    ensures r.Ended? ==>
              (r.success + r.failure == r.total <==>
               forall k | k in old(sched.msms) :: k in IdsOf(ScheduleOf(lines).value))
    ensures r.Ended? ==> r.bandwidths == FileFor(ReadAll(results))
  {
    assert AsRead(clients);
    hide ScheduleOf, Inserted, FileFor, ReadAll, Viable, Harmless, Initial, AsRead, Tracked, AllComplete;
    if |clients| == 0 {
      return NoClients;
    }
    ghost var was := sched.msms;
    var read := ReadText(lines);
    if read.None? {
      return Refused;
    }
    ScheduleFresh(lines);
    var loaded, total := sched.New(read.value);
    if loaded != Loaded {
      return Refused;
    }
    LoadedInitial(clients, was, read.value);
    FirstWorldCounts(lines, clients, was);
    hide CompleteIds, IdsOf, NoDup, DependsKnown, Fresh;
    var c := new Coordinator(clients, sched, now);
    c.Run();
    c.TableSound();
    var bandwidths := GenerateFile(results);
    r := Ended(c.success, c.failure, total, bandwidths);
  }
}
