/** The coordinator of flashflow.c: its client array, its array of known measurement ids and its main loop. */
module Coordination {
  import opened Sequences
  import opened Schedule
  import opened Clients
  import opened Staffing
  import opened Protocol
  import opened Runs
  import opened Progress
  import opened Heads
  import opened Passes
  import opened Polling
  import opened Liveness
  import opened Rounds
  import opened History
  import opened Looping
  import opened Silence
  import opened Crews
  import opened Aborts
  import opened Bookkeeping

  class Coordinator {
    const metas: array<Client>
    const known: array<nat>
    const sched: Scheduler
    var numKnown: nat
    var loops: nat
    var success: nat
    var failure: nat
    var clock: nat
    ghost const w0: World
    ghost var log: seq<Event>
    ghost var extended: set<nat>
    /** How each wait for replies ended, what the last one reported, and how many there had been at each cutoff. */
    ghost var waits: seq<Wait>
    ghost var heard: seq<int>
    ghost var cuts: seq<nat>

    ghost function W(): World
      reads this`extended, metas, sched
    {
      World(metas[..], sched.msms, extended)
    }

    ghost function Ids(): seq<nat>
      reads this`numKnown, known
    {
      if numKnown <= known.Length then known[..numKnown] else []
    }

    /** Where the iteration is. */
    ghost function Where(): Place
      reads this`log
    {
      PlaceOf(log)
    }

    /**
     * The events so far are a run of the protocol that keeps to the order of the main loop, and the fields are
     * the world it leads to.
     */
    ghost predicate Traced()
      reads this`extended, this`log, metas, sched
    {
      && Initial(w0) && Harmless(w0) && Looped(w0, log) && Outcome(w0, log) == W()
      && Inv(W())
      && metas.Length <= MAX_NUM_CTRL_SOCKS && known.Length == MAX_NUM_CTRL_SOCKS
    }

    /** The known ids are distinct and, `x` aside, the running measurements. */
    ghost predicate KnowsExcept(x: nat)
      reads this`extended, this`numKnown, metas, sched, known
    {
      numKnown <= known.Length && Knows(Ids(), W(), x)
    }

    /** Measurement `x` may be half-way through a pass; everything else is as at a loop head. */
    ghost predicate Busy(x: nat)
      reads this`extended, this`log, this`numKnown, this`clock, metas, sched, known
    {
      Traced() && AtHeadExcept(W(), x) && KnowsExcept(x) && DueSoon(sched.msms, clock)
    }

    ghost predicate Quiet()
      reads this`extended, this`log, this`numKnown, this`clock, metas, sched, known
    {
      Traced() && AtHead(W()) && KnowsExcept(0) && DueSoon(sched.msms, clock)
    }

    ghost predicate Counted()
      reads this`success, this`failure, this`log
    {
      success == Successes(log) && failure == Failures(log)
    }

    /** The counter tells how many waits have brought nothing, and every cutoff came after eleven of them. */
    ghost predicate Idled()
      reads this`waits, this`cuts, this`loops
    {
      Counts(waits, cuts, loops) && Earned(waits, cuts) && Bounded(waits, cuts)
    }

    /** The main loop's invariant. */
    ghost predicate Valid()
      reads this, metas, sched, known
    {
      Quiet() && Counted() && Idled() && loops <= MAX_LOOPS_WITHOUT_PROGRESS + 1 && Settled(Where(), W())
    }

    constructor (clients: seq<Client>, sched: Scheduler, now: nat)
      requires |clients| <= MAX_NUM_CTRL_SOCKS
      requires Initial(World(clients, sched.msms, {})) && Harmless(World(clients, sched.msms, {}))
      ensures Valid() && fresh(metas) && fresh(known) && this.sched == sched
      ensures w0 == World(clients, sched.msms, {}) && log == [] && W() == w0
      ensures clock == now && loops == 0 && waits == [] && cuts == [] && known.Length == 4096
    {
      metas := new Client[|clients|](i requires 0 <= i < |clients| => clients[i]);
      known := new nat[MAX_NUM_CTRL_SOCKS](_ => 0);
      this.sched := sched;
      numKnown, loops, success, failure, clock := 0, 0, 0, 0, now;
      w0, log, extended := World(clients, sched.msms, {}), [], {};
      waits, heard, cuts := [], [], [];
      new;
      assert metas[..] == clients;
      InitialInv(w0);
      NoWaits();
    }

    /** Read the clock, which never goes back. */
    method Tick()
      modifies this`clock
      ensures clock >= old(clock)
    {
      var passed: int := *;
      if passed > 0 {
        clock := clock + passed;
      }
    }

    /** Append an event that the fields already reflect. */
    ghost method Record(w: World, e: Event)
      requires Initial(w0) && Harmless(w0) && Looped(w0, log) && Outcome(w0, log) == w && Inv(w)
      requires Enabled(w, e) && Allowed(Where(), w, e) && W() == Apply(w, e)
      requires metas.Length <= MAX_NUM_CTRL_SOCKS && known.Length == MAX_NUM_CTRL_SOCKS
      modifies this`log
      ensures log == old(log) + [e] && Traced() && W() == old(W()) && Where() == NextPlace(old(Where()), e)
      ensures Rank(W()) <= Rank(w) && (Steps(e) ==> Rank(W()) < Rank(w))
      ensures AtHeadExcept(w, Subject(w, e)) ==>
                AtHeadExcept(W(), Subject(w, e)) && (e.Finish? || e.Fail? ==> AtHead(W()))
      ensures Successes(log) == Successes(old(log)) + if e.Finish? then 1 else 0
      ensures Failures(log) == Failures(old(log)) + if e.Fail? then 1 else 0
    {
      hide Inv, AtHead, AtHeadExcept, Enabled, Apply, Rank, Initial, Harmless, Looped, Allowed, NextPlace;
      LoopedStep(w0, log, e);
      StepInv(w, e);
      StepRank(w, e);
      if AtHeadExcept(w, Subject(w, e)) {
        OthersStay(w, e, Subject(w, e));
      }
      log := log + [e];
      assert log[..|log| - 1] == old(log);
    }

    /** A running measurement was started without a panic. */
    lemma RunningSound(m: nat)
      requires Traced() && Running(W(), m)
      ensures m in sched.msms && !Overflows(sched.msms[m]) && NamesOk(sched.msms[m])
    {
      RunningNoPanic(w0, log, m);
    }

    lemma ReadySound(m: nat)
      requires Traced() && m in sched.msms && Ready(sched.msms[m])
      ensures !Panics(sched.msms[m]) && !Overflows(sched.msms[m])
    {
      HarmlessReady(w0, log, m);
    }

    lemma KnownHere(i: nat)
      requires Quiet() && i < |Ids()|
      ensures numKnown <= known.Length && |Ids()| == numKnown && Ids()[i] == known[i] && known[i] in Ids()
      ensures known[i] > 0 && known[i] in sched.msms
      ensures sched.msms[known[i]].dur != 0 && sched.msms[known[i]].hosts != []
      ensures var cs := metas[..];
        || Awaits(W(), known[i])
        || AllAt(cs, known[i], 3) || AllAt(cs, known[i], 5) || AllAt(cs, known[i], 7) || AllAt(cs, known[i], 9)
    {
      KnownAtHead(W(), Ids(), Ids()[i]);
      AwaitsOrAnswered(W(), Ids()[i]);
    }

    lemma KnownSound(i: nat)
      requires Quiet() && i < |Ids()|
      ensures known[i] in sched.msms && NamesOk(sched.msms[known[i]])
    {
      RunningSound(Ids()[i]);
    }

    lemma KnownSize()
      requires Quiet()
      ensures |Ids()| == numKnown && NoDup(Ids()) && forall m | m in Ids() :: m > 0 && m in sched.msms
    {
      forall m | m in Ids() ensures m > 0 {
        RunningId(W(), m);
      }
    }

    lemma RunningKnown()
      requires Quiet()
      ensures forall m | Running(W(), m) :: m in Ids()
    {
      TableIds(sched.msms);
    }

    lemma ClientsHere()
      requires Quiet()
      ensures ClientsOk(metas[..]) && DistinctFds(metas[..]) && 0 !in sched.msms
    {
      TableIds(sched.msms);
    }

    /** A client in a waiting state belongs to a running, paired measurement. */
    lemma ClientHere(j: nat)
      requires Quiet() && j < metas.Length && Stage(metas[j].state) in {2, 4, 6, 8}
      ensures var m := metas[j].owner; m > 0 && Running(W(), m) && Paired(W(), m) && AtHeadExcept(W(), m)
      ensures Knows(Ids(), W(), metas[j].owner)
      ensures W().table[metas[j].owner].dur != 0 && W().table[metas[j].owner].hosts != []
    {
      assert metas[j] == W().clients[j];
      TableIds(sched.msms);
    }

    /** The loop of `measurement_failed_` over the clients. */
    method ReleaseAll(m: nat)
      requires m > 0 && ClientsOk(metas[..])
      modifies metas
      ensures metas[..] == Released(old(metas[..]), m)
    {
      ghost var cs := metas[..];
      var i := 0;
      while i < metas.Length
        invariant 0 <= i <= metas.Length
        invariant forall k | 0 <= k < metas.Length ::
                    metas[k] == if k < i && cs[k].owner == m then Unused(cs[k]) else cs[k]
      {
        if metas[i].owner == m {
          assert metas[i] == cs[i];
          label before:
          MarkFailed(metas, i);
          assert metas[i] == metas[..][i] == cs[i].(state := Failed);
          FinishedWithMeta(metas, i);
          forall k | 0 <= k < metas.Length
            ensures metas[k] == if k < i + 1 && cs[k].owner == m then Unused(cs[k]) else cs[k]
          {
            assert metas[k] == metas[..][k];
          }
        }
        i := i + 1;
      }
    }

    /** The loop of `measurement_failed_` over the known ids. */
    method ForgetId(m: nat)
      requires numKnown <= known.Length
      modifies known, this`numKnown
      ensures numKnown <= known.Length
      ensures m !in old(Ids()) ==> Ids() == old(Ids())
      ensures NoDup(old(Ids())) ==>
                forall i | 0 <= i < |old(Ids())| && old(Ids())[i] == m :: Ids() == SwapRemove(old(Ids()), i)
    {
      var i := 0;
      while i < numKnown
        invariant 0 <= i <= numKnown
        invariant numKnown == old(numKnown) && known[..] == old(known[..])
        invariant forall k | 0 <= k < i :: known[k] != m
      {
        if known[i] == m {
          numKnown := numKnown - 1;
          known[i] := known[numKnown];
          assert Ids() == SwapRemove(old(Ids()), i);
          return;
        }
        i := i + 1;
      }
    }

    /**
     * `measurement_failed_`: mark the clients of `m` failed, close them, tell the scheduler, and drop `m`
     * from the known ids by moving the last one into its place.
     */
    method MeasurementFailed(m: nat)
      requires Busy(m) && Running(W(), m)
      modifies metas, known, sched, this`log, this`numKnown
      ensures Quiet()
      ensures W() == GivenUp(old(W()), m) && log == old(log) + [Fail(m)]
      ensures Where() == NextPlace(old(Where()), Fail(m)) && (old(Settled(Where(), W())) ==> Settled(Where(), W()))
      ensures Rank(W()) < old(Rank(W()))
      ensures Failures(log) == Failures(old(log)) + 1 && Successes(log) == Successes(old(log))
      ensures m !in old(Ids()) ==> Ids() == old(Ids())
      ensures forall i | 0 <= i < |old(Ids())| && old(Ids())[i] == m :: Ids() == SwapRemove(old(Ids()), i)
    {
      hide Inv, AtHead, AtHeadExcept, Knows, Rank, Initial, Harmless, Looped, Outcome, DueSoon;
      hide Allowed, NextPlace, PlaceOf, Settled, Open, InPasses, Hears, AllAwait;
      ghost var w, ids := W(), Ids();
      RunningId(w, m);
      ReleaseAll(m);
      sched.MarkDone(m);
      FailPlace(Where(), w, m);
      if Settled(Where(), w) {
        SettledGivenUp(Where(), w, m);
      }
      Record(w, Fail(m));
      KnownDistinct(ids, w, m);
      ForgetId(m);
      KnowsGivenUp(ids, Ids(), w, m);
      DueSoonGivenUp(w.table, m, clock);
    }

    /** A measurement fails and is counted. */
    method FailCounted(m: nat)
      requires Busy(m) && Counted() && Running(W(), m)
      modifies metas, known, sched, this`log, this`numKnown, this`failure
      ensures Quiet() && Counted() && W() == GivenUp(old(W()), m) && Rank(W()) < old(Rank(W()))
      ensures log == old(log) + [Fail(m)] && failure == old(failure) + 1
      ensures Where() == NextPlace(old(Where()), Fail(m)) && (old(Settled(Where(), W())) ==> Settled(Where(), W()))
      ensures m !in old(Ids()) ==> Ids() == old(Ids())
      ensures forall i | 0 <= i < |old(Ids())| && old(Ids())[i] == m :: Ids() == SwapRemove(old(Ids()), i)
    {
      hide Inv, AtHead, AtHeadExcept, Knows, Rank, Initial, Harmless, Looped, Outcome, DueSoon, Successes, Failures;
      hide Allowed, NextPlace, PlaceOf, Settled, Open, InPasses, Hears, AllAwait;
      MeasurementFailed(m);
      failure := failure + 1;
    }

    /** `fill_msm_params`: the names become C strings. */
    method FillParams(m: nat) returns (p: Measurement, ok: bool)
      requires m in sched.msms && NamesOk(sched.msms[m])
      ensures p == sched.msms[m] && (ok <==> p.dur != 0 && p.hosts != [])
    {
      p := sched.msms[m];
      assert !HasNul(p.fp) && forall i | 0 <= i < |p.hosts| :: !HasNul(p.hosts[i].cls);
      if p.dur == 0 {
        return p, false;
      }
      if |p.hosts| == 0 {
        return p, false;
      }
      ok := true;
    }

    /** The body of the loop in `find_and_connect_metas`, for the next host entry. */
    method ConnectOne(m: nat, cls: string) returns (ok: bool, ghost refused: set<int>)
      requires Busy(m) && Running(W(), m) && W().table[m].dur > 0 && AllAt(W().clients, m, 1)
      requires Where() == BringingUp(m)
      requires |OwnedClasses(W().clients, m)| < |W().table[m].hosts|
      requires cls == W().table[m].hosts[|OwnedClasses(W().clients, m)|].cls
      modifies metas, this`log
      ensures old(log) <= log
      ensures Busy(m) && W().table == old(W().table) && GivenUp(W(), m) == GivenUp(old(W()), m)
      ensures Rank(W()) <= old(Rank(W())) && AllAt(W().clients, m, 1) && Where() == BringingUp(m)
      ensures Successes(log) == Successes(old(log)) && Failures(log) == Failures(old(log))
      ensures |OwnedClasses(W().clients, m)| == old(|OwnedClasses(W().clients, m)|) + if ok then 1 else 0
      ensures !ok ==> W() == old(W())
      ensures !ok ==>
                forall i :: i in refused <==> 0 <= i < metas.Length && metas[i].cls == cls && metas[i].owner == 0
    {
      hide Inv, AtHead, AtHeadExcept, Knows, Rank, Initial, Harmless, Looped, Outcome, DueSoon;
      hide Allowed, NextPlace, PlaceOf, Settled, Open, InPasses, Hears, AllAwait;
      hide AllAt, Successes, Failures, OwnedClasses, GivenUp;
      ghost var w := W();
      RunningId(w, m);
      var next;
      next, refused := NextAvailable(metas, cls);
      if next < 0 {
        assert forall i | 0 <= i < metas.Length :: metas[i] == metas[..][i] == w.clients[i];
        return false, refused;
      }
      metas[next] := metas[next].(owner := m);
      assert metas[..] == w.clients[next := w.clients[next].(fd := metas[next].fd, state := Connected, owner := m)];
      ConnectStep(w, next, m, metas[next].fd);
      ConnectUndone(w, next, m, metas[next].fd);
      ConnectPlace(w, next, m, metas[next].fd);
      Record(w, Connect(next, m, metas[next].fd));
      KnowsKept(Ids(), w, W(), m);
      ok := true;
    }

    /** `find_and_connect_metas`: connect an unused client for every host entry, in order. */
    method FindAndConnect(m: nat) returns (ok: bool, ghost refused: set<int>)
      requires Busy(m) && Running(W(), m) && OwnedClasses(W().clients, m) == [] && Where() == BringingUp(m)
      modifies metas, this`log
      ensures old(log) <= log && Where() == BringingUp(m)
      ensures Busy(m) && Counted() == old(Counted())
      ensures W().table == old(W().table) && GivenUp(W(), m) == GivenUp(old(W()), m)
      ensures Rank(W()) <= old(Rank(W()))
      ensures ok ==> Full(W(), m) && AllAt(W().clients, m, 1)
      ensures ok ==> Explains(Up, old(metas[..]), W().table[m])
      ensures !ok ==>
                Explains(if Usable(W().table[m]) then Short(refused) else Unusable, old(metas[..]), W().table[m])
    {
      hide Inv, AtHead, AtHeadExcept, Knows, Rank, Initial, Harmless, Looped, Outcome, DueSoon, Successes, Failures;
      hide Allowed, NextPlace, PlaceOf, Settled, Open, InPasses, Hears, AllAwait;
      hide GivenUp, NamesOk, Overflows;
      ghost var w1 := W();
      RunningSound(m);
      refused := {};
      var p, filled := FillParams(m);
      if !filled {
        return false, {};
      }
      OwnedNone(W().clients, m);
      var i := 0;
      while i < |p.hosts|
        invariant 0 <= i <= |p.hosts|
        invariant Busy(m) && W().table == w1.table && GivenUp(W(), m) == GivenUp(w1, m) && Rank(W()) <= Rank(w1)
        invariant old(log) <= log && Where() == BringingUp(m)
        invariant |OwnedClasses(W().clients, m)| == i && AllAt(W().clients, m, 1)
        invariant Successes(log) == Successes(old(log)) && Failures(log) == Failures(old(log))
      {
        var connected;
        connected, refused := ConnectOne(m, p.hosts[i].cls);
        if !connected {
          FoundLacking(w1, W(), m, i, refused);
          return false, refused;
        }
        i := i + 1;
      }
      FoundEnough(w1, W(), m);
      ok := true;
    }

    /** `send_auth_metas`. */
    method SendAuth(m: nat) returns (ok: bool)
      requires Busy(m) && Running(W(), m) && Full(W(), m) && AllAt(W().clients, m, 1) && Where() == BringingUp(m)
      modifies metas, this`log
      ensures old(log) <= log && Where() == BringingUp(m)
      ensures Busy(m) && Counted() == old(Counted())
      ensures W().table == old(W().table) && GivenUp(W(), m) == GivenUp(old(W()), m)
      ensures Rank(W()) <= old(Rank(W()))
      ensures ok ==> W() == Advanced(old(W()), m, metas.Length)
    {
      hide Inv, AtHead, AtHeadExcept, Knows, Rank, Initial, Harmless, Looped, Outcome, DueSoon, GivenUp;
      hide Allowed, NextPlace, PlaceOf, Settled, Open, InPasses, Hears, AllAwait;
      ghost var w1 := W();
      var i := 0;
      AdvancedStart(w1, m);
      while i < metas.Length
        invariant 0 <= i <= metas.Length
        invariant Busy(m) && W() == Advanced(w1, m, i) && Rank(W()) <= Rank(w1)
        invariant old(log) <= log && Where() == BringingUp(m)
        invariant Successes(log) == Successes(old(log)) && Failures(log) == Failures(old(log))
      {
        ghost var w := W();
        assert metas[i] == w.clients[i];
        AdvancedStep(w1, m, i);
        if metas[i].owner == m {
          SendEnabled(w1, m, i, 1, 0, Authenticate);
          assert metas[i].state == Connected;
          var sent;
          ghost var msg;
          sent, msg := AuthSocket(metas, i);
          if !sent {
            AdvancedUndone(w1, m, i);
            return false;
          }
          AuthPlace(w, i, m);
          Record(w, Send(i, 0, msg));
          KnowsKept(Ids(), w, W(), m);
        }
        i := i + 1;
      }
      AdvancedUndone(w1, m, i);
      ok := true;
    }

    /** Remember the id of a measurement whose clients are all connected; the array has room for it. */
    method Remember(id: nat)
      requires Busy(id) && Running(W(), id) && id !in Ids()
      requires Full(W(), id) && W().table[id].hosts != []
      modifies known, this`numKnown
      ensures Busy(id) && Ids() == old(Ids()) + [id]
    {
      hide Inv, AtHead, AtHeadExcept, Knows, Rank, Initial, Harmless, Looped, Outcome, DueSoon, Full;
      hide Allowed, NextPlace, PlaceOf, Settled, Open, InPasses, Hears, AllAwait;
      ghost var ids := Ids();
      RoomForOne(W(), ids, id);
      KnowsAppend(ids, W(), id);
      known[numKnown] := id;
      numKnown := numKnown + 1;
      assert Ids() == ids + [id];
    }

    /** The rest of starting a measurement, once the scheduler has handed it out. */
    method BringUp(id: nat) returns (ghost fate: Fate)
      requires Busy(id) && Counted() && Running(W(), id) && OwnedClasses(W().clients, id) == []
      requires id !in Ids() && id !in W().extended && Where() == BringingUp(id)
      modifies metas, known, sched, this`log, this`numKnown, this`failure
      ensures old(log) <= log
      ensures Quiet() && Counted() && Rank(W()) <= old(Rank(W()))
      ensures Explains(fate, old(metas[..]), old(W()).table[id]) && InPasses(Where(), W())
      ensures fate.Up? ==> Ids() == old(Ids()) + [id] && Authenticates(old(W()), id, W()) && failure == old(failure)
      ensures !fate.Up? ==> Ids() == old(Ids()) && W() == GivenUp(old(W()), id) && failure == old(failure) + 1
    {
      hide Inv, AtHead, AtHeadExcept, Knows, Rank, Initial, Harmless, Looped, Outcome, DueSoon, Paired;
      hide Allowed, NextPlace, PlaceOf, Settled, Open, InPasses, Hears, AllAwait;
      hide OwnedClasses, Full, AllAt, Successes, Failures, GivenUp, Lacking;
      ghost var ids := Ids();
      var found;
      ghost var refused;
      found, refused := FindAndConnect(id);
      FailPlace(Where(), W(), id);
      if !found {
        fate := if Usable(W().table[id]) then Short(refused) else Unusable;
        FailCounted(id);
        PassesAgain(W());
        return;
      }
      Remember(id);
      ghost var w := W();
      RunningId(w, id);
      var sent := SendAuth(id);
      if !sent {
        assert Ids()[|ids|] == id;
        FailCounted(id);
        assert SwapRemove(ids + [id], |ids|) == ids;
        PassesAgain(W());
        return Unsent;
      }
      PassDone(w, id, 1);
      JustUp(W(), id);
      HeadAgain(w, W(), Ids(), id);
      fate := Up;
    }

    /**
     * Start the measurement the scheduler hands out, if any: connect its clients, remember its id and send
     * the authentication commands. A failure on the way fails the measurement.
     */
    method StartNext() returns (ghost id: nat, ghost fate: Fate)
      requires Quiet() && Counted() && Settled(Where(), W())
      modifies metas, known, sched, this`log, this`numKnown, this`failure, this`clock
      ensures old(log) <= log && InPasses(Where(), W())
      ensures Quiet() && Counted() && clock >= old(clock)
      ensures id == 0 <==> NoReady(old(W()))
      ensures id == 0 ==> W() == old(W()) && Ids() == old(Ids())
      ensures id != 0 ==>
                && id in old(sched.msms) && Ready(old(sched.msms)[id])
                && Rank(W()) < old(Rank(W()))
                && exists now ::
                     old(clock) <= now <= clock && BroughtUp(old(W()), old(Ids()), id, now, fate, W(), Ids())
    {
      hide Inv, AtHead, AtHeadExcept, Knows, Rank, Initial, Harmless, Looped, Outcome, DueSoon, Paired;
      hide Allowed, NextPlace, PlaceOf, Settled, Open, InPasses, Hears, AllAwait;
      hide Successes, Failures, Authenticates, GivenUp, Overflows, Panics, Explains;
      ghost var w, ids := W(), Ids();
      InvTracked(w);
      Tick();
      DueSoonLater(w.table, old(clock), clock);
      forall k | k in sched.msms && Ready(sched.msms[k]) ensures !Panics(sched.msms[k]) && !Overflows(sched.msms[k]) {
        ReadySound(k);
      }
      var next := sched.NextInternal(true, clock);
      id, fate := next, Up;
      StartPlace(Where(), w, next, clock);
      if next == 0 {
        NoneLeft(w);
        Record(w, NoneReady);
        PassesAgain(w);
      } else {
        StartFacts(w, ids, next, clock);
        Record(w, Start(next, clock));
        fate := BringUp(next);
        SameMeasurement(fate, w, next, clock);
        assert BroughtUp(w, ids, next, clock, fate, W(), Ids());
      }
    }

    /** `is_totally_authed` and its three siblings: every client of the measurement is in the state. */
    method IsTotally(m: nat, st: CState) returns (all: bool)
      requires st in {Authed, ConnectedTarget, BwSet, Done}
      ensures all <==> AllAt(metas[..], m, Stage(st))
    {
      var i := 0;
      while i < metas.Length
        invariant 0 <= i <= metas.Length
        invariant forall k | 0 <= k < i :: metas[k].owner == m ==> metas[k].state == st
      {
        if metas[i].owner == m && metas[i].state != st {
          assert metas[..][i].owner == m;
          return false;
        }
        i := i + 1;
      }
      all := true;
    }

    /** Background clients at work are to have one connection. */
    lemma BackgroundSound(j: nat)
      requires Traced() && j < metas.Length && metas[j].owner > 0 && metas[j].owner in sched.msms
      requires Full(W(), metas[j].owner)
      ensures forall k | 0 <= k < |sched.msms[metas[j].owner].hosts| ::
                metas[j].isBg && sched.msms[metas[j].owner].hosts[k].cls == metas[j].cls ==>
                sched.msms[metas[j].owner].hosts[k].conns == 1
    {
      assert metas[j] == W().clients[j];
      WorksForRunning(W(), j);
      HarmlessStaffed(w0, log, j);
    }

    /**
     * Serve client `j` of `m` in the connect pass or the bandwidth pass: the first free host entry of its
     * class is found, the entry's values are sent, and the entry is marked.
     */
    method ServeClient(m: nat, j: nat, setBw: bool, used: array<bool>, ghost w: World)
      returns (ok: bool, ghost host: nat, ghost msg: Message)
      requires Busy(m) && j < metas.Length && m > 0 && W() == Advanced(w, m, j) && Open(Where(), W())
      requires Inv(w) && Running(w, m) && Full(w, m) && AllAt(w.clients, m, if setBw then 5 else 3)
      requires |w.clients| == metas.Length && w.clients[j].owner == m
      requires Taken(w.clients, w.table[m].hosts, m, j, used[..])
      modifies metas, this`log, used
      ensures Busy(m)
      ensures Pairs(w.clients, w.table[m].hosts, j, host) && host < used.Length && !old(used[host])
      ensures setBw ==> msg == ResetRate(w.table[m].hosts[host].bw, if w.clients[j].isBg then 1 else 32)
      ensures !setBw ==> msg == TestSpeed(w.table[m].fp, w.table[m].hosts[host].conns, w.clients[j].isBg)
      ensures !ok ==> W() == old(W()) && log == old(log) && used[..] == old(used[..])
      ensures ok ==> W() == Advanced(w, m, j + 1) && log == old(log) + [Send(j, host, msg)] && Where() == Passing
      ensures ok ==> used[..] == old(used[..])[host := true] && Taken(w.clients, w.table[m].hosts, m, j + 1, used[..])
      ensures ok ==> Rank(W()) < old(Rank(W()))
      ensures Successes(log) == Successes(old(log)) && Failures(log) == Failures(old(log))
    {
      hide Inv, AtHead, AtHeadExcept, Knows, Rank, Initial, Harmless, Looped, Outcome, DueSoon, Successes, Failures;
      hide Allowed, NextPlace, PlaceOf, Settled, Open, InPasses, Hears, AllAwait;
      hide Enabled, Apply, Full, Pairs, Taken, OwnedClasses, Fits;
      ghost var now := W();
      var hosts := sched.msms[m].hosts;
      FullStaffed(w, m);
      FreeEntryExists(w.clients, hosts, m, j, used[..]);
      TakenSize(w.clients, hosts, m, j, used[..]);
      assert metas[j] == now.clients[j] == w.clients[j];
      FullLater(w, m, j);
      BackgroundSound(j);
      var k := 0;
      while k < |hosts|
        invariant 0 <= k <= |hosts| && used[..] == old(used[..]) && metas[..] == now.clients && log == old(log)
        invariant forall i | 0 <= i < k :: hosts[i].cls == w.clients[j].cls ==> used[i]
      {
        if hosts[k].cls == metas[j].cls && !used[k] {
          FirstFreePairs(w.clients, hosts, m, j, k, used[..]);
          MessageFits(w, m, j, k, setBw);
          host := k;
          if setBw {
            ok, msg := SetBwRate(metas, j, hosts[k].bw);
          } else {
            ok, msg := TellConnect(metas, j, sched.msms[m].fp, hosts[k].conns);
          }
          SendEnabled(w, m, j, if setBw then 5 else 3, k, msg);
          if ok {
            assert W() == Advanced(w, m, j + 1) by { AdvancedStep(w, m, j); }
            SendPlace(Where(), now, j, k, msg);
            Record(now, Send(j, k, msg));
            KnowsKept(Ids(), now, W(), m);
            TakenNext(w.clients, hosts, m, j, k, used[..]);
            used[k] := true;
            assert used[..] == old(used[..])[k := true];
          }
          return;
        }
        k := k + 1;
      }
      assert false;
    }

    /** The connect pass and the bandwidth pass over the clients of `m`; at the end every host entry is used. */
    method AssignPass(m: nat, setBw: bool, used: array<bool>) returns (ok: bool)
      requires Busy(m) && m > 0 && Running(W(), m) && Full(W(), m) && W().table[m].hosts != []
      requires AllAt(W().clients, m, if setBw then 5 else 3) && Open(Where(), W())
      requires used.Length == |W().table[m].hosts| && forall k | 0 <= k < used.Length :: !used[k]
      modifies metas, this`log, used
      ensures old(log) <= log
      ensures Busy(m) && W().table == old(W().table) && GivenUp(W(), m) == GivenUp(old(W()), m)
      ensures Successes(log) == Successes(old(log)) && Failures(log) == Failures(old(log))
      ensures ok ==> W() == Advanced(old(W()), m, metas.Length) && forall k | 0 <= k < used.Length :: used[k]
      ensures if W() == old(W()) then Where() == old(Where()) else Where() == Passing && Rank(W()) < old(Rank(W()))
    {
      hide Inv, AtHead, AtHeadExcept, Knows, Rank, Initial, Harmless, Looped, Outcome, DueSoon, Successes, Failures;
      hide Allowed, NextPlace, PlaceOf, Settled, Open, InPasses, Hears, AllAwait;
      hide Enabled, Apply, Full, Pairs, Taken, OwnedClasses, AllAt, GivenUp;
      ghost var w := W();
      ghost var hosts := w.table[m].hosts;
      TakenNone(w.clients, hosts, m, used[..]);
      AdvancedStart(w, m);
      var j := 0;
      while j < metas.Length
        invariant 0 <= j <= metas.Length
        invariant Busy(m) && W() == Advanced(w, m, j) && Open(Where(), W())
        invariant if W() == w then Where() == old(Where()) else Where() == Passing && Rank(W()) < Rank(w)
        invariant old(log) <= log
        invariant Successes(log) == Successes(old(log)) && Failures(log) == Failures(old(log))
        invariant Taken(w.clients, hosts, m, j, used[..])
      {
        AdvancedUndone(w, m, j);
        assert metas[j] == W().clients[j];
        if metas[j].owner == m {
          ghost var host, msg;
          ok, host, msg := ServeClient(m, j, setBw, used, w);
          if !ok {
            return;
          }
          PassesAgain(W());
        } else {
          AdvancedStep(w, m, j);
          TakenSkip(w.clients, hosts, m, j, used[..]);
        }
        j := j + 1;
      }
      AdvancedUndone(w, m, j);
      FullStaffed(w, m);
      AllTaken(w.clients, hosts, m, used[..]);
      assert forall k | 0 <= k < used.Length :: used[..][k];
      ok := true;
    }

    /** The connect pass or the bandwidth pass over a known measurement, failing it if a command cannot be sent. */
    method Assign(m: nat, setBw: bool, used: array<bool>) returns (ok: bool)
      requires Quiet() && Counted() && m in Ids() && AllAt(W().clients, m, if setBw then 5 else 3)
      requires InPasses(Where(), W())
      requires m in W().table && used.Length == |W().table[m].hosts| && forall k | 0 <= k < used.Length :: !used[k]
      modifies metas, known, sched, this`log, this`numKnown, this`failure, used
      ensures old(log) <= log
      ensures Quiet() && Counted() && Rank(W()) < old(Rank(W())) && Where() == if ok then Passing else Over
      ensures ok ==> W() == Advanced(old(W()), m, metas.Length) && Ids() == old(Ids()) && failure == old(failure)
      ensures ok ==> Awaits(W(), m) && OthersAwait(old(W()), W(), m)
      ensures ok ==> forall k | 0 <= k < used.Length :: used[k]
      ensures !ok ==> W() == GivenUp(old(W()), m) && failure == old(failure) + 1
    {
      hide Inv, AtHead, AtHeadExcept, Knows, Rank, Initial, Harmless, Looped, Outcome, DueSoon, Paired;
      hide Allowed, NextPlace, PlaceOf, Settled, Open, InPasses, Hears, AllAwait;
      hide Successes, Failures, OwnedClasses, AllAt, Awaits, OthersAwait, GivenUp;
      ghost var w := W();
      KnownAtHead(w, Ids(), m);
      NotExtendedYet(w, m, if setBw then 5 else 3);
      PassDone(w, m, if setBw then 5 else 3);
      PassesOpen(Where(), w);
      FailsInPass(Where(), w, m, if setBw then 5 else 3);
      FailsOtherwise(m);
      ok := AssignPass(m, setBw, used);
      if !ok {
        FailCounted(m);
        return;
      }
      AdvancedOthersAwait(w, m);
      HeadAgain(w, W(), Ids(), m);
      NothingStays(w, m, if setBw then 5 else 3);
    }

    /**
     * The connect pass or the bandwidth pass, if it is time for either. They share one array of used host
     * entries, and a measurement that has just been through the first is not ready for the second.
     */
    method TellPhases(m: nat, numHosts: nat) returns (ok: bool)
      requires Quiet() && Counted() && m in Ids() && m in sched.msms && numHosts == |sched.msms[m].hosts|
      requires InPasses(Where(), W())
      modifies metas, known, sched, this`log, this`numKnown, this`failure
      ensures old(log) <= log
      ensures Quiet() && Counted() && if ok then InPasses(Where(), W()) else Where() == Over
      ensures !AllAt(old(W()).clients, m, 3) && !AllAt(old(W()).clients, m, 5) ==> ok && W() == old(W())
      ensures ok && (AllAt(old(W()).clients, m, 3) || AllAt(old(W()).clients, m, 5)) ==>
                W() == Advanced(old(W()), m, metas.Length) && Awaits(W(), m) && Rank(W()) < old(Rank(W()))
      ensures ok ==> Ids() == old(Ids()) && OthersAwait(old(W()), W(), m) && failure == old(failure)
      ensures !ok ==> W() == GivenUp(old(W()), m) && failure == old(failure) + 1 && Rank(W()) < old(Rank(W()))
    {
      hide Inv, AtHead, AtHeadExcept, Knows, Rank, Initial, Harmless, Looped, Outcome, DueSoon, Paired;
      hide Allowed, NextPlace, PlaceOf, Settled, Open, InPasses, Hears, AllAwait;
      hide Successes, Failures, OwnedClasses, AllAt, Awaits, OthersAwait, Full, Quiet, Counted, Running, GivenUp;
      hide Advanced;
      OthersAwaitSame(W(), m);
      var used := new bool[numHosts](_ => false);
      var authed := IsTotally(m, Authed);
      if authed {
        ok := Assign(m, false, used);
        if !ok {
          return;
        }
        assert forall k | 0 <= k < used.Length :: used[k];
        AwaitsNotAnswered(W(), m);
      }
      var connectedTarget := IsTotally(m, ConnectedTarget);
      if connectedTarget {
        ok := Assign(m, true, used);
        if !ok {
          return;
        }
        assert forall k | 0 <= k < used.Length :: used[k];
      }
      PassesAgain(W());
      ok := true;
    }

    /** Send client `j` of `m` the start command. */
    method MeasureOne(m: nat, j: nat, dur: nat, ghost w: World) returns (ok: bool)
      requires Busy(m) && j < metas.Length && m > 0 && W() == Advanced(w, m, j) && Where() == Passing
      requires Inv(w) && Running(w, m) && Full(w, m) && AllAt(w.clients, m, 7) && m in w.extended
      requires |w.clients| == metas.Length && w.clients[j].owner == m && dur == w.table[m].dur
      modifies metas, this`log
      ensures old(log) <= log
      ensures Busy(m) && Where() == Passing
      ensures Successes(log) == Successes(old(log)) && Failures(log) == Failures(old(log))
      ensures !ok ==> W() == old(W())
      ensures ok ==> W() == Advanced(w, m, j + 1) && Rank(W()) < old(Rank(W()))
    {
      hide Inv, AtHead, AtHeadExcept, Knows, Rank, Initial, Harmless, Looped, Outcome, DueSoon, Successes, Failures;
      hide Allowed, NextPlace, PlaceOf, Settled, Open, InPasses, Hears, AllAwait;
      hide Advanced;
      ghost var now := W();
      AdvancedAt(w, m, j);
      AdvancedStep(w, m, j);
      assert metas[j] == now.clients[j];
      SendEnabled(w, m, j, 7, 0, Measure(dur));
      ghost var msg;
      ok, msg := StartMeasurement(metas, j, dur);
      if ok {
        PassesOpen(Passing, now);
        SendPlace(Passing, now, j, 0, msg);
        Record(now, Send(j, 0, msg));
        KnowsKept(Ids(), now, W(), m);
      }
    }

    /** The loop that sends every client of `m` the start command; it counts whom it told. */
    method MeasurePass(m: nat) returns (ok: bool, numTold: nat)
      requires Busy(m) && m > 0 && Running(W(), m) && Full(W(), m) && AllAt(W().clients, m, 7) && m in W().extended
      requires Where() == Passing
      modifies metas, this`log
      ensures old(log) <= log && Where() == Passing
      ensures Busy(m) && W().table == old(W().table) && GivenUp(W(), m) == GivenUp(old(W()), m)
      ensures Successes(log) == Successes(old(log)) && Failures(log) == Failures(old(log))
      ensures ok ==> W() == Advanced(old(W()), m, metas.Length) && numTold == |W().table[m].hosts|
      ensures W() == old(W()) || Rank(W()) < old(Rank(W()))
    {
      hide Inv, AtHead, AtHeadExcept, Knows, Rank, Initial, Harmless, Looped, Outcome, DueSoon, Successes, Failures;
      hide Allowed, NextPlace, PlaceOf, Settled, Open, InPasses, Hears, AllAwait;
      hide Advanced, GivenUp;
      ghost var w := W();
      AdvancedStart(w, m);
      numTold := 0;
      var dur := sched.msms[m].dur;
      var j := 0;
      while j < metas.Length
        invariant 0 <= j <= metas.Length
        invariant Busy(m) && W() == Advanced(w, m, j) && (W() == w || Rank(W()) < Rank(w))
        invariant old(log) <= log && Where() == Passing
        invariant Successes(log) == Successes(old(log)) && Failures(log) == Failures(old(log))
        invariant numTold == |OwnedClasses(w.clients[..j], m)|
      {
        AdvancedAt(w, m, j);
        AdvancedUndone(w, m, j);
        AdvancedStep(w, m, j);
        assert metas[j] == W().clients[j];
        assert w.clients[..j + 1][..j] == w.clients[..j];
        if metas[j].owner == m {
          ok := MeasureOne(m, j, dur, w);
          if !ok {
            return;
          }
          numTold := numTold + 1;
        }
        j := j + 1;
      }
      AdvancedUndone(w, m, j);
      AdvancedTable(w, m, j);
      assert w.clients[..j] == w.clients;
      ok := true;
    }

    /** All bandwidths are set: reset the deadline and start the measurement on every client. */
    method Begin(m: nat) returns (ok: bool, ghost at: nat)
      requires Quiet() && Counted() && m in Ids() && AllAt(W().clients, m, 7) && Open(Where(), W())
      modifies metas, known, sched, this`log, this`numKnown, this`failure, this`extended, this`clock
      ensures old(log) <= log && Where() == if ok then Passing else Over
      ensures Quiet() && Counted() && Rank(W()) < old(Rank(W())) && clock >= old(clock)
      ensures old(clock) <= at <= clock && Running(old(W()), m)
      ensures ok ==> W() == Advanced(WithDeadline(old(W()), m, at), m, metas.Length) && failure == old(failure)
      ensures ok ==> Ids() == old(Ids()) && AllAt(W().clients, m, 8) && Awaits(W(), m) && OthersAwait(old(W()), W(), m)
      ensures !ok ==> W() == GivenUp(WithDeadline(old(W()), m, at), m) && failure == old(failure) + 1
    {
      hide Inv, AtHead, AtHeadExcept, Knows, Rank, Initial, Harmless, Looped, Outcome, DueSoon, Paired;
      hide Allowed, NextPlace, PlaceOf, Settled, Open, InPasses, Hears, AllAwait;
      hide Successes, Failures, OwnedClasses, AllAt, Awaits, OthersAwait, Advanced, Full, GivenUp, NamesOk, Overflows;
      ghost var w := W();
      KnownAtHead(w, Ids(), m);
      NotExtendedYet(w, m, 7);
      RunningId(w, m);
      RunningSound(m);
      Tick();
      at := clock;
      sched.ResetFailsafe(m, clock);
      extended := extended + {m};
      ExtendFacts(w, Ids(), m, old(clock), clock);
      PassPlace(Where(), w, m, clock);
      Record(w, Extend(m, clock));
      ghost var w1 := W();
      var numTold;
      ok, numTold := MeasurePass(m);
      if !ok {
        FailsOtherwise(m);
        FailCounted(m);
        return;
      }
      assert numTold == |sched.msms[m].hosts|;
      PassDone(w1, m, 7);
      AdvancedOthersAwait(w1, m);
      HeadAgain(w1, W(), Ids(), m);
      NothingStays(w1, m, 7);
      OthersAwaitAlso(w, w1, W(), m);
    }

    method FinishAll(m: nat)
      requires m > 0 && ClientsOk(metas[..]) && AllAt(metas[..], m, 9)
      modifies metas
      ensures metas[..] == Released(old(metas[..]), m)
    {
      ghost var cs := metas[..];
      var j := 0;
      while j < metas.Length
        invariant 0 <= j <= metas.Length
        invariant forall k | 0 <= k < metas.Length ::
                    metas[k] == if k < j && cs[k].owner == m then Unused(cs[k]) else cs[k]
      {
        if metas[j].owner == m {
          assert metas[j] == cs[j] && metas[j].state == Done;
          FinishedWithMeta(metas, j);
          forall k | 0 <= k < metas.Length
            ensures metas[k] == if k < j + 1 && cs[k].owner == m then Unused(cs[k]) else cs[k]
          {
            assert metas[k] == metas[..][k];
          }
        }
        j := j + 1;
      }
    }

    /** Everyone is done: give the clients up and complete the measurement. */
    method Conclude(i: nat)
      requires Quiet() && Counted() && i < numKnown <= known.Length && AllAt(W().clients, known[i], 9)
      requires Open(Where(), W())
      modifies metas, known, sched, this`log, this`numKnown, this`success
      ensures Quiet() && Counted() && Rank(W()) < old(Rank(W())) && Where() == Passing
      ensures old(known[i]) in old(W()).table && W() == GivenUp(old(W()), old(known[i]))
      ensures log == old(log) + [Finish(old(known[i]))] && success == old(success) + 1
      ensures Ids() == SwapRemove(old(Ids()), i) && OthersAwait(old(W()), W(), old(known[i]))
    {
      hide Inv, AtHead, AtHeadExcept, Knows, Rank, Initial, Harmless, Looped, Outcome, DueSoon, Paired;
      hide Allowed, NextPlace, PlaceOf, Settled, Open, InPasses, Hears, AllAwait;
      hide Successes, Failures, OwnedClasses, Awaits, OthersAwait, Full;
      ghost var w, ids := W(), Ids();
      var m := known[i];
      assert m == ids[i];
      KnownAtHead(w, ids, m);
      RunningId(w, m);
      KnownDistinct(ids, w, 0);
      FinishAll(m);
      sched.MarkDone(m);
      PassPlace(Where(), w, m, 0);
      Record(w, Finish(m));
      numKnown := numKnown - 1;
      known[i] := known[numKnown];
      success := success + 1;
      assert Ids() == SwapRemove(ids, i);
      KnowsGivenUp(ids, Ids(), w, m);
      DueSoonGivenUp(w.table, m, clock);
      GivenUpOthersAwait(w, m);
    }

    /** One turn of the loop over the known ids, for the id at index `i`. */
    method AdvanceOne(i: nat) returns (r: Turn)
      requires Quiet() && Counted() && i < |Ids()| && InPasses(Where(), W())
      modifies metas, known, sched, this`log, this`numKnown, this`success, this`failure, this`extended, this`clock
      ensures old(log) <= log
      ensures Quiet() && Counted() && clock >= old(clock)
      ensures if r.Aborted? then Where() == Over else InPasses(Where(), W())
      ensures W() == old(W()) || Rank(W()) < old(Rank(W()))
      ensures r.Kept? ==> Ids() == old(Ids()) && Awaits(W(), Ids()[i]) && OthersAwait(old(W()), W(), Ids()[i])
      ensures r.Removed? ==> Ids() == SwapRemove(old(Ids()), i) && OthersAwait(old(W()), W(), old(Ids())[i])
      ensures !r.Kept? ==> Rank(W()) < old(Rank(W()))
    {
      hide Inv, AtHead, AtHeadExcept, Knows, Rank, Initial, Harmless, Looped, Outcome, DueSoon, Paired;
      hide Allowed, NextPlace, PlaceOf, Settled, Open, InPasses, Hears, AllAwait;
      hide Successes, Failures, OwnedClasses, AllAt, Awaits, OthersAwait, Full, Quiet, Counted, Running;
      hide GivenUp, Advanced, NamesOk, Overflows;
      ghost var w := W();
      KnownHere(i);
      var m := known[i];
      KnownSound(i);
      var p, filled := FillParams(m);
      assert filled;
      var told := TellPhases(m, |p.hosts|);
      if !told {
        return Aborted;
      }
      if W() != w {
        AwaitsNotAnswered(W(), m);
      }
      PassesOpen(Where(), W());
      var bwSet := IsTotally(m, BwSet);
      if bwSet {
        var ok;
        ghost var at;
        ok, at := Begin(m);
        if !ok {
          return Aborted;
        }
        AwaitsNotAnswered(W(), m);
        PassesAgain(W());
      }
      var done := IsTotally(m, Done);
      if done {
        Conclude(i);
        PassesAgain(W());
        return Removed;
      }
      r := Kept;
    }

    /**
     * The loop over the known ids. Unless a failure cuts it short it visits every id exactly once, though
     * finished ones are removed under it, and leaves every running measurement awaiting a reply.
     */
    method AdvanceKnown() returns (completed: bool, ghost visited: seq<nat>)
      requires Quiet() && Counted() && InPasses(Where(), W())
      modifies metas, known, sched, this`log, this`numKnown, this`success, this`failure, this`extended, this`clock
      ensures old(log) <= log
      ensures Quiet() && Counted() && clock >= old(clock)
      ensures if completed then InPasses(Where(), W()) else Where() == Over
      ensures W() == old(W()) || Rank(W()) < old(Rank(W()))
      ensures completed ==> forall m | m in Ids() :: Awaits(W(), m)
      ensures completed ==> NoDup(visited) && forall m :: m in visited <==> m in old(Ids())
      ensures !completed ==> Rank(W()) < old(Rank(W()))
    {
      hide Inv, AtHead, AtHeadExcept, Rank, Initial, Harmless, Looped, Outcome, DueSoon, Paired, Successes, Failures;
      hide Allowed, NextPlace, PlaceOf, Settled, Open, InPasses, Hears, AllAwait;
      hide OwnedClasses, Awaits, OthersAwait, Full, Quiet, Counted, Visiting;
      ghost var start, ids0 := W(), Ids();
      visited := [];
      var i := 0;
      KnownSize();
      VisitingStart(ids0, start);
      while i < numKnown
        invariant 0 <= i <= numKnown == |Ids()|
        invariant Quiet() && Counted() && clock >= old(clock) && InPasses(Where(), W())
        invariant old(log) <= log
        invariant W() == start || Rank(W()) < Rank(start)
        invariant Visiting(ids0, Ids(), i, visited, W())
        decreases numKnown - i
      {
        ghost var w, ids := W(), Ids();
        var turn := AdvanceOne(i);
        KnownSize();
        visited := visited + [ids[i]];
        match turn {
          case Aborted =>
            return false, visited;
          case Removed =>
            VisitingRemoved(ids0, ids, i, visited, w, W());
          case Kept =>
            VisitingKept(ids0, ids, i, visited, w, W());
            i := i + 1;
        }
      }
      VisitingEnd(ids0, Ids(), i, visited, W());
      completed := true;
    }

    /** Too many loops without progress: fail everything that runs. */
    method FailAll()
      requires Quiet() && Counted() && Settled(Where(), W())
      modifies metas, known, sched, this`log, this`numKnown, this`failure
      ensures old(log) <= log && Settled(Where(), W())
      ensures Quiet() && Counted() && Ids() == []
      ensures W() == old(W()) || Rank(W()) < old(Rank(W()))
      ensures old(Ids()) == [] ==> W() == old(W())
    {
      hide Inv, AtHead, AtHeadExcept, Rank, Initial, Harmless, Looped, Outcome, DueSoon, Knows, Successes, Failures;
      hide Allowed, NextPlace, PlaceOf, Settled, Open, InPasses, Hears, AllAwait;
      ghost var w := W();
      KnownSize();
      while numKnown != 0
        invariant numKnown == |Ids()|
        invariant Quiet() && Counted() && (W() == w || Rank(W()) < Rank(w))
        invariant old(log) <= log && Settled(Where(), W())
        invariant old(Ids()) == [] ==> W() == w && Ids() == []
        decreases numKnown
      {
        ghost var ids := Ids();
        assert known[numKnown - 1] == ids[numKnown - 1];
        KnownAtHead(W(), ids, ids[numKnown - 1]);
        FailCounted(known[numKnown - 1]);
        KnownSize();
      }
    }

    /** The body of the failsafe sweep: read the clock and fail the measurement at index `i` if it is overdue. */
    method CheckDeadline(i: nat, ghost ids0: seq<nat>, ghost tbl0: Table, ghost t0: nat) returns (overdue: bool)
      requires Quiet() && Counted() && i < |Ids()| && t0 <= clock && Settled(Where(), W())
      requires Sweeping(ids0, tbl0, t0, Ids(), i, sched.msms, clock)
      modifies metas, known, sched, this`log, this`numKnown, this`failure, this`clock
      ensures old(log) <= log && Settled(Where(), W())
      ensures Quiet() && Counted() && clock >= old(clock) && |Ids()| == numKnown
      ensures overdue ==> Rank(W()) < old(Rank(W())) && |Ids()| == |old(Ids())| - 1
      ensures !overdue ==> W() == old(W()) && Ids() == old(Ids())
      ensures old(Ids()[i]) in old(sched.msms) && (overdue <==> clock > old(sched.msms[Ids()[i]].deadline))
      ensures overdue ==> W() == GivenUp(old(W()), old(Ids()[i]))
      ensures Sweeping(ids0, tbl0, t0, Ids(), if overdue then i else i + 1, sched.msms, clock)
    {
      hide Inv, AtHead, AtHeadExcept, Rank, Initial, Harmless, Looped, Outcome, DueSoon, Knows, Successes, Failures;
      hide Allowed, NextPlace, PlaceOf, Settled, Open, InPasses, Hears, AllAwait;
      hide Sweeping;
      hide OwnedClasses, AllAt, Awaits, Full, Paired, Counted;
      KnownHere(i);
      KnownSound(i);
      ghost var ids, tbl, before := Ids(), sched.msms, clock;
      var m := known[i];
      var p, filled := FillParams(m);
      assert filled;
      Tick();
      DueSoonLater(tbl, before, clock);
      SweepLater(ids0, tbl0, t0, ids, i, tbl, before, clock);
      overdue := clock > p.deadline;
      if overdue {
        KnownAtHead(W(), ids, m);
        FailCounted(m);
        SweepFailed(ids0, tbl0, t0, ids, i, tbl, clock);
      } else {
        SweepKept(ids0, tbl0, t0, ids, i, tbl, clock);
      }
      KnownSize();
    }

    /**
     * The failsafe sweep. Exactly the measurements found past their deadline are failed: whatever is left
     * was due no earlier than the start of the sweep, whatever is gone was overdue.
     */
    method Sweep()
      requires Quiet() && Counted() && Settled(Where(), W())
      modifies metas, known, sched, this`log, this`numKnown, this`failure, this`clock
      ensures old(log) <= log && Settled(Where(), W())
      ensures Quiet() && Counted() && clock >= old(clock)
      ensures W() == old(W()) || Rank(W()) < old(Rank(W()))
      ensures W() == old(W()) ==> Ids() == old(Ids())
      ensures Swept(old(Ids()), old(sched.msms), old(clock), Ids(), sched.msms, clock)
    {
      hide Inv, AtHead, AtHeadExcept, Rank, Initial, Harmless, Looped, Outcome, DueSoon, Knows, Successes, Failures;
      hide Allowed, NextPlace, PlaceOf, Settled, Open, InPasses, Hears, AllAwait;
      hide Sweeping;
      ghost var w, ids0, t0 := W(), Ids(), clock;
      KnownSize();
      SweepStart(ids0, w.table, t0);
      var i: int := 0;
      while i < numKnown
        invariant 0 <= i <= numKnown == |Ids()|
        invariant Quiet() && Counted() && clock >= t0
        invariant old(log) <= log && Settled(Where(), W())
        invariant (W() == w && Ids() == ids0) || Rank(W()) < Rank(w)
        invariant Sweeping(ids0, w.table, t0, Ids(), i, sched.msms, clock)
        decreases numKnown - i
      {
        var overdue := CheckDeadline(i, ids0, w.table, t0);
        if overdue {
          i := i - 1;
        }
        i := i + 1;
      }
      SweepEnd(ids0, w.table, t0, Ids(), i, sched.msms, clock);
    }

    /** The checks at the top of the main loop: too many loops without progress, then the failsafe. */
    method HeadChecks()
      requires Valid()
      modifies metas, known, sched, this
      ensures old(log) <= log && Settled(Where(), W())
      ensures Quiet() && Counted() && Idled() && clock >= old(clock) && loops <= 10
      ensures W() == old(W()) || Rank(W()) < old(Rank(W()))
      ensures forall m | Running(W(), m) :: W().table[m].deadline >= old(clock)
      ensures waits == old(waits)
      ensures old(loops) > 10 ==> Ids() == [] && loops == 0 && cuts == old(cuts) + [|waits|]
      ensures old(loops) <= 10 ==> loops == old(loops) && cuts == old(cuts)
      ensures old(loops) <= 10 ==>
                forall m | m in old(Ids()) && m !in Ids() :: m in old(sched.msms) && old(sched.msms)[m].deadline < clock
      ensures old(loops) > 10 ==> forall m :: !Running(W(), m)
    {
      hide Inv, AtHead, AtHeadExcept, Rank, Initial, Harmless, Looped, Outcome, DueSoon, Knows, Successes, Failures;
      hide Allowed, NextPlace, PlaceOf, Settled, Open, InPasses, Hears, AllAwait;
      hide Paired, Counts, Earned, Bounded;
      hide Quiet, Counted;
      if loops > MAX_LOOPS_WITHOUT_PROGRESS {
        AfterCutOff(waits, cuts, loops);
        FailAll();
        loops := 0;
        cuts := cuts + [|waits|];
      }
      Sweep();
      RunningKnown();
      assert Ids() != [] ==> Ids()[0] in Ids();
    }

    /** The loop that builds the lists of descriptors to wait on. */
    method BuildPoll() returns (p: Poll)
      ensures p.Lists(metas[..])
    {
      var authing, connecting, setting, measuring: seq<int> := [], [], [], [];
      var i := 0;
      while i < metas.Length
        invariant 0 <= i <= metas.Length
        invariant Poll(authing, connecting, setting, measuring).Lists(metas[..i])
      {
        assert metas[..i + 1][..i] == metas[..i];
        if metas[i].state == Authing {
          authing := authing + [metas[i].fd];
        } else if metas[i].state == ToldConnectTarget {
          connecting := connecting + [metas[i].fd];
        } else if metas[i].state == SettingBw {
          setting := setting + [metas[i].fd];
        } else if metas[i].state == Measuring {
          measuring := measuring + [metas[i].fd];
        }
        i := i + 1;
      }
      assert metas[..i] == metas[..];
      p := Poll(authing, connecting, setting, measuring);
    }

    /** `meta_with_fd`: the first client with the descriptor, or -1. */
    method MetaWithFd(fd: int) returns (j: int)
      ensures -1 <= j < metas.Length
      ensures j >= 0 ==> metas[j].fd == fd
      ensures j < 0 ==> forall i | 0 <= i < metas.Length :: metas[i].fd != fd
    {
      j := 0;
      while j < metas.Length
        invariant 0 <= j <= metas.Length
        invariant forall i | 0 <= i < j :: metas[i].fd != fd
      {
        if metas[j].fd == fd {
          return;
        }
        j := j + 1;
      }
      j := -1;
    }

    /** Read the reply client `j` was waited on for; a bad one fails its measurement. */
    method HandleReply(j: nat, from: CState) returns (ok: bool)
      requires Quiet() && Counted() && j < metas.Length && metas[j].state == from && Hears(Where(), W())
      requires from in {Authing, ToldConnectTarget, SettingBw, Measuring}
      modifies metas, known, sched, this`log, this`numKnown, this`failure
      ensures old(log) <= log
      ensures Quiet() && Counted() && if ok then Where() == Replying else Settled(Where(), W())
      ensures !ok ==> old(metas[j].owner) in old(W()).table && W() == GivenUp(old(W()), old(metas[j].owner))
      ensures !ok ==> failure == old(failure) + 1 && Rank(W()) < old(Rank(W()))
      ensures ok ==> failure == old(failure) && Ids() == old(Ids()) && sched.msms == old(sched.msms)
      ensures ok ==>
                || (W() == old(W()) && from == Measuring)
                || (metas[..] == old(metas[..])[j := old(metas[j]).(state := Next(from))] && Rank(W()) < old(Rank(W())))
    {
      hide Inv, AtHead, AtHeadExcept, Rank, Initial, Harmless, Looped, Outcome, DueSoon, Knows, Successes, Failures;
      hide Allowed, NextPlace, PlaceOf, Settled, Open, InPasses, Hears, AllAwait;
      hide Paired, GivenUp, NamesOk, Overflows;
      ghost var w := W();
      ClientHere(j);
      HearsSettled(Where(), w);
      HearPlace(Where(), w, j);
      var m := metas[j].owner;
      GoodStaysPaired(w, j);
      hide Enabled;
      if from == Authing {
        ok := ReadReply(metas, j, Authing, Authed);
      } else if from == ToldConnectTarget {
        ok := ReadReply(metas, j, ToldConnectTarget, ConnectedTarget);
      } else if from == SettingBw {
        ok := ReadReply(metas, j, SettingBw, BwSet);
      } else {
        RunningSound(m);
        var p, filled := FillParams(m);
        assert filled;
        ghost var heard;
        ok, heard := OutputResult(metas, j);
      }
      if !ok {
        FailCounted(m);
        return;
      }
      if from == Measuring && metas[j].state == Measuring {
        assert metas[..][j] == metas[j];
        assert W() == w;
        LinesEnabled(w, j);
        Record(w, Lines(j));
      } else {
        assert metas[..] == w.clients[j := w.clients[j].(state := Next(from))];
        Record(w, Good(j));
        KnowsKept(Ids(), w, W(), m);
        HeadAfterReply(w, j, Ids());
      }
    }

    /**
     * Handle one reported descriptor. It belongs to a client in the state of the list it was registered
     * in, so neither the unknown-descriptor return nor the in-no-list branch is reached.
     */
    method HandleEvent(fd: int, p: Poll, ghost cs: seq<Client>) returns (ok: bool)
      requires Hears(Where(), W())
      requires Quiet() && Counted() && p.Lists(cs) && ClientsOk(cs) && DistinctFds(cs) && |cs| == metas.Length
      requires fd in p.authing || fd in p.connecting || fd in p.setting || fd in p.measuring
      requires forall j | 0 <= j < metas.Length :: metas[j].fd == cs[j].fd && (cs[j].fd == fd ==> metas[j] == cs[j])
      modifies metas, known, sched, this`log, this`numKnown, this`failure
      ensures old(log) <= log
      ensures Quiet() && Counted() && if ok then Where() == Replying else Settled(Where(), W())
      ensures !ok ==> Rank(W()) < old(Rank(W())) && failure == old(failure) + 1
      ensures ok ==> failure == old(failure)
      ensures ok ==> Rank(W()) < old(Rank(W())) || (W() == old(W()) && SomeReports(W()))
      ensures ok ==> forall j | 0 <= j < metas.Length ::
                       && metas[j].fd == cs[j].fd
                       && if cs[j].fd == fd then Answered(cs[j], metas[j]) else metas[j] == old(metas[j])
    {
      hide Inv, AtHead, AtHeadExcept, Rank, Initial, Harmless, Looped, Outcome, DueSoon, Knows, Successes, Failures;
      hide Allowed, NextPlace, PlaceOf, Settled, Open, InPasses, Hears, AllAwait;
      hide Paired;
      hide Quiet, Counted, ClientsOk;
      Registered(cs, p, fd);
      var j := MetaWithFd(fd);
      assert j >= 0;
      if fd in p.authing {
        ok := HandleReply(j, Authing);
      } else if fd in p.connecting {
        ok := HandleReply(j, ToldConnectTarget);
      } else if fd in p.setting {
        ok := HandleReply(j, SettingBw);
      } else if fd in p.measuring {
        ok := HandleReply(j, Measuring);
      } else {
        assert false;
      }
    }

    /** The loop over the events `epoll_wait` reported; the first failure ends it. */
    method HandleEvents(p: Poll, ghost result: int, events: seq<int>) returns (ghost cut: bool)
      requires Quiet() && Counted() && p.Lists(metas[..]) && EpollOutcome(p, result, events)
      requires Hears(Where(), W())
      modifies metas, known, sched, this`log, this`numKnown, this`failure
      ensures old(log) <= log
      ensures Quiet() && Counted() && Settled(Where(), W())
      ensures failure == old(failure) + if cut then 1 else 0
      ensures !cut ==> forall j | 0 <= j < metas.Length ::
                         if old(metas[j]).fd in events then Answered(old(metas[j]), metas[j])
                         else metas[j] == old(metas[j])
      ensures Rank(W()) < old(Rank(W())) || (W() == old(W()) && (events == [] || SomeReports(W())))
    {
      hide Inv, AtHead, AtHeadExcept, Rank, Initial, Harmless, Looped, Outcome, DueSoon, Knows, Successes, Failures;
      hide Allowed, NextPlace, PlaceOf, Settled, Open, InPasses, Hears, AllAwait;
      hide Paired, Counted, ClientsOk, DistinctFds, SomeReports, Answered;
      ghost var cs, w := metas[..], W();
      ClientsHere();
      var i := 0;
      while i < |events|
        invariant 0 <= i <= |events|
        invariant Quiet() && Counted() && Hears(Where(), W())
        invariant Rank(W()) < Rank(w) || (W() == w && (i == 0 || SomeReports(w)))
        invariant old(log) <= log && failure == old(failure)
        invariant forall j | 0 <= j < metas.Length ::
                    && metas[j].fd == cs[j].fd
                    && if cs[j].fd in events[..i] then Answered(cs[j], metas[j]) else metas[j] == cs[j]
      {
        assert events[i] !in events[..i];
        var ok := HandleEvent(events[i], p, cs);
        if !ok {
          return true;
        }
        RepliesOn(W());
        assert events[..i + 1] == events[..i] + [events[i]];
        i := i + 1;
      }
      HearsSettled(Where(), W());
      assert events[..i] == events;
      cut := false;
    }

    lemma SomeoneRuns(p: Poll)
      requires Quiet() && p.Lists(metas[..]) && p.Interesting() > 0
      ensures exists m :: Running(W(), m)
    {
      var j := SomeWaiter(metas[..], p);
      ClientHere(j);
    }

    lemma EverythingAwaits()
      requires Quiet() && forall m | m in Ids() :: Awaits(W(), m)
      ensures AllAwait(W())
    {
      AllKnownAwait(Ids(), W());
    }

    /** `epoll_wait`, whose outcome is noted: nothing for a timeout or an error. */
    method Await(p: Poll) returns (result: int, events: seq<int>)
      modifies this`waits, this`heard
      ensures EpollOutcome(p, result, events)
      ensures heard == events
      ensures waits == old(waits) + [if result <= 0 then Silent else Heard]
    {
      result, events := EpollWait(p);
      heard := events;
      waits := waits + [if result <= 0 then Silent else Heard];
    }

    /** Wait for replies and handle them: the rest of an iteration whose loop over the known ids ran to its end. */
    method PollOnce() returns (ghost r: Round)
      requires Quiet() && Counted() && Idled() && loops <= 10 && forall m | m in Ids() :: Awaits(W(), m)
      requires InPasses(Where(), W())
      modifies metas, known, sched, this`log, this`numKnown, this`failure, this`loops, this`waits, this`heard
      ensures old(log) <= log
      ensures Quiet() && Counted() && Idled() && Settled(Where(), W())
      ensures loops == LoopsAfter(old(loops), WaitOf(r))
      ensures waits == old(waits) + if WaitOf(r) == Skipped then [] else [WaitOf(r)]
      ensures r.Moved? ==> Rank(W()) < old(Rank(W()))
      ensures !r.Moved? ==> W() == old(W()) && (r.Idle? <==> forall m :: !Running(W(), m)) && AllAwait(W())
      ensures r.OnlyLines? ==> SomeReports(W())
      ensures WaitOf(r) == Heard ==>
                || failure == old(failure) + 1
                || (heard != [] && forall j | 0 <= j < metas.Length ::
                      if old(metas[j]).fd in heard then Answered(old(metas[j]), metas[j])
                      else metas[j] == old(metas[j]))
      ensures WaitOf(r) != Heard ==> W() == old(W())
    {
      hide Inv, AtHead, AtHeadExcept, Rank, Initial, Harmless, Looped, Outcome, DueSoon, Knows, Successes, Failures;
      hide Allowed, NextPlace, PlaceOf, Settled, Open, InPasses, Hears, AllAwait;
      hide Paired;
      hide Quiet, Counted, Awaits, Running, Ready, Counts, Earned, Bounded, Answered;
      ghost var w := W();
      var p := BuildPoll();
      KnownSize();
      RunningKnown();
      EverythingAwaits();
      PassesOpen(Where(), w);
      HearsSettled(Where(), w);
      NoLostWakeup(w, Ids(), p);
      assert p.Interesting() >= |Ids()|;
      if p.Interesting() == 0 {
        return Idle;
      }
      SomeoneRuns(p);
      AfterSilent(waits, cuts, loops);
      AfterHeard(waits, cuts, loops);
      var result, events := Await(p);
      if result <= 0 {
        loops := loops + 1;
        return TimedOut;
      }
      loops := 0;
      ghost var cut := HandleEvents(p, result, events);
      r := if W() == w then OnlyLines else Moved(Heard);
    }

    lemma HeadHere()
      requires Quiet()
      ensures AtHead(W())
    {
    }

    /** One iteration of the main loop, with every way out of it. */
    method Iterate() returns (ghost r: Round)
      requires Valid()
      modifies metas, known, sched, this
      ensures old(log) <= log
      ensures Valid() && clock >= old(clock)
      ensures RoundOk(r, old(W()), old(loops), old(clock), W(), loops)
      ensures waits == old(waits) + if WaitOf(r) == Skipped then [] else [WaitOf(r)]
    {
      hide Inv, AtHead, AtHeadExcept, Rank, Initial, Harmless, Looped, Outcome, DueSoon, Knows, Successes, Failures;
      hide Allowed, NextPlace, PlaceOf, Settled, Open, InPasses, Hears, AllAwait;
      hide Paired;
      hide Quiet, Counted, Awaits, Running, Ready, Counts, Earned, Bounded;
      ghost var w := W();
      HeadChecks();
      ghost var started, fate := StartNext();
      var completed;
      ghost var visited;
      completed, visited := AdvanceKnown();
      if !completed {
        HearsSettled(Where(), W());
        return Moved(Skipped);
      }
      r := PollOnce();
      HeadHere();
      if W() != w {
        r := Moved(WaitOf(r));
      }
    }

    ghost function Here(): Head
      reads this, metas, sched
    {
      Head(W(), loops, clock)
    }

    lemma HeadHolds()
      requires Valid()
      ensures HeadOk(Here())
      ensures Viable(w0.table) ==> Viable(sched.msms)
    {
      hide Inv, Initial, Harmless, Viable;
      if Viable(w0.table) {
        StaysViable(w0, log);
      }
    }

    /**
     * Time passes between two heads. The clock counts seconds, and a second holds finitely many iterations
     * whose wait reports something: `room` is how many more the environment fits into this one, chosen
     * anew whenever the clock moves.
     */
    method NextHead(before: nat, room: nat) returns (left: nat)
      requires Valid() && before <= clock
      modifies this`clock
      ensures Valid() && clock >= old(clock)
      ensures clock == before ==> left <= room && (loops == 0 ==> left < room)
    {
      hide Inv, AtHead, Initial, Harmless, Looped, Outcome, DueSoon, Knows;
      hide Allowed, NextPlace, PlaceOf, Settled, Open, InPasses, Hears, AllAwait;
      Tick();
      left := *;
      if clock == before {
        if loops != 0 {
          left := room;
        } else if room > 0 {
          left := room - 1;
        } else {
          clock := clock + 1;
        }
      }
      DueSoonLater(sched.msms, old(clock), clock);
    }

    lemma TableSound()
      requires Valid()
      ensures Tracked(sched.msms) && |sched.msms| == |w0.table|
    {
      InvTracked(W());
      RunSize(w0, log);
      assert |sched.msms| == |sched.msms.Keys| && |w0.table| == |w0.table.Keys|;
    }

    lemma Finished()
      requires Valid()
      ensures sched.NumIncomplete() == 0 <==> AllComplete(sched.msms)
    {
      var rest := set k | k in sched.msms && sched.msms[k].status != Complete;
      if AllComplete(sched.msms) {
        assert rest == {};
      } else {
        var k :| k in sched.msms && sched.msms[k].status != Complete;
        assert k in rest;
      }
    }

    lemma AllDone()
      requires Valid() && AllComplete(sched.msms)
      ensures success + failure == |w0.table| - |CompleteIds(w0.table)|
      ensures success + failure == |sched.msms| <==> forall k | k in w0.table :: w0.table[k].status == Waiting
      ensures numKnown == 0 && metas[..] == w0.clients
      ensures forall j | 0 <= j < |w0.clients| ::
                w0.clients[j].state == Invalid && w0.clients[j].fd == -1 && w0.clients[j].owner == 0
    {
      hide Inv;
      FinishedRun(w0, log);
      RunSize(w0, log);
      SetSize(Ids());
      assert |sched.msms| == |sched.msms.Keys| && |w0.table| == |w0.table.Keys|;
      assert ToSet(Ids()) == {};
    }

    /** On a schedule that is not viable the main loop's condition never becomes false. */
    lemma NeverFinished(c: set<nat>)
      requires Valid() && Blocked(w0.table, c)
      ensures sched.NumIncomplete() != 0
    {
      LoopedLegal(w0, log);
      hide Inv, Initial, Harmless, Looped, Outcome;
      BlockedNeverStarts(w0, log, c);
      var m :| m in c;
      Finished();
    }

    /**
     * The main loop. On a viable schedule it ends, with every measurement complete, every one of this schedule
     * counted as a success or a failure, and every client given up. The count matches the size of the table
     * exactly when no measurement was left over from an earlier schedule.
     */
    method Run()
      requires Valid() && Viable(w0.table)
      modifies metas, known, sched, this
      ensures old(log) <= log
      ensures Valid() && AllComplete(sched.msms)
      ensures success + failure == |w0.table| - |CompleteIds(w0.table)|
      ensures success + failure == |sched.msms| <==> forall k | k in w0.table :: w0.table[k].status == Waiting
      ensures forall j | 0 <= j < metas.Length :: metas[j].state == Invalid && metas[j].fd == -1 && metas[j].owner == 0
      ensures numKnown == 0
    {
      hide Valid, HeadOk, RoundOk, Viable, AllComplete, TimeLeft, Rank;
      HeadHolds();
      Finished();
      var room: nat := *;
      while sched.NumIncomplete() != 0
        invariant Valid() && HeadOk(Here()) && Viable(sched.msms)
        invariant old(log) <= log
        invariant sched.NumIncomplete() == 0 <==> AllComplete(sched.msms)
        decreases Rank(W()), TimeLeft(W(), clock), room, MAX_LOOPS_WITHOUT_PROGRESS + 1 - loops
      {
        ghost var h := Here();
        HeadRank(h);
        HeadLoops(h);
        var before := clock;
        ghost var r := Iterate();
        room := NextHead(before, room);
        Finished();
        HeadHolds();
        HeadLoops(Here());
        RoundProgress(h, r, Here());
      }
      AllDone();
      forall j | 0 <= j < metas.Length ensures metas[j] == w0.clients[j] {
        assert metas[j] == metas[..][j];
      }
    }
  }
}
