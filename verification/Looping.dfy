/**
 * The order in which one iteration of the main loop does things, as a discipline on runs.
 *
 * An iteration consults the scheduler once, brings up what it hands out, makes the passes that are due, and
 * then handles replies; a failure can cut it short, and overdue measurements are failed between two
 * iterations. The coordinator's methods are proved to keep to it.
 */
module Looping {
  import opened Schedule
  import opened Clients
  import opened Staffing
  import opened Protocol
  import opened Runs
  import opened Heads

  /** Where an iteration is: bringing up what was handed out, in the passes, in the replies, or over. */
  datatype Place = BringingUp(m: nat) | Passing | Replying | Over

  ghost function NextPlace(p: Place, e: Event): Place {
    match e
    case Start(m, _) => BringingUp(m)
    case NoneReady => Passing
    case Connect(_, _, _) => p
    case Send(_, _, msg) => if msg.Authenticate? then p else Passing
    case Good(_) => Replying
    case Lines(_) => Replying
    case Extend(_, _) => Passing
    case Finish(_) => Passing
    case Fail(m) => if p == BringingUp(m) then Passing else Over
  }

  ghost function PlaceOf(log: seq<Event>): Place {
    if log == [] then Over else NextPlace(PlaceOf(log[..|log| - 1]), log[|log| - 1])
  }

  ghost predicate AllAwait(w: World) {
    forall m | Running(w, m) :: Awaits(w, m)
  }

  /** The passes may begin: whatever is being brought up is connected and has been sent the authentication. */
  ghost predicate Open(p: Place, w: World) {
    match p
    case BringingUp(m) =>
      Running(w, m) ==>
        Full(w, m) && forall i | 0 <= i < |w.clients| && w.clients[i].owner == m :: Stage(w.clients[i].state) >= 2
    case Passing => true
    case Replying => false
    case Over => false
  }

  /** An iteration that has not come to replies or a failure is over only when everything running awaits a reply. */
  ghost predicate Settled(p: Place, w: World) {
    p.BringingUp? || p.Passing? ==> AllAwait(w)
  }

  /** What the loop may do next: consult the scheduler, bring up, pass, read replies, or fail something. */
  ghost predicate Allowed(p: Place, w: World, e: Event) {
    match e
    case Start(_, _) => AtHead(w) && Settled(p, w)
    case NoneReady => AtHead(w) && Settled(p, w)
    case Connect(_, m, _) => p == BringingUp(m)
    case Send(j, _, msg) =>
      if msg.Authenticate? then j < |w.clients| && p == BringingUp(w.clients[j].owner) else Open(p, w)
    case Good(_) => p != Over && (p != Replying ==> AtHead(w) && AllAwait(w))
    case Lines(_) => p != Over && (p != Replying ==> AtHead(w) && AllAwait(w))
    case Extend(_, _) => Open(p, w)
    case Finish(_) => Open(p, w)
    case Fail(_) => true
  }

  /** A run that keeps to the order of the main loop. */
  ghost predicate Looped(w0: World, log: seq<Event>) {
    && Legal(w0, log)
    && (log == [] || (
          && Looped(w0, log[..|log| - 1])
          && Allowed(PlaceOf(log[..|log| - 1]), Outcome(w0, log[..|log| - 1]), log[|log| - 1])))
  }

  lemma LoopedLegal(w0: World, log: seq<Event>)
    requires Looped(w0, log)
    ensures Legal(w0, log)
  {
  }

  lemma LoopedStep(w0: World, log: seq<Event>, e: Event)
    requires Looped(w0, log) && Enabled(Outcome(w0, log), e) && Allowed(PlaceOf(log), Outcome(w0, log), e)
    ensures Looped(w0, log + [e]) && Outcome(w0, log + [e]) == Apply(Outcome(w0, log), e)
    ensures PlaceOf(log + [e]) == NextPlace(PlaceOf(log), e)
  {
    Extended(w0, log, e);
    assert (log + [e])[..|log|] == log;
  }

  lemma LoopedStart(w0: World)
    ensures Looped(w0, []) && Outcome(w0, []) == w0 && PlaceOf([]) == Over
  {
  }

  lemma {:induction false} LoopedPrefix(w0: World, log: seq<Event>, n: nat)
    requires Looped(w0, log) && n <= |log|
    ensures Looped(w0, log[..n])
    ensures n < |log| ==> Allowed(PlaceOf(log[..n]), Outcome(w0, log[..n]), log[n]) &&
                          PlaceOf(log[..n + 1]) == NextPlace(PlaceOf(log[..n]), log[n])
    decreases |log|
  {
    if n == |log| {
      assert log[..n] == log;
    } else {
      var front := log[..|log| - 1];
      assert front[..n] == log[..n];
      LoopedPrefix(w0, front, n);
      if n < |front| {
        assert front[..n + 1] == log[..n + 1];
      } else {
        assert log[..n + 1] == log;
      }
    }
  }
}
