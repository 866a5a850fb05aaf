/**
 * One record per Tor client and the operations of torclient.c on it.
 *
 * The records sit in one array, as in the coordinator; a client is named by its index there. Whether a
 * system call works, and which descriptor a new socket gets, is chosen by the environment.
 */
module Clients {
  datatype CState =
    | Invalid | Connected | Authing | Authed | ToldConnectTarget | ConnectedTarget
    | SettingBw | BwSet | Measuring | Done | Failed

  datatype Client = Client(cls: string, isBg: bool, fd: int, state: CState, owner: nat)

  /** What is sent to a client: the text of the control port commands with their values filled in. */
  datatype Message =
    | Authenticate
    | TestSpeed(fp: string, conns: nat, bg: bool)
    | ResetRate(bw: nat, accumulate: nat)
    | Measure(dur: nat)

  /** The transitions `tc_change_state_` accepts; it aborts on every other pair. */
  predicate LegalChange(was: CState, now: CState) {
    match was
    case Invalid => now == Connected
    case Connected => now == Failed || now == Authing
    case Authing => now == Failed || now == Authed
    case Authed => now == Failed || now == ToldConnectTarget
    case ToldConnectTarget => now == Failed || now == ConnectedTarget
    case ConnectedTarget => now == Failed || now == SettingBw
    case SettingBw => now == Failed || now == BwSet
    case BwSet => now == Failed || now == Measuring
    case Measuring => now == Failed || now == Done
    case Done => now == Failed || now == Invalid
    case Failed => now == Invalid
  }

  /** How far along the handshake a client is: 0 unused, 1 connected, ..., 9 done. */
  function Stage(s: CState): nat {
    match s
    case Invalid => 0
    case Connected => 1
    case Authing => 2
    case Authed => 3
    case ToldConnectTarget => 4
    case ConnectedTarget => 5
    case SettingBw => 6
    case BwSet => 7
    case Measuring => 8
    case Done => 9
    case Failed => 10
  }

  /** The state after a step forward. */
  function Next(s: CState): (n: CState)
    ensures 1 <= Stage(s) <= 8 ==> Stage(n) == Stage(s) + 1 && LegalChange(s, n)
  {
    match s
    case Connected => Authing
    case Authing => Authed
    case Authed => ToldConnectTarget
    case ToldConnectTarget => ConnectedTarget
    case ConnectedTarget => SettingBw
    case SettingBw => BwSet
    case BwSet => Measuring
    case Measuring => Done
    case _ => s
  }

  /** A client goes one stage forward, fails at any stage once it is connected, or is given up when done or failed. */
  lemma LegalIff(was: CState, now: CState)
    ensures LegalChange(was, now) <==>
            || (now != Failed && Stage(now) == Stage(was) + 1)
            || (now == Failed && 1 <= Stage(was) <= 9)
            || (now == Invalid && (was == Done || was == Failed))
  {
  }

  /** The record once its descriptor is closed and it belongs to no measurement. */
  function Unused(c: Client): Client {
    c.(state := Invalid, fd := -1, owner := 0)
  }

  /** Clients may be looked up by descriptor: no open descriptor is shared. */
  ghost predicate DistinctFds(cs: seq<Client>) {
    forall i, j :: 0 <= i < j < |cs| && cs[i].fd >= 0 ==> cs[i].fd != cs[j].fd
  }

  /** `tc_change_state_`: its `assert(0)` is the precondition. */
  method ChangeState(metas: array<Client>, j: nat, st: CState)
    requires j < metas.Length && LegalChange(metas[j].state, st)
    modifies metas
    ensures metas[..] == old(metas[..])[j := old(metas[j]).(state := st)]
  {
    metas[j] := metas[j].(state := st);
  }

  /** A possible outcome of opening and connecting a socket: -1, or a descriptor no client has. */
  predicate SocketOutcome(cs: seq<Client>, s: int) {
    s == -1 || (s >= 0 && forall i | 0 <= i < |cs| :: cs[i].fd != s)
  }

  /** The environment's answer to `socket` and `connect`. */
  method FreshDescriptor(metas: array<Client>) returns (s: int)
    ensures SocketOutcome(metas[..], s)
  {
    assert SocketOutcome(metas[..], -1);
    s :| SocketOutcome(metas[..], s);
  }

  /** `tc_make_socket`: -1 when any of the calls fails, otherwise a descriptor no open client has. */
  method MakeSocket(metas: array<Client>, j: nat) returns (s: int)
    requires j < metas.Length && metas[j].state == Invalid
    modifies metas
    ensures s == -1 || s >= 0
    ensures s == -1 ==> metas[..] == old(metas[..])
    ensures s >= 0 ==> forall i | 0 <= i < metas.Length :: old(metas[i]).fd != s
    ensures s >= 0 ==> metas[..] == old(metas[..])[j := old(metas[j]).(fd := s, state := Connected)]
  {
    var fd := FreshDescriptor(metas);
    if fd < 0 {
      return -1;
    }
    metas[j] := metas[j].(fd := fd);
    ChangeState(metas, j, Connected);
    s := fd;
  }

  /**
   * Send a command and wait for its reply: `tc_auth_socket`, `tc_tell_connect`, `tc_set_bw_rate`
   * and `tc_start_measurement` differ in the text they send and the state they check.
   */
  method SendCommand(metas: array<Client>, j: nat, from: CState, to: CState) returns (ok: bool)
    requires j < metas.Length && metas[j].state == from
    requires from in {Connected, Authed, ConnectedTarget, BwSet} && to == Next(from)
    modifies metas
    ensures !ok ==> metas[..] == old(metas[..])
    ensures ok ==> metas[..] == old(metas[..])[j := old(metas[j]).(state := to)]
  {
    var sent: bool := *;
    if !sent {
      return false;
    }
    ChangeState(metas, j, to);
    ok := true;
  }

  method AuthSocket(metas: array<Client>, j: nat) returns (ok: bool, ghost msg: Message)
    requires j < metas.Length && metas[j].state == Connected
    modifies metas
    ensures msg == Authenticate
    ensures !ok ==> metas[..] == old(metas[..])
    ensures ok ==> metas[..] == old(metas[..])[j := old(metas[j]).(state := Authing)]
  {
    msg := Authenticate;
    ok := SendCommand(metas, j, Connected, Authing);
  }

  /** `tc_tell_connect`: its assertion about background clients is a precondition. */
  method TellConnect(metas: array<Client>, j: nat, fp: string, conns: nat) returns (ok: bool, ghost msg: Message)
    requires j < metas.Length && metas[j].state == Authed
    requires metas[j].isBg ==> conns == 1
    modifies metas
    ensures msg == TestSpeed(fp, conns, old(metas[j]).isBg)
    ensures !ok ==> metas[..] == old(metas[..])
    ensures ok ==> metas[..] == old(metas[..])[j := old(metas[j]).(state := ToldConnectTarget)]
  {
    assert !metas[j].isBg || (metas[j].isBg && conns == 1);
    msg := TestSpeed(fp, conns, metas[j].isBg);
    ok := SendCommand(metas, j, Authed, ToldConnectTarget);
  }

  method SetBwRate(metas: array<Client>, j: nat, bw: nat) returns (ok: bool, ghost msg: Message)
    requires j < metas.Length && metas[j].state == ConnectedTarget
    modifies metas
    ensures msg == ResetRate(bw, if old(metas[j]).isBg then 1 else 32)
    ensures !ok ==> metas[..] == old(metas[..])
    ensures ok ==> metas[..] == old(metas[..])[j := old(metas[j]).(state := SettingBw)]
  {
    var acc := if metas[j].isBg then 1 else 32;
    msg := ResetRate(bw, acc);
    ok := SendCommand(metas, j, ConnectedTarget, SettingBw);
  }

  method StartMeasurement(metas: array<Client>, j: nat, dur: nat) returns (ok: bool, ghost msg: Message)
    requires j < metas.Length && metas[j].state == BwSet
    modifies metas
    ensures msg == Measure(dur)
    ensures !ok ==> metas[..] == old(metas[..])
    ensures ok ==> metas[..] == old(metas[..])[j := old(metas[j]).(state := Measuring)]
  {
    msg := Measure(dur);
    ok := SendCommand(metas, j, BwSet, Measuring);
  }

  /**
   * Read the reply to a handshake command: `tc_authed_socket`, `tc_connected_socket` and
   * `tc_did_set_bw_rate` differ in the text they accept and the state they check.
   */
  method ReadReply(metas: array<Client>, j: nat, from: CState, to: CState) returns (ok: bool)
    requires j < metas.Length && metas[j].state == from
    requires from in {Authing, ToldConnectTarget, SettingBw} && to == Next(from)
    modifies metas
    ensures !ok ==> metas[..] == old(metas[..])
    ensures ok ==> metas[..] == old(metas[..])[j := old(metas[j]).(state := to)]
  {
    var good: bool := *;
    if !good {
      return false;
    }
    ChangeState(metas, j, to);
    ok := true;
  }

  /** What reading from a measuring client brings; the END line may be among the lines. */
  datatype Report = ReadError | NothingRead | ResultLines | LinesWithEnd

  /** `tc_output_result`: result lines leave the state alone, an empty read or the END line ends the measurement. */
  method OutputResult(metas: array<Client>, j: nat) returns (ok: bool, ghost heard: Report)
    requires j < metas.Length && metas[j].state == Measuring
    modifies metas
    ensures ok <==> heard != ReadError
    ensures metas[..] ==
            if heard in {NothingRead, LinesWithEnd} then old(metas[..])[j := old(metas[j]).(state := Done)]
            else old(metas[..])
  {
    var report: Report := *;
    heard := report;
    if report == ReadError {
      return false, heard;
    }
    if report == NothingRead {
      ChangeState(metas, j, Done);
      return true, heard;
    }
    if report == LinesWithEnd {
      ChangeState(metas, j, Done);
    }
    ok := true;
  }

  /**
   * `tc_next_available`: the first unused client of the class that accepts a connection, or -1. Exactly the
   * unused clients of the class that come before it have refused one.
   */
  method NextAvailable(metas: array<Client>, cls: string) returns (next: int, ghost refused: set<int>)
    requires forall i | 0 <= i < metas.Length :: metas[i].owner == 0 ==> metas[i].state == Invalid
    modifies metas
    ensures -1 <= next < metas.Length
    ensures forall i :: i in refused <==>
              0 <= i < (if next < 0 then metas.Length else next) && old(metas[i]).cls == cls && old(metas[i]).owner == 0
    ensures next == -1 ==> metas[..] == old(metas[..])
    ensures next >= 0 ==>
      && old(metas[next]).cls == cls && old(metas[next]).owner == 0
      && metas[next].fd >= 0
      && (forall i | 0 <= i < metas.Length :: old(metas[i]).fd != metas[next].fd)
      && metas[..] == old(metas[..])[next := old(metas[next]).(fd := metas[next].fd, state := Connected)]
  {
    refused := {};
    var i := 0;
    while i < metas.Length
      invariant 0 <= i <= metas.Length
      invariant metas[..] == old(metas[..])
      invariant forall k :: k in refused <==> 0 <= k < i && old(metas[k]).cls == cls && old(metas[k]).owner == 0
    {
      assert forall k | 0 <= k < metas.Length :: metas[k] == metas[..][k] == old(metas[..])[k];
      if metas[i].cls == cls && metas[i].owner == 0 {
        var s := MakeSocket(metas, i);
        if s >= 0 {
          assert metas[i] == metas[..][i];
          return i, refused;
        }
        refused := refused + {i};
      }
      i := i + 1;
    }
    next := -1;
  }

  method MarkFailed(metas: array<Client>, j: nat)
    requires j < metas.Length && metas[j].state != Invalid && metas[j].state != Failed
    modifies metas
    ensures metas[..] == old(metas[..])[j := old(metas[j]).(state := Failed)]
  {
    ChangeState(metas, j, Failed);
  }

  /** `tc_finished_with_meta`: close the descriptor and give the client up. */
  method FinishedWithMeta(metas: array<Client>, j: nat)
    requires j < metas.Length && (metas[j].state == Done || metas[j].state == Failed)
    requires metas[j].fd >= -1
    modifies metas
    ensures metas[..] == old(metas[..])[j := Unused(old(metas[j]))]
  {
    ChangeState(metas, j, Invalid);
    assert metas[j] == metas[..][j];
    if metas[j].fd >= 0 {
      metas[j] := metas[j].(fd := -1);
    }
    if metas[j].owner != 0 {
      metas[j] := metas[j].(owner := 0);
    }
  }
}
