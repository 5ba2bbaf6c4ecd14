/**
 The watchdog thread of control: its message format, its two timers, and the messages
 it exchanges with the event loop.
 */
module Watchdog {
  import opened Common

  const MAX_REQ_ID := 0x7FFF_FFFF
  const MAX_TIMEOUT := 0x7F_FFFF
  const INT_MAX := 0x7FFF_FFFF

  const START := 1
  const STOP := 2
  const PING := 3
  const PONG := 4

  const MAX_PING_ELAPSED := 10_000

  // ---------------------------------------------------------------- message format

  /** 23 bits of timeout, 31 bits of id and 8 bits of request. The fields do not overlap, so
      the source's bitwise or is a sum; masking a two's complement value is a Euclidean
      remainder. */
  function GenScalar(request: int, timeout: int, id: int): int
    requires timeout <= MAX_TIMEOUT && id <= MAX_REQ_ID
  {
    (timeout % 0x80_0000) * 0x100_0000_0000 + (id % 0x8000_0000) * 0x100 + request % 0x100
  }

  function GetRequest(scalar: int): int {
    scalar % 0x100
  }

  function GetId(scalar: int): int {
    (scalar / 0x100) % 0x8000_0000
  }

  function GetTimeout(scalar: int): int {
    (scalar / 0x100_0000_0000) % 0x80_0000
  }

  function NextId(id: int): int {
    if id < MAX_REQ_ID then id + 1 else 0
  }

  /** Packing loses nothing, and a packed message is never the -1 that ends the thread. */
  lemma ScalarRoundTrip(request: int, timeout: int, id: int)
    requires START <= request <= PONG && timeout <= MAX_TIMEOUT && 0 <= id <= MAX_REQ_ID
    ensures var s := GenScalar(request, timeout, id);
            GetRequest(s) == request && GetId(s) == id && s > 0 && GetTimeout(s) == timeout % 0x80_0000
    ensures timeout >= 0 ==> GetTimeout(GenScalar(request, timeout, id)) == timeout
  {
    var low := id * 0x100 + request;
    var masked := timeout % 0x80_0000;
    Split(masked, low, 0x100_0000_0000);
    Split(masked * 0x1_0000_0000 + id, request, 0x100);
    Split(masked * 2, id, 0x8000_0000);
  }

  // ---------------------------------------------------------------- timers

  /** The two timers and the wakelock counts of their modules. The ping timer is always
      armed. */
  datatype Timers = Timers(pingId: int, waitingPong: bool, reqId: int, reqArmed: bool, pingLock: nat, reqLock: nat)

  datatype Assertion =
    | BadStartId | LockMismatch | StopUnarmed | StillHeld | UnexpectedPong | UnknownRequest
    | NoTimer      // no timer to poll for
    | NotPing      // a message other than a ping received by control
    | Deadline     // the expiry the watchdog exists for

  const IDLE := Timers(-1, false, -1, false, 0, 0)

  function Less(n: nat): nat {
    if n == 0 then 0 else n - 1
  }

  function HandleMsg(w: Timers, scalar: int): Outcome<Timers, Assertion> {
    var request, id := GetRequest(scalar), GetId(scalar);
    if request == START then
      if id != (if w.reqId < MAX_REQ_ID then w.reqId + 1 else 0) then Abort(BadStartId)
      else if w.reqArmed != (w.reqLock > 0) then Abort(LockMismatch)
      else Ok(w.(reqId := id, reqArmed := true, reqLock := if w.reqLock > 0 then w.reqLock else w.reqLock + 1))
    else if request == STOP then
      if !w.reqArmed then Abort(StopUnarmed)
      else if w.reqId != id then Ok(w)
      else if Less(w.reqLock) > 0 then Abort(StillHeld)
      else Ok(w.(reqArmed := false, reqLock := Less(w.reqLock)))
    else if request == PONG then
      if !w.waitingPong || w.pingId != id then Abort(UnexpectedPong)
      else if Less(w.pingLock) > 0 then Abort(StillHeld)
      else Ok(w.(waitingPong := false, pingLock := Less(w.pingLock)))
    else Abort(UnknownRequest)
  }

  /** The request timer elapses. */
  function RequestElapses(w: Timers): Outcome<Timers, Assertion> {
    Abort(if Less(w.reqLock) > 0 then StillHeld else Deadline)
  }

  /** The ping timer elapses: a ping leaves, or its answer is too late. */
  function PingElapses(w: Timers): Outcome<(Timers, int), Assertion> {
    if w.waitingPong then Abort(if Less(w.pingLock) > 0 then StillHeld else Deadline)
    else
      var id := NextId(w.pingId);
      Ok((w.(pingLock := w.pingLock + 1, pingId := id, waitingPong := true), GenScalar(PING, 0, id)))
  }

  // ---------------------------------------------------------------- the thread

  const PING_IDX := 0
  const REQ_IDX := 1

  datatype Timer = Timer(id: int, armed: bool, waitingPong: bool)

  /** A timer that get_timeout can elect. */
  predicate Electable(t: Timer, remain: nat) {
    t.armed && remain < INT_MAX
  }

  /** Some timer can be elected, given the milliseconds left. */
  predicate CanPoll(w: Timers, pingLeft: int, reqLeft: int) {
    pingLeft < INT_MAX || (w.reqArmed && reqLeft < INT_MAX)
  }

  class Thread {
    const timer: array<Timer>
    var pingLock: nat
    var reqLock: nat

    ghost predicate Valid()
      reads this, timer
    {
      timer.Length == 2 && timer[PING_IDX].armed && !timer[REQ_IDX].waitingPong
    }

    ghost function View(): Timers
      requires Valid()
      reads this, timer
    {
      Timers(timer[PING_IDX].id, timer[PING_IDX].waitingPong, timer[REQ_IDX].id, timer[REQ_IDX].armed, pingLock, reqLock)
    }

    constructor ()
      ensures Valid() && fresh(timer) && View() == IDLE
    {
      timer := new Timer[2](_ => Timer(-1, false, false));
      pingLock, reqLock := 0, 0;
      new;
      timer[PING_IDX] := Timer(-1, true, false);
    }

    /** The delay given to poll and the timer it stands for: the first one due within a
        millisecond, else the first one with the least time left. The assertions hold
        exactly when some armed timer has less than INT_MAX milliseconds left. */
    method NextTimeout(remain: seq<nat>) returns (ok: bool, timeout: int, idx: int)
      requires Valid() && |remain| == 2
      ensures ok <==> exists i :: 0 <= i < 2 && Electable(timer[i], remain[i])
      ensures ok <==> CanPoll(View(), remain[PING_IDX], remain[REQ_IDX])
      ensures ok ==> 0 <= idx < 2 && Electable(timer[idx], remain[idx])
      ensures ok ==> timeout == if remain[idx] <= 1 then 0 else remain[idx]
      ensures ok ==> forall j :: 0 <= j < idx && timer[j].armed ==> remain[j] > 1 && remain[j] > timeout
      ensures ok && timeout > 0 ==> forall j :: 0 <= j < 2 && timer[j].armed ==> remain[j] >= timeout
    {
      timeout, idx := INT_MAX, -1;
      var i := 0;
      while i < 2
        invariant 0 <= i <= 2 && -1 <= idx < i && 0 < timeout <= INT_MAX
        invariant idx == -1 <==> timeout == INT_MAX
        invariant idx != -1 ==> timer[idx].armed && timeout == remain[idx] && timeout > 1
        invariant forall j :: 0 <= j < i && timer[j].armed ==> remain[j] > 1 && remain[j] >= timeout
        invariant forall j :: 0 <= j < idx && timer[j].armed ==> remain[j] > timeout
      {
        if timer[i].armed {
          if remain[i] <= 1 {
            timeout, idx := 0, i;
            assert Electable(timer[i], remain[i]);
            break;
          } else if remain[i] < timeout {
            idx, timeout := i, remain[i];
          }
        }
        i := i + 1;
      }
      ok := timeout != INT_MAX && idx != -1;
      if ok {
        assert Electable(timer[idx], remain[idx]);
      }
    }

    method Handle(scalar: int) returns (why: Option<Assertion>)
      requires Valid()
      modifies this, timer
      ensures Valid() && Matches(HandleMsg(old(View()), scalar), why, View())
    {
      var request, id := GetRequest(scalar), GetId(scalar);
      if request == START {
        if timer[REQ_IDX].id < MAX_REQ_ID {
          if id != timer[REQ_IDX].id + 1 { return Some(BadStartId); }
        } else {
          if id != 0 { return Some(BadStartId); }
        }
        var isHeld := reqLock > 0;
        if timer[REQ_IDX].armed != isHeld { return Some(LockMismatch); }
        if !isHeld {
          reqLock := reqLock + 1;
        }
        timer[REQ_IDX] := timer[REQ_IDX].(id := id, armed := true);
      } else if request == STOP {
        if !timer[REQ_IDX].armed { return Some(StopUnarmed); }
        if timer[REQ_IDX].id == id {
          reqLock := Less(reqLock);
          if reqLock > 0 { return Some(StillHeld); }
          timer[REQ_IDX] := timer[REQ_IDX].(armed := false);
        }
      } else if request == PONG {
        if !timer[PING_IDX].waitingPong || timer[PING_IDX].id != id { return Some(UnexpectedPong); }
        pingLock := Less(pingLock);
        if pingLock > 0 { return Some(StillHeld); }
        timer[PING_IDX] := timer[PING_IDX].(waitingPong := false);
      } else {
        return Some(UnknownRequest);
      }
      return None;
    }

    /** poll has timed out for timer `idx`; `ping` is the message sent, if any. */
    method Elapse(idx: int) returns (why: Option<Assertion>, ping: Option<int>)
      requires Valid() && (idx == PING_IDX || idx == REQ_IDX)
      modifies this, timer
      ensures Valid()
      ensures idx == PING_IDX ==> match PingElapses(old(View()))
                                  case Ok((w, m)) => why == None && View() == w && ping == Some(m)
                                  case Abort(a) => why == Some(a) && ping == None
      ensures idx == REQ_IDX ==> ping == None && Matches(RequestElapses(old(View())), why, View())
    {
      ping := None;
      if idx == PING_IDX {
        if timer[PING_IDX].waitingPong {
          pingLock := Less(pingLock);
          return Some(if pingLock > 0 then StillHeld else Deadline), None;
        }
        var id := NextId(timer[PING_IDX].id);
        pingLock := pingLock + 1;
        timer[PING_IDX] := timer[PING_IDX].(id := id, waitingPong := true);
        return None, Some(GenScalar(PING, 0, id));
      } else {
        reqLock := Less(reqLock);
        return Some(if reqLock > 0 then StillHeld else Deadline), None;
      }
    }
  }
}
