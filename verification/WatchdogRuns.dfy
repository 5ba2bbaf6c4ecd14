/**
 Control and its watchdog over two FIFO channels.
 */
module WatchdogRuns {
  import opened Common
  import opened Fsm
  import opened Watchdog
  import Control
  import opened ControlFrame
  import Time

  // ---------------------------------------------------------------- what control sends

  /** The messages still ahead of the watchdog: START and STOP alternate with consecutive
      wrapping ids from `(id, armed)` to `(lastId, lastArmed)`, and `pongs` answers of ping
      `ping` are among them. */
  predicate Alternates(q: seq<int>, id: int, armed: bool, lastId: int, lastArmed: bool, ping: int, pongs: nat)
    decreases |q|
  {
    if q == [] then id == lastId && armed == lastArmed && pongs == 0
    else if GetRequest(q[0]) == START then
      !armed && GetId(q[0]) == NextId(id) && Alternates(q[1..], NextId(id), true, lastId, lastArmed, ping, pongs)
    else if GetRequest(q[0]) == STOP then
      armed && GetId(q[0]) == id && Alternates(q[1..], id, false, lastId, lastArmed, ping, pongs)
    else
      GetRequest(q[0]) == PONG && GetId(q[0]) == ping && pongs > 0
      && Alternates(q[1..], id, armed, lastId, lastArmed, ping, pongs - 1)
  }

  lemma {:induction false} AppendStart(q: seq<int>, id: int, armed: bool, lastId: int, ping: int, pongs: nat, m: int)
    requires Alternates(q, id, armed, lastId, false, ping, pongs)
    requires GetRequest(m) == START && GetId(m) == NextId(lastId)
    ensures Alternates(q + [m], id, armed, NextId(lastId), true, ping, pongs)
    decreases |q|
  {
    if q == [] {
      assert (q + [m])[1..] == [];
    } else {
      assert (q + [m])[1..] == q[1..] + [m];
      if GetRequest(q[0]) == START {
        AppendStart(q[1..], NextId(id), true, lastId, ping, pongs, m);
      } else if GetRequest(q[0]) == STOP {
        AppendStart(q[1..], id, false, lastId, ping, pongs, m);
      } else {
        AppendStart(q[1..], id, armed, lastId, ping, pongs - 1, m);
      }
    }
  }

  lemma {:induction false} AppendStop(q: seq<int>, id: int, armed: bool, lastId: int, ping: int, pongs: nat, m: int)
    requires Alternates(q, id, armed, lastId, true, ping, pongs)
    requires GetRequest(m) == STOP && GetId(m) == lastId
    ensures Alternates(q + [m], id, armed, lastId, false, ping, pongs)
    decreases |q|
  {
    if q == [] {
      assert (q + [m])[1..] == [];
    } else {
      assert (q + [m])[1..] == q[1..] + [m];
      if GetRequest(q[0]) == START {
        AppendStop(q[1..], NextId(id), true, lastId, ping, pongs, m);
      } else if GetRequest(q[0]) == STOP {
        AppendStop(q[1..], id, false, lastId, ping, pongs, m);
      } else {
        AppendStop(q[1..], id, armed, lastId, ping, pongs - 1, m);
      }
    }
  }

  lemma {:induction false} AppendPong(q: seq<int>, id: int, armed: bool, lastId: int, lastArmed: bool, ping: int, pongs: nat, m: int)
    requires Alternates(q, id, armed, lastId, lastArmed, ping, pongs)
    requires GetRequest(m) == PONG && GetId(m) == ping
    ensures Alternates(q + [m], id, armed, lastId, lastArmed, ping, pongs + 1)
    decreases |q|
  {
    if q == [] {
      assert (q + [m])[1..] == [];
    } else {
      assert (q + [m])[1..] == q[1..] + [m];
      if GetRequest(q[0]) == START {
        AppendPong(q[1..], NextId(id), true, lastId, lastArmed, ping, pongs, m);
      } else if GetRequest(q[0]) == STOP {
        AppendPong(q[1..], id, false, lastId, lastArmed, ping, pongs, m);
      } else {
        AppendPong(q[1..], id, armed, lastId, lastArmed, ping, pongs - 1, m);
      }
    }
  }

  /** A new ping id changes nothing while no answer is under way. */
  lemma {:induction false} Repinged(q: seq<int>, id: int, armed: bool, lastId: int, lastArmed: bool, ping: int, ping': int)
    requires Alternates(q, id, armed, lastId, lastArmed, ping, 0)
    ensures Alternates(q, id, armed, lastId, lastArmed, ping', 0)
    decreases |q|
  {
    if q != [] {
      if GetRequest(q[0]) == START {
        Repinged(q[1..], NextId(id), true, lastId, lastArmed, ping, ping');
      } else {
        Repinged(q[1..], id, false, lastId, lastArmed, ping, ping');
      }
    }
  }

  // ---------------------------------------------------------------- the joined system

  /** The period between two pings, the clock, and when the two timers end. */
  datatype Clock = Clock(period: nat, now: Time.Spec, pingEnd: Time.Spec, reqEnd: Time.Spec)

  /** `down` and `up` are the channels to and from the watchdog. */
  datatype Sys = Sys(ctl: Control.Ctx, wd: Timers, down: seq<int>, up: seq<int>, clock: Clock)

  /** Time passes, control handles an event or answers a ping, the watchdog chooses its time-out,
      reads a message or finds a timer elapsed (at any time: nothing below depends on when). */
  datatype Move =
    | Tick(time: Time.Spec)
    | CtlEvent(trigger: Control.Trigger, env: Control.Env)
    | CtlPong
    | WdPoll
    | WdMessage
    | WdPing
    | WdRequest

  datatype Stop = AtControl(ctl: Control.Assertion) | AtWatchdog(wd: Assertion)

  predicate CanMove(y: Sys, v: Move) {
    match v
    case Tick(time) => Time.Normalized(time) && Time.Nanos(y.clock.now) <= Time.Nanos(time)
    case CtlEvent(_, _) => true
    case CtlPong => y.up != []
    case WdPoll => true
    case WdMessage => y.down != []
    case WdPing => true
    case WdRequest => y.wd.reqArmed
  }

  /** The timers set again by a message: the request timer by START, the ping timer by PONG. */
  function Rearmed(c: Clock, scalar: int): Clock {
    if GetRequest(scalar) == START then c.(reqEnd := Time.Deadline(c.now, GetTimeout(scalar)))
    else if GetRequest(scalar) == PONG then c.(pingEnd := Time.Deadline(c.now, c.period))
    else c
  }

  function Moved(y: Sys, v: Move): Outcome<Sys, Stop>
    requires CanMove(y, v)
  {
    match v
    case Tick(time) => Ok(y.(clock := y.clock.(now := time)))
    case WdPoll =>
      if CanPoll(y.wd, Time.Remain(y.clock.pingEnd, y.clock.now), Time.Remain(y.clock.reqEnd, y.clock.now)) then Ok(y)
      else Abort(AtWatchdog(NoTimer))
    case CtlEvent(t, e) =>
      (match Control.Notify(y.ctl, t, e)
       case Abort(why) => Abort(AtControl(why))
       case Ok(c) =>
         var sent := if |y.ctl.toWatch| <= |c.toWatch| then c.toWatch[|y.ctl.toWatch|..] else [];
         Ok(y.(ctl := c, down := y.down + sent)))
    case CtlPong =>
      if GetRequest(y.up[0]) != PING then Abort(AtWatchdog(NotPing))
      else Ok(y.(up := y.up[1..], down := y.down + [GenScalar(PONG, 0, GetId(y.up[0]))]))
    case WdMessage =>
      (match HandleMsg(y.wd, y.down[0])
       case Abort(why) => Abort(AtWatchdog(why))
       case Ok(w) => Ok(y.(wd := w, down := y.down[1..], clock := Rearmed(y.clock, y.down[0]))))
    case WdPing =>
      (match PingElapses(y.wd)
       case Abort(why) => Abort(AtWatchdog(why))
       case Ok((w, m)) =>
         Ok(y.(wd := w, up := y.up + [m], clock := y.clock.(pingEnd := Time.Deadline(y.clock.now, MAX_PING_ELAPSED)))))
    case WdRequest =>
      (match RequestElapses(y.wd)
       case Abort(why) => Abort(AtWatchdog(why))
       case Ok(w) => Ok(y.(wd := w)))
  }

  /** Control's view of the request timer: armed outside UP and DOWN. */
  predicate Armed(c: Control.Ctx) {
    !Control.Settled(c.fsm)
  }

  predicate Ids(c: Control.Ctx) {
    0 <= c.watchId <= MAX_REQ_ID && c.timeout <= MAX_TIMEOUT
  }

  /** The protocol invariant. */
  predicate Inv(y: Sys) {
    && Ids(y.ctl)
    && Alternates(y.ctl.toWatch, -1, false, y.ctl.watchId, Armed(y.ctl), 0, 0)
    && -1 <= y.wd.pingId <= MAX_REQ_ID && -1 <= y.wd.reqId <= MAX_REQ_ID
    && y.wd.reqLock == Bit(y.wd.reqArmed)
    && y.wd.pingLock == Bit(y.wd.waitingPong)
    && |y.up| <= Bit(y.wd.waitingPong)
    && (forall j :: 0 <= j < |y.up| ==> GetRequest(y.up[j]) == PING && GetId(y.up[j]) == y.wd.pingId)
    && Alternates(y.down, y.wd.reqId, y.wd.reqArmed, y.ctl.watchId, Armed(y.ctl), y.wd.pingId,
                  Bit(y.wd.waitingPong) - |y.up|)
  }

  /** The ping timer never shows more than the longest delay it is set to. */
  predicate Timed(c: Clock) {
    && Time.Normalized(c.now) && 0 <= c.pingEnd.nsec <= Time.NS_PER_S
    && Time.Remain(c.pingEnd, c.now) <= if c.period < MAX_PING_ELAPSED then MAX_PING_ELAPSED else c.period
  }

  // ---------------------------------------------------------------- what control adds

  /** What one event of control adds to the channel: nothing, a START, a STOP, or both. */
  predicate Traffic(s: Control.Ctx, c: Control.Ctx) {
    var start := Control.Settled(s.fsm) && c.fsm != s.fsm;
    var stop := Control.Settled(c.fsm) && c.fsm != s.fsm;
    && c.watchId == (if start then NextId(s.watchId) else s.watchId)
    && Ids(c) && c.timeout == s.timeout
    && c.toWatch == s.toWatch
                    + (if start then [GenScalar(START, c.timeout, c.watchId)] else [])
                    + (if stop then [GenScalar(STOP, 0, c.watchId)] else [])
  }

  lemma {:induction false} TransitTraffic(s: Control.Ctx, next: Control.State)
    requires Ids(s) && next != s.fsm && Control.Transit(s, s.fsm, next).Ok?
    ensures Traffic(s, Control.Transit(s, s.fsm, next).ctx.(fsm := next))
  {
    hide GenScalar;
  }

  lemma {:induction false} WatchTraffic(s: Control.Ctx, t: Control.Trigger, e: Control.Env)
    requires Ids(s) && Control.Notify(s, t, e).Ok?
    ensures Traffic(s, Control.Notify(s, t, e).ctx)
  {
    hide Control.Operate, Control.Failsafe, Control.Prepare, Control.Transit, Control.Table, GenScalar;
    var s2, st := Before(s, t, e);
    if st != s.fsm {
      TransitTraffic(s2, st);
    }
  }

  // ---------------------------------------------------------------- runs

  /** One event of control, seen from any reader of the channel. */
  lemma {:induction false} TrafficAlternates(s: Control.Ctx, c: Control.Ctx, q: seq<int>, id: int, armed: bool, ping: int, pongs: nat)
    requires Ids(s) && Traffic(s, c) && Alternates(q, id, armed, s.watchId, Armed(s), ping, pongs)
    ensures Alternates(q + c.toWatch[|s.toWatch|..], id, armed, c.watchId, Armed(c), ping, pongs)
  {
    hide GenScalar, GetRequest, GetId, Alternates;
    var m, n := GenScalar(START, c.timeout, c.watchId), GenScalar(STOP, 0, c.watchId);
    ScalarRoundTrip(START, c.timeout, c.watchId);
    ScalarRoundTrip(STOP, 0, c.watchId);
    if c.fsm == s.fsm {
      assert q + c.toWatch[|s.toWatch|..] == q;
    } else if !Armed(s) {
      AppendStart(q, id, armed, s.watchId, ping, pongs, m);
      if !Armed(c) {
        AppendStop(q + [m], id, armed, c.watchId, ping, pongs, n);
        assert q + c.toWatch[|s.toWatch|..] == q + [m] + [n];
      } else {
        assert q + c.toWatch[|s.toWatch|..] == q + [m];
      }
    } else if !Armed(c) {
      AppendStop(q, id, armed, c.watchId, ping, pongs, n);
      assert q + c.toWatch[|s.toWatch|..] == q + [n];
    } else {
      assert q + c.toWatch[|s.toWatch|..] == q;
    }
  }

  /** A move keeps the invariant, or stops at one of control's own assertions, at a deadline of
      the watchdog or for want of a timer. */
  predicate MoveOk(r: Outcome<Sys, Stop>) {
    match r
    case Ok(y) => Inv(y)
    case Abort(AtControl(_)) => true
    case Abort(AtWatchdog(why)) => why == Deadline || why == NoTimer
  }

  lemma {:induction false} ControlMove(y: Sys, t: Control.Trigger, e: Control.Env)
    requires Inv(y)
    ensures MoveOk(Moved(y, CtlEvent(t, e)))
  {
    hide Control.Notify, Alternates, GetRequest, GetId;
    if Control.Notify(y.ctl, t, e).Ok? {
      WatchTraffic(y.ctl, t, e);
      var c := Control.Notify(y.ctl, t, e).ctx;
      TrafficAlternates(y.ctl, c, y.ctl.toWatch, -1, false, 0, 0);
      assert y.ctl.toWatch + c.toWatch[|y.ctl.toWatch|..] == c.toWatch;
      TrafficAlternates(y.ctl, c, y.down, y.wd.reqId, y.wd.reqArmed, y.wd.pingId, Bit(y.wd.waitingPong) - |y.up|);
    }
  }

  lemma {:induction false} PongMove(y: Sys)
    requires Inv(y) && CanMove(y, CtlPong)
    ensures MoveOk(Moved(y, CtlPong))
  {
    hide GenScalar, Alternates, GetRequest, GetId;
    var id := GetId(y.up[0]);
    IdRange(y.up[0]);
    ScalarRoundTrip(PONG, 0, id);
    AppendPong(y.down, y.wd.reqId, y.wd.reqArmed, y.ctl.watchId, Armed(y.ctl), y.wd.pingId, 0, GenScalar(PONG, 0, id));
  }

  lemma {:induction false} IdRange(scalar: int)
    ensures 0 <= GetId(scalar) <= MAX_REQ_ID
  {
  }

  lemma {:induction false} WatchdogMove(y: Sys)
    requires Inv(y) && CanMove(y, WdMessage)
    ensures MoveOk(Moved(y, WdMessage))
  {
    hide GetRequest, GetId;
  }

  lemma {:induction false} PingMove(y: Sys)
    requires Inv(y)
    ensures MoveOk(Moved(y, WdPing))
  {
    hide GenScalar, Alternates, GetRequest, GetId;
    if !y.wd.waitingPong {
      ScalarRoundTrip(PING, 0, NextId(y.wd.pingId));
      Repinged(y.down, y.wd.reqId, y.wd.reqArmed, y.ctl.watchId, Armed(y.ctl), y.wd.pingId, NextId(y.wd.pingId));
    }
  }

  lemma {:induction false} MoveKeeps(y: Sys, v: Move)
    requires Inv(y) && CanMove(y, v)
    ensures MoveOk(Moved(y, v))
  {
    match v
    case CtlEvent(t, e) => ControlMove(y, t, e);
    case CtlPong => PongMove(y);
    case WdMessage => WatchdogMove(y);
    case WdPing => PingMove(y);
    case _ => hide Alternates, Time.Remain, Time.Nanos, GetRequest, GetId;
  }

  // ---------------------------------------------------------------- time-outs

  /** The ping timer, just set. */
  lemma {:induction false} PingSet(c: Clock, ms: nat)
    requires Timed(c) && (ms == MAX_PING_ELAPSED || ms == c.period)
    ensures Timed(c.(pingEnd := Time.Deadline(c.now, ms)))
  {
    hide Time.Deadline, Time.Remain;
    Time.DeadlineExact(c.now, ms);
    Time.TimerBounds(c.now, ms, c.now);
  }

  lemma {:induction false} TimedKeeps(y: Sys, v: Move)
    requires Timed(y.clock) && CanMove(y, v) && Moved(y, v).Ok?
    ensures Timed(Moved(y, v).ctx.clock) && Moved(y, v).ctx.clock.period == y.clock.period
  {
    hide Control.Notify, HandleMsg, PingElapses, Time.Remain, Time.Deadline, Time.Nanos, GetRequest, GetTimeout, GenScalar, GetId;
    match v
    case Tick(time) => Time.RemainMonotone(y.clock.pingEnd, y.clock.now, time);
    case WdMessage => PingSet(y.clock, y.clock.period);
    case WdPing => PingSet(y.clock, MAX_PING_ELAPSED);
    case _ =>
  }

  /** With a period that leaves room below INT_MAX, the ping timer can always be elected. */
  lemma {:induction false} PollFinds(y: Sys)
    requires Timed(y.clock) && y.clock.period < INT_MAX
    ensures Moved(y, WdPoll).Ok?
  {
    hide Time.Remain;
  }

  lemma {:induction false} OnlyPoll(y: Sys, v: Move)
    requires CanMove(y, v)
    ensures Moved(y, v) == Abort(AtWatchdog(NoTimer)) ==> v == WdPoll
  {
    hide Control.Notify, Time.Remain, Time.Deadline;
  }

  /** With the longest period an int allows, the watchdog stops at its first time-out exactly if the
      clock still shows the whole period then: it does if it has not moved, and does not once a
      millisecond has passed. */
  lemma {:induction false} LongestPeriodStops(y: Sys, time: Time.Spec)
    requires Boot(y) && y.clock.period == INT_MAX && CanMove(y, Tick(time))
    ensures var y1 := y.(clock := y.clock.(now := time));
            && Moved(y, Tick(time)) == Ok(y1)
            && (Moved(y1, WdPoll) == Abort(AtWatchdog(NoTimer)) <==> Time.Remain(y.clock.pingEnd, time) == INT_MAX)
            && (time == y.clock.now ==> Moved(y1, WdPoll).Abort?)
            && (Time.Nanos(time) - Time.Nanos(y.clock.now) >= Time.NS_PER_MS ==> Moved(y1, WdPoll).Ok?)
  {
    hide Time.Remain, Time.Deadline, Time.Nanos;
    Time.TimerBounds(y.clock.now, INT_MAX, time);
    Time.DeadlineExact(y.clock.now, INT_MAX);
    Time.RemainAccurate(y.clock.pingEnd, time);
  }

  ghost predicate Reaches(y: Sys, moves: seq<Move>, y': Sys)
    decreases |moves|
  {
    if moves == [] then y == y'
    else CanMove(y, moves[0]) && Moved(y, moves[0]).Ok? && Reaches(Moved(y, moves[0]).ctx, moves[1..], y')
  }

  /** Control has armed the watchdog and nothing has been received yet. */
  ghost predicate Boot(y: Sys) {
    && (exists timeout :: Control.Boot(timeout) == Ok(y.ctl))
    && y.wd == IDLE && y.down == y.ctl.toWatch && y.up == []
    && Time.Normalized(y.clock.now) && 0 < y.clock.period <= INT_MAX
    && y.clock.pingEnd == Time.Deadline(y.clock.now, y.clock.period)
  }

  lemma {:induction false} BootTimed(y: Sys)
    requires Boot(y)
    ensures Timed(y.clock)
  {
    hide Time.Remain, Time.Deadline;
    Time.DeadlineExact(y.clock.now, y.clock.period);
    Time.TimerBounds(y.clock.now, y.clock.period, y.clock.now);
  }

  /** Control as it starts. */
  lemma {:induction false} BootAlternates(timeout: int, ping: int)
    requires Control.Boot(timeout).Ok?
    ensures var c := Control.Boot(timeout).ctx;
            Ids(c) && Armed(c) && Alternates(c.toWatch, -1, false, c.watchId, true, ping, 0)
  {
    hide GetRequest, GetId, GenScalar;
    ScalarRoundTrip(START, timeout, 0);
    var q := [GenScalar(START, timeout, 0)];
    assert [] + q == q && q[1..] == [];
  }

  lemma {:induction false} BootInv(y: Sys)
    requires Boot(y)
    ensures Inv(y)
  {
    hide GetRequest, GetId, GenScalar, Alternates, Control.Boot;
    var timeout :| Control.Boot(timeout) == Ok(y.ctl);
    BootAlternates(timeout, 0);
    BootAlternates(timeout, -1);
  }

  lemma {:induction false} RunKeeps(y: Sys, moves: seq<Move>, y': Sys)
    requires Inv(y) && Timed(y.clock) && Reaches(y, moves, y')
    ensures Inv(y') && Timed(y'.clock) && y'.clock.period == y.clock.period
    decreases |moves|
  {
    hide Inv, Timed, Moved, CanMove;
    if moves != [] {
      TimedKeeps(y, moves[0]);
      MoveKeeps(y, moves[0]);
      RunKeeps(Moved(y, moves[0]).ctx, moves[1..], y');
    }
  }

  /** Answers under way to the watchdog. */
  function Pongs(q: seq<int>): nat {
    if q == [] then 0 else Bit(GetRequest(q[0]) == PONG) + Pongs(q[1..])
  }

  lemma {:induction false} PongsCounted(q: seq<int>, id: int, armed: bool, lastId: int, lastArmed: bool, ping: int, pongs: nat)
    requires Alternates(q, id, armed, lastId, lastArmed, ping, pongs)
    ensures Pongs(q) == pongs
    decreases |q|
  {
    hide GetRequest, GetId;
    if q != [] {
      if GetRequest(q[0]) == START {
        PongsCounted(q[1..], NextId(id), true, lastId, lastArmed, ping, pongs);
      } else if GetRequest(q[0]) == STOP {
        PongsCounted(q[1..], id, false, lastId, lastArmed, ping, pongs);
      } else {
        PongsCounted(q[1..], id, armed, lastId, lastArmed, ping, pongs - 1);
      }
    }
  }

  lemma {:induction false} NextMove(y: Sys, v: Move)
    requires Inv(y) && Timed(y.clock) && CanMove(y, v) && Moved(y, v).Abort? && Moved(y, v).why.AtWatchdog?
    ensures Moved(y, v).why.wd == Deadline || (Moved(y, v).why.wd == NoTimer && y.clock.period >= INT_MAX)
  {
    hide Moved, CanMove, Inv;
    MoveKeeps(y, v);
    if y.clock.period < INT_MAX {
      PollFinds(y);
      OnlyPoll(y, v);
    }
  }

  /** A deadline is a request that was not stopped in time, or a ping not answered in time. */
  lemma {:induction false} DeadlineExactly(y: Sys, v: Move)
    requires Inv(y) && CanMove(y, v)
    ensures Moved(y, v) == Abort(AtWatchdog(Deadline)) <==> v == WdRequest || (v == WdPing && y.wd.waitingPong)
  {
    hide Alternates, Control.Notify, Time.Remain, Time.Deadline, GetRequest, GetId, GetTimeout, GenScalar;
  }

  /** The timers, just set: a START gives the request the time that control asked for, a PING leaves
      ten seconds for the answer, and the answer leaves a whole period until the next one. */
  lemma {:induction false} TimersSet(y: Sys)
    requires Inv(y) && Timed(y.clock)
    ensures y.down != [] && Moved(y, WdMessage).Ok? ==>
              var y', m := Moved(y, WdMessage).ctx, y.down[0];
              && (GetRequest(m) == START ==> y'.wd.reqArmed && Time.Remain(y'.clock.reqEnd, y.clock.now) == GetTimeout(m) && y'.clock.pingEnd == y.clock.pingEnd)
              && (GetRequest(m) == STOP ==> y'.clock == y.clock)
              && (GetRequest(m) == PONG ==> !y'.wd.waitingPong && Time.Remain(y'.clock.pingEnd, y.clock.now) == y.clock.period && y'.clock.reqEnd == y.clock.reqEnd)
    ensures Moved(y, WdPing).Ok? ==>
              var y' := Moved(y, WdPing).ctx;
              y'.wd.waitingPong && Time.Remain(y'.clock.pingEnd, y.clock.now) == 10_000 && y'.clock.reqEnd == y.clock.reqEnd
  {
    hide Alternates, Time.Remain, Time.Deadline, GetRequest, GetId, GetTimeout, GenScalar;
    Time.TimerBounds(y.clock.now, y.clock.period, y.clock.now);
    Time.TimerBounds(y.clock.now, 10_000, y.clock.now);
    if y.down != [] {
      TimeoutRange(y.down[0]);
      Time.TimerBounds(y.clock.now, GetTimeout(y.down[0]), y.clock.now);
    }
  }

  lemma {:induction false} TimeoutRange(scalar: int)
    ensures GetTimeout(scalar) >= 0
  {
  }

  /** Watchdog safety over every interleaving: what control has sent so far is START(0),
      STOP(0), START(1), ... with wrapping ids and ends armed exactly outside UP and DOWN; one
      ping at most is unanswered; the request timer is armed exactly when its wakelock is
      held; and no step can stop the watchdog but an expired deadline, nor, with a ping period
      below INT_MAX, the choice of a time-out. */
  lemma {:induction false} WatchdogSafety(y: Sys, moves: seq<Move>, y': Sys)
    requires Boot(y) && Reaches(y, moves, y')
    ensures Alternates(y'.ctl.toWatch, -1, false, y'.ctl.watchId, y'.ctl.fsm != Control.StUp && y'.ctl.fsm != Control.StDown, 0, 0)
    ensures |y'.up| + Pongs(y'.down) == Bit(y'.wd.waitingPong)
    ensures y'.wd.reqArmed == (y'.wd.reqLock > 0) && y'.wd.reqLock <= 1 && y'.wd.pingLock <= 1
    ensures forall v :: CanMove(y', v) && Moved(y', v).Abort? && Moved(y', v).why.AtWatchdog? ==>
              Moved(y', v).why.wd == Deadline || (Moved(y', v).why.wd == NoTimer && y.clock.period == INT_MAX)
    ensures forall v :: CanMove(y', v) ==>
              (Moved(y', v) == Abort(AtWatchdog(Deadline)) <==> v == WdRequest || (v == WdPing && y'.wd.waitingPong))
  {
    BootInv(y);
    BootTimed(y);
    RunKeeps(y, moves, y');
    PongsCounted(y'.down, y'.wd.reqId, y'.wd.reqArmed, y'.ctl.watchId, Armed(y'.ctl), y'.wd.pingId,
                 Bit(y'.wd.waitingPong) - |y'.up|);
    forall v | CanMove(y', v)
      ensures Moved(y', v) == Abort(AtWatchdog(Deadline)) <==> v == WdRequest || (v == WdPing && y'.wd.waitingPong)
    {
      hide Moved, CanMove, Alternates;
      DeadlineExactly(y', v);
    }
    forall v | CanMove(y', v) && Moved(y', v).Abort? && Moved(y', v).why.AtWatchdog?
      ensures Moved(y', v).why.wd == Deadline || (Moved(y', v).why.wd == NoTimer && y.clock.period == INT_MAX)
    {
      hide Moved, CanMove, Inv, Timed;
      NextMove(y', v);
    }
  }
}
