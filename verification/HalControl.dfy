/**
 The Sofia HAL and control: each reason that HAL gives is preceded by a busy event, but the two
 are sent one after the other, and the events of other threads can come between them.
 */
module HalControl {
  import opened Common
  import opened Fsm
  import opened Hal
  import opened HalRuns
  import Control
  import ControlFrame
  import Watchdog

  /** HAL, control, the queue of control, and the events that HAL has still to send before it
      handles another event of its own. */
  datatype Sys = Sys(hal: Ctx, ctl: Control.Ctx, queue: seq<Control.Trigger>, outbox: seq<Control.Trigger>)

  datatype Move =
    | MoveHal(input: Input, halEnv: Env)
    | HalSends
    | MoveCtl(env: Control.Env)
    | CtlTimer(env: Control.Env)
    | Post(event: Control.Trigger)

  datatype Stop = AtHal(hal: Assertion) | AtCtl(ctl: Control.Assertion)

  predicate FromHal(t: Control.Trigger) {
    t == Control.HalOff || t == Control.HalRun || t == Control.HalBusy || Control.IsReason(t)
  }

  predicate CanMove(y: Sys, v: Move) {
    match v
    case MoveHal(i, _) => y.outbox == [] && Enabled(y.hal, i)
    case HalSends => y.outbox != []
    case MoveCtl(_) => y.queue != []
    case CtlTimer(_) => y.ctl.timerArmed
    case Post(t) => !FromHal(t)
  }

  function AfterControl(y: Sys, r: Control.Handled): Outcome<Sys, Stop> {
    match r
    case Abort(why) => Abort(AtCtl(why))
    case Ok(c) => Ok(y.(ctl := c))
  }

  function Moved(y: Sys, v: Move): Outcome<Sys, Stop>
    requires CanMove(y, v)
  {
    match v
    case MoveHal(i, e) =>
      (match Step(y.hal, i, e)
       case Abort(why) => Abort(AtHal(why))
       case Ok(h) =>
         var sent := if |y.hal.toCtl| <= |h.toCtl| then h.toCtl[|y.hal.toCtl|..] else [];
         Ok(y.(hal := h, outbox := sent)))
    case HalSends => Ok(y.(queue := y.queue + [y.outbox[0]], outbox := y.outbox[1..]))
    case MoveCtl(e) => AfterControl(y.(queue := y.queue[1..]), Control.Notify(y.ctl, y.queue[0], e))
    case CtlTimer(e) => AfterControl(y, Control.Notify(y.ctl, Control.Timeout, e))
    case Post(t) => Ok(y.(queue := y.queue + [t]))
  }

  // ---------------------------------------------------------------- announced reasons

  predicate Remembers(wait: bool, t: Control.Trigger) {
    t == Control.HalBusy || (wait && !Control.IsReason(t))
  }

  /** Every reason of `q` has its own busy event before it, or the one control remembers. */
  predicate Explained(wait: bool, q: seq<Control.Trigger>)
    decreases |q|
  {
    q == [] || ((Control.IsReason(q[0]) ==> wait) && Explained(Remembers(wait, q[0]), q[1..]))
  }

  lemma {:induction false} ExplainedMore(wait: bool, q: seq<Control.Trigger>)
    requires Explained(false, q)
    ensures Explained(wait, q)
    decreases |q|
  {
    hide Control.IsReason;
    if q != [] && wait && !Remembers(false, q[0]) {
      ExplainedMore(Remembers(wait, q[0]), q[1..]);
    }
  }

  lemma {:induction false} ExplainedPrefix(wait: bool, a: seq<Control.Trigger>, b: seq<Control.Trigger>)
    requires Explained(wait, a + b)
    ensures Explained(wait, a)
    decreases |a|
  {
    if a != [] {
      assert (a + b)[1..] == a[1..] + b;
      ExplainedPrefix(Remembers(wait, a[0]), a[1..], b);
    }
  }

  /** An event of somebody else changes nothing, wherever it comes. */
  lemma {:induction false} ExplainedInsert(wait: bool, a: seq<Control.Trigger>, t: Control.Trigger, b: seq<Control.Trigger>)
    requires !FromHal(t)
    ensures Explained(wait, a + [t] + b) <==> Explained(wait, a + b)
    decreases |a|
  {
    if a == [] {
      assert (a + [t] + b)[1..] == b;
      assert a + b == b;
    } else {
      assert (a + [t] + b)[1..] == a[1..] + [t] + b;
      assert (a + b)[1..] == a[1..] + b;
      ExplainedInsert(Remembers(wait, a[0]), a[1..], t, b);
    }
  }

  lemma {:induction false} ExplainedSent(wait: bool, q: seq<Control.Trigger>, ts: seq<Control.Trigger>)
    requires Explained(wait, q) && Announced(ts)
    ensures Explained(wait, q + ts)
    decreases |q|
  {
    if q == [] {
      assert q + ts == ts;
      if ts != [] {
        assert ts[1..] == [] || ts[1..] == [ts[1]];
        if |ts| == 2 {
          assert ts[1..][1..] == [];
        }
      }
    } else {
      assert (q + ts)[1..] == q[1..] + ts;
      ExplainedSent(Remembers(wait, q[0]), q[1..], ts);
    }
  }

  /** What control has still to handle of HAL's events. */
  function Pending(y: Sys): seq<Control.Trigger> {
    y.queue + y.outbox
  }

  predicate Clear(y: Sys) {
    Explained(y.ctl.flow.waitBusy, Pending(y))
  }

  /** The event takes control to its failsafe operation with a busy event whose reason is still
      to come: control forgets the first before it meets the second. */
  predicate Harmful(y: Sys, v: Move) {
    && v.MoveCtl? && y.queue != [] && ControlFrame.FailsafeEvent(y.queue[0], y.ctl.fsm)
    && !Explained(false, y.queue[1..] + y.outbox)
  }

  // ---------------------------------------------------------------- one move

  lemma {:induction false} HalMove(y: Sys, i: Input, e: Env)
    requires Inv(y.hal) && CanMove(y, MoveHal(i, e)) && Moved(y, MoveHal(i, e)).Ok?
    ensures var y' := Moved(y, MoveHal(i, e)).ctx;
            Inv(y'.hal) && (Clear(y') <==> Clear(y))
  {
    hide Step, Inv, Announced, Explained, MayStop;
    StepKeeps(y.hal, i, e);
    var ts := Step(y.hal, i, e).ctx.toCtl[|y.hal.toCtl|..];
    assert Pending(y) == y.queue;
    if Clear(y) {
      ExplainedSent(y.ctl.flow.waitBusy, y.queue, ts);
    }
    if Explained(y.ctl.flow.waitBusy, y.queue + ts) {
      ExplainedPrefix(y.ctl.flow.waitBusy, y.queue, ts);
    }
  }

  lemma {:induction false} SendMove(y: Sys)
    requires y.outbox != []
    ensures Pending(Moved(y, HalSends).ctx) == Pending(y)
  {
    assert y.outbox == [y.outbox[0]] + y.outbox[1..];
  }

  lemma {:induction false} PostMove(y: Sys, t: Control.Trigger)
    requires !FromHal(t)
    ensures Clear(Moved(y, Post(t)).ctx) <==> Clear(y)
  {
    ExplainedInsert(y.ctl.flow.waitBusy, y.queue, t, y.outbox);
  }

  lemma {:induction false} PendingHead(y: Sys)
    requires y.queue != []
    ensures Pending(y)[0] == y.queue[0] && Pending(y)[1..] == y.queue[1..] + y.outbox
  {
  }

  /** Control handles the first event: the assertion fires exactly on a reason nothing announced;
      else what is left stays announced, unless the event is harmful. */
  lemma {:induction false} ControlMove(y: Sys, e: Control.Env)
    requires y.queue != []
    ensures var r := Moved(y, MoveCtl(e));
            && (r == Abort(AtCtl(Control.PreOp)) <==> Control.IsReason(y.queue[0]) && !y.ctl.flow.waitBusy)
            && (r.Ok? ==> r.ctx.hal == y.hal && (Clear(r.ctx) <==> Clear(y) && !Harmful(y, MoveCtl(e))))
  {
    hide Control.Notify, Control.IsReason, ControlFrame.FailsafeEvent;
    var t, rest := y.queue[0], y.queue[1..] + y.outbox;
    ControlFrame.PreOpExact(y.ctl, t, e);
    PendingHead(y);
    if Control.Notify(y.ctl, t, e).Ok? {
      ControlFrame.BusyRemembered(y.ctl, t, e);
      if Explained(false, rest) {
        ExplainedMore(Remembers(y.ctl.flow.waitBusy, t), rest);
      }
      if ControlFrame.FailsafeEvent(t, y.ctl.fsm) {
        FailureIsNoReason(t, y.ctl.fsm);
      }
    }
  }

  lemma {:induction false} FailureIsNoReason(t: Control.Trigger, st: Control.State)
    requires ControlFrame.FailsafeEvent(t, st)
    ensures !FromHal(t)
  {
  }

  lemma {:induction false} TimerMove(y: Sys, e: Control.Env)
    requires y.ctl.timerArmed
    ensures var r := Moved(y, CtlTimer(e));
            && r != Abort(AtCtl(Control.PreOp))
            && (r.Ok? ==> r.ctx.hal == y.hal && (Clear(r.ctx) <==> Clear(y)))
  {
    hide Control.Notify;
    ControlFrame.PreOpExact(y.ctl, Control.Timeout, e);
    if Control.Notify(y.ctl, Control.Timeout, e).Ok? {
      ControlFrame.BusyRemembered(y.ctl, Control.Timeout, e);
    }
  }

  /** Exactly which moves keep every reason announced. */
  lemma {:induction false} MoveExact(y: Sys, v: Move)
    requires Inv(y.hal) && CanMove(y, v)
    ensures Moved(y, v).Ok? ==> Inv(Moved(y, v).ctx.hal) && (Clear(Moved(y, v).ctx) <==> Clear(y) && !Harmful(y, v))
    ensures Moved(y, v) == Abort(AtCtl(Control.PreOp)) ==> v.MoveCtl? && !Clear(y)
  {
    hide Clear, Harmful, Inv, Step, Control.Notify;
    match v
    case MoveHal(i, e) =>
      NotHarmful(y, v);
      if Moved(y, v).Ok? {
        HalMove(y, i, e);
      }
    case HalSends =>
      NotHarmful(y, v);
      SendMove(y);
      SamePending(y, Moved(y, v).ctx);
    case MoveCtl(e) =>
      ControlMove(y, e);
      PendingHead(y);
      Unannounced(y);
    case CtlTimer(e) =>
      NotHarmful(y, v);
      TimerMove(y, e);
    case Post(t) =>
      NotHarmful(y, v);
      PostMove(y, t);
  }

  lemma {:induction false} NotHarmful(y: Sys, v: Move)
    requires !v.MoveCtl?
    ensures !Harmful(y, v)
  {
  }

  lemma {:induction false} SamePending(y: Sys, y': Sys)
    requires Pending(y') == Pending(y) && y'.ctl == y.ctl
    ensures Clear(y') <==> Clear(y)
  {
  }

  lemma {:induction false} Unannounced(y: Sys)
    requires y.queue != []
    ensures Control.IsReason(y.queue[0]) && !y.ctl.flow.waitBusy ==> !Clear(y)
  {
  }

  // ---------------------------------------------------------------- runs

  ghost predicate Reaches(y: Sys, moves: seq<Move>, y': Sys)
    decreases |moves|
  {
    if moves == [] then y == y'
    else CanMove(y, moves[0]) && Moved(y, moves[0]).Ok? && Reaches(Moved(y, moves[0]).ctx, moves[1..], y')
  }

  /** No move of the run is harmful. */
  ghost predicate Harmless(y: Sys, moves: seq<Move>)
    decreases |moves|
  {
    moves == []
    || (CanMove(y, moves[0]) && Moved(y, moves[0]).Ok? && !Harmful(y, moves[0]) && Harmless(Moved(y, moves[0]).ctx, moves[1..]))
  }

  /** HAL has handled its first event, control has armed its watchdog. */
  ghost predicate Boot(y: Sys) {
    && (exists mdm, dump, secvm, e :: Start(mdm, dump, secvm, e) == Ok(y.hal))
    && (exists timeout :: Control.Boot(timeout) == Ok(y.ctl))
    && y.queue == [] && y.outbox == y.hal.toCtl
  }

  lemma {:induction false} BootClear(y: Sys)
    requires Boot(y)
    ensures Inv(y.hal) && Clear(y)
  {
    hide Announced, Explained, Inv, Start;
    var mdm, dump, secvm, e :| Start(mdm, dump, secvm, e) == Ok(y.hal);
    StartInv(mdm, dump, secvm, e);
    assert y.hal.toCtl[0..] == y.hal.toCtl;
    EmptyExplained(y.ctl.flow.waitBusy);
    ExplainedSent(y.ctl.flow.waitBusy, [], y.hal.toCtl);
  }

  lemma {:induction false} EmptyExplained(wait: bool)
    ensures Explained(wait, [])
  {
  }

  lemma {:induction false} RunExact(y: Sys, moves: seq<Move>, y': Sys)
    requires Inv(y.hal) && Reaches(y, moves, y')
    ensures Inv(y'.hal) && (Clear(y') <==> Clear(y) && Harmless(y, moves))
    decreases |moves|
  {
    hide Inv, Clear, Harmful, Moved, CanMove;
    if moves != [] {
      MoveExact(y, moves[0]);
      RunExact(Moved(y, moves[0]).ctx, moves[1..], y');
    }
  }

  /** Over every interleaving, failsafe included: what HAL has still to tell is announced if and
      only if no failsafe of the run came between a busy event and its reason. Then no move
      whatever can meet the assertion of pre_op. */
  lemma {:induction false} ReasonsAnnounced(y: Sys, moves: seq<Move>, y': Sys)
    requires Boot(y) && Reaches(y, moves, y')
    ensures Inv(y'.hal)
    ensures Harmless(y, moves) <==> Explained(y'.ctl.flow.waitBusy, y'.queue + y'.outbox)
    ensures Harmless(y, moves) ==> forall v :: CanMove(y', v) ==> Moved(y', v) != Abort(AtCtl(Control.PreOp))
  {
    BootClear(y);
    RunExact(y, moves, y');
    forall v | Harmless(y, moves) && CanMove(y', v) ensures Moved(y', v) != Abort(AtCtl(Control.PreOp)) {
      hide Moved, CanMove;
      MoveExact(y', v);
    }
  }

  /** After a harmful move there is no way back: in every continuation some reason without
      announcement is still to be handled, so control never gets past it. */
  lemma {:induction false} NeverDrained(y: Sys, moves: seq<Move>, y1: Sys, more: seq<Move>, y2: Sys)
    requires Boot(y) && Reaches(y, moves, y1) && !Harmless(y, moves) && Reaches(y1, more, y2)
    ensures y2.queue + y2.outbox != []
  {
    hide Moved, CanMove;
    BootClear(y);
    RunExact(y, moves, y1);
    RunExact(y1, more, y2);
    EmptyExplained(y2.ctl.flow.waitBusy);
  }

  /** The last event pending in such a state is the reason that stops control. */
  lemma {:induction false} LastReasonStops(y: Sys, e: Control.Env)
    requires !Clear(y) && |y.queue| == 1 && y.outbox == []
    ensures Moved(y, MoveCtl(e)) == Abort(AtCtl(Control.PreOp))
  {
    hide Control.Notify;
    ControlMove(y, e);
    PendingHead(y);
    assert Pending(y)[1..] == [];
    EmptyExplained(Remembers(y.ctl.flow.waitBusy, y.queue[0]));
  }

  // ---------------------------------------------------------------- a run that stops control

  lemma {:induction false} ReachesSnoc(y: Sys, moves: seq<Move>, y1: Sys, v: Move)
    requires Reaches(y, moves, y1) && CanMove(y1, v) && Moved(y1, v).Ok?
    ensures Reaches(y, moves + [v], Moved(y1, v).ctx)
    decreases |moves|
  {
    hide Moved, CanMove;
    if moves == [] {
      assert ([] + [v])[1..] == [];
    } else {
      assert (moves + [v])[1..] == moves[1..] + [v];
      ReachesSnoc(Moved(y, moves[0]).ctx, moves[1..], y1, v);
    }
  }

  const CALM := Control.Env(false, Control.ColdReset, Control.OutOfService, false)
  const FINE := Env(false, false, false)

  /** Where control is on its way through the run. */
  predicate At(c: Control.Ctx, st: Control.State, flow: Control.Flow) {
    c.fsm == st && c.flow == flow && 0 <= c.watchId <= 5 && c.timeout == 0
  }

  lemma {:induction false} HearsOff(c: Control.Ctx)
    requires At(c, Control.Initial, Control.NO_FLOW) && c.watchId == 0
    ensures var r := Control.Notify(c, Control.HalOff, CALM);
            r.Ok? && At(r.ctx, Control.StDown, Control.NO_FLOW) && r.ctx.watchId == 0 && r.ctx.oos == c.oos
  {
    hide Watchdog.GenScalar;
  }

  lemma {:induction false} HearsStart(c: Control.Ctx)
    requires At(c, Control.StDown, Control.NO_FLOW) && c.watchId == 0 && !c.oos
    ensures var r := Control.Notify(c, Control.CliStart, CALM);
            r.Ok? && At(r.ctx, Control.Packaging, Control.NO_FLOW.(req := Control.ReqStart))
  {
    hide Watchdog.GenScalar;
  }

  lemma {:induction false} HearsBusy(c: Control.Ctx)
    requires At(c, Control.Packaging, Control.NO_FLOW.(req := Control.ReqStart))
    ensures var r := Control.Notify(c, Control.HalBusy, CALM);
            r.Ok? && At(r.ctx, Control.Packaging, Control.NO_FLOW.(req := Control.ReqStart, waitBusy := true))
  {
    hide Watchdog.GenScalar;
  }

  lemma {:induction false} HearsFailure(c: Control.Ctx)
    requires At(c, Control.Packaging, Control.NO_FLOW.(req := Control.ReqStart, waitBusy := true))
    ensures var r := Control.Notify(c, Control.OpFailure, CALM);
            r.Ok? && At(r.ctx, Control.Waiting, Control.NO_FLOW.(req := Control.ReqStop))
  {
    hide Watchdog.GenScalar;
  }

  /** The modem is off: control has heard of it and is told to start. */
  lemma {:induction false} FoundOff()
    ensures var r := Start(MdmOff, false, false, FINE);
            r.Ok? && r.ctx.fsm == StOff && r.ctx.toCtl == [Control.HalOff]
  {
    assert [] + [Control.HalOff] == [Control.HalOff];
  }

  lemma {:induction false} RunToStart() returns (y: Sys, moves: seq<Move>, y': Sys)
    ensures Boot(y) && Reaches(y, moves, y')
    ensures y'.hal.fsm == StOff && y'.outbox == [] && y'.queue == []
    ensures At(y'.ctl, Control.Packaging, Control.NO_FLOW.(req := Control.ReqStart))
  {
    hide Watchdog.GenScalar, Control.Notify, Start, Step;
    FoundOff();
    var hal := Start(MdmOff, false, false, FINE).ctx;
    var ctl := Control.Boot(0).ctx;
    y := Sys(hal, ctl, [], hal.toCtl);
    assert Control.Boot(0) == Ok(ctl);
    moves, y' := [], y;
    ReachesSnoc(y, moves, y', HalSends);
    moves, y' := moves + [HalSends], Moved(y', HalSends).ctx;
    assert y'.queue == [Control.HalOff] && y'.outbox == [];
    HearsOff(y'.ctl);
    ReachesSnoc(y, moves, y', MoveCtl(CALM));
    moves, y' := moves + [MoveCtl(CALM)], Moved(y', MoveCtl(CALM)).ctx;
    assert y'.queue == [];
    ReachesSnoc(y, moves, y', Post(Control.CliStart));
    moves, y' := moves + [Post(Control.CliStart)], Moved(y', Post(Control.CliStart)).ctx;
    assert y'.queue == [Control.CliStart];
    HearsStart(y'.ctl);
    ReachesSnoc(y, moves, y', MoveCtl(CALM));
    moves, y' := moves + [MoveCtl(CALM)], Moved(y', MoveCtl(CALM)).ctx;
  }

  /** The firmware cannot be packaged while HAL announces that it is ready to flash: EV_FAILURE
      comes between BUSY and FLASH. */
  lemma {:induction false} RunToFailure() returns (y: Sys, moves: seq<Move>, y': Sys)
    ensures Boot(y) && Reaches(y, moves, y')
    ensures y'.queue == [Control.HalBusy, Control.OpFailure, Control.HalFlash] && y'.outbox == []
    ensures At(y'.ctl, Control.Packaging, Control.NO_FLOW.(req := Control.ReqStart))
  {
    hide Control.Notify, Step, Reaches, Boot;
    y, moves, y' := RunToStart();
    var power := MoveHal(Request(Power), FINE);
    PowerAsked(y'.hal);
    ReachesSnoc(y, moves, y', power);
    moves, y' := moves + [power], Moved(y', power).ctx;
    assert y'.outbox == [Control.HalBusy, Control.HalFlash];
    ReachesSnoc(y, moves, y', HalSends);
    moves, y' := moves + [HalSends], Moved(y', HalSends).ctx;
    ReachesSnoc(y, moves, y', Post(Control.OpFailure));
    moves, y' := moves + [Post(Control.OpFailure)], Moved(y', Post(Control.OpFailure)).ctx;
    ReachesSnoc(y, moves, y', HalSends);
    moves, y' := moves + [HalSends], Moved(y', HalSends).ctx;
  }

  lemma {:induction false} PowerAsked(h: Ctx)
    requires h.fsm == StOff
    ensures var r := Step(h, Request(Power), FINE);
            r.Ok? && r.ctx.toCtl == h.toCtl + [Control.HalBusy, Control.HalFlash]
  {
  }

  /** The assertion can be met: control forgets the busy event and stops at the reason. */
  lemma {:induction false} PreOpReached()
    ensures exists y, moves, y' :: Boot(y) && Reaches(y, moves, y') && CanMove(y', MoveCtl(CALM))
                                   && Moved(y', MoveCtl(CALM)) == Abort(AtCtl(Control.PreOp))
  {
    hide Control.Notify;
    var y, moves, y' := RunToFailure();
    HearsBusy(y'.ctl);
    ReachesSnoc(y, moves, y', MoveCtl(CALM));
    moves, y' := moves + [MoveCtl(CALM)], Moved(y', MoveCtl(CALM)).ctx;
    assert y'.queue == [Control.OpFailure, Control.HalFlash];
    HearsFailure(y'.ctl);
    ReachesSnoc(y, moves, y', MoveCtl(CALM));
    moves, y' := moves + [MoveCtl(CALM)], Moved(y', MoveCtl(CALM)).ctx;
    assert y'.queue == [Control.HalFlash];
    ControlMove(y', CALM);
  }
}
