/**
 Where control stands with the requests of client abstraction: idle states, the stop it holds, and
 what it tells, event by event.
 */
module ControlDuty {
  import opened Common
  import opened Fsm
  import opened Control
  import opened ControlOutcomes
  import Cla
  import ControlFrame
  import System
  import WatchdogRuns

  /** The states in which a modem that nobody asks for rests. */
  predicate Rests(st: State) {
    st == StUp || st == Waiting || st == Dumping || st == StDown
  }

  /** The states in which a stop is held. */
  predicate HoldsStop(st: State) {
    st == StUp || st == Waiting || st == Dumping
  }

  /** Events of HAL that nothing asked for: a modem that runs or dumps while it is down, or runs
      while it is to be stopped or nobody asks for it; and a timer that belongs to no reset. */
  predicate Stray(c: Ctx, t: Trigger) {
    || (c.fsm == StDown && (t == HalRun || t == HalDump))
    || (c.fsm == Waiting && t == HalRun && (c.flow.req == ReqNone || c.flow.req == ReqStop))
    || (c.fsm == StUp && t == Timeout && c.flow.req != ReqReset)
  }

  /** The modem is off, or gone. */
  predicate IsOff(m: Cla.ControlMsg) {
    m == Cla.ModemState(Cla.Off) || m == Cla.ModemState(Cla.Unresp) || m == Cla.ModemState(Cla.PlatformReboot)
  }

  predicate IsReady(m: Cla.ControlMsg) {
    m == Cla.ModemState(Cla.Ready)
  }

  /** Every message told is harmless, or says what the state says. */
  predicate Says(told: seq<Cla.ControlMsg>, st: State) {
    forall j :: 0 <= j < |told| ==> (IsOff(told[j]) ==> st == StDown) && (IsReady(told[j]) ==> st == StUp)
  }

  /** What one event makes of control, as far as requests are concerned. */
  predicate Lawful(c: Ctx, t: Trigger, c': Ctx) {
    && (c.flow.req == ReqNone && !System.IsRequest(t) && Rests(c.fsm) ==>
          c'.flow.req == ReqNone && Rests(c'.fsm) && (c.fsm == StDown ==> c'.fsm == StDown))
    && (c.flow.req == ReqStop && HoldsStop(c.fsm) ==>
          (c'.flow.req == ReqStop && HoldsStop(c'.fsm)) || (c'.flow.req == ReqNone && c'.fsm == StDown))
    && (c.flow.req != ReqNone && c'.flow.req == ReqNone ==> c'.fsm == StUp || c'.fsm == StDown)
    && (System.IsRequest(t) && c'.flow.req == ReqNone ==> c'.fsm == StDown)
    && (t == CliStop ==> c'.flow.req == ReqStop && HoldsStop(c'.fsm))
    && c.toCla <= c'.toCla && Says(c'.toCla[|c.toCla|..], c'.fsm)
  }

  lemma {:induction false} Said(c: Ctx, r: Handled, st: State, req: Request, told: seq<Cla.ControlMsg>)
    requires Serves(c, r, st, req, told) && Says(told, st)
    ensures c.toCla <= r.ctx.toCla && Says(r.ctx.toCla[|c.toCla|..], r.ctx.fsm)
  {
    assert r.ctx.toCla[|c.toCla|..] == told;
  }

  lemma {:induction false} SaysTwo(a: seq<Cla.ControlMsg>, b: seq<Cla.ControlMsg>, st: State)
    requires Says(a, st) && Says(b, st)
    ensures Says(a + b, st)
  {
  }

  lemma {:induction false} PartsSay(s: Ctx, st: State)
    ensures Says(Report(s), st) && Says(Answer(s, false), st) && Says([], st) && Says([DBG], st)
    ensures Says([DBG, Cla.ModemState(Cla.PlatformReboot)], StDown) && Says([Cla.ModemState(Cla.Unresp)], StDown)
  {
  }

  /** What a recovery tells. */
  lemma {:induction false} RecoverySays(s: Ctx, pre: seq<Cla.ControlMsg>, r: Handled, param: bool, step: Step)
    requires Recovers(After(s, pre), r, param, step) && r.Ok? && (pre == [] || pre == [DBG])
    ensures s.toCla <= r.ctx.toCla && Says(r.ctx.toCla[|s.toCla|..], r.ctx.fsm)
    ensures r.ctx.fsm == if step == ColdReset then Packaging else StDown
    ensures r.ctx.flow.req == if r.ctx.fsm == Packaging then s.flow.req else ReqNone
  {
    hide Says;
    var b := After(s, pre);
    PartsSay(b, r.ctx.fsm);
    match step
    case ColdReset => Adds(s, pre, r, Packaging, s.flow.req, Report(b));
    case Reboot =>
      var end := [DBG, Cla.ModemState(Cla.PlatformReboot)];
      SaysTwo(Report(b), end, StDown);
      SaysTwo(Report(b) + end, Answer(b, false), StDown);
      Adds(s, pre, r, StDown, ReqNone, Report(b) + end + Answer(b, false));
    case OutOfService =>
      var end := [Cla.ModemState(Cla.Unresp)];
      SaysTwo(Report(b), end, StDown);
      SaysTwo(Report(b) + end, Answer(b, false), StDown);
      Adds(s, pre, r, StDown, ReqNone, Report(b) + end + Answer(b, false));
    case _ =>
  }

  lemma {:induction false} Adds(s: Ctx, pre: seq<Cla.ControlMsg>, r: Handled, st: State, req: Request, told: seq<Cla.ControlMsg>)
    requires Serves(After(s, pre), r, st, req, told) && Says(pre, st) && Says(told, st)
    ensures s.toCla <= r.ctx.toCla && Says(r.ctx.toCla[|s.toCla|..], r.ctx.fsm)
  {
    hide Says;
    assert r.ctx.toCla == s.toCla + (pre + told);
    assert r.ctx.toCla[|s.toCla|..] == pre + told;
    SaysTwo(pre, told, st);
  }

  lemma {:induction false} RecoveryLawful(c: Ctx, t: Trigger, e: Env)
    requires Expected(c, t) && !Stray(c, t) && Notify(c, t, e).Ok? && System.Regular(t, c.fsm)
    requires StartsRecovery(c.fsm, t) || Resumes(c.fsm, t) || (t == HalUnresponsive && Expects(c.fsm, t))
    ensures Lawful(c, t, Notify(c, t, e).ctx)
  {
    hide Notify, Recovers, Says, Expected;
    var r := Notify(c, t, e);
    assert After(c, []) == c;
    if StartsRecovery(c.fsm, t) {
      RecoveryStarted(c, t, e);
      RecoverySays(c, [], r, e.param, e.next);
    } else if Resumes(c.fsm, t) {
      Resumed(c, t, e);
      var pre := if t == HalBusy then [DBG] else [];
      if c.flow.req == ReqNone || c.flow.req == ReqStop {
        Quiet(pre, Waiting);
        Said(c, r, Waiting, c.flow.req, pre);
      } else {
        RecoverySays(c, pre, r, e.param && t != HalBusy, e.next);
      }
    } else {
      GivenUp(c, e);
      RecoverySays(c, [], r, e.param, if c.fsm == Flashing then OutOfService else e.last);
    }
  }

  lemma {:induction false} Quiet(told: seq<Cla.ControlMsg>, st: State)
    requires told == [] || told == [DBG] || told == [Cla.ModemState(Cla.Busy)] || told == [Cla.Result(false)]
    ensures Says(told, st)
  {
  }

  lemma {:induction false} HalLawful(c: Ctx, t: Trigger, e: Env)
    requires Expected(c, t) && Expects(c.fsm, t) && !Stray(c, t) && Notify(c, t, e).Ok? && System.Regular(t, c.fsm)
    requires t == HalDump || t == HalOff || (t == HalBusy && c.fsm != Dumping)
    requires !StartsRecovery(c.fsm, t)
    ensures Lawful(c, t, Notify(c, t, e).ctx)
  {
    hide Notify, Expected;
    var r := Notify(c, t, e);
    match t
    case HalDump =>
      DumpStarted(c, e);
      Said(c, r, Dumping, c.flow.req, [DBG]);
    case HalOff =>
      TurnedOff(c, e);
      if c.fsm == StDown {
        assert c.toCla[|c.toCla|..] == [];
      } else {
        Said(c, r, StDown, ReqNone, Answer(c, true) + [Cla.ModemState(Cla.Off)]);
      }
    case _ =>
      TurnedBusy(c, e);
      Said(c, r, if c.fsm == StUp then Waiting else c.fsm, c.flow.req,
           if c.fsm == StUp || c.fsm == Packaging then [Cla.ModemState(Cla.Busy)] else []);
  }

  lemma {:induction false} BuildLawful(c: Ctx, t: Trigger, e: Env)
    requires Expected(c, t) && Expects(c.fsm, t) && Notify(c, t, e).Ok?
    requires (c.fsm == Initial && t == HalRun) || ((t == HalFlash || t == FwSuccess) && c.fsm == Packaging)
             || ((t == HalRun || t == FwSuccess) && c.fsm == Flashing) || (t == FwSuccess && c.fsm == Customizing)
    ensures Lawful(c, t, Notify(c, t, e).ctx)
  {
    hide Notify, Expected;
    var r := Notify(c, t, e);
    match c.fsm
    case Initial =>
      FoundRunning(c, e);
      ConfiguredSays(c, r, e.tlvs);
    case Packaging =>
      Packaged(c, t, e);
      Said(c, r, r.ctx.fsm, c.flow.req, []);
    case Flashing =>
      Flashed(c, t, e);
      if r.ctx.fsm == Flashing {
        Said(c, r, Flashing, c.flow.req, []);
      } else {
        ConfiguredSays(c, r, e.tlvs);
      }
    case _ =>
      Customized(c, e);
      Said(c, r, Packaging, c.flow.req, [DBG]);
  }

  lemma {:induction false} ConfiguredSays(c: Ctx, r: Handled, tlvs: bool)
    requires Configured(c, r, tlvs)
    ensures r.Ok? && c.toCla <= r.ctx.toCla && Says(r.ctx.toCla[|c.toCla|..], r.ctx.fsm)
    ensures if tlvs then r.ctx.fsm == Customizing && r.ctx.flow.req == c.flow.req else r.ctx.fsm == StUp && r.ctx.flow.req == ReqNone
  {
    if tlvs {
      Said(c, r, Customizing, c.flow.req, []);
    } else {
      Said(c, r, StUp, ReqNone, Answer(c, true) + [Cla.ModemState(Cla.Ready)]);
    }
  }

  lemma {:induction false} AskLawful(c: Ctx, t: Trigger, e: Env)
    requires WatchdogRuns.Ids(c) && Expects(c.fsm, t) && System.IsRequest(t) && Notify(c, t, e).Ok? && System.Regular(t, c.fsm)
    ensures Lawful(c, t, Notify(c, t, e).ctx)
  {
    hide Notify, WatchdogRuns.Ids, Recovers;
    var r := Notify(c, t, e);
    if c.fsm == StDown {
      StartServed(c, t, e);
      Said(c, r, r.ctx.fsm, r.ctx.flow.req, if c.oos then [Cla.Result(false)] else []);
    } else if t == CliStop {
      StopServed(c, e);
      Said(c, r, r.ctx.fsm, ReqStop, []);
    } else if t == CliReset {
      if c.fsm == Waiting {
        ResetLawful(c, e);
      } else {
        ResetServed(c, e);
        Said(c, r, c.fsm, ReqReset, []);
      }
    } else {
      UpdateServed(c, t, e);
      Said(c, r, r.ctx.fsm, ReqReset, []);
    }
  }

  lemma {:induction false} ResetLawful(c: Ctx, e: Env)
    requires WatchdogRuns.Ids(c) && c.fsm == Waiting && Notify(c, CliReset, e).Ok?
    ensures Lawful(c, CliReset, Notify(c, CliReset, e).ctx)
  {
    hide Notify, Recovers, WatchdogRuns.Ids;
    ResetWhileWaiting(c, e);
    var r := Notify(c, CliReset, e);
    if c.flow.waitBusy {
      Said(c, r, Waiting, ReqReset, []);
    } else {
      var c1 := c.(flow := c.flow.(req := ReqReset));
      assert After(c1, []) == c1;
      RecoverySays(c1, [], r, e.param, e.next);
    }
  }

  /** One regular event of control that is not stray. */
  lemma {:induction false} EventLawful(c: Ctx, t: Trigger, e: Env)
    requires WatchdogRuns.Ids(c) && System.Regular(t, c.fsm) && !Stray(c, t) && Notify(c, t, e).Ok?
    ensures Lawful(c, t, Notify(c, t, e).ctx)
  {
    hide Notify, Lawful, WatchdogRuns.Ids;
    ControlFrame.PreOpExact(c, t, e);
    Unexpected(c, t, e);
    if StartsRecovery(c.fsm, t) || Resumes(c.fsm, t) || t == HalUnresponsive {
      RecoveryLawful(c, t, e);
    } else if System.IsRequest(t) {
      AskLawful(c, t, e);
    } else if t == HalDump || t == HalOff || t == HalBusy {
      HalLawful(c, t, e);
    } else {
      BuildLawful(c, t, e);
    }
  }

  // ---------------------------------------------------------------- the timer

  /** The timer runs for a reset of a modem that is up. */
  predicate Timed(c: Ctx) {
    c.timerArmed ==> c.fsm == StUp && c.flow.req == ReqReset
  }

  /** The operation leaves the timer alone. */
  predicate Keeps(s: Ctx, r: Operated) {
    r.Ok? ==> r.ctx.0.timerArmed == s.timerArmed
  }

  lemma {:induction false} TimerDbg(s: Ctx, report: bool, ok: bool)
    ensures NotifyDbg(s, report).Ok? ==> NotifyDbg(s, report).ctx.timerArmed == s.timerArmed
    ensures NotifyResult(s, ok).timerArmed == s.timerArmed
  {
  }

  lemma {:induction false} TimerEnds(s: Ctx, report: bool, backup: bool)
    ensures Keeps(s, SetOos(s)) && Keeps(s, PlatformReboot(s)) && Keeps(s, MdmRestart(s, report, backup))
  {
    hide NotifyDbg, NotifyResult;
    TimerDbg(s, true, false);
    TimerDbg(s, report, false);
    if NotifyDbg(s, true).Ok? {
      var s1 := NotifyDbg(s, true).ctx;
      TimerDbg(Tell(s1, Cla.ModemState(Cla.Unresp)), true, false);
      TimerDbg(Tell(Tell(s1, DBG), Cla.ModemState(Cla.PlatformReboot)), true, false);
    }
  }

  lemma {:induction false} TimerSteps(s: Ctx, param: bool, step: Step)
    ensures Keeps(s, Escalate(s, param, step)) && Keeps(s, RequestedOperation(s, param, step))
  {
    hide SetOos, PlatformReboot, MdmRestart;
    var s1 := StoreDbg(s, param);
    TimerEnds(s1, true, false);
    assert StoreDbg(s1, false) == s1;
  }

  lemma {:induction false} TimerFlow(s: Ctx, tlvs: bool)
    ensures Keeps(s, MdmCfg(s, tlvs)) && Keeps(s, MdmFlash(s)) && Keeps(s, RequestStop(s)) && Keeps(s, Failsafe(s))
  {
    hide NotifyResult;
    TimerDbg(s, true, false);
    TimerDbg(s.(flow := s.flow.(flashDone := false, runIpc := false)), true, true);
  }

  lemma {:induction false} TimerAsks(s: Ctx, op: Op, t: Trigger, e: Env)
    requires System.TakesRequest(op) && !op.AskResetTimer?
    ensures Keeps(s, Operate(s, op, t, e))
  {
    hide Escalate, MdmRestart, NotifyResult, RequestStop;
    match op
    case RequestStart => TimerDbg(s.(flow := s.flow.(req := ReqStart)), true, false);
    case AskStop => TimerFlow(s, false);
    case AskReset => TimerSteps(StoreDbg(s, e.param).(flow := s.flow.(req := ReqReset)), false, e.next);
    case AskUpdate => TimerEnds(s.(flow := s.flow.(req := ReqReset), dbg := s.dbg.(noReport := true)), false, false);
    case AskBackup => TimerEnds(s.(flow := s.flow.(req := ReqReset)), false, true);
    case _ =>
  }

  /** No operation touches the timer but the reset of a modem that is up. */
  lemma {:induction false} TimerOps(s: Ctx, op: Op, t: Trigger, e: Env)
    requires !op.AskResetTimer?
    ensures Keeps(s, Operate(s, op, t, e))
  {
    if System.TakesRequest(op) {
      hide Operate;
      TimerAsks(s, op, t, e);
      return;
    }
    hide Operate;
    if op.RunInitial? || op.Run? || op.FlashSuccess? || op.FlashEvt? || op.FwReady? {
      TimerBuilds(s, op, t, e);
    } else {
      TimerPlain(s, op, t, e);
    }
  }

  lemma {:induction false} TimerFrom(s: Ctx, s0: Ctx, tlvs: bool)
    requires s0.timerArmed == s.timerArmed
    ensures Keeps(s, MdmCfg(s0, tlvs)) && Keeps(s, MdmFlash(s0))
  {
    hide MdmCfg, MdmFlash;
    TimerFlow(s0, tlvs);
  }

  lemma {:induction false} TimerNone(s: Ctx, why: Assertion)
    ensures Keeps(s, Abort(why))
  {
  }

  lemma {:induction false} TimerBuilds(s: Ctx, op: Op, t: Trigger, e: Env)
    requires op.RunInitial? || op.Run? || op.FlashSuccess? || op.FlashEvt? || op.FwReady?
    ensures Keeps(s, Operate(s, op, t, e))
  {
    hide MdmCfg, MdmFlash, Keeps;
    match op
    case RunInitial => TimerFrom(s, s.(flow := s.flow.(runIpc := true, flashDone := true)), e.tlvs);
    case Run => TimerFrom(s, s.(flow := s.flow.(runIpc := true)), e.tlvs);
    case FlashSuccess =>
      var s1 := if s.flow.runIpc then s else Command(s, [BootMdm]);
      TimerFrom(s, s1.(flow := s.flow.(flashDone := true)), e.tlvs);
    case FlashEvt =>
      TimerNone(s, HalEvtPending);
      TimerFrom(s, s.(flow := s.flow.(halEvt := true)), e.tlvs);
    case FwReady => TimerFrom(s, s.(flow := s.flow.(fwReady := true)), e.tlvs);
  }

  lemma {:induction false} TimerPlain(s: Ctx, op: Op, t: Trigger, e: Env)
    requires !System.TakesRequest(op)
    requires !op.RunInitial? && !op.Run? && !op.FlashSuccess? && !op.FlashEvt? && !op.FwReady?
    ensures Keeps(s, Operate(s, op, t, e))
  {
    hide Escalate, RequestedOperation, SetOos, PlatformReboot, MdmRestart, NotifyResult, Failsafe;
    match op
    case NotifyOff => TimerDbg(s, true, true);
    case NotifyUnresp => TimerEnds(StoreDbg(s, e.param), true, false);
    case FlashFailed => TimerEnds(StoreDbg(s, e.param), true, false);
    case TlvDone => TimerEnds(Tell(s, DBG), false, false);
    case Escalation => TimerSteps(s, e.param, e.next);
    case Requested => TimerSteps(s, e.param, e.next);
    case DumpEnd => TimerSteps(s, e.param, e.next);
    case DumpError => TimerSteps(Tell(Command(s, [StopDump]), DBG), false, e.next);
    case FailsafeOp => TimerFlow(s, false);
    case _ =>
  }

  /** The timer of a modem that is up is gone with that state. */
  lemma {:induction false} TimerMoves(s: Ctx, prev: State, next: State)
    ensures Transit(s, prev, next).Ok? ==> Transit(s, prev, next).ctx.timerArmed == (s.timerArmed && prev != StUp)
  {
  }

  /** Out of UP the timer does not start; in UP only a reset starts it. */
  lemma {:induction false} TimerEvent(c: Ctx, t: Trigger, e: Env)
    requires Notify(c, t, e).Ok? && !(t == CliReset && c.fsm == StUp)
    ensures var c' := Notify(c, t, e).ctx;
            c'.timerArmed ==> c.timerArmed
  {
    hide Operate, Failsafe, Prepare, Transit, Table;
    var cell := Table(t, c.fsm);
    TimerCell(t, c.fsm);
    ControlFrame.PrepareQuiet(c, t);
    var c0 := Prepare(c, t).ctx;
    PrepareTimer(c, t);
    TimerOps(c0, cell.op, t, e);
    var (c1, ret) := Operate(c0, cell.op, t, e).ctx;
    TimerFlow(c1, false);
    var (c2, failsafe) := (if ret.Fail? then Failsafe(c1) else Ok((c1, Stay))).ctx;
    TimerMoves(c2, c.fsm, NextState(c.fsm, cell.forced, ret, failsafe).value);
  }

  lemma {:induction false} PrepareTimer(c: Ctx, t: Trigger)
    ensures Prepare(c, t).Ok? ==> Prepare(c, t).ctx.timerArmed == c.timerArmed
  {
  }

  lemma {:induction false} TimerCell(t: Trigger, st: State)
    ensures Table(t, st).op.AskResetTimer? ==> t == CliReset && st == StUp
  {
  }

  /** While the timer runs, control is up and holds a reset. */
  lemma {:induction false} EventTimed(c: Ctx, t: Trigger, e: Env)
    requires WatchdogRuns.Ids(c) && Timed(c) && System.Regular(t, c.fsm) && Notify(c, t, e).Ok?
    ensures Timed(Notify(c, t, e).ctx)
  {
    hide Notify;
    ControlFrame.PreOpExact(c, t, e);
    Unexpected(c, t, e);
    if t == CliReset && c.fsm == StUp {
      ResetServed(c, e);
    } else {
      TimerEvent(c, t, e);
      if c.timerArmed {
        UpMoves(c, t, e);
        TimerLeft(c, t, e);
      }
    }
  }

  lemma {:induction false} TimerLeft(c: Ctx, t: Trigger, e: Env)
    requires c.fsm == StUp && Notify(c, t, e).Ok? && Notify(c, t, e).ctx.fsm != StUp
    ensures !Notify(c, t, e).ctx.timerArmed
  {
    hide Notify, Transit;
    var c2, st := ControlFrame.Before(c, t, e);
    TimerMoves(c2, c.fsm, st);
  }

  /** A reset held in UP: every event leads out of it. */
  lemma {:induction false} UpMoves(c: Ctx, t: Trigger, e: Env)
    requires Expected(c, t) && Expects(c.fsm, t) && c.fsm == StUp && c.flow.req == ReqReset && Notify(c, t, e).Ok? && System.Regular(t, c.fsm)
    ensures Notify(c, t, e).ctx.fsm != StUp
  {
    hide Notify;
    match t
    case HalBusy => TurnedBusy(c, e);
    case Timeout => RecoveryStarted(c, t, e);
    case CliStop => StopServed(c, e);
    case CliReset => ResetServed(c, e);
    case _ => UpdateServed(c, t, e);
  }
}
