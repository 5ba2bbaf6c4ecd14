/**
 What each event makes of control: the state it leads to, what becomes of the request held, and
 what client abstraction is told, for every event and every state that expects it.
 */
module ControlOutcomes {
  import opened Common
  import opened Fsm
  import opened Control
  import Cla
  import System
  import Watchdog
  import WatchdogRuns

  // ---------------------------------------------------------------- outcomes

  /** The event is served: control is then in `st`, holds `req`, and has told client abstraction
      `told`. */
  predicate Serves(s: Ctx, r: Handled, st: State, req: Request, told: seq<Cla.ControlMsg>) {
    r.Ok? && r.ctx.fsm == st && r.ctx.flow.req == req && r.ctx.toCla == s.toCla + told
  }

  /** Just the answer to the request held, if there is one. */
  function Answer(s: Ctx, ok: bool): seq<Cla.ControlMsg> {
    if s.flow.req == ReqNone then [] else [Cla.Result(ok)]
  }

  const DBG := Cla.NotifyClient(Cla.DbgInfo)

  /** There is debug data to report, or a client to report for. */
  predicate DbgKnown(s: Ctx, param: bool) {
    s.dbg.evt || param || s.dbg.byCla
  }

  /** Debug data as it is reported on a recovery. */
  function Report(s: Ctx): seq<Cla.ControlMsg> {
    if s.dbg.noReport then [] else [DBG]
  }

  /** The modem is given up: out of service, told, and the request fails. */
  predicate GivesUp(s: Ctx, r: Handled, told: seq<Cla.ControlMsg>) {
    Serves(s, r, StDown, ReqNone, told + Answer(s, false)) && r.ctx.oos
  }

  predicate OutOfOrder(s: Ctx, param: bool) {
    !s.dbg.noReport && !DbgKnown(s, param)
  }

  /** A recovery step. `req` is the request held on the way. */
  predicate Recovers(s: Ctx, r: Handled, param: bool, step: Step) {
    match step
    case WarmReset => r == Abort(WarmResetMissing)
    case ColdReset =>
      if OutOfOrder(s, param) then r == Abort(DbgInfoMissing)
      else Serves(s, r, Packaging, s.flow.req, Report(s)) && r.ctx.oos == s.oos
    case Reboot =>
      if OutOfOrder(s, param) then r == Abort(DbgInfoMissing)
      else GivesUp(s, r, Report(s) + [DBG, Cla.ModemState(Cla.PlatformReboot)])
    case OutOfService =>
      if s.oos then r == Abort(AlreadyOos)
      else if OutOfOrder(s, param) then r == Abort(DbgInfoMissing)
      else GivesUp(s, r, Report(s) + [Cla.ModemState(Cla.Unresp)])
  }

  /** A reason of HAL that a busy event has announced, or any other event. */
  predicate Expected(s: Ctx, t: Trigger) {
    WatchdogRuns.Ids(s) && (IsReason(t) ==> s.flow.waitBusy)
  }

  // ---------------------------------------------------------------- the building blocks

  lemma {:induction false} Reported(s: Ctx, param: bool)
    ensures var r := NotifyDbg(StoreDbg(s, param), true);
            if OutOfOrder(s, param) then r == Abort(DbgInfoMissing)
            else r.Ok? && r.ctx.toCla == s.toCla + Report(s)
                 && r.ctx == s.(toCla := r.ctx.toCla, dbg := Dbg(false, false, false))
  {
    assert s.toCla + [] == s.toCla;
  }

  /** A change of state touches the watchdog and the timer only. */
  lemma {:induction false} Moves(s: Ctx, prev: State, next: State)
    requires WatchdogRuns.Ids(s) && next != Initial
    ensures var r := Transit(s, prev, next);
            r.Ok? && r.ctx == s.(timerArmed := r.ctx.timerArmed, watchId := r.ctx.watchId, toWatch := r.ctx.toWatch)
  {
    hide Watchdog.GenScalar;
  }

  /** The operation leads to `st`, leaves `req` held and tells `told`; its own fields aside,
      nothing that the engine or the watchdog looks at changes. */
  predicate OpServes(s: Ctx, r: Operated, st: State, req: Request, told: seq<Cla.ControlMsg>) {
    && r.Ok? && (r.ctx.1 == Stay || (r.ctx.1 == Goto(st) && st != Initial)) && (r.ctx.1 == Stay ==> st == s.fsm)
    && r.ctx.0.flow.req == req && r.ctx.0.toCla == s.toCla + told
    && r.ctx.0.watchId == s.watchId && r.ctx.0.timeout == s.timeout && r.ctx.0.fsm == s.fsm
  }

  /** One event through the engine, once its operation is known. */
  lemma {:induction false} Lifts(s: Ctx, t: Trigger, e: Env, st: State, req: Request, told: seq<Cla.ControlMsg>)
    requires Expected(s, t) && Table(t, s.fsm).forced == None
    requires OpServes(Prepared(s, t), Operate(Prepared(s, t), Table(t, s.fsm).op, t, e), st, req, told)
    ensures var s1 := Operate(Prepared(s, t), Table(t, s.fsm).op, t, e).ctx.0;
            var r := Notify(s, t, e);
            Serves(s, r, st, req, told) && r.ctx.flow == s1.flow && r.ctx.oos == s1.oos && r.ctx.dbg == s1.dbg
            && (st == s.fsm ==> r.ctx == s1)
  {
    hide Operate, Table, Prepare, Transit;
    PrepareKeeps(s, t);
    var s1 := Operate(Prepared(s, t), Table(t, s.fsm).op, t, e).ctx.0;
    if st != s.fsm {
      Moves(s1, s.fsm, st);
    }
  }

  lemma {:induction false} Stops(s: Ctx, t: Trigger, e: Env)
    requires Expected(s, t) && Operate(Prepared(s, t), Table(t, s.fsm).op, t, e).Abort?
    ensures Notify(s, t, e) == Abort(Operate(Prepared(s, t), Table(t, s.fsm).op, t, e).why)
  {
    hide Operate, Table, Prepare;
    PrepareKeeps(s, t);
  }

  /** The busy event is noted, its reason consumes it. */
  function Prepared(s: Ctx, t: Trigger): Ctx {
    s.(flow := s.flow.(waitBusy := t == HalBusy || (s.flow.waitBusy && !IsReason(t))))
  }

  lemma {:induction false} PrepareKeeps(s: Ctx, t: Trigger)
    requires IsReason(t) ==> s.flow.waitBusy
    ensures Prepare(s, t) == Ok(Prepared(s, t))
  {
  }

  // ---------------------------------------------------------------- recovery

  predicate OpGivesUp(s: Ctx, r: Operated, told: seq<Cla.ControlMsg>) {
    OpServes(s, r, StDown, ReqNone, told + Answer(s, false)) && r.ctx.0.oos
  }

  predicate OpRecovers(s: Ctx, r: Operated, param: bool, step: Step) {
    match step
    case WarmReset => r == Abort(WarmResetMissing)
    case ColdReset =>
      if OutOfOrder(s, param) then r == Abort(DbgInfoMissing)
      else OpServes(s, r, Packaging, s.flow.req, Report(s)) && r.ctx.0.oos == s.oos
    case Reboot =>
      if OutOfOrder(s, param) then r == Abort(DbgInfoMissing)
      else OpGivesUp(s, r, Report(s) + [DBG, Cla.ModemState(Cla.PlatformReboot)])
    case OutOfService =>
      if s.oos then r == Abort(AlreadyOos)
      else if OutOfOrder(s, param) then r == Abort(DbgInfoMissing)
      else OpGivesUp(s, r, Report(s) + [Cla.ModemState(Cla.Unresp)])
  }

  /** Told one after the other. */
  lemma {:induction false} ToldInTurn(log: seq<Cla.ControlMsg>, a: seq<Cla.ControlMsg>, b: Cla.ControlMsg, c: Cla.ControlMsg)
    ensures log + a + [b] == log + (a + [b]) && log + a + [b] + [c] == log + (a + [b, c])
    ensures log + (a + [b]) + [c] == log + (a + [b] + [c]) && log + (a + [b]) == log + (a + [b] + [])
    ensures forall d :: log + (a + [b, c]) + [d] == log + (a + [b, c] + [d])
    ensures log + (a + [b, c]) == log + (a + [b, c] + [])
  {
  }

  lemma {:induction false} OosRecovers(s: Ctx, param: bool)
    ensures var r := SetOos(StoreDbg(s, param));
            if s.oos then r == Abort(AlreadyOos)
            else if OutOfOrder(s, param) then r == Abort(DbgInfoMissing)
            else OpGivesUp(s, r, Report(s) + [Cla.ModemState(Cla.Unresp)])
  {
    hide NotifyDbg;
    Reported(s, param);
    ToldInTurn(s.toCla, Report(s), Cla.ModemState(Cla.Unresp), Cla.Result(false));
  }

  lemma {:induction false} RebootRecovers(s: Ctx, param: bool)
    ensures var r := PlatformReboot(StoreDbg(s, param));
            if OutOfOrder(s, param) then r == Abort(DbgInfoMissing)
            else OpGivesUp(s, r, Report(s) + [DBG, Cla.ModemState(Cla.PlatformReboot)])
  {
    hide NotifyDbg;
    Reported(s, param);
    ToldInTurn(s.toCla, Report(s), DBG, Cla.ModemState(Cla.PlatformReboot));
  }

  lemma {:induction false} EscalateRecovers(s: Ctx, param: bool, step: Step)
    ensures OpRecovers(s, Escalate(s, param, step), param, step)
  {
    hide NotifyDbg, SetOos, PlatformReboot, OpGivesUp;
    Reported(s, param);
    OosRecovers(s, param);
    RebootRecovers(s, param);
  }

  /** What was told already. */
  function After(s: Ctx, pre: seq<Cla.ControlMsg>): Ctx {
    s.(toCla := s.toCla + pre)
  }

  lemma {:induction false} ServesAfter(s: Ctx, pre: seq<Cla.ControlMsg>, told: seq<Cla.ControlMsg>)
    ensures (s.toCla + pre) + told == s.toCla + (pre + told)
  {
  }

  /** A recovery step, through the engine. */
  lemma {:induction false} RecoveryLifts(s: Ctx, t: Trigger, e: Env, pre: seq<Cla.ControlMsg>, param: bool, step: Step)
    requires Expected(s, t) && Table(t, s.fsm).forced == None
    requires OpRecovers(After(Prepared(s, t), pre), Operate(Prepared(s, t), Table(t, s.fsm).op, t, e), param, step)
    ensures Recovers(After(s, pre), Notify(s, t, e), param, step)
  {
    hide Operate, Table, Notify;
    if Operate(Prepared(s, t), Table(t, s.fsm).op, t, e).Abort? {
      Stops(s, t, e);
    } else {
      var told := match step
                  case Reboot => Report(s) + [DBG, Cla.ModemState(Cla.PlatformReboot)] + Answer(s, false)
                  case OutOfService => Report(s) + [Cla.ModemState(Cla.Unresp)] + Answer(s, false)
                  case _ => Report(s);
      LiftsAfter(s, t, e, pre, if step == ColdReset then Packaging else StDown,
                 if step == ColdReset then s.flow.req else ReqNone, told);
    }
  }

  /** The same for an operation behind what was told. */
  lemma {:induction false} LiftsAfter(
    s: Ctx, t: Trigger, e: Env, pre: seq<Cla.ControlMsg>, st: State, req: Request, told: seq<Cla.ControlMsg>)
    requires Expected(s, t) && Table(t, s.fsm).forced == None
    requires OpServes(After(Prepared(s, t), pre), Operate(Prepared(s, t), Table(t, s.fsm).op, t, e), st, req, told)
    ensures Serves(After(s, pre), Notify(s, t, e), st, req, told)
    ensures Notify(s, t, e).ctx.oos == Operate(Prepared(s, t), Table(t, s.fsm).op, t, e).ctx.0.oos
  {
    hide Operate, Table, Notify;
    ServesAfter(s, pre, told);
    Lifts(s, t, e, st, req, pre + told);
  }

  /** The events that start a recovery whatever is asked. */
  predicate StartsRecovery(st: State, t: Trigger) {
    match st
    case Packaging => t == HalOff || t == HalRun || t == HalNeedReset
    case Flashing => t == HalNeedReset
    case Customizing => t == HalNeedReset
    case Waiting => t == HalRun
    case StUp => t == Timeout
    case _ => false
  }

  lemma {:induction false} RecoveryStarted(s: Ctx, t: Trigger, e: Env)
    requires Expected(s, t) && StartsRecovery(s.fsm, t)
    ensures Recovers(s, Notify(s, t, e), e.param, e.next)
  {
    hide Notify, Escalate, OpRecovers, Recovers;
    EscalateRecovers(Prepared(s, t), e.param, e.next);
    assert After(Prepared(s, t), []) == Prepared(s, t) && After(s, []) == s;
    RecoveryLifts(s, t, e, [], e.param, e.next);
  }

  /** The events that resume what is asked: the modem waits, or its dump is over. */
  predicate Resumes(st: State, t: Trigger) {
    (st == Waiting && (t == HalNeedReset || t == HalFlash))
    || (st == Dumping && (t == DumpSuccess || t == OpFailure || t == HalBusy))
  }

  lemma {:induction false} ResumeShape(s: Ctx, param: bool, step: Step)
    ensures RequestedOperation(s, param, step)
         == match s.flow.req
            case ReqNone => Ok((StoreDbg(s, param), Goto(Waiting)))
            case ReqStop => Ok((Command(StoreDbg(s, param), [Shutdown]), Goto(Waiting)))
            case _ => Escalate(s, param, step)
  {
    assert StoreDbg(StoreDbg(s, param), false) == StoreDbg(s, param);
  }

  /** A busy event ends the dump it interrupts. */
  function Cut(s: Ctx, t: Trigger): Ctx {
    if t == HalBusy then Command(s, [StopDump]) else s
  }

  lemma {:induction false} ResumeCell(s: Ctx, t: Trigger, e: Env)
    requires Resumes(s.fsm, t)
    ensures var pre := if t == HalBusy then [DBG] else [];
            Operate(Prepared(s, t), Table(t, s.fsm).op, t, e)
            == RequestedOperation(Cut(After(Prepared(s, t), pre), t), e.param && t != HalBusy, e.next)
    ensures Table(t, s.fsm).forced == None
  {
    hide RequestedOperation, Table, Resumes;
    ResumeOp(t, s.fsm);
    assert s.toCla + [] == s.toCla;
  }

  lemma {:induction false} ResumeOp(t: Trigger, st: State)
    requires Resumes(st, t)
    ensures Table(t, st) == Cell(None, if t == HalBusy then DumpError else if t == DumpSuccess then DumpEnd else Requested)
  {
  }

  /** Orders given before do not matter. */
  lemma {:induction false} CutRecovers(s: Ctx, t: Trigger, r: Operated, param: bool, step: Step)
    ensures OpRecovers(Cut(s, t), r, param, step) <==> OpRecovers(s, r, param, step)
  {
  }

  /** A modem that nobody asked for, or that is to be stopped, stays where it is; a start or a reset
      recovers it. A dump cut short by a busy event is reported first. */
  lemma {:induction false} Resumed(s: Ctx, t: Trigger, e: Env)
    requires Expected(s, t) && Resumes(s.fsm, t)
    ensures var pre := if t == HalBusy then [DBG] else [];
            var r := Notify(s, t, e);
            if s.flow.req == ReqNone || s.flow.req == ReqStop then Serves(s, r, Waiting, s.flow.req, pre)
            else Recovers(After(s, pre), r, e.param && t != HalBusy, e.next)
  {
    hide Notify, Escalate, OpRecovers, Recovers, RequestedOperation, Operate, Table, Resumes, Serves;
    var pre := if t == HalBusy then [DBG] else [];
    var param := e.param && t != HalBusy;
    var s0 := After(Prepared(s, t), pre);
    ResumeCell(s, t, e);
    assert s.toCla + [] == s.toCla;
    ResumeShape(Cut(s0, t), param, e.next);
    EscalateRecovers(Cut(s0, t), param, e.next);
    CutRecovers(s0, t, Escalate(Cut(s0, t), param, e.next), param, e.next);
    if s.flow.req == ReqNone || s.flow.req == ReqStop {
      Lifts(s, t, e, Waiting, s.flow.req, pre);
    } else {
      RecoveryLifts(s, t, e, pre, param, e.next);
    }
  }

  // ---------------------------------------------------------------- flashing and configuration

  /** The modem is flashed once it is ready for it and the firmware is packaged, whichever comes
      last. */
  lemma {:induction false} Packaged(s: Ctx, t: Trigger, e: Env)
    requires Expected(s, t) && s.fsm == Packaging && (t == HalFlash || t == FwSuccess)
    ensures var r := Notify(s, t, e);
            var flash, fw := s.flow.halEvt || t == HalFlash, s.flow.fwReady || t == FwSuccess;
            if t == HalFlash && s.flow.halEvt then r == Abort(HalEvtPending)
            else if flash && fw then Serves(s, r, Flashing, s.flow.req, []) && !r.ctx.flow.halEvt && !r.ctx.flow.fwReady
            else Serves(s, r, Packaging, s.flow.req, []) && r.ctx.flow.halEvt == flash && r.ctx.flow.fwReady == fw
  {
    hide Notify;
    assert s.toCla + [] == s.toCla;
    if t == HalFlash && s.flow.halEvt {
      Stops(s, t, e);
    } else if (s.flow.halEvt || t == HalFlash) && (s.flow.fwReady || t == FwSuccess) {
      Lifts(s, t, e, Flashing, s.flow.req, []);
    } else {
      Lifts(s, t, e, Packaging, s.flow.req, []);
    }
  }

  /** The modem is up once it runs and is flashed, whichever comes last: customized first if there
      is something to apply, else READY is told behind the answer. */
  predicate Configured(s: Ctx, r: Handled, tlvs: bool) {
    if tlvs then Serves(s, r, Customizing, s.flow.req, [])
    else Serves(s, r, StUp, ReqNone, Answer(s, true) + [Cla.ModemState(Cla.Ready)])
  }

  lemma {:induction false} CfgShape(s: Ctx, tlvs: bool)
    requires s.flow.flashDone && s.flow.runIpc
    ensures if tlvs then OpServes(s, MdmCfg(s, tlvs), Customizing, s.flow.req, [])
            else OpServes(s, MdmCfg(s, tlvs), StUp, ReqNone, Answer(s, true) + [Cla.ModemState(Cla.Ready)])
    ensures !MdmCfg(s, tlvs).ctx.0.flow.flashDone && !MdmCfg(s, tlvs).ctx.0.flow.runIpc
  {
    assert s.toCla + [] == s.toCla;
    assert s.toCla + [Cla.Result(true)] + [Cla.ModemState(Cla.Ready)] == s.toCla + ([Cla.Result(true)] + [Cla.ModemState(Cla.Ready)]);
    assert [] + [Cla.ModemState(Cla.Ready)] == [Cla.ModemState(Cla.Ready)];
  }

  lemma {:induction false} Flashed(s: Ctx, t: Trigger, e: Env)
    requires Expected(s, t) && s.fsm == Flashing && (t == HalRun || t == FwSuccess)
    ensures var r := Notify(s, t, e);
            var run, done := s.flow.runIpc || t == HalRun, s.flow.flashDone || t == FwSuccess;
            if run && done then Configured(s, r, e.tlvs) && !r.ctx.flow.runIpc && !r.ctx.flow.flashDone
            else Serves(s, r, Flashing, s.flow.req, []) && r.ctx.flow.runIpc == run && r.ctx.flow.flashDone == done
  {
    hide Notify, Answer;
    var run, done := s.flow.runIpc || t == HalRun, s.flow.flashDone || t == FwSuccess;
    assert s.toCla + [] == s.toCla;
    if run && done {
      hide MdmCfg;
      var s0 := s.(flow := s.flow.(runIpc := true, flashDone := true));
      CfgShape(s0, e.tlvs);
      SameAnswer(s, s0);
      CfgLifts(s, t, e);
    } else {
      Lifts(s, t, e, Flashing, s.flow.req, []);
    }
  }

  lemma {:induction false} SameAnswer(s: Ctx, s0: Ctx)
    requires s0.flow.req == s.flow.req
    ensures Answer(s0, true) == Answer(s, true)
  {
  }

  lemma {:induction false} CfgLifts(s: Ctx, t: Trigger, e: Env)
    requires Expected(s, t) && Table(t, s.fsm).forced == None && !IsReason(t) && t != HalBusy
    requires var s0 := s.(flow := s.flow.(runIpc := true, flashDone := true));
             Operate(Prepared(s, t), Table(t, s.fsm).op, t, e) == MdmCfg(s0, e.tlvs)
    ensures var r := Notify(s, t, e);
            Configured(s, r, e.tlvs) && !r.ctx.flow.runIpc && !r.ctx.flow.flashDone
  {
    hide Notify, Operate, Table, MdmCfg;
    var s0 := s.(flow := s.flow.(runIpc := true, flashDone := true));
    CfgShape(s0, e.tlvs);
    if e.tlvs {
      Lifts(s, t, e, Customizing, s.flow.req, []);
    } else {
      Lifts(s, t, e, StUp, ReqNone, Answer(s, true) + [Cla.ModemState(Cla.Ready)]);
    }
  }

  /** A modem found running is taken as flashed. */
  lemma {:induction false} FoundRunning(s: Ctx, e: Env)
    requires Expected(s, HalRun) && s.fsm == Initial
    ensures Configured(s, Notify(s, HalRun, e), e.tlvs)
  {
    hide Notify, MdmCfg, Configured;
    CfgLifts(s, HalRun, e);
  }

  /** Once customized, the modem restarts: no recovery, no debug data but the end of the operation. */
  lemma {:induction false} Customized(s: Ctx, e: Env)
    requires Expected(s, FwSuccess) && s.fsm == Customizing
    ensures Serves(s, Notify(s, FwSuccess, e), Packaging, s.flow.req, [DBG])
  {
    hide Notify;
    Lifts(s, FwSuccess, e, Packaging, s.flow.req, [DBG]);
  }

  // ---------------------------------------------------------------- what HAL says of the modem

  /** The modem is off, at the start or as it was to be: told behind the answer. */
  lemma {:induction false} TurnedOff(s: Ctx, e: Env)
    requires Expected(s, HalOff)
    ensures s.fsm == Initial || s.fsm == Waiting ==>
              Serves(s, Notify(s, HalOff, e), StDown, ReqNone, Answer(s, true) + [Cla.ModemState(Cla.Off)])
    ensures s.fsm == StDown ==> Notify(s, HalOff, e) == Ok(s)
  {
    hide Notify;
    if s.fsm == Initial || s.fsm == Waiting {
      assert s.toCla + [Cla.Result(true)] + [Cla.ModemState(Cla.Off)] == s.toCla + ([Cla.Result(true)] + [Cla.ModemState(Cla.Off)]);
      assert [] + [Cla.ModemState(Cla.Off)] == [Cla.ModemState(Cla.Off)];
      Lifts(s, HalOff, e, StDown, ReqNone, Answer(s, true) + [Cla.ModemState(Cla.Off)]);
    } else if s.fsm == StDown {
      assert s.toCla + [] == s.toCla;
      Lifts(s, HalOff, e, StDown, s.flow.req, []);
    }
  }

  /** Busy is told to the clients of a modem that is up or on its way, and noted in any case. */
  lemma {:induction false} TurnedBusy(s: Ctx, e: Env)
    requires Expected(s, HalBusy) && s.fsm != Initial && s.fsm != Dumping
    ensures var r := Notify(s, HalBusy, e);
            && Serves(s, r, if s.fsm == StUp then Waiting else s.fsm, s.flow.req,
                      if s.fsm == StUp || s.fsm == Packaging then [Cla.ModemState(Cla.Busy)] else [])
            && r.ctx.flow.waitBusy
  {
    assert s.toCla + [] == s.toCla;
    if s.fsm == StUp {
      hide Transit;
      Moves(Tell(Prepared(s, HalBusy), Cla.ModemState(Cla.Busy)), StUp, Waiting);
    } else {
      hide Notify;
      Lifts(s, HalBusy, e, s.fsm, s.flow.req, if s.fsm == Packaging then [Cla.ModemState(Cla.Busy)] else []);
    }
  }

  /** A modem that runs while it should be down waits for somebody. */
  lemma {:induction false} RunsWhileDown(s: Ctx, e: Env)
    requires Expected(s, HalRun) && s.fsm == StDown
    ensures Serves(s, Notify(s, HalRun, e), Waiting, s.flow.req, [])
  {
    hide Notify;
    assert s.toCla + [] == s.toCla;
    Lifts(s, HalRun, e, Waiting, s.flow.req, []);
  }

  /** An unresponsive modem: the last step of escalation says how it is given up; while it is being
      flashed it goes out of service. */
  lemma {:induction false} GivenUp(s: Ctx, e: Env)
    requires Expected(s, HalUnresponsive)
    ensures var r := Notify(s, HalUnresponsive, e);
            if s.fsm == Flashing then Recovers(s, r, e.param, OutOfService)
            else if s.fsm != Packaging && s.fsm != Waiting then r == Abort(AtCell(HalUnresponsive, s.fsm))
            else if e.last == Reboot || e.last == OutOfService then Recovers(s, r, e.param, e.last)
            else r == Abort(LastStep)
  {
    hide Notify, SetOos, PlatformReboot, OpGivesUp, Recovers;
    var s0 := Prepared(s, HalUnresponsive);
    OosRecovers(s0, e.param);
    RebootRecovers(s0, e.param);
    assert After(s0, []) == s0 && After(s, []) == s;
    if s.fsm == Flashing {
      RecoveryLifts(s, HalUnresponsive, e, [], e.param, OutOfService);
    } else if (s.fsm == Packaging || s.fsm == Waiting) && (e.last == Reboot || e.last == OutOfService) {
      RecoveryLifts(s, HalUnresponsive, e, [], e.param, e.last);
    } else {
      Stops(s, HalUnresponsive, e);
    }
  }

  /** A dump may start in any state but INITIAL, UP and DUMPING; the request is kept for later. */
  lemma {:induction false} DumpStarted(s: Ctx, e: Env)
    requires Expected(s, HalDump)
    ensures var r := Notify(s, HalDump, e);
            if s.fsm == Initial || s.fsm == StUp || s.fsm == Dumping then r == Abort(AtCell(HalDump, s.fsm))
            else Serves(s, r, Dumping, s.flow.req, [DBG]) && r.ctx.dbg.noReport
  {
    hide Notify;
    if s.fsm == Initial || s.fsm == StUp || s.fsm == Dumping {
      Stops(s, HalDump, e);
    } else {
      Lifts(s, HalDump, e, Dumping, s.flow.req, [DBG]);
    }
  }

  // ---------------------------------------------------------------- requests

  /** A start of a modem that is down: refused out of service, else the firmware is packaged. */
  lemma {:induction false} StartServed(s: Ctx, t: Trigger, e: Env)
    requires WatchdogRuns.Ids(s) && s.fsm == StDown && (t == CliStart || t == CliReset || t == CliUpdate)
    ensures var r := Notify(s, t, e);
            if s.flow.req != ReqNone then r == Abort(ClientRequest)
            else if s.oos then Serves(s, r, StDown, ReqNone, [Cla.Result(false)])
            else Serves(s, r, Packaging, ReqStart, [])
  {
    hide Notify;
    assert s.toCla + [] == s.toCla;
    if s.flow.req != ReqNone {
      Stops(s, t, e);
    } else if s.oos {
      Lifts(s, t, e, StDown, ReqNone, [Cla.Result(false)]);
    } else {
      Lifts(s, t, e, Packaging, ReqStart, []);
    }
  }

  /** A stop: at once, or once the announced reason is known; a dump is not cut short. */
  lemma {:induction false} StopServed(s: Ctx, e: Env)
    requires WatchdogRuns.Ids(s) && (s.fsm == StUp || s.fsm == Waiting || s.fsm == Dumping)
    ensures var r := Notify(s, CliStop, e);
            if s.flow.req != ReqNone then r == Abort(ClientRequest)
            else Serves(s, r, if s.fsm == Dumping || s.flow.waitBusy then s.fsm else Waiting, ReqStop, [])
  {
    hide Notify;
    assert s.toCla + [] == s.toCla;
    if s.flow.req != ReqNone {
      Stops(s, CliStop, e);
    } else {
      Lifts(s, CliStop, e, if s.fsm == Dumping || s.flow.waitBusy then s.fsm else Waiting, ReqStop, []);
    }
  }

  /** A reset of a modem that is up waits for HAL, under a timer. */
  lemma {:induction false} ResetServed(s: Ctx, e: Env)
    requires WatchdogRuns.Ids(s) && (s.fsm == StUp || s.fsm == Dumping)
    ensures var r := Notify(s, CliReset, e);
            if s.flow.req != ReqNone then r == Abort(ClientRequest)
            else if s.fsm == StUp && s.timerArmed then r == Abort(TimerRunning)
            else Serves(s, r, s.fsm, ReqReset, []) && (s.fsm == StUp ==> r.ctx.timerArmed && r.ctx.dbg.byCla)
  {
    hide Notify;
    assert s.toCla + [] == s.toCla;
    if s.flow.req != ReqNone || (s.fsm == StUp && s.timerArmed) {
      Stops(s, CliReset, e);
    } else {
      Lifts(s, CliReset, e, s.fsm, ReqReset, []);
    }
  }

  /** A reset of a modem that waits: once the announced reason is known, or a recovery at once. */
  lemma {:induction false} ResetWhileWaiting(s: Ctx, e: Env)
    requires WatchdogRuns.Ids(s) && s.fsm == Waiting
    ensures var r := Notify(s, CliReset, e);
            if s.flow.req != ReqNone then r == Abort(ClientRequest)
            else if s.flow.waitBusy then Serves(s, r, Waiting, ReqReset, [])
            else Recovers(s.(flow := s.flow.(req := ReqReset)), r, e.param, e.next)
  {
    hide Notify, Escalate, OpRecovers, Recovers;
    if s.flow.req == ReqNone && !s.flow.waitBusy {
      hide Operate, Table;
      EscalateRecovers(s.(flow := s.flow.(req := ReqReset)), e.param, e.next);
      ResetLifts(s, e);
    } else {
      ResetHeld(s, e);
    }
  }

  lemma {:induction false} ResetHeld(s: Ctx, e: Env)
    requires WatchdogRuns.Ids(s) && s.fsm == Waiting && (s.flow.req != ReqNone || s.flow.waitBusy)
    ensures var r := Notify(s, CliReset, e);
            if s.flow.req != ReqNone then r == Abort(ClientRequest) else Serves(s, r, Waiting, ReqReset, [])
  {
    hide Notify, Escalate;
    assert s.toCla + [] == s.toCla;
    if s.flow.req != ReqNone {
      Stops(s, CliReset, e);
    } else {
      Lifts(s, CliReset, e, Waiting, ReqReset, []);
    }
  }

  lemma {:induction false} ResetLifts(s: Ctx, e: Env)
    requires WatchdogRuns.Ids(s) && s.fsm == Waiting && s.flow.req == ReqNone && !s.flow.waitBusy
    requires var s1 := s.(flow := s.flow.(req := ReqReset));
             OpRecovers(s1, Escalate(s1, e.param, e.next), e.param, e.next)
    ensures Recovers(s.(flow := s.flow.(req := ReqReset)), Notify(s, CliReset, e), e.param, e.next)
  {
    hide Notify, Escalate;
    var s1 := s.(flow := s.flow.(req := ReqReset));
    ResetShape(s, e);
    var r := Operate(s, Table(CliReset, Waiting).op, CliReset, e);
    if r.Abort? {
      Stops(s, CliReset, e);
    } else {
      match e.next
      case ColdReset => Lifts(s, CliReset, e, Packaging, ReqReset, Report(s1));
      case Reboot => Lifts(s, CliReset, e, StDown, ReqNone, Report(s1) + [DBG, Cla.ModemState(Cla.PlatformReboot)] + Answer(s1, false));
      case OutOfService => Lifts(s, CliReset, e, StDown, ReqNone, Report(s1) + [Cla.ModemState(Cla.Unresp)] + Answer(s1, false));
      case _ =>
    }
  }

  lemma {:induction false} ResetShape(s: Ctx, e: Env)
    requires s.fsm == Waiting && s.flow.req == ReqNone && !s.flow.waitBusy
    ensures Operate(s, Table(CliReset, Waiting).op, CliReset, e) == Escalate(s.(flow := s.flow.(req := ReqReset)), e.param, e.next)
    ensures Prepared(s, CliReset) == s && Table(CliReset, Waiting).forced == None
  {
    var s1 := s.(flow := s.flow.(req := ReqReset));
    assert StoreDbg(s, e.param).(flow := s.flow.(req := ReqReset)) == StoreDbg(s1, e.param);
    assert StoreDbg(StoreDbg(s1, e.param), false) == StoreDbg(s1, e.param);
  }

  /** An update or a backup: the modem restarts without a report. */
  lemma {:induction false} UpdateServed(s: Ctx, t: Trigger, e: Env)
    requires WatchdogRuns.Ids(s)
    requires (t == CliUpdate && (s.fsm == StUp || s.fsm == Waiting || s.fsm == Dumping)) || (t == CliBackup && s.fsm == StUp)
    ensures var r := Notify(s, t, e);
            if s.flow.req != ReqNone then r == Abort(ClientRequest)
            else if s.fsm == Dumping || (t == CliUpdate && s.flow.waitBusy) then Serves(s, r, s.fsm, ReqReset, [])
            else Serves(s, r, Packaging, ReqReset, [])
  {
    hide Notify;
    assert s.toCla + [] == s.toCla;
    if s.flow.req != ReqNone {
      Stops(s, t, e);
    } else if s.fsm == Dumping || (t == CliUpdate && s.flow.waitBusy) {
      Lifts(s, t, e, s.fsm, ReqReset, []);
    } else {
      Lifts(s, t, e, Packaging, ReqReset, []);
    }
  }

  // ---------------------------------------------------------------- the cells left

  /** The events that each state expects; all others stop the process. */
  predicate Expects(st: State, t: Trigger) {
    match st
    case Initial => t == HalOff || t == HalRun
    case StDown => t == CliStart || t == CliReset || t == CliUpdate || t == HalOff || t == HalRun || t == HalBusy || t == HalDump || t == OpFailure
    case Packaging =>
      t == HalOff || t == HalRun || t == HalBusy || t == HalNeedReset || t == HalFlash || t == HalDump || t == HalUnresponsive
      || t == FwSuccess || t == OpFailure
    case Flashing =>
      t == HalRun || t == HalBusy || t == HalNeedReset || t == HalDump || t == HalUnresponsive || t == FwSuccess || t == OpFailure
    case Customizing => t == HalBusy || t == HalNeedReset || t == HalDump || t == FwSuccess || t == OpFailure
    case StUp => t == CliStop || t == CliReset || t == CliUpdate || t == CliBackup || t == HalBusy || t == Timeout || t == OpFailure
    case Waiting =>
      t == CliStop || t == CliReset || t == CliUpdate || t == HalOff || t == HalRun || t == HalBusy || t == HalNeedReset
      || t == HalFlash || t == HalDump || t == HalUnresponsive || t == OpFailure
    case Dumping => t == CliStop || t == CliReset || t == CliUpdate || t == CliBackup || t == HalBusy || t == DumpSuccess || t == OpFailure
  }

  lemma {:induction false} Unexpected(s: Ctx, t: Trigger, e: Env)
    requires Expected(s, t)
    ensures Notify(s, t, e) == Abort(AtCell(t, s.fsm)) <==> !Expects(s.fsm, t)
  {
    hide Notify;
    if !Expects(s.fsm, t) {
      Stops(s, t, e);
    } else {
      Covered(s, t, e);
    }
  }

  /** What is held then: nothing, the request that came, or the one held before; a stop is held
      for CLI_STOP and for a failed operation only. */
  predicate Accounts(s: Ctx, t: Trigger, r: Handled) {
    && (r.Abort? ==> !r.why.AtCell?)
    && (r.Ok? && r.ctx.flow.req != ReqNone ==>
          if t == OpFailure && s.fsm != Dumping then r.ctx.flow.req == ReqStop
          else if System.IsRequest(t) && !(t == CliBackup && s.fsm == Dumping) then r.ctx.flow.req == ReqStop <==> t == CliStop
          else r.ctx.flow.req == s.flow.req)
  }

  /** Each of them is served by one of the ways above. */
  lemma {:induction false} Covered(s: Ctx, t: Trigger, e: Env)
    requires Expected(s, t) && Expects(s.fsm, t)
    ensures Accounts(s, t, Notify(s, t, e))
  {
    hide Notify;
    if t == OpFailure && s.fsm != Dumping {
      FailureServed(s, e);
    } else if StartsRecovery(s.fsm, t) || Resumes(s.fsm, t) || t == HalUnresponsive {
      hide Accounts;
      RecoveryCovered(s, t, e);
    } else if t == HalDump {
      DumpStarted(s, e);
    } else if t == HalBusy {
      TurnedBusy(s, e);
    } else if t == HalOff {
      TurnedOff(s, e);
    } else {
      hide Accounts;
      RestCovered(s, t, e);
    }
  }

  lemma {:induction false} RecoveryCovered(s: Ctx, t: Trigger, e: Env)
    requires Expected(s, t) && (StartsRecovery(s.fsm, t) || Resumes(s.fsm, t) || t == HalUnresponsive)
    requires Expects(s.fsm, t)
    ensures Accounts(s, t, Notify(s, t, e))
  {
    hide Notify, Expects, Expected;
    if StartsRecovery(s.fsm, t) {
      RecoveryStarted(s, t, e);
    } else if Resumes(s.fsm, t) {
      Resumed(s, t, e);
    } else {
      hide Recovers;
      GivenUpCovered(s, e);
    }
  }

  lemma {:induction false} GivenUpCovered(s: Ctx, e: Env)
    requires Expected(s, HalUnresponsive) && Expects(s.fsm, HalUnresponsive)
    ensures Accounts(s, HalUnresponsive, Notify(s, HalUnresponsive, e))
  {
    hide Notify;
    GivenUp(s, e);
  }

  lemma {:induction false} RestCovered(s: Ctx, t: Trigger, e: Env)
    requires Expected(s, t) && Expects(s.fsm, t) && !StartsRecovery(s.fsm, t) && !Resumes(s.fsm, t)
    requires t != OpFailure && t != HalDump && t != HalUnresponsive && t != HalBusy && t != HalOff
    ensures Accounts(s, t, Notify(s, t, e))
  {
    hide Notify;
    match s.fsm
    case Initial => FoundRunning(s, e);
    case StDown =>
      if t == HalRun {
        RunsWhileDown(s, e);
      } else {
        StartServed(s, t, e);
      }
    case Packaging => Packaged(s, t, e);
    case Flashing => Flashed(s, t, e);
    case Customizing => Customized(s, e);
    case _ => AskedCovered(s, t, e);
  }

  lemma {:induction false} AskedCovered(s: Ctx, t: Trigger, e: Env)
    requires Expected(s, t) && Expects(s.fsm, t) && (s.fsm == StUp || s.fsm == Waiting || s.fsm == Dumping)
    requires t == CliStop || t == CliReset || t == CliUpdate || t == CliBackup
    ensures Accounts(s, t, Notify(s, t, e))
  {
    hide Notify;
    match t
    case CliStop => StopServed(s, e);
    case CliReset =>
      if s.fsm == Waiting {
        ResetWhileWaiting(s, e);
      } else {
        ResetServed(s, e);
      }
    case CliBackup =>
      if s.fsm == StUp {
        UpdateServed(s, t, e);
      } else {
        BackupIgnored(s, e);
      }
    case _ => UpdateServed(s, t, e);
  }

  /** A backup asked during a dump is dropped. */
  lemma {:induction false} BackupIgnored(s: Ctx, e: Env)
    requires s.fsm == Dumping
    ensures Notify(s, CliBackup, e) == Ok(s)
  {
  }

  /** A failed operation: the request fails and a stop is injected; the failed customization is
      reported first. */
  lemma {:induction false} FailureServed(s: Ctx, e: Env)
    requires WatchdogRuns.Ids(s) && s.fsm != Initial && s.fsm != Dumping
    ensures var r := Notify(s, OpFailure, e);
            && Serves(s, r, Waiting, ReqStop, (if s.fsm == Customizing then [DBG] else []) + Answer(s, false))
            && r.ctx.flow == NO_FLOW.(req := ReqStop)
  {
    hide Notify, Transit;
    var s1 := if s.fsm == Customizing then Tell(s, DBG) else s;
    var s2 := Stopped(s1);
    FailureShape(s, e);
    Moves(s2, s.fsm, Waiting);
    assert s.toCla + [] == s.toCla && [] + [Cla.Result(false)] == [Cla.Result(false)];
    assert s.toCla + [DBG] + [Cla.Result(false)] == s.toCla + ([DBG] + [Cla.Result(false)]);
  }

  /** The request fails, and a stop takes its place. */
  function Stopped(s: Ctx): Ctx {
    Command(NotifyResult(s, false).(flow := NO_FLOW.(req := ReqStop)), [Shutdown])
  }

  lemma {:induction false} FailureShape(s: Ctx, e: Env)
    requires s.fsm != Initial && s.fsm != Dumping
    ensures var s1 := if s.fsm == Customizing then Tell(s, DBG) else s;
            var s2 := Stopped(s1);
            Notify(s, OpFailure, e)
            == if s.fsm == Waiting then Ok(s2)
               else if Transit(s2, s.fsm, Waiting).Ok? then Ok(Transit(s2, s.fsm, Waiting).ctx.(fsm := Waiting))
               else Transit(s2, s.fsm, Waiting)
  {
    hide Transit, Failsafe, Stopped;
    FailsafeShape(s);
    FailsafeShape(Tell(s, DBG));
  }

  lemma {:induction false} FailsafeShape(s: Ctx)
    ensures Failsafe(s) == Ok((Stopped(s), Goto(Waiting)))
  {
  }
}
