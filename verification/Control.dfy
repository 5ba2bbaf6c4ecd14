/**
 Control: the state machine between client abstraction, HAL and the other services.
 */
module Control {
  import opened Common
  import opened Fsm
  import Cla
  import Watchdog

  datatype State = Initial | StDown | Packaging | Flashing | Customizing | StUp | Waiting | Dumping

  datatype Trigger =
    | CliStart | CliStop | CliReset | CliUpdate | CliBackup
    | HalOff | HalRun | HalBusy | HalNeedReset | HalFlash | HalDump | HalUnresponsive
    | NvmSuccess | FwSuccess | DumpSuccess | OpFailure | Timeout

  /** The client request being served. */
  datatype Request = ReqNone | ReqReset | ReqStop | ReqStart

  datatype Step = WarmReset | ColdReset | Reboot | OutOfService

  /** crm_ctrl_state_t; `halEvt` tells whether a flash event is kept. */
  datatype Flow = Flow(req: Request, fwReady: bool, halEvt: bool, waitBusy: bool, flashDone: bool, runIpc: bool)

  /** crm_ctrl_dbg_info_t; `evt` tells whether debug data is kept. */
  datatype Dbg = Dbg(noReport: bool, byCla: bool, evt: bool)

  /** What control orders HAL and the services to do: to package and upload the firmware, to power
      the modem on, boot it, shut it down or reset it, to customize it, and to read its dump. */
  datatype Order = Package | Flash | PowerOn | BootMdm | Shutdown | Reset(backup: bool) | Customize | ReadDump | StopDump

  /** The last three fields log the messages to client abstraction and to the watchdog, and the
      orders. */
  datatype Ctx = Ctx(
    fsm: State,
    flow: Flow,
    dbg: Dbg,
    oos: bool,
    timerArmed: bool,
    watchId: int,
    timeout: int,
    toCla: seq<Cla.ControlMsg>,
    toWatch: seq<int>,
    orders: seq<Order>)

  /** What the outside contributes to one event: whether it carries data, the answers of
      escalation, and whether there are TLVs to apply. */
  datatype Env = Env(param: bool, next: Step, last: Step, tlvs: bool)

  datatype Assertion =
    | AtCell(trigger: Trigger, state: State)
    | ClientRequest       // a second client request
    | HalEvtPending
    | DbgInfoMissing
    | AlreadyOos
    | WarmResetMissing
    | LastStep
    | TimerRunning
    | PreOp               // a reason from HAL with no busy event before it
    | BackToInitial
    | WatchTimeout
    | FailsafeState

  type Handled = Outcome<Ctx, Assertion>
  type Operated = Outcome<(Ctx, Ret<State>), Assertion>

  const NO_FLOW := Flow(ReqNone, false, false, false, false, false)

  function Init(timeout: int): Ctx {
    Ctx(Initial, NO_FLOW, Dbg(false, false, false), false, false, -1, timeout, [], [], [])
  }

  // ---------------------------------------------------------------- helpers

  function Tell(s: Ctx, m: Cla.ControlMsg): Ctx {
    s.(toCla := s.toCla + [m])
  }

  function Command(s: Ctx, orders: seq<Order>): Ctx {
    s.(orders := s.orders + orders)
  }

  function NotifyResult(s: Ctx, ok: bool): Ctx {
    if s.flow.req == ReqNone then s
    else Tell(s.(flow := s.flow.(req := ReqNone)), Cla.Result(ok))
  }

  function StoreDbg(s: Ctx, param: bool): Ctx {
    s.(dbg := s.dbg.(evt := s.dbg.evt || param))
  }

  /** Debug data is reported once, created on the fly for a reset asked by a client. */
  function NotifyDbg(s: Ctx, report: bool): Handled {
    var clear := Dbg(false, false, false);
    if !report || s.dbg.noReport then Ok(s.(dbg := clear))
    else if !s.dbg.evt && !s.dbg.byCla then Abort(DbgInfoMissing)
    else Ok(Tell(s, Cla.NotifyClient(Cla.DbgInfo)).(dbg := clear))
  }

  function MdmRestart(s: Ctx, report: bool, backup: bool): Operated {
    var s1 :- NotifyDbg(s, report);
    Ok((Command(s1, [Package, Reset(backup)]), Goto(Packaging)))
  }

  function SetOos(s: Ctx): Operated {
    if s.oos then Abort(AlreadyOos)
    else
      var s1 :- NotifyDbg(s, true);
      Ok((NotifyResult(Tell(s1, Cla.ModemState(Cla.Unresp)), false).(oos := true), Goto(StDown)))
  }

  function PlatformReboot(s: Ctx): Operated {
    var s1 :- NotifyDbg(s, true);
    var s2 := Tell(Tell(s1, Cla.NotifyClient(Cla.DbgInfo)), Cla.ModemState(Cla.PlatformReboot));
    Ok((NotifyResult(s2, false).(oos := true), Goto(StDown)))
  }

  function MdmFlash(s: Ctx): Operated {
    if s.flow.halEvt && s.flow.fwReady
    then Ok((Command(s, [Flash]).(flow := s.flow.(halEvt := false, fwReady := false)), Goto(Flashing)))
    else Ok((s, Stay))
  }

  function MdmCfg(s: Ctx, tlvs: bool): Operated {
    if !(s.flow.flashDone && s.flow.runIpc) then Ok((s, Stay))
    else
      var s1 := s.(flow := s.flow.(flashDone := false, runIpc := false));
      if tlvs then Ok((Command(s1, [Customize]), Goto(Customizing)))
      else Ok((Tell(NotifyResult(s1, true), Cla.ModemState(Cla.Ready)), Goto(StUp)))
  }

  function Escalate(s: Ctx, param: bool, step: Step): Operated {
    var s1 := StoreDbg(s, param);
    match step
    case WarmReset => Abort(WarmResetMissing)
    case ColdReset => MdmRestart(s1, true, false)
    case Reboot => PlatformReboot(s1)
    case OutOfService => SetOos(s1)
  }

  function RequestedOperation(s: Ctx, param: bool, step: Step): Operated {
    var s1 := StoreDbg(s, param);
    match s1.flow.req
    case ReqNone => Ok((s1, Goto(Waiting)))
    case ReqStop => Ok((Command(s1, [Shutdown]), Goto(Waiting)))
    case _ => Escalate(s1, false, step)
  }

  /** Takes a client request; there must be none. */
  function Take(s: Ctx, r: Request): Handled {
    if s.flow.req != ReqNone then Abort(ClientRequest)
    else Ok(s.(flow := s.flow.(req := r)))
  }

  function RequestStop(s: Ctx): Operated {
    var s1 :- Take(s, ReqStop);
    if s1.flow.waitBusy then Ok((s1, Stay)) else Ok((Command(s1, [Shutdown]), Goto(Waiting)))
  }

  /** Answers the pending request with a failure, then injects a stop of its own. */
  function Failsafe(s: Ctx): Operated {
    RequestStop(NotifyResult(s, false).(flow := NO_FLOW))
  }

  // ---------------------------------------------------------------- operations

  datatype Op = Nop | Assert
              | RequestStart | AskStop | AskReset | AskResetTimer | AskUpdate | AskBackup
              | AcceptStop | AcceptReset
              | NotifyOff | NotifyUnresp | NotifyBusy | FlashFailed
              | RunInitial | Run | FlashEvt | FwReady | FlashSuccess | TlvDone
              | MdmStop | Escalation | Requested | DumpStart | DumpEnd | DumpError
              | OpFailed | FailsafeOp

  function Operate(s: Ctx, op: Op, t: Trigger, e: Env): Operated {
    match op
    case Nop => Ok((s, Stay))
    case Assert => Abort(AtCell(t, s.fsm))
    case RequestStart =>
      var s1 :- Take(s, ReqStart);
      if s1.oos then Ok((NotifyResult(s1, false), Stay))
      else Ok((Command(s1, [Package, PowerOn]), Goto(Packaging)))
    case AskStop => RequestStop(s)
    case AskReset =>
      var s1 :- Take(StoreDbg(s, e.param), ReqReset);
      if s1.flow.waitBusy then Ok((s1, Stay)) else Escalate(s1, false, e.next)
    case AskResetTimer =>
      var s1 :- Take(StoreDbg(s, e.param), ReqReset);
      if s1.timerArmed then Abort(TimerRunning)
      else Ok((s1.(dbg := s1.dbg.(byCla := true), timerArmed := true), Stay))
    case AskUpdate =>
      var s1 :- Take(s, ReqReset);
      var s2 := s1.(dbg := s1.dbg.(noReport := true));
      if s2.flow.waitBusy then Ok((s2, Stay)) else MdmRestart(s2, false, false)
    case AskBackup =>
      var s1 :- Take(s, ReqReset);
      MdmRestart(s1, false, true)
    case AcceptStop =>
      var s1 :- Take(s, ReqStop);
      Ok((s1, Stay))
    case AcceptReset =>
      var s1 :- Take(s, ReqReset);
      Ok((s1, Stay))
    case NotifyOff => Ok((Tell(NotifyResult(s, true), Cla.ModemState(Cla.Off)), Goto(StDown)))
    case NotifyUnresp =>
      var s1 := StoreDbg(s, e.param);
      (match e.last
       case Reboot => PlatformReboot(s1)
       case OutOfService => SetOos(s1)
       case _ => Abort(LastStep))
    case NotifyBusy => Ok((Tell(s, Cla.ModemState(Cla.Busy)), Stay))
    case FlashFailed => SetOos(StoreDbg(s, e.param))
    case RunInitial => MdmCfg(s.(flow := s.flow.(runIpc := true, flashDone := true)), e.tlvs)
    case Run => MdmCfg(s.(flow := s.flow.(runIpc := true)), e.tlvs)
    case FlashEvt =>
      if s.flow.halEvt then Abort(HalEvtPending)
      else MdmFlash(s.(flow := s.flow.(halEvt := true)))
    case FwReady => MdmFlash(s.(flow := s.flow.(fwReady := true)))
    case FlashSuccess =>
      var s1 := if s.flow.runIpc then s else Command(s, [BootMdm]);
      MdmCfg(s1.(flow := s.flow.(flashDone := true)), e.tlvs)
    case TlvDone => MdmRestart(Tell(s, Cla.NotifyClient(Cla.DbgInfo)), false, false)
    case MdmStop => Ok((Command(s, [Shutdown]), Goto(Waiting)))
    case Escalation => Escalate(s, e.param, e.next)
    case Requested => RequestedOperation(s, e.param, e.next)
    case DumpStart =>
      var s1 := Tell(s.(dbg := s.dbg.(noReport := true)), Cla.NotifyClient(Cla.DbgInfo));
      Ok((Command(s1, [ReadDump]), Goto(Dumping)))
    case DumpEnd => RequestedOperation(s, e.param, e.next)
    case DumpError =>
      RequestedOperation(Tell(Command(s, [StopDump]), Cla.NotifyClient(Cla.DbgInfo)), false, e.next)
    case OpFailed =>
      Ok((if s.fsm == Customizing then Tell(s, Cla.NotifyClient(Cla.DbgInfo)) else s, Fail))
    case FailsafeOp => Failsafe(s)
  }

  /** The transition table; `todo` cells stop the process like asserting ones. */
  function Table(t: Trigger, st: State): Cell<State, Op> {
    match t
    case CliStart => Cell(None, if st == StDown then RequestStart else Assert)
    case CliStop =>
      Cell(None, if st == StUp || st == Waiting then AskStop else if st == Dumping then AcceptStop else Assert)
    case CliReset =>
      (match st
       case StDown => Cell(None, RequestStart)
       case StUp => Cell(None, AskResetTimer)
       case Waiting => Cell(None, AskReset)
       case Dumping => Cell(None, AcceptReset)
       case _ => Cell(None, Assert))
    case CliUpdate =>
      (match st
       case StDown => Cell(None, RequestStart)
       case StUp => Cell(None, AskUpdate)
       case Waiting => Cell(None, AskUpdate)
       case Dumping => Cell(None, AcceptReset)
       case _ => Cell(None, Assert))
    case CliBackup =>
      Cell(None, if st == StUp then AskBackup else if st == Dumping then Nop else Assert)
    case HalOff =>
      (match st
       case Initial => Cell(None, NotifyOff)
       case StDown => Cell(None, Nop)
       case Packaging => Cell(None, Escalation)
       case Waiting => Cell(None, NotifyOff)
       case _ => Cell(None, Assert))
    case HalRun =>
      (match st
       case Initial => Cell(None, RunInitial)
       case StDown => Cell(None, MdmStop)
       case Packaging => Cell(None, Escalation)
       case Flashing => Cell(None, Run)
       case Waiting => Cell(None, Escalation)
       case _ => Cell(None, Assert))
    case HalBusy =>
      (match st
       case Initial => Cell(None, Assert)
       case Packaging => Cell(None, NotifyBusy)
       case StUp => Cell(Some(Waiting), NotifyBusy)
       case Dumping => Cell(None, DumpError)
       case _ => Cell(None, Nop))
    case HalNeedReset =>
      (match st
       case Packaging => Cell(None, Escalation)
       case Flashing => Cell(None, Escalation)
       case Customizing => Cell(None, Escalation)
       case Waiting => Cell(None, Requested)
       case _ => Cell(None, Assert))
    case HalFlash =>
      Cell(None, if st == Packaging then FlashEvt else if st == Waiting then Requested else Assert)
    case HalDump =>
      Cell(None, if st == Initial || st == StUp || st == Dumping then Assert else DumpStart)
    case HalUnresponsive =>
      Cell(None, if st == Packaging || st == Waiting then NotifyUnresp
                 else if st == Flashing then FlashFailed else Assert)
    case NvmSuccess => Cell(None, Assert)
    case FwSuccess =>
      (match st
       case Packaging => Cell(None, FwReady)
       case Flashing => Cell(None, FlashSuccess)
       case Customizing => Cell(None, TlvDone)
       case _ => Cell(None, Assert))
    case DumpSuccess => Cell(None, if st == Dumping then DumpEnd else Assert)
    case OpFailure =>
      (match st
       case Initial => Cell(None, Assert)
       case Packaging => Cell(None, OpFailed)
       case Flashing => Cell(None, OpFailed)
       case Customizing => Cell(None, OpFailed)
       case Dumping => Cell(None, Requested)
       case _ => Cell(None, FailsafeOp))
    case Timeout => Cell(None, if st == StUp then Escalation else Assert)
  }

  // ---------------------------------------------------------------- engine hooks

  predicate IsReason(t: Trigger) {
    t == HalNeedReset || t == HalFlash || t == HalDump || t == HalUnresponsive
  }

  /** Before the operation: HAL announces each reason with a busy event. */
  function Prepare(s: Ctx, t: Trigger): Handled {
    if t == HalBusy then Ok(s.(flow := s.flow.(waitBusy := true)))
    else if !IsReason(t) then Ok(s)
    else if !s.flow.waitBusy then Abort(PreOp)
    else Ok(s.(flow := s.flow.(waitBusy := false)))
  }

  function WatchStart(s: Ctx): Handled {
    var id := Watchdog.NextId(s.watchId);
    if s.timeout > Watchdog.MAX_TIMEOUT || id > Watchdog.MAX_REQ_ID then Abort(WatchTimeout)
    else Ok(s.(watchId := id, toWatch := s.toWatch + [Watchdog.GenScalar(Watchdog.START, s.timeout, id)]))
  }

  function WatchStop(s: Ctx): Handled {
    if s.watchId > Watchdog.MAX_REQ_ID then Abort(WatchTimeout)
    else Ok(s.(toWatch := s.toWatch + [Watchdog.GenScalar(Watchdog.STOP, 0, s.watchId)]))
  }

  predicate Settled(st: State) {
    st == StUp || st == StDown
  }

  /** On a change of state: the watchdog runs outside UP and DOWN. */
  function Transit(s: Ctx, prev: State, next: State): Handled {
    if next == Initial then Abort(BackToInitial)
    else
      var s1 :- if Settled(prev) then WatchStart(s) else Ok(s);
      var s2 := if prev == StUp then s1.(timerArmed := false) else s1;
      if Settled(next) then WatchStop(s2) else Ok(s2)
  }

  /** One event through the engine. */
  function Notify(s: Ctx, t: Trigger, e: Env): Handled {
    var cell := Table(t, s.fsm);
    var s0 :- Prepare(s, t);
    var (s1, ret) :- Operate(s0, cell.op, t, e);
    var (s2, failsafe) :- if ret.Fail? then Failsafe(s1) else Ok((s1, Stay));
    match NextState(s.fsm, cell.forced, ret, failsafe)
    case None => Abort(FailsafeState)
    case Some(st) =>
      if st == s.fsm then Ok(s2)
      else
        var s3 :- Transit(s2, s.fsm, st);
        Ok(s3.(fsm := st))
  }

  /** The event loop arms the watchdog before its first event. */
  function Boot(timeout: int): Handled {
    WatchStart(Init(timeout))
  }
}
