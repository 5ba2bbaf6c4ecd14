/**
 Control as an object: the operations of the source, each tied to the specification that the
 protocols are proved about.
 */
module ControlMachine {
  import opened Common
  import opened Fsm
  import opened Control
  import Cla
  import Watchdog

  // ---------------------------------------------------------------- table

  function Plain(op: Op): Cell<State, Op> {
    Cell(None, op)
  }

  /** The rows of the table, one cell per state in the order of the states. */
  function Row(t: Trigger): seq<Cell<State, Op>> {
    match t
    case CliStart => [Plain(Assert), Plain(RequestStart), Plain(Assert), Plain(Assert), Plain(Assert), Plain(Assert), Plain(Assert), Plain(Assert)]
    case CliStop => [Plain(Assert), Plain(Assert), Plain(Assert), Plain(Assert), Plain(Assert), Plain(AskStop), Plain(AskStop), Plain(AcceptStop)]
    case CliReset => [Plain(Assert), Plain(RequestStart), Plain(Assert), Plain(Assert), Plain(Assert), Plain(AskResetTimer), Plain(AskReset), Plain(AcceptReset)]
    case CliUpdate => [Plain(Assert), Plain(RequestStart), Plain(Assert), Plain(Assert), Plain(Assert), Plain(AskUpdate), Plain(AskUpdate), Plain(AcceptReset)]
    case CliBackup => [Plain(Assert), Plain(Assert), Plain(Assert), Plain(Assert), Plain(Assert), Plain(AskBackup), Plain(Assert), Plain(Nop)]
    case HalOff => [Plain(NotifyOff), Plain(Nop), Plain(Escalation), Plain(Assert), Plain(Assert), Plain(Assert), Plain(NotifyOff), Plain(Assert)]
    case HalRun => [Plain(RunInitial), Plain(MdmStop), Plain(Escalation), Plain(Run), Plain(Assert), Plain(Assert), Plain(Escalation), Plain(Assert)]
    case HalBusy => [Plain(Assert), Plain(Nop), Plain(NotifyBusy), Plain(Nop), Plain(Nop), Cell(Some(Waiting), NotifyBusy), Plain(Nop), Plain(DumpError)]
    case HalNeedReset => [Plain(Assert), Plain(Assert), Plain(Escalation), Plain(Escalation), Plain(Escalation), Plain(Assert), Plain(Requested), Plain(Assert)]
    case HalFlash => [Plain(Assert), Plain(Assert), Plain(FlashEvt), Plain(Assert), Plain(Assert), Plain(Assert), Plain(Requested), Plain(Assert)]
    case HalDump => [Plain(Assert), Plain(DumpStart), Plain(DumpStart), Plain(DumpStart), Plain(DumpStart), Plain(Assert), Plain(DumpStart), Plain(Assert)]
    case HalUnresponsive => [Plain(Assert), Plain(Assert), Plain(NotifyUnresp), Plain(FlashFailed), Plain(Assert), Plain(Assert), Plain(NotifyUnresp), Plain(Assert)]
    case NvmSuccess => [Plain(Assert), Plain(Assert), Plain(Assert), Plain(Assert), Plain(Assert), Plain(Assert), Plain(Assert), Plain(Assert)]
    case FwSuccess => [Plain(Assert), Plain(Assert), Plain(FwReady), Plain(FlashSuccess), Plain(TlvDone), Plain(Assert), Plain(Assert), Plain(Assert)]
    case DumpSuccess => [Plain(Assert), Plain(Assert), Plain(Assert), Plain(Assert), Plain(Assert), Plain(Assert), Plain(Assert), Plain(DumpEnd)]
    case OpFailure => [Plain(Assert), Plain(FailsafeOp), Plain(OpFailed), Plain(OpFailed), Plain(OpFailed), Plain(FailsafeOp), Plain(FailsafeOp), Plain(Requested)]
    case Timeout => [Plain(Assert), Plain(Assert), Plain(Assert), Plain(Assert), Plain(Assert), Plain(Escalation), Plain(Assert), Plain(Assert)]
  }

  function Column(st: State): nat {
    match st
    case Initial => 0
    case StDown => 1
    case Packaging => 2
    case Flashing => 3
    case Customizing => 4
    case StUp => 5
    case Waiting => 6
    case Dumping => 7
  }

  /** The table that the proofs use is the one the engine looks up. */
  lemma {:induction false} TableRows(t: Trigger, st: State)
    ensures Column(st) < |Row(t)| && Row(t)[Column(st)] == Table(t, st)
  {
  }

  class Machine {
    var fsm: State
    var flow: Flow
    var dbg: Dbg
    var oos: bool
    var timerArmed: bool
    var watchId: int
    const timeout: int
    var toCla: seq<Cla.ControlMsg>
    var toWatch: seq<int>
    var orders: seq<Order>

    ghost function View(): Ctx
      reads this
    {
      Ctx(fsm, flow, dbg, oos, timerArmed, watchId, timeout, toCla, toWatch, orders)
    }

    constructor (timeout: int)
      ensures View() == Init(timeout)
    {
      fsm, flow, dbg, oos := State.Initial, NO_FLOW, Dbg(false, false, false), false;
      timerArmed, watchId, this.timeout, toCla, toWatch, orders := false, -1, timeout, [], [], [];
    }

    // -------------------------------------------------------------- helpers

    method Notice(m: Cla.ControlMsg)
      modifies `toCla
      ensures View() == Tell(old(View()), m)
    {
      toCla := toCla + [m];
    }

    method Direct(more: seq<Order>)
      modifies `orders
      ensures View() == Command(old(View()), more)
    {
      orders := orders + more;
    }

    /** notify_op_result_if_needed */
    method AnswerRequest(ok: bool)
      modifies `flow, `toCla
      ensures View() == NotifyResult(old(View()), ok)
    {
      if flow.req != ReqNone {
        flow := flow.(req := ReqNone);
        Notice(Cla.Result(ok));
      }
    }

    method KeepDbg(param: bool)
      modifies `dbg
      ensures View() == StoreDbg(old(View()), param)
    {
      if param {
        dbg := dbg.(evt := true);
      }
    }

    method ReportDbg(report: bool) returns (why: Option<Assertion>)
      modifies `dbg, `toCla
      ensures Matches(NotifyDbg(old(View()), report), why, View())
    {
      if report && !dbg.noReport {
        if !dbg.evt && !dbg.byCla { return Some(DbgInfoMissing); }
        Notice(Cla.NotifyClient(Cla.DbgInfo));
      }
      dbg := Dbg(false, false, false);
      return None;
    }

    method RestartModem(report: bool, backup: bool) returns (why: Option<Assertion>, ret: Ret<State>)
      modifies `dbg, `toCla, `orders
      ensures Yields(MdmRestart(old(View()), report, backup), why, View(), ret)
    {
      hide NotifyDbg;
      ret := Goto(Packaging);
      why := ReportDbg(report);
      if why.Some? { return; }
      Direct([Package, Reset(backup)]);
    }

    method GoOutOfService() returns (why: Option<Assertion>, ret: Ret<State>)
      modifies `dbg, `toCla, `flow, `oos
      ensures Yields(SetOos(old(View())), why, View(), ret)
    {
      hide NotifyDbg;
      ret := Goto(StDown);
      if oos { return Some(AlreadyOos), ret; }
      why := ReportDbg(true);
      if why.Some? { return; }
      Notice(Cla.ModemState(Cla.Unresp));
      AnswerRequest(false);
      oos := true;
    }

    method RebootPlatform() returns (why: Option<Assertion>, ret: Ret<State>)
      modifies `dbg, `toCla, `flow, `oos
      ensures Yields(PlatformReboot(old(View())), why, View(), ret)
    {
      hide NotifyDbg;
      ret := Goto(StDown);
      why := ReportDbg(true);
      if why.Some? { return; }
      Notice(Cla.NotifyClient(Cla.DbgInfo));
      Notice(Cla.ModemState(Cla.PlatformReboot));
      AnswerRequest(false);
      oos := true;
    }

    method FlashIfReady() returns (ret: Ret<State>)
      modifies `flow, `orders
      ensures MdmFlash(old(View())) == Ok((View(), ret))
    {
      if flow.halEvt && flow.fwReady {
        Direct([Flash]);
        flow := flow.(halEvt := false, fwReady := false);
        return Goto(Flashing);
      }
      return Stay;
    }

    method ConfigureIfReady(tlvs: bool) returns (ret: Ret<State>)
      modifies `flow, `toCla, `orders
      ensures MdmCfg(old(View()), tlvs) == Ok((View(), ret))
    {
      if !flow.flashDone || !flow.runIpc { return Stay; }
      flow := flow.(flashDone := false, runIpc := false);
      if tlvs {
        Direct([Customize]);
        return Goto(Customizing);
      }
      AnswerRequest(true);
      Notice(Cla.ModemState(Cla.Ready));
      return Goto(StUp);
    }

    method EscalateTo(param: bool, step: Control.Step) returns (why: Option<Assertion>, ret: Ret<State>)
      modifies `dbg, `toCla, `flow, `oos, `orders
      ensures Yields(Escalate(old(View()), param, step), why, View(), ret)
    {
      hide MdmRestart, PlatformReboot, SetOos;
      KeepDbg(param);
      match step
      case WarmReset => return Some(WarmResetMissing), Stay;
      case ColdReset => why, ret := RestartModem(true, false);
      case Reboot => why, ret := RebootPlatform();
      case OutOfService => why, ret := GoOutOfService();
    }

    method Resume(param: bool, step: Control.Step) returns (why: Option<Assertion>, ret: Ret<State>)
      modifies `dbg, `toCla, `flow, `oos, `orders
      ensures Yields(RequestedOperation(old(View()), param, step), why, View(), ret)
    {
      hide Escalate;
      KeepDbg(param);
      if flow.req == ReqNone { return None, Goto(Waiting); }
      if flow.req == ReqStop {
        Direct([Shutdown]);
        return None, Goto(Waiting);
      }
      why, ret := EscalateTo(false, step);
    }

    method TakeRequest(r: Request) returns (why: Option<Assertion>)
      modifies `flow
      ensures Matches(Take(old(View()), r), why, View())
    {
      if flow.req != ReqNone { return Some(ClientRequest); }
      flow := flow.(req := r);
      return None;
    }

    method StopRequested() returns (why: Option<Assertion>, ret: Ret<State>)
      modifies `flow, `orders
      ensures Yields(RequestStop(old(View())), why, View(), ret)
    {
      ret := Stay;
      why := TakeRequest(ReqStop);
      if why.Some? || flow.waitBusy { return; }
      Direct([Shutdown]);
      ret := Goto(Waiting);
    }

    /** failsafe */
    method FallBack() returns (why: Option<Assertion>, ret: Ret<State>)
      modifies `flow, `toCla, `orders
      ensures Yields(Failsafe(old(View())), why, View(), ret)
    {
      AnswerRequest(false);
      flow := NO_FLOW;
      why, ret := StopRequested();
    }

    // -------------------------------------------------------------- client requests

    method ServeRequest(op: Op, t: Trigger, e: Env) returns (why: Option<Assertion>, ret: Ret<State>)
      requires op.RequestStart? || op.AskStop? || op.AskReset? || op.AskResetTimer? || op.AskUpdate? || op.AskBackup?
               || op.AcceptStop? || op.AcceptReset?
      modifies `flow, `dbg, `toCla, `oos, `timerArmed, `orders
      ensures Yields(Operate(old(View()), op, t, e), why, View(), ret)
    {
      hide Escalate, MdmRestart, NotifyResult;
      ret := Stay;
      if op.AskStop? {
        why, ret := StopRequested();
        return;
      }
      if op.AskReset? || op.AskResetTimer? {
        KeepDbg(e.param);
      }
      why := TakeRequest(if op.RequestStart? then ReqStart else if op.AcceptStop? then ReqStop else ReqReset);
      if why.Some? { return; }
      if op.RequestStart? {
        if oos {
          AnswerRequest(false);
        } else {
          Direct([Package, PowerOn]);
          ret := Goto(Packaging);
        }
      } else if op.AskReset? {
        if !flow.waitBusy {
          why, ret := EscalateTo(false, e.next);
        }
      } else if op.AskResetTimer? {
        if timerArmed { return Some(TimerRunning), Stay; }
        dbg := dbg.(byCla := true);
        timerArmed := true;
      } else if op.AskUpdate? {
        dbg := dbg.(noReport := true);
        if !flow.waitBusy {
          why, ret := RestartModem(false, false);
        }
      } else if op.AskBackup? {
        why, ret := RestartModem(false, true);
      }
    }

    // -------------------------------------------------------------- events of HAL and services

    method ServeEvent(op: Op, t: Trigger, e: Env) returns (why: Option<Assertion>, ret: Ret<State>)
      requires op.NotifyOff? || op.NotifyUnresp? || op.NotifyBusy? || op.FlashFailed?
      modifies `flow, `dbg, `toCla, `oos
      ensures Yields(Operate(old(View()), op, t, e), why, View(), ret)
    {
      hide SetOos, PlatformReboot, NotifyResult;
      why, ret := None, Stay;
      match op
      case NotifyOff =>
        AnswerRequest(true);
        Notice(Cla.ModemState(Cla.Off));
        ret := Goto(StDown);
      case NotifyUnresp =>
        KeepDbg(e.param);
        if e.last == Reboot {
          why, ret := RebootPlatform();
        } else if e.last == OutOfService {
          why, ret := GoOutOfService();
        } else {
          why := Some(LastStep);
        }
      case NotifyBusy => Notice(Cla.ModemState(Cla.Busy));
      case FlashFailed =>
        KeepDbg(e.param);
        why, ret := GoOutOfService();
    }

    method ServeFlow(op: Op, t: Trigger, e: Env) returns (why: Option<Assertion>, ret: Ret<State>)
      requires op.RunInitial? || op.Run? || op.FlashEvt? || op.FwReady? || op.FlashSuccess?
      modifies `flow, `toCla, `orders
      ensures Yields(Operate(old(View()), op, t, e), why, View(), ret)
    {
      hide MdmCfg, MdmFlash, Command;
      why, ret := None, Stay;
      match op
      case RunInitial =>
        flow := flow.(runIpc := true, flashDone := true);
        ret := ConfigureIfReady(e.tlvs);
      case Run =>
        flow := flow.(runIpc := true);
        ret := ConfigureIfReady(e.tlvs);
      case FlashEvt =>
        if flow.halEvt { return Some(HalEvtPending), Stay; }
        flow := flow.(halEvt := true);
        ret := FlashIfReady();
      case FwReady =>
        flow := flow.(fwReady := true);
        ret := FlashIfReady();
      case FlashSuccess =>
        if !flow.runIpc {
          Direct([BootMdm]);
        }
        flow := flow.(flashDone := true);
        ret := ConfigureIfReady(e.tlvs);
    }

    method ServeDump(op: Op, t: Trigger, e: Env) returns (why: Option<Assertion>, ret: Ret<State>)
      requires op.TlvDone? || op.DumpStart? || op.DumpEnd? || op.DumpError?
      modifies `flow, `dbg, `toCla, `oos, `orders
      ensures Yields(Operate(old(View()), op, t, e), why, View(), ret)
    {
      hide RequestedOperation, MdmRestart, Tell, Command;
      match op
      case TlvDone =>
        Notice(Cla.NotifyClient(Cla.DbgInfo));
        why, ret := RestartModem(false, false);
      case DumpStart =>
        dbg := dbg.(noReport := true);
        Notice(Cla.NotifyClient(Cla.DbgInfo));
        Direct([ReadDump]);
        why, ret := None, Goto(Dumping);
      case DumpEnd =>
        why, ret := Resume(e.param, e.next);
      case DumpError =>
        Direct([StopDump]);
        Notice(Cla.NotifyClient(Cla.DbgInfo));
        why, ret := Resume(false, e.next);
    }

    method ServeRest(op: Op, t: Trigger, e: Env) returns (why: Option<Assertion>, ret: Ret<State>)
      requires op.Nop? || op.Assert? || op.MdmStop? || op.Escalation? || op.Requested? || op.OpFailed? || op.FailsafeOp?
      modifies `flow, `dbg, `toCla, `oos, `orders
      ensures Yields(Operate(old(View()), op, t, e), why, View(), ret)
    {
      hide Escalate, RequestedOperation, Failsafe;
      why, ret := None, Stay;
      match op
      case Nop =>
      case Assert => why := Some(AtCell(t, fsm));
      case MdmStop =>
        Direct([Shutdown]);
        ret := Goto(Waiting);
      case Escalation => why, ret := EscalateTo(e.param, e.next);
      case Requested => why, ret := Resume(e.param, e.next);
      case OpFailed =>
        if fsm == Customizing {
          Notice(Cla.NotifyClient(Cla.DbgInfo));
        }
        ret := Fail;
      case FailsafeOp => why, ret := FallBack();
    }

    method RunOp(op: Op, t: Trigger, e: Env) returns (why: Option<Assertion>, ret: Ret<State>)
      modifies `flow, `dbg, `toCla, `oos, `timerArmed, `orders
      ensures Yields(Operate(old(View()), op, t, e), why, View(), ret)
    {
      hide Operate;
      if op.RequestStart? || op.AskStop? || op.AskReset? || op.AskResetTimer? || op.AskUpdate? || op.AskBackup?
         || op.AcceptStop? || op.AcceptReset? {
        why, ret := ServeRequest(op, t, e);
      } else if op.NotifyOff? || op.NotifyUnresp? || op.NotifyBusy? || op.FlashFailed? {
        why, ret := ServeEvent(op, t, e);
      } else if op.RunInitial? || op.Run? || op.FlashEvt? || op.FwReady? || op.FlashSuccess? {
        why, ret := ServeFlow(op, t, e);
      } else if op.TlvDone? || op.DumpStart? || op.DumpEnd? || op.DumpError? {
        why, ret := ServeDump(op, t, e);
      } else {
        why, ret := ServeRest(op, t, e);
      }
    }

    // -------------------------------------------------------------- engine

    /** pre_op */
    method BeforeOp(t: Trigger) returns (why: Option<Assertion>)
      modifies `flow
      ensures Matches(Prepare(old(View()), t), why, View())
    {
      if t == HalBusy {
        flow := flow.(waitBusy := true);
      } else if IsReason(t) {
        if !flow.waitBusy { return Some(PreOp); }
        flow := flow.(waitBusy := false);
      }
      return None;
    }

    method StartWatchdog() returns (why: Option<Assertion>)
      modifies `watchId, `toWatch
      ensures Matches(WatchStart(old(View())), why, View())
    {
      hide Watchdog.GenScalar;
      watchId := Watchdog.NextId(watchId);
      if timeout > Watchdog.MAX_TIMEOUT || watchId > Watchdog.MAX_REQ_ID { return Some(WatchTimeout); }
      toWatch := toWatch + [Watchdog.GenScalar(Watchdog.START, timeout, watchId)];
      return None;
    }

    method StopWatchdog() returns (why: Option<Assertion>)
      modifies `toWatch
      ensures Matches(WatchStop(old(View())), why, View())
    {
      hide Watchdog.GenScalar;
      if watchId > Watchdog.MAX_REQ_ID { return Some(WatchTimeout); }
      toWatch := toWatch + [Watchdog.GenScalar(Watchdog.STOP, 0, watchId)];
      return None;
    }

    /** state_trans */
    method ChangeState(prev: State, next: State) returns (why: Option<Assertion>)
      modifies `watchId, `toWatch, `timerArmed
      ensures Matches(Transit(old(View()), prev, next), why, View())
    {
      hide WatchStart, WatchStop;
      if next == State.Initial { return Some(BackToInitial); }
      if prev == StUp || prev == StDown {
        why := StartWatchdog();
        if why.Some? { return; }
      }
      if prev == StUp && timerArmed {
        timerArmed := false;
      }
      if next == StUp || next == StDown {
        why := StopWatchdog();
        return;
      }
      return None;
    }

    /** notify_event of the shared engine, with this machine's table and hooks. */
    method NotifyEvent(t: Trigger, e: Env) returns (why: Option<Assertion>)
      modifies this
      ensures Matches(Notify(old(View()), t, e), why, View())
    {
      hide Operate, Table, Prepare, Failsafe, Transit, Row, Column;
      TableRows(t, fsm);
      var cell := Row(t)[Column(fsm)];
      why := BeforeOp(t);
      if why.Some? { return; }
      var ret;
      why, ret := RunOp(cell.op, t, e);
      if why.Some? { return; }
      var next := fsm;
      if ret.Fail? {
        why, ret := FallBack();
        if why.Some? { return; }
        if !ret.Goto? { return Some(FailsafeState); }
        next := ret.state;
      } else if cell.forced.Some? {
        next := cell.forced.value;
      } else if ret.Goto? {
        next := ret.state;
      }
      if next != fsm {
        why := ChangeState(fsm, next);
        if why.Some? { return; }
      }
      fsm := next;
    }
  }
}
