/**
 The Sofia HAL: the state machine that drives the modem, its timer, the ping thread and
 the RPC daemon.
 */
module Hal {
  import opened Common
  import opened Fsm
  import Control

  datatype State = Initial | StOff | Booting | Pinging | WaitingRpc | StRun | Stopping | NeedResetting

  datatype Trigger =
    | Power | BootMdm | StopMdm | ResetMdm | Backup
    | MdmOff | MdmOn | MdmTrap | MdmFwFail | MdmRun | Timeout
    | RpcDead | RpcRun

  /** `mdm` is the last hardware event; `pinging` tells whether the ping thread lives; `toCtl`
      logs the events sent to control. */
  datatype Ctx = Ctx(
    fsm: State,
    timerArmed: bool,
    stopping: bool,
    pinging: bool,
    rpcd: bool,
    mdm: Trigger,
    dumpEnabled: bool,
    secvm: bool,
    toCtl: seq<Control.Trigger>)

  /** Which writes to the modem's control file fail during one event. */
  datatype Env = Env(startFails: bool, stopFails: bool, stopFailsAgain: bool)

  datatype Assertion =
    | AtCell(trigger: Trigger, state: State)
    | TimerArmed | TimerIdle | TimeoutIdle
    | PingAlive | PingMissing
    | RpcdRunning | RpcdStopped
    | NotOff | NotSecvm | BadBoot | BadState

  type Handled = Outcome<Ctx, Assertion>
  type Operated = Outcome<(Ctx, Ret<State>), Assertion>

  function Init(mdm: Trigger, dumpEnabled: bool, secvm: bool): Ctx {
    Ctx(Initial, false, false, false, false, mdm, dumpEnabled, secvm, [])
  }

  // ---------------------------------------------------------------- operations

  function Tell(s: Ctx, ts: seq<Control.Trigger>): Ctx {
    s.(toCtl := s.toCtl + ts)
  }

  function TimerStart(s: Ctx): Handled {
    if s.timerArmed then Abort(TimerArmed) else Ok(s.(timerArmed := true))
  }

  /** A reset is asked for; the modem is already off, or is to be stopped. */
  function NeedReset(s: Ctx): Operated {
    Ok((Tell(s, [Control.HalBusy, Control.HalNeedReset]), Goto(if s.mdm == MdmOff then StOff else NeedResetting)))
  }

  function Flash(s: Ctx): Operated {
    Ok((Tell(s, [Control.HalBusy, Control.HalFlash]), Goto(StOff)))
  }

  function Off(s: Ctx): Operated {
    Ok((Tell(s, [Control.HalBusy, Control.HalOff]), Goto(StOff)))
  }

  function StopModem(s: Ctx, stopping: bool, fails: bool): Operated {
    if s.mdm == MdmOff then Ok((s, Goto(StOff)))
    else if fails then Ok((s, Fail))
    else
      var s1 :- TimerStart(s);
      Ok((s1.(stopping := stopping), Goto(Stopping)))
  }

  function StartPing(s: Ctx): Operated {
    if s.pinging then Abort(PingAlive) else Ok((s.(pinging := true), Goto(Pinging)))
  }

  function AwaitBoot(s: Ctx): Operated {
    var s1 :- TimerStart(s);
    Ok((s1, Goto(Booting)))
  }

  function RequestBoot(s: Ctx, fails: bool): Operated {
    if s.secvm then
      if s.mdm == MdmOn then StartPing(s) else AwaitBoot(s)
    else if fails then Ok((s, Fail))
    else AwaitBoot(s)
  }

  function StartRpcd(s: Ctx): Operated {
    if s.rpcd then Abort(RpcdRunning)
    else
      var s1 :- TimerStart(s.(rpcd := true));
      Ok((s1, Goto(WaitingRpc)))
  }

  function Trap(s: Ctx): Operated {
    if s.dumpEnabled then Ok((Tell(s, [Control.HalBusy, Control.HalDump]), Goto(NeedResetting)))
    else NeedReset(s)
  }

  function OffOrFlash(s: Ctx): Operated {
    if s.mdm != MdmOff then Abort(NotOff)
    else if s.stopping then Off(s.(stopping := false))
    else Flash(s)
  }

  datatype Op = Nop | Assert | NotifyFlash | NotifyOff | NotifyOffOnly | NotifyOffOrFlash | SelfReset
              | NotifyTrap | FwFailure | RequestStop | RequestReset | Ping | Boot | ModemOn | NotifyRun
              | Rpcd

  function Operate(s: Ctx, op: Op, t: Trigger, e: Env): Operated {
    match op
    case Nop => Ok((s, Stay))
    case Assert => Abort(AtCell(t, s.fsm))
    case NotifyFlash => Flash(s)
    case NotifyOff => Off(s)
    case NotifyOffOnly => Ok((Tell(s, [Control.HalOff]), Goto(StOff)))
    case NotifyOffOrFlash => OffOrFlash(s)
    case SelfReset => NeedReset(s)
    case NotifyTrap => Trap(s)
    case FwFailure => Ok((Tell(s, [Control.HalBusy, Control.HalUnresponsive]), Goto(StOff)))
    case RequestStop => StopModem(s, true, e.stopFails)
    case RequestReset => StopModem(s, false, e.stopFails)
    case Ping => StartPing(s)
    case Boot => RequestBoot(s, e.startFails)
    case ModemOn => if s.secvm then Ok((s, Stay)) else Abort(NotSecvm)
    case NotifyRun => Ok((Tell(s, [Control.HalRun]), Goto(StRun)))
    case Rpcd => StartRpcd(s)
  }

  /** The transition table: no cell forces a state. Rejecting cells stop the process like
      asserting ones; self_reset, notify_rpc_dead and notify_timeout differ in debug data
      only. */
  function Table(t: Trigger, st: State): Op {
    match t
    case Power => if st == StOff then NotifyFlash else Assert
    case BootMdm => if st == StOff then Boot else Assert
    case StopMdm => if st == StOff then NotifyOff else if st == StRun || st == NeedResetting then RequestStop else Assert
    case ResetMdm => if st == StOff then NotifyFlash else if st == StRun || st == NeedResetting then RequestReset else Assert
    case Backup => Assert
    case MdmOff =>
      (match st
       case Initial => NotifyOffOnly
       case Stopping => NotifyOffOrFlash
       case StOff => Assert
       case NeedResetting => Assert
       case _ => SelfReset)
    case MdmOn => if st == Initial || st == Booting then Ping else if st == StOff then ModemOn else Assert
    case MdmTrap => if st == Initial then Assert else NotifyTrap
    case MdmFwFail => if st == Booting then FwFailure else Assert
    case MdmRun => if st == Pinging then Rpcd else Assert
    case Timeout => if st == Booting || st == Pinging || st == WaitingRpc then SelfReset else Assert
    case RpcDead => if st == Initial then Assert else if st == WaitingRpc || st == StRun then SelfReset else Nop
    case RpcRun => if st == WaitingRpc then NotifyRun else Assert
  }

  // ---------------------------------------------------------------- engine

  function TimerStop(s: Ctx): Handled {
    if s.timerArmed then Ok(s.(timerArmed := false)) else Abort(TimerIdle)
  }

  function RpcdStop(s: Ctx): Handled {
    if s.rpcd then Ok(s.(rpcd := false)) else Abort(RpcdStopped)
  }

  /** On leaving a state; the operation has already run. */
  function Transit(s: Ctx, prev: State, next: State): Handled {
    match prev
    case Stopping => TimerStop(s)
    case Booting => TimerStop(s)
    case Pinging => Ok(s.(pinging := false))
    case StRun => RpcdStop(s)
    case WaitingRpc =>
      var s1 :- TimerStop(s);
      if next != StRun then RpcdStop(s1) else Ok(s1)
    case _ => Ok(s)
  }

  /** One event through the engine; the failsafe operation is a stop request, and a second
      failure leaves no valid state. */
  function Notify(s: Ctx, t: Trigger, e: Env): Handled {
    var (s1, ret) :- Operate(s, Table(t, s.fsm), t, e);
    var (s2, failsafe) :- if ret.Fail? then StopModem(s1, true, e.stopFailsAgain) else Ok((s1, Stay));
    match NextState(s.fsm, None, ret, failsafe)
    case None => Abort(BadState)
    case Some(st) =>
      if st == s.fsm then Ok(s2)
      else
        var s3 :- Transit(s2, s.fsm, st);
        Ok(s3.(fsm := st))
  }

  // ---------------------------------------------------------------- loop

  /** What wakes the loop up. */
  datatype Input =
    | Request(request: Trigger)
    | Uevent(hw: Trigger)
    | PingAnswer(alive: bool)
    | RpcEvent(running: bool)
    | TimerExpires

  predicate Enabled(s: Ctx, i: Input) {
    match i
    case Request(t) => t == Power || t == BootMdm || t == StopMdm || t == ResetMdm || t == Backup
    case Uevent(t) => t == MdmOff || t == MdmOn || t == MdmTrap || t == MdmFwFail
    case PingAnswer(_) => s.pinging
    case RpcEvent(_) => true
    case TimerExpires => s.timerArmed
  }

  function Step(s: Ctx, i: Input, e: Env): Handled {
    match i
    case Request(t) => Notify(s, t, e)
    case Uevent(t) => Notify(s.(mdm := t), t, e)
    case PingAnswer(alive) =>
      if !s.pinging then Abort(PingMissing)
      else Notify(s.(pinging := false), if alive then MdmRun else Timeout, e)
    case RpcEvent(running) => Notify(s, if running then RpcRun else RpcDead, e)
    case TimerExpires => if s.timerArmed then Notify(s, Timeout, e) else Abort(TimeoutIdle)
  }

  /** The first event is the state the modem was found in. */
  function Start(mdm: Trigger, dumpEnabled: bool, secvm: bool, e: Env): Handled {
    if mdm == MdmOff || mdm == MdmOn then Notify(Init(mdm, dumpEnabled, secvm), mdm, e) else Abort(BadBoot)
  }

  // ---------------------------------------------------------------- table by rows

  /** The rows of the table, one cell per state in the order of the states. */
  function Row(t: Trigger): seq<Op> {
    match t
    case Power => [Assert, NotifyFlash, Assert, Assert, Assert, Assert, Assert, Assert]
    case BootMdm => [Assert, Boot, Assert, Assert, Assert, Assert, Assert, Assert]
    case StopMdm => [Assert, NotifyOff, Assert, Assert, Assert, RequestStop, Assert, RequestStop]
    case ResetMdm => [Assert, NotifyFlash, Assert, Assert, Assert, RequestReset, Assert, RequestReset]
    case Backup => [Assert, Assert, Assert, Assert, Assert, Assert, Assert, Assert]
    case MdmOff => [NotifyOffOnly, Assert, SelfReset, SelfReset, SelfReset, SelfReset, NotifyOffOrFlash, Assert]
    case MdmOn => [Ping, ModemOn, Ping, Assert, Assert, Assert, Assert, Assert]
    case MdmTrap => [Assert, NotifyTrap, NotifyTrap, NotifyTrap, NotifyTrap, NotifyTrap, NotifyTrap, NotifyTrap]
    case MdmFwFail => [Assert, Assert, FwFailure, Assert, Assert, Assert, Assert, Assert]
    case MdmRun => [Assert, Assert, Assert, Rpcd, Assert, Assert, Assert, Assert]
    case Timeout => [Assert, Assert, SelfReset, SelfReset, SelfReset, Assert, Assert, Assert]
    case RpcDead => [Assert, Nop, Nop, Nop, SelfReset, SelfReset, Nop, Nop]
    case RpcRun => [Assert, Assert, Assert, Assert, NotifyRun, Assert, Assert, Assert]
  }

  function Column(st: State): nat {
    match st
    case Initial => 0
    case StOff => 1
    case Booting => 2
    case Pinging => 3
    case WaitingRpc => 4
    case StRun => 5
    case Stopping => 6
    case NeedResetting => 7
  }

  /** The table that the proofs use is the one the engine looks up. */
  lemma {:induction false} TableRows(t: Trigger, st: State)
    ensures Column(st) < |Row(t)| && Row(t)[Column(st)] == Table(t, st)
  {
  }

  // ---------------------------------------------------------------- the thread's context

  class Machine {
    var fsm: State
    var timerArmed: bool
    var stopping: bool
    var pinging: bool
    var rpcd: bool
    var mdm: Trigger
    const dumpEnabled: bool
    const secvm: bool
    var toCtl: seq<Control.Trigger>

    ghost function View(): Ctx
      reads this
    {
      Ctx(fsm, timerArmed, stopping, pinging, rpcd, mdm, dumpEnabled, secvm, toCtl)
    }

    constructor (mdm: Trigger, dumpEnabled: bool, secvm: bool)
      ensures View() == Init(mdm, dumpEnabled, secvm)
    {
      fsm, timerArmed, stopping, pinging, rpcd := Initial, false, false, false, false;
      this.mdm, this.dumpEnabled, this.secvm, toCtl := mdm, dumpEnabled, secvm, [];
    }

    /** A busy event, then the event itself. */
    method BusyThen(t: Control.Trigger)
      modifies `toCtl
      ensures View() == Tell(old(View()), [Control.HalBusy, t])
    {
      toCtl := toCtl + [Control.HalBusy];
      toCtl := toCtl + [t];
      assert toCtl == old(toCtl) + [Control.HalBusy, t];
    }

    method StartTimer() returns (why: Option<Assertion>)
      modifies `timerArmed
      ensures Matches(TimerStart(old(View())), why, View())
    {
      if timerArmed { return Some(TimerArmed); }
      timerArmed := true;
      return None;
    }

    method AskReset() returns (why: Option<Assertion>, ret: Ret<State>)
      modifies `toCtl
      ensures Yields(NeedReset(old(View())), why, View(), ret)
    {
      BusyThen(Control.HalNeedReset);
      return None, Goto(if mdm == MdmOff then StOff else NeedResetting);
    }

    method StopTheModem(stop: bool, fails: bool) returns (why: Option<Assertion>, ret: Ret<State>)
      modifies `timerArmed, `stopping
      ensures Yields(StopModem(old(View()), stop, fails), why, View(), ret)
    {
      if mdm == MdmOff { return None, Goto(StOff); }
      if fails { return None, Fail; }
      why := StartTimer();
      if why.Some? { return why, Stay; }
      stopping := stop;
      return None, Goto(Stopping);
    }

    method StartPingThread() returns (why: Option<Assertion>, ret: Ret<State>)
      modifies `pinging
      ensures Yields(StartPing(old(View())), why, View(), ret)
    {
      if pinging { return Some(PingAlive), Stay; }
      pinging := true;
      return None, Goto(Pinging);
    }

    method BootTheModem(fails: bool) returns (why: Option<Assertion>, ret: Ret<State>)
      modifies `timerArmed, `pinging
      ensures Yields(RequestBoot(old(View()), fails), why, View(), ret)
    {
      if secvm {
        if mdm == MdmOn {
          why, ret := StartPingThread();
          return;
        }
      } else if fails {
        return None, Fail;
      }
      why := StartTimer();
      return why, Goto(Booting);
    }

    method StartRpcDaemon() returns (why: Option<Assertion>, ret: Ret<State>)
      modifies `timerArmed, `rpcd
      ensures Yields(StartRpcd(old(View())), why, View(), ret)
    {
      if rpcd { return Some(RpcdRunning), Stay; }
      rpcd := true;
      why := StartTimer();
      return why, Goto(WaitingRpc);
    }

    method OffOrFlashEvent() returns (why: Option<Assertion>, ret: Ret<State>)
      modifies `stopping, `toCtl
      ensures Yields(OffOrFlash(old(View())), why, View(), ret)
    {
      if mdm != MdmOff { return Some(NotOff), Stay; }
      if stopping {
        stopping := false;
        BusyThen(Control.HalOff);
      } else {
        BusyThen(Control.HalFlash);
      }
      return None, Goto(StOff);
    }

    method Run(op: Op, t: Trigger, e: Env) returns (why: Option<Assertion>, ret: Ret<State>)
      modifies `timerArmed, `stopping, `pinging, `rpcd, `toCtl
      ensures Yields(Operate(old(View()), op, t, e), why, View(), ret)
    {
      why, ret := None, Stay;
      match op
      case Nop =>
      case Assert => why := Some(AtCell(t, fsm));
      case NotifyFlash => BusyThen(Control.HalFlash); ret := Goto(StOff);
      case NotifyOff => BusyThen(Control.HalOff); ret := Goto(StOff);
      case NotifyOffOnly => toCtl := toCtl + [Control.HalOff]; ret := Goto(StOff);
      case NotifyOffOrFlash => why, ret := OffOrFlashEvent();
      case SelfReset => why, ret := AskReset();
      case NotifyTrap =>
        if dumpEnabled {
          BusyThen(Control.HalDump);
          ret := Goto(NeedResetting);
        } else {
          why, ret := AskReset();
        }
      case FwFailure => BusyThen(Control.HalUnresponsive); ret := Goto(StOff);
      case RequestStop => why, ret := StopTheModem(true, e.stopFails);
      case RequestReset => why, ret := StopTheModem(false, e.stopFails);
      case Ping => why, ret := StartPingThread();
      case Boot => why, ret := BootTheModem(e.startFails);
      case ModemOn => why := if secvm then None else Some(NotSecvm);
      case NotifyRun => toCtl := toCtl + [Control.HalRun]; ret := Goto(StRun);
      case Rpcd => why, ret := StartRpcDaemon();
    }

    method Leave(prev: State, next: State) returns (why: Option<Assertion>)
      modifies `timerArmed, `pinging, `rpcd
      ensures Matches(Transit(old(View()), prev, next), why, View())
    {
      if prev == Stopping || prev == Booting || prev == WaitingRpc {
        if !timerArmed { return Some(TimerIdle); }
        timerArmed := false;
      }
      if prev == Pinging {
        pinging := false;
      }
      if prev == StRun || (prev == WaitingRpc && next != StRun) {
        if !rpcd { return Some(RpcdStopped); }
        rpcd := false;
      }
      return None;
    }

    /** notify_event, with the failsafe operation and the transition hook of this machine. */
    method NotifyEvent(t: Trigger, e: Env) returns (why: Option<Assertion>)
      modifies this
      ensures Matches(Notify(old(View()), t, e), why, View())
    {
      hide Operate, StopModem, Transit, Table, Row, Column;
      TableRows(t, fsm);
      var ret;
      why, ret := Run(Row(t)[Column(fsm)], t, e);
      if why.Some? { return; }
      var next := fsm;
      if ret.Fail? {
        why, ret := StopTheModem(true, e.stopFailsAgain);
        if why.Some? { return; }
        if !ret.Goto? { return Some(BadState); }
      }
      if ret.Goto? {
        next := ret.state;
      }
      if next != fsm {
        why := Leave(fsm, next);
        if why.Some? { return; }
      }
      fsm := next;
    }

    /** One turn of the event loop. */
    method Turn(i: Input, e: Env) returns (why: Option<Assertion>)
      modifies this
      ensures Matches(Step(old(View()), i, e), why, View())
    {
      match i
      case Request(t) => why := NotifyEvent(t, e);
      case Uevent(t) =>
        mdm := t;
        why := NotifyEvent(t, e);
      case PingAnswer(alive) =>
        if !pinging { return Some(PingMissing); }
        pinging := false;
        why := NotifyEvent(if alive then MdmRun else Timeout, e);
      case RpcEvent(running) => why := NotifyEvent(if running then RpcRun else RpcDead, e);
      case TimerExpires =>
        if !timerArmed { return Some(TimeoutIdle); }
        why := NotifyEvent(Timeout, e);
    }
  }
}
