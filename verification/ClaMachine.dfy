/**
 Client abstraction as an object: the handlers of the source, each tied to the specification
 that the invariants are proved about.
 */
module ClaMachine {
  import opened Common
  import opened Fsm
  import opened Cla
  import opened ClaClients

  // ---------------------------------------------------------------- table

  function Plain(op: Op): Cell<State, Op> {
    Cell(None, op)
  }

  /** The rows of the table, one cell per state in the order of the states. */
  function Row(t: Trigger): seq<Cell<State, Op>> {
    match t
    case Success => [Plain(Assert), Plain(Assert), Plain(CheckPendingUp), Plain(Assert), Plain(Assert), Plain(Assert), Plain(CheckPendingDown)]
    case Failure => [Plain(Assert), Plain(CheckFailure), Plain(Assert), Plain(Assert), Plain(Assert), Plain(Assert), Cell(Some(StOff), Nop)]
    case MdmOff => [Plain(CheckPendingDown), Plain(Assert), Plain(Assert), Plain(Assert), Plain(Assert), Plain(Assert), Plain(CheckPendingDown)]
    case MdmUnresp => [Plain(Assert), Cell(Some(StOff), Nop), Cell(Some(StOff), Nop), Plain(Assert), Plain(Nop), Plain(Assert), Plain(Nop)]
    case MdmBusy => [Plain(Assert), Plain(Assert), Plain(Nop), Plain(OnBusy), Plain(Nop), Plain(Nop), Plain(Nop)]
    case MdmReady => [Plain(CheckPendingUp), Plain(Assert), Plain(CheckPendingUp), Plain(Assert), Plain(Assert), Plain(Assert), Plain(Assert)]
    case CliAcquire => [Plain(Nop), Plain(ClientAcquire), Plain(Nop), Plain(Assert), Plain(Nop), Plain(Nop), Plain(Nop)]
    case CliRelease => [Plain(Nop), Plain(CheckFailure), Plain(Nop), Plain(ClientRelease), Plain(Nop), Plain(Nop), Plain(Nop)]
    case CliRestart => [Plain(Nop), Plain(Assert), Plain(Nop), Plain(ClientRestart), Plain(Assert), Plain(Nop), Plain(Assert)]
    case CliAcked => [Plain(Nop), Plain(Assert), Plain(Assert), Plain(Assert), Plain(AckedCold), Plain(AckedShut), Plain(Assert)]
  }

  function Column(st: State): nat {
    match st
    case Initial => 0
    case StOff => 1
    case Starting => 2
    case StUp => 3
    case AckCold => 4
    case AckShut => 5
    case Stopping => 6
  }

  /** The table that the proofs use is the one the engine looks up. */
  lemma {:induction false} TableRows(t: Trigger, st: State)
    ensures Column(st) < |Row(t)| && Row(t)[Column(st)] == Table(t, st)
  {
  }

  class Machine {
    const list: ClientList
    const sanity: bool
    var fsm: State
    var modem: Mdm
    var reported: Mdm
    var fake: bool
    var inProgress: bool
    var reject: bool
    var restart: RestartKind
    var dbg: bool
    var bootArmed: bool
    var wakelock: nat
    ghost var requests: seq<Request>
    ghost var broadcasts: seq<Event>
    ghost var shutdownSeen: bool
    ghost var rebootSeen: bool

    ghost predicate Valid()
      reads this, list
    {
      list.Valid()
    }

    ghost function View(): Ctx
      requires Valid()
      reads this, list, list.clients
    {
      Ctx(fsm, sanity, list.View(), modem, reported, fake, inProgress, reject, restart, dbg, bootArmed, wakelock,
          requests, broadcasts, shutdownSeen, rebootSeen)
    }

    constructor (sanity: bool, fmmo: bool)
      ensures Valid() && fresh(list) && fresh(list.clients) && View() == Boot(sanity, fmmo).ctx
    {
      list := new ClientList(fmmo);
      this.sanity := sanity;
      fsm, modem, reported, fake, inProgress, reject := Initial, Unknown, Unknown, false, false, false;
      restart, dbg, bootArmed, wakelock := NoRestart, false, true, 1;
      requests, broadcasts, shutdownSeen, rebootSeen := [], [], false, false;
    }

    // -------------------------------------------------------------- procedures

    method SendAll(e: Event, bad: Links) returns (why: Option<Assertion>)
      requires Valid()
      modifies this`broadcasts, list, list.clients
      ensures Valid() && Matches(NotifyAll(old(View()), e, bad), why, View())
    {
      hide NotifyFrom;
      why := list.SendEventToAll(e, bad);
      broadcasts := broadcasts + [e];
    }

    method AskControl(r: Request) returns (why: Option<Assertion>)
      requires Valid()
      modifies this`inProgress, this`requests
      ensures Matches(Ask(old(View()), r), why, View())
    {
      if inProgress { return Some(InProgress); }
      inProgress := true;
      requests := requests + [r];
      return None;
    }

    /** The restart entry of control refuses its arguments before anything is queued. */
    method AskRestartOf(kind: RestartKind, withDbg: bool) returns (why: Option<Assertion>, ret: Ret<State>)
      requires Valid()
      modifies this`inProgress, this`requests
      ensures Yields(RestartThen(old(View()), kind, withDbg), why, View(), ret)
    {
      ret := Goto(Starting);
      if inProgress { return Some(InProgress), ret; }
      if kind == NoRestart || (withDbg && kind != ModemRestart) { return Some(RestartArgs), ret; }
      why := AskControl(Restart(kind));
    }

    method AskFor(r: Request, st: State) returns (why: Option<Assertion>, ret: Ret<State>)
      requires Valid()
      modifies this`inProgress, this`requests
      ensures Yields(AskThen(old(View()), r, st), why, View(), ret)
    {
      ret := Goto(st);
      why := AskControl(r);
    }

    method ArmAckTimer()
      requires Valid()
      modifies this`wakelock
      ensures View() == StartAckTimer(old(View()))
    {
      if wakelock == 0 {
        wakelock := 1;
      }
    }

    /** start_shutdown_procedure */
    method ShutdownProcedure(bad: Links) returns (why: Option<Assertion>, ret: Ret<State>)
      requires Valid()
      modifies this, list, list.clients
      ensures Valid() && fsm == old(fsm) && Yields(StartShutdown(old(View()), bad), why, View(), ret)
    {
      hide NotifyAll, StopOrWait;
      ret := Stay;
      why := SendAll(Shutdown, bad);
      if why.Some? { return; }
      if !fake {
        why := SendAll(Down, bad);
        if why.Some? { return; }
      }
      fake := true;
      modem := Off;
      why, ret := StopNowOrLater();
    }

    method StopNowOrLater() returns (why: Option<Assertion>, ret: Ret<State>)
      requires Valid()
      modifies this`inProgress, this`requests, this`wakelock
      ensures Yields(StopOrWait(old(View())), why, View(), ret)
    {
      hide AskThen;
      if list.numShut == 0 {
        why, ret := AskFor(Stop, Stopping);
      } else {
        ArmAckTimer();
        return None, Goto(AckShut);
      }
    }

    /** start_restart_procedure */
    method RestartProcedure(bad: Links) returns (why: Option<Assertion>, ret: Ret<State>)
      requires Valid()
      modifies this, list, list.clients
      ensures Valid() && fsm == old(fsm) && Yields(StartRestart(old(View()), bad), why, View(), ret)
    {
      hide NotifyAll, FakeBusy, RestartOrWait;
      ret := Stay;
      if modem != Busy {
        why := ShowBusy(bad);
        if why.Some? { return; }
      }
      why := SendAll(ColdReset, bad);
      if why.Some? { return; }
      why, ret := RestartNowOrLater();
    }

    method ShowBusy(bad: Links) returns (why: Option<Assertion>)
      requires Valid()
      modifies this`broadcasts, this`modem, this`fake, list, list.clients
      ensures Valid() && Matches(FakeBusy(old(View()), bad), why, View())
    {
      hide NotifyAll;
      why := SendAll(Down, bad);
      if why.Some? { return; }
      if fake { return Some(FakeState); }
      modem := Busy;
      fake := true;
    }

    method RestartNowOrLater() returns (why: Option<Assertion>, ret: Ret<State>)
      requires Valid()
      modifies this`inProgress, this`requests, this`wakelock
      ensures Yields(RestartOrWait(old(View())), why, View(), ret)
    {
      hide RestartThen;
      if list.numCold == 0 {
        why, ret := AskRestartOf(restart, dbg);
      } else {
        ArmAckTimer();
        return None, Goto(AckCold);
      }
    }

    // -------------------------------------------------------------- operations

    method PendingUp(bad: Links) returns (why: Option<Assertion>, ret: Ret<State>)
      requires Valid()
      modifies this, list, list.clients
      ensures Valid() && fsm == old(fsm) && Yields(CheckUp(old(View()), bad), why, View(), ret)
    {
      hide StartShutdown, StartRestart;
      if inProgress || modem != Ready { return None, Stay; }
      if list.numAcquired == 0 {
        why, ret := ShutdownProcedure(bad);
        return;
      }
      if restart != NoRestart {
        why, ret := RestartProcedure(bad);
        return;
      }
      return None, Goto(StUp);
    }

    method PendingDown() returns (why: Option<Assertion>, ret: Ret<State>)
      requires Valid()
      modifies this
      ensures Valid() && fsm == old(fsm) && Yields(CheckDown(old(View())), why, View(), ret)
    {
      if inProgress || modem != Off { return None, Stay; }
      if list.numAcquired > 0 {
        why, ret := AskFor(Start, Starting);
        return;
      }
      return None, Goto(StOff);
    }

    method OnColdAcked(bad: Links) returns (why: Option<Assertion>, ret: Ret<State>)
      requires Valid()
      modifies this, list, list.clients
      ensures Valid() && fsm == old(fsm) && Yields(ColdAcked(old(View()), bad), why, View(), ret)
    {
      hide StartShutdown, RestartThen;
      if modem == Unresp { return None, Goto(StOff); }
      if list.numAcquired == 0 {
        why, ret := ShutdownProcedure(bad);
      } else if restart != NoRestart {
        why, ret := AskRestartOf(restart, dbg);
      } else {
        if inProgress { return Some(InProgress), Stay; }
        if reported != Busy { return Some(RealNotBusy), Stay; }
        why, ret := AskRestartOf(ModemRestart, false);
      }
    }

    method OnShutdownAcked(bad: Links) returns (why: Option<Assertion>, ret: Ret<State>)
      requires Valid()
      modifies this, list, list.clients
      ensures Valid() && fsm == old(fsm) && Yields(ShutAcked(old(View()), bad), why, View(), ret)
    {
      hide StartRestart, RestartThen, AskThen;
      if list.numAcquired == 0 {
        why, ret := AskFor(Stop, Stopping);
      } else if restart != NoRestart {
        why, ret := RestartProcedure(bad);
      } else if reported == Ready {
        why, ret := AskFor(Stop, Stopping);
      } else {
        fake := false;
        modem := reported;
        if reported != Busy { return Some(RealNotBusy), Stay; }
        why, ret := AskRestartOf(ModemRestart, false);
      }
    }

    method RunOp(op: Op, t: Trigger, bad: Links) returns (why: Option<Assertion>, ret: Ret<State>)
      requires Valid()
      modifies this, list, list.clients
      ensures Valid() && fsm == old(fsm) && Yields(Operate(old(View()), op, t, bad), why, View(), ret)
    {
      hide StartShutdown, StartRestart, CheckUp, CheckDown, ColdAcked, ShutAcked, AskThen;
      why, ret := None, Stay;
      match op
      case Nop =>
      case Assert => why := Some(AtCell(t, fsm));
      case ClientAcquire => why, ret := AskFor(Start, Starting);
      case CheckPendingUp => why, ret := PendingUp(bad);
      case CheckPendingDown => why, ret := PendingDown();
      case CheckFailure => why := if modem == Unresp then None else Some(Mismatch);
      case OnBusy =>
        restart := ModemRestart;
        why, ret := RestartProcedure(bad);
      case ClientRelease => why, ret := ShutdownProcedure(bad);
      case ClientRestart => why, ret := RestartProcedure(bad);
      case AckedCold => why, ret := OnColdAcked(bad);
      case AckedShut => why, ret := OnShutdownAcked(bad);
    }

    /** notify_event of the shared engine, with this machine's table and hooks. */
    method NotifyEvent(t: Trigger, bad: Links) returns (why: Option<Assertion>)
      requires Valid()
      modifies this, list, list.clients
      ensures Valid() && Matches(Notify(old(View()), t, bad), why, View())
    {
      hide Operate, Table, Row, Column;
      TableRows(t, fsm);
      var cell := Row(t)[Column(fsm)];
      var ret;
      why, ret := RunOp(cell.op, t, bad);
      if why.Some? { return; }
      if ret.Fail? { return Some(FailsafeMissing); }
      var next := if ret.Goto? then ret.state else fsm;
      if cell.forced.Some? {
        next := cell.forced.value;
      }
      if next != fsm && next == Initial { return Some(BackToInitial); }
      fsm := next;
      return None;
    }

    // -------------------------------------------------------------- messages

    method RecordState(m: Mdm, silent: bool)
      requires Valid()
      modifies this`reported, this`restart, this`reject, this`rebootSeen
      ensures View() == Record(old(View()), m, silent)
    {
      rebootSeen := rebootSeen || silent;
      reported := m;
      if m == Ready || m == Off {
        restart := NoRestart;
      } else if m == Unresp {
        reject := true;
      }
    }

    method OnModemState(mdm: Mdm, bad: Links) returns (why: Option<Assertion>)
      requires Valid() && mdm != Unknown
      modifies this, list, list.clients
      ensures Valid() && Matches(HandleModemState(old(View()), mdm, bad), why, View())
    {
      hide ChangeState, Record;
      var sendMsg := mdm != PlatformReboot;
      var m := if sendMsg then mdm else Unresp;
      RecordState(m, !sendMsg);
      if modem == Unresp { return Some(ModemGone); }
      var filter := fake;
      if fake {
        if m == Unresp {
          fake := false;
          filter := false;
        } else if modem == m {
          fake := false;
        }
      }
      if !filter && modem != m {
        why := ChangeTo(m, sendMsg, bad);
        return;
      }
      return None;
    }

    /** A state the clients may have to hear of, and the machine certainly. */
    method ChangeTo(m: Mdm, sendMsg: bool, bad: Links) returns (why: Option<Assertion>)
      requires Valid() && (m == Off || m == Unresp || m == Busy || m == Ready)
      modifies this, list, list.clients
      ensures Valid() && Matches(ChangeState(old(View()), m, !sendMsg, bad), why, View())
    {
      hide Notify, NotifyAll;
      var e := ToEvent(m);
      if sendMsg && (modem == Unknown || e != ToEvent(modem)) {
        why := SendAll(e, bad);
        if why.Some? { return; }
      }
      modem := m;
      why := NotifyEvent(TriggerOf(m), bad);
    }

    /** handle_control_msg */
    method OnControlMsg(m: ControlMsg, bad: Links) returns (why: Option<Assertion>)
      requires Valid() && FromControl(m)
      modifies this, list, list.clients
      ensures Valid() && Matches(HandleControlMsg(old(View()), m, bad), why, View())
    {
      hide Notify, NotifyAll, HandleModemState;
      match m
      case Result(ok) =>
        inProgress := false;
        why := NotifyEvent(if ok then Success else Failure, bad);
      case NotifyClient(e) => why := SendAll(e, bad);
      case ModemState(mdm) => why := OnModemState(mdm, bad);
    }

    method OnRestart(cause: Cause, withDbg: bool, bad: Links) returns (why: Option<Assertion>)
      requires Valid()
      modifies this, list, list.clients
      ensures Valid() && Matches(HandleRestart(old(View()), cause, withDbg, bad), why, View())
    {
      hide Notify;
      if restart != NoRestart || reported != Ready || reject { return None; }
      if cause == BadCause { return Some(UnknownCause); }
      restart := if cause == MdmErr then ModemRestart else ModemUpdate;
      dbg := withDbg;
      why := NotifyEvent(CliRestart, bad);
    }

    method DropClient(i: nat) returns (why: Option<Assertion>)
      requires Valid() && i < list.num
      modifies list, list.clients
      ensures Valid() && Matches(WithBook(old(View()), Unregister(old(View()).book, i)), why, View())
    {
      hide Unregister;
      why := list.HandleUnregister(i);
    }

    method UpdateSlot(i: nat, m: ClientMsg, bad: Links) returns (why: Option<Assertion>)
      requires Valid() && i < list.num && (m.Acquire? || m.Release? || m.AckColdReset? || m.AckShutdown? || m.Register?)
      modifies list, list.clients
      ensures Valid()
      ensures Matches(WithBook(old(View()), if m.Register? then HandleRegister(old(View()).book, i, m.events, modem, bad)
                                            else HandleSlotMsg(old(View()).book, i, m, reject)), why, View())
    {
      hide HandleRegister, HandleSlotMsg;
      if m.Register? {
        why := list.Register(i, m.events, modem, bad);
      } else {
        why := list.SlotMessage(i, m, reject);
      }
    }

    /** handle_client_msg */
    method OnClientMsg(i: nat, m: ClientMsg, bad: Links) returns (why: Option<Assertion>)
      requires Valid() && i < list.num
      modifies this, list, list.clients
      ensures Valid() && Matches(HandleClientMsg(old(View()), i, m, bad), why, View())
    {
      hide Notify, NotifyAll, HandleRestart, HandleRegister, HandleSlotMsg, Unregister, WithBook;
      if i in list.toClean { return None; }
      if (m.Register? && m.debug != sanity) || (!m.Register? && !list.clients[i].registered) {
        why := DropClient(i);
        return;
      }
      match m
      case AskRestart(cause, withDbg) => why := OnRestart(cause, withDbg, bad);
      case AskShutdown =>
        reject := true;
        list.numAcquired := 0;
        shutdownSeen := true;
        return None;
      case AskBackup =>
        restart := BackupNvm;
        why := NotifyEvent(CliRestart, bad);
      case NotifyDbg => why := SendAll(DbgInfo, bad);
      case UnknownId => return None;
      case _ => why := UpdateSlot(i, m, bad);
    }

    // -------------------------------------------------------------- main loop

    /** get_timeout: the least time left, -1 without a timer, and the timers it belongs to. */
    method GetTimeout(ackRemain: nat, bootRemain: nat) returns (timeout: int, ack: bool, boot: bool)
      requires Valid()
      ensures (timeout, ack, boot) == PollTimeout(View(), ackRemain, bootRemain)
      ensures ack <==> Waiting(View().book) && timeout == ackRemain
      ensures boot <==> bootArmed && timeout == bootRemain
      ensures timeout == -1 <==> !Waiting(View().book) && !bootArmed
      ensures Waiting(View().book) ==> timeout <= ackRemain
      ensures bootArmed ==> timeout <= bootRemain
    {
      timeout, ack, boot := -1, false, false;
      if list.numCold != 0 || list.numShut != 0 {
        timeout, ack := ackRemain, true;
      }
      if bootArmed {
        if timeout == bootRemain {
          boot := true;
        } else if timeout < 0 || (timeout > 0 && bootRemain < timeout) {
          timeout, ack, boot := bootRemain, false, true;
        }
      }
    }

    method BeforePoll(ackRemain: nat, bootRemain: nat) returns (timeout: int, ack: bool, boot: bool)
      requires Valid()
      modifies this`wakelock
      ensures Step(Loop(old(View()), Top), EnterPoll(ackRemain, bootRemain), (_, _) => false)
              == Ok(Loop(View(), Polling(timeout, ack, boot)))
    {
      timeout, ack, boot := GetTimeout(ackRemain, bootRemain);
      if timeout == -1 && wakelock > 0 {
        wakelock := wakelock - 1;
      }
    }

    /** The branch of the loop for a poll that timed out. */
    method OnTimeout(timeout: int, ack: bool, boot: bool, bootLeft: nat, bad: Links) returns (why: Option<Assertion>)
      requires Valid()
      modifies this, list, list.clients
      ensures Valid() && Matches(HandleTimeout(old(View()), Polling(timeout, ack, boot), bootLeft, bad), why, View())
    {
      hide ElapseAck;
      if !ack && !boot { return Some(TimeoutIdx); }
      if wakelock == 0 { return Some(TimeoutWakelock); }
      if boot {
        bootArmed := bootLeft > 0;
      }
      why := AfterAckTimeout(ack, bad);
    }

    method AfterAckTimeout(ack: bool, bad: Links) returns (why: Option<Assertion>)
      requires Valid()
      modifies this, list, list.clients
      ensures Valid() && Matches(ElapseAck(old(View()), ack, bad), why, View())
    {
      hide Notify, ClearAcks, ReleaseIfIdle;
      if ack {
        why := NoMoreAcks(bad);
        if why.Some? { return; }
      }
      DropWakelock();
      return None;
    }

    method NoMoreAcks(bad: Links) returns (why: Option<Assertion>)
      requires Valid()
      modifies this, list, list.clients
      ensures Valid() && Matches(Notify(old(View()).(book := ClearAcks(old(View()).book)), CliAcked, bad), why, View())
    {
      hide Notify, ClearAcks;
      list.GiveUpAcks();
      why := NotifyEvent(CliAcked, bad);
    }

    method DropWakelock()
      requires Valid()
      modifies this`wakelock
      ensures View() == ReleaseIfIdle(old(View()))
    {
      if !bootArmed && list.numCold == 0 && list.numShut == 0 && wakelock > 0 {
        wakelock := wakelock - 1;
      }
    }

    /** The end of one turn of the descriptor loop: the event that sums up what changed. */
    method EndOfTurn(acquired: bool, waiting: bool, source: Source, bad: Links) returns (why: Option<Assertion>)
      requires Valid()
      modifies this, list, list.clients
      ensures Valid() && Matches(FinishTurn(old(View()), Iter(acquired, waiting, source), bad), why, View())
    {
      hide Notify;
      var evt: Option<Trigger> := None;
      if waiting && list.numCold == 0 && list.numShut == 0 {
        evt := Some(CliAcked);
      }
      if acquired && list.numAcquired == 0 {
        if evt == Some(CliAcked) {
          restart := NoRestart;
        } else {
          evt := Some(CliRelease);
        }
      } else if !acquired && list.numAcquired != 0 {
        if evt.Some? { return Some(AcquireWhileAcked); }
        evt := Some(CliAcquire);
      }
      if evt.Some? {
        why := NotifyEvent(evt.value, bad);
        return;
      }
      return None;
    }

    /** The end of the scan: marked clients go. */
    method EndOfScan() returns (closed: seq<int>)
      requires Valid()
      modifies list, list.clients
      ensures Valid() && View() == Compact(old(View()))
      ensures closed == MarkedFds(old(View()).book.clients, old(View()).book.toClean, 0)
    {
      hide Unmarked, MarkedFds;
      closed := list.UpdateClientList();
    }

    // -------------------------------------------------------------- one step of the thread

    /** What the loop can take next, at the point `p` it has reached. */
    predicate Takes(p: Phase, i: Input)
      requires Valid()
      reads this, list, list.clients
      ensures Takes(p, i) <==> Enabled(Loop(View(), p), i)
    {
      match i
      case EnterPoll(_, _) => p.Top?
      case PollTimesOut(_) => p.Polling? && p.timeout != -1
      case PollReturns => p.Polling?
      case Turn(_) => p.Scan?
      case Control(m) => p.Iter? && p.source == Ipc && FromControl(m)
      case Accept(_) => p.Iter? && p.source == Other
      case FromClient(c, _) => p.Iter? && p.source == Other && c < list.num
      case Lost(c) => p.Iter? && p.source == Other && c < list.num
      case EndTurn => p.Iter?
      case EndScan => p.Scan?
    }

    /** A socket that polls an error: its client goes, unless it is marked already. */
    method OnLost(c: nat) returns (why: Option<Assertion>)
      requires Valid() && c < list.num
      modifies list, list.clients
      ensures Valid()
      ensures Matches(if c in old(View()).book.toClean then Ok(old(View()))
                      else WithBook(old(View()), Unregister(old(View()).book, c)), why, View())
    {
      hide WithBook, Unregister;
      if c in list.toClean { return None; }
      why := DropClient(c);
    }

    /** What a turn of the descriptor loop is about. */
    method Serve(p: Phase, i: Input, bad: Links) returns (why: Option<Assertion>, next: Phase)
      requires Valid() && Takes(p, i) && (i.Control? || i.Accept? || i.FromClient? || i.Lost?)
      modifies this, list, list.clients
      ensures Valid() && Matches(Step(Loop(old(View()), p), i, bad), why, Loop(View(), next))
    {
      hide HandleControlMsg, HandleClientMsg, Unregister, WithBook;
      next := if i.Control? then p else p.(source := Served);
      match i
      case Control(m) => why := OnControlMsg(m, bad);
      case Accept(fd) => why := list.Accept(fd);
      case FromClient(c, m) => why := OnClientMsg(c, m, bad);
      case Lost(c) => why := OnLost(c);
    }

    /** One step of the thread, from the point `p` of the loop to the point `next`. */
    method TakeStep(p: Phase, i: Input, bad: Links) returns (why: Option<Assertion>, next: Phase)
      requires Valid() && Takes(p, i)
      modifies this, list, list.clients
      ensures Valid() && Matches(Step(Loop(old(View()), p), i, bad), why, Loop(View(), next))
    {
      why, next := None, Top;
      if i.Control? || i.Accept? || i.FromClient? || i.Lost? {
        hide Step;
        why, next := Serve(p, i, bad);
        return;
      }
      hide FinishTurn, HandleTimeout, Unmarked, PollTimeout;
      match i
      case EnterPoll(a, b) =>
        var timeout, ack, boot := BeforePoll(a, b);
        next := Polling(timeout, ack, boot);
      case PollTimesOut(bootLeft) => why := OnTimeout(p.timeout, p.ack, p.boot, bootLeft, bad);
      case PollReturns =>
        list.toClean := {};
        next := Scan;
      case Turn(ipc) =>
        next := Iter(list.numAcquired != 0, list.numCold != 0 || list.numShut != 0, if ipc then Ipc else Other);
      case EndTurn =>
        why := EndOfTurn(p.acquired, p.waiting, p.source, bad);
        next := Scan;
      case EndScan =>
        var closed := EndOfScan();
    }
  }
}
