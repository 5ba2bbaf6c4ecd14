/**
 What control orders HAL and the services to do: for every event, from the states it leaves and
 enters, and over every run.
 */
module ControlOrders {
  import opened Common
  import opened Fsm
  import opened Control
  import opened ControlOutcomes
  import Cla
  import ControlFrame
  import System
  import Watchdog
  import WatchdogRuns

  // ---------------------------------------------------------------- one event

  /** A stop reaches HAL: a client's one with no reason awaited, one held until the modem waits or
      its dump is over, one that a failure injects, and the one of a modem that should be down. */
  predicate StopsModem(s: Ctx, t: Trigger) {
    || (t == CliStop && !s.flow.waitBusy)
    || (t == HalRun && s.fsm == StDown)
    || (t == OpFailure && s.fsm != Dumping)
    || (Resumes(s.fsm, t) && s.flow.req == ReqStop)
  }

  /** The orders that go with a change of state. */
  function Moved(s: Ctx, t: Trigger, next: State): seq<Order> {
    match next
    case Packaging =>
      if s.fsm == StDown then [Package, PowerOn]
      else if s.fsm == Packaging && (t == HalBusy || t == HalFlash || t == FwSuccess) then []
      else [Package, Reset(t == CliBackup)]
    case Flashing =>
      if s.fsm == Packaging then [Flash] else if t == FwSuccess && !s.flow.runIpc then [BootMdm] else []
    case Customizing => if s.fsm == Customizing then [] else [Customize]
    case Dumping => if s.fsm == Dumping then [] else [ReadDump]
    case Waiting => if StopsModem(s, t) then [Shutdown] else []
    case _ => []
  }

  function Given(s: Ctx, t: Trigger, next: State): seq<Order> {
    (if s.fsm == Dumping && t == HalBusy then [StopDump] else []) + Moved(s, t, next)
  }

  /** Where a state is reached from; the modem waits without being stopped only if a reason is
      awaited or nothing is asked. */
  predicate Reached(s: Ctx, t: Trigger, next: State) {
    match next
    case Initial => false
    case Flashing => s.fsm == Packaging || s.fsm == Flashing
    case Customizing => s.fsm == Initial || s.fsm == Flashing || s.fsm == Customizing
    case StUp => s.fsm == Initial || s.fsm == Flashing || s.fsm == StUp
    case Waiting =>
      || StopsModem(s, t) || t == HalBusy
      || (System.IsRequest(t) && s.flow.waitBusy)
      || (Resumes(s.fsm, t) && s.flow.req == ReqNone)
    case _ => true
  }

  /** The operation orders `o`. */
  predicate Adds(s: Ctx, r: Operated, o: seq<Order>) {
    r.Ok? ==> r.ctx.0.orders == s.orders + o
  }

  lemma {:induction false} EndsAdd(s: Ctx)
    ensures Adds(s, SetOos(s), []) && Adds(s, PlatformReboot(s), [])
    ensures SetOos(s).Ok? ==> SetOos(s).ctx.1 == Goto(StDown)
    ensures PlatformReboot(s).Ok? ==> PlatformReboot(s).ctx.1 == Goto(StDown)
  {
  }

  lemma {:induction false} RestartAdds(s: Ctx, report: bool, backup: bool)
    ensures Adds(s, MdmRestart(s, report, backup), [Package, Reset(backup)])
    ensures MdmRestart(s, report, backup).Ok? ==> MdmRestart(s, report, backup).ctx.1 == Goto(Packaging)
  {
  }

  /** A recovery either resets the modem or gives it up. */
  predicate Recovery(s: Ctx, r: Operated) {
    r.Ok? ==> if r.ctx.1 == Goto(Packaging) then r.ctx.0.orders == s.orders + [Package, Reset(false)]
              else r.ctx.1 == Goto(StDown) && r.ctx.0.orders == s.orders
  }

  lemma {:induction false} EscalateAdds(s: Ctx, param: bool, step: Step)
    ensures Recovery(s, Escalate(s, param, step))
  {
    hide SetOos, PlatformReboot, MdmRestart;
    var s1 := StoreDbg(s, param);
    EndsAdd(s1);
    RestartAdds(s1, true, false);
  }

  lemma {:induction false} ResumeAdds(s: Ctx, param: bool, step: Step)
    ensures var r := RequestedOperation(s, param, step);
            match s.flow.req
            case ReqNone => r.Ok? && r.ctx.1 == Goto(Waiting) && r.ctx.0.orders == s.orders
            case ReqStop => r.Ok? && r.ctx.1 == Goto(Waiting) && r.ctx.0.orders == s.orders + [Shutdown]
            case _ => Recovery(s, r)
  {
    hide Escalate;
    EscalateAdds(StoreDbg(s, param), false, step);
  }

  lemma {:induction false} FlowAdds(s: Ctx, tlvs: bool)
    ensures var r := MdmFlash(s);
            r.Ok? && if s.flow.halEvt && s.flow.fwReady then r.ctx.1 == Goto(Flashing) && r.ctx.0.orders == s.orders + [Flash]
            else r.ctx.1 == Stay && r.ctx.0.orders == s.orders
    ensures var r := MdmCfg(s, tlvs);
            r.Ok? && if !(s.flow.flashDone && s.flow.runIpc) then r.ctx.1 == Stay && r.ctx.0.orders == s.orders
            else if tlvs then r.ctx.1 == Goto(Customizing) && r.ctx.0.orders == s.orders + [Customize]
            else r.ctx.1 == Goto(StUp) && r.ctx.0.orders == s.orders
  {
  }

  /** The operation stays or leads to `st`, and orders `o`. */
  predicate Leads(s: Ctx, r: Operated, ret: Ret<State>, o: seq<Order>) {
    r.Ok? ==> r.ctx.1 == ret && r.ctx.0.orders == s.orders + o
  }

  predicate Resumption(s: Ctx, r: Operated) {
    match s.flow.req
    case ReqNone => Leads(s, r, Goto(Waiting), [])
    case ReqStop => Leads(s, r, Goto(Waiting), [Shutdown])
    case _ => Recovery(s, r)
  }

  /** What each operation orders. */
  predicate OpShape(s: Ctx, op: Op, r: Operated) {
    match op
    case Assert => r.Abort?
    case RequestStart => if s.oos then Leads(s, r, Stay, []) else Leads(s, r, Goto(Packaging), [Package, PowerOn])
    case AskStop => if s.flow.waitBusy then Leads(s, r, Stay, []) else Leads(s, r, Goto(Waiting), [Shutdown])
    case AskReset => if s.flow.waitBusy then Leads(s, r, Stay, []) else Recovery(s, r)
    case AskUpdate =>
      if s.flow.waitBusy then Leads(s, r, Stay, []) else Leads(s, r, Goto(Packaging), [Package, Reset(false)])
    case AskBackup => Leads(s, r, Goto(Packaging), [Package, Reset(true)])
    case NotifyOff => Leads(s, r, Goto(StDown), [])
    case NotifyUnresp => Leads(s, r, Goto(StDown), [])
    case FlashFailed => Leads(s, r, Goto(StDown), [])
    case RunInitial => Leads(s, r, Goto(Customizing), [Customize]) || Leads(s, r, Goto(StUp), [])
    case Run => Leads(s, r, Stay, []) || Leads(s, r, Goto(Customizing), [Customize]) || Leads(s, r, Goto(StUp), [])
    case FlashSuccess =>
      if !s.flow.runIpc then Leads(s, r, Stay, [BootMdm])
      else Leads(s, r, Goto(Customizing), [Customize]) || Leads(s, r, Goto(StUp), [])
    case FlashEvt => Leads(s, r, Stay, []) || Leads(s, r, Goto(Flashing), [Flash])
    case FwReady => Leads(s, r, Stay, []) || Leads(s, r, Goto(Flashing), [Flash])
    case TlvDone => Leads(s, r, Goto(Packaging), [Package, Reset(false)])
    case MdmStop => Leads(s, r, Goto(Waiting), [Shutdown])
    case Escalation => Recovery(s, r)
    case Requested => Resumption(s, r)
    case DumpStart => Leads(s, r, Goto(Dumping), [ReadDump])
    case DumpEnd => Resumption(s, r)
    case DumpError => Resumption(Command(s, [StopDump]), r)
    case OpFailed => Leads(s, r, Fail, [])
    case FailsafeOp => Leads(s, r, Goto(Waiting), [Shutdown])
    case _ => Leads(s, r, Stay, [])
  }

  lemma {:induction false} AskShape(s: Ctx, op: Op, t: Trigger, e: Env)
    requires System.TakesRequest(op)
    ensures OpShape(s, op, Operate(s, op, t, e))
  {
    hide Escalate, MdmRestart;
    assert s.orders + [] == s.orders;
    match op
    case AskReset => EscalateAdds(StoreDbg(s, e.param).(flow := s.flow.(req := ReqReset)), false, e.next);
    case AskUpdate => RestartAdds(s.(flow := s.flow.(req := ReqReset), dbg := s.dbg.(noReport := true)), false, false);
    case AskBackup => RestartAdds(s.(flow := s.flow.(req := ReqReset)), false, true);
    case _ =>
  }

  lemma {:induction false} EventShape(s: Ctx, op: Op, t: Trigger, e: Env)
    requires !System.TakesRequest(op)
    ensures OpShape(s, op, Operate(s, op, t, e))
  {
    if op.Escalation? || op.Requested? || op.DumpEnd? || op.DumpError? || op.TlvDone? {
      hide Operate, OpShape;
      ReturnShape(s, op, t, e);
    } else if op.RunInitial? || op.Run? || op.FlashSuccess? {
      hide Operate, OpShape;
      ConfigShape(s, op, t, e);
    } else if op.NotifyUnresp? || op.FlashFailed? || op.FlashEvt? || op.FwReady? {
      hide Operate, OpShape;
      FlowShape(s, op, t, e);
    } else {
      assert s.orders + [] == s.orders;
    }
  }

  lemma {:induction false} FlowShape(s: Ctx, op: Op, t: Trigger, e: Env)
    requires op.NotifyUnresp? || op.FlashFailed? || op.FlashEvt? || op.FwReady?
    ensures OpShape(s, op, Operate(s, op, t, e))
  {
    hide SetOos, PlatformReboot, MdmFlash;
    assert s.orders + [] == s.orders;
    match op
    case NotifyUnresp => EndsAdd(StoreDbg(s, e.param));
    case FlashFailed => EndsAdd(StoreDbg(s, e.param));
    case FlashEvt => FlowAdds(s.(flow := s.flow.(halEvt := true)), e.tlvs);
    case FwReady => FlowAdds(s.(flow := s.flow.(fwReady := true)), e.tlvs);
  }

  lemma {:induction false} ConfigShape(s: Ctx, op: Op, t: Trigger, e: Env)
    requires op.RunInitial? || op.Run? || op.FlashSuccess?
    ensures OpShape(s, op, Operate(s, op, t, e))
  {
    hide MdmCfg, Leads;
    match op
    case RunInitial => ConfigLeads(s, s.(flow := s.flow.(runIpc := true, flashDone := true)), e.tlvs);
    case Run => ConfigLeads(s, s.(flow := s.flow.(runIpc := true)), e.tlvs);
    case FlashSuccess =>
      var s1 := if s.flow.runIpc then s else Command(s, [BootMdm]);
      ConfigLeads(s, s1.(flow := s.flow.(flashDone := true)), e.tlvs);
  }

  lemma {:induction false} ConfigLeads(s: Ctx, s0: Ctx, tlvs: bool)
    requires s0.orders == s.orders || (s0.orders == s.orders + [BootMdm] && !s0.flow.runIpc)
    ensures var r := MdmCfg(s0, tlvs);
            if s0.orders != s.orders then Leads(s, r, Stay, [BootMdm])
            else if !(s0.flow.flashDone && s0.flow.runIpc) then Leads(s, r, Stay, [])
            else if tlvs then Leads(s, r, Goto(Customizing), [Customize])
            else Leads(s, r, Goto(StUp), [])
  {
    hide MdmCfg;
    assert s.orders + [] == s.orders;
    FlowAdds(s0, tlvs);
  }

  lemma {:induction false} ReturnShape(s: Ctx, op: Op, t: Trigger, e: Env)
    requires op.Escalation? || op.Requested? || op.DumpEnd? || op.DumpError? || op.TlvDone?
    ensures OpShape(s, op, Operate(s, op, t, e))
  {
    hide Escalate, RequestedOperation, MdmRestart;
    assert s.orders + [] == s.orders;
    match op
    case TlvDone => RestartAdds(Tell(s, DBG), false, false);
    case Escalation => EscalateAdds(s, e.param, e.next);
    case Requested => ResumeAdds(s, e.param, e.next);
    case DumpEnd => ResumeAdds(s, e.param, e.next);
    case DumpError => ResumeAdds(Tell(Command(s, [StopDump]), DBG), false, e.next);
  }

  /** The operation of the cell, as seen from the state it leads to. */
  predicate CellGives(s: Ctx, t: Trigger, r: Operated) {
    r.Ok? && !r.ctx.1.Fail? ==>
      var next := NextState(s.fsm, Table(t, s.fsm).forced, r.ctx.1, Stay).value;
      r.ctx.0.orders == s.orders + Moved(s, t, next) && Reached(s, t, next)
  }

  lemma {:induction false} GivesFrom(s: Ctx, t: Trigger, r: Operated)
    requires OpShape(Prepared(s, t), Table(t, s.fsm).op, r)
    ensures s.fsm == Initial || s.fsm == StDown ==> CellGives(s, t, r)
  {
    assert s.orders + [] == s.orders;
  }

  lemma {:induction false} GivesPackaging(s: Ctx, t: Trigger, r: Operated)
    requires s.fsm == Packaging && OpShape(Prepared(s, t), Table(t, Packaging).op, r)
    ensures CellGives(s, t, r)
  {
    assert s.orders + [] == s.orders;
  }

  lemma {:induction false} GivesFlashing(s: Ctx, t: Trigger, r: Operated)
    requires s.fsm == Flashing && OpShape(Prepared(s, t), Table(t, Flashing).op, r)
    ensures CellGives(s, t, r)
  {
    assert s.orders + [] == s.orders;
  }

  lemma {:induction false} GivesCustomizing(s: Ctx, t: Trigger, r: Operated)
    requires s.fsm == Customizing && OpShape(Prepared(s, t), Table(t, Customizing).op, r)
    ensures CellGives(s, t, r)
  {
    assert s.orders + [] == s.orders;
  }

  lemma {:induction false} GivesRunning(s: Ctx, t: Trigger, r: Operated)
    requires s.fsm == StUp && OpShape(Prepared(s, t), Table(t, StUp).op, r)
    ensures CellGives(s, t, r)
  {
    assert s.orders + [] == s.orders;
  }

  lemma {:induction false} GivesWaiting(s: Ctx, t: Trigger, r: Operated)
    requires s.fsm == Waiting && OpShape(Prepared(s, t), Table(t, Waiting).op, r)
    ensures CellGives(s, t, r)
  {
    if Resumes(Waiting, t) {
      ResumeOp(t, Waiting);
      hide OpShape, Table;
      GivesResumed(s, t, r);
    } else if System.IsRequest(t) {
      AskedWaiting(s, t, r);
    } else {
      hide Resumption;
      assert s.orders + [] == s.orders;
    }
  }

  lemma {:induction false} AskedWaiting(s: Ctx, t: Trigger, r: Operated)
    requires s.fsm == Waiting && System.IsRequest(t) && OpShape(Prepared(s, t), Table(t, Waiting).op, r)
    ensures CellGives(s, t, r)
  {
    hide Resumption;
    assert s.orders + [] == s.orders;
  }

  lemma {:induction false} GivesDumping(s: Ctx, t: Trigger, r: Operated)
    requires s.fsm == Dumping && OpShape(Prepared(s, t), Table(t, Dumping).op, r)
    ensures CellGives(Cut(s, t), t, r)
  {
    if Resumes(Dumping, t) {
      ResumeOp(t, Dumping);
      hide OpShape, Table;
      GivesResumed(s, t, r);
    } else {
      hide Resumption, Recovery;
      assert s.orders + [] == s.orders;
    }
  }

  lemma {:induction false} GivesResumed(s: Ctx, t: Trigger, r: Operated)
    requires Resumes(s.fsm, t)
    requires Table(t, s.fsm) == Cell(None, if t == HalBusy then DumpError else if t == DumpSuccess then DumpEnd else Requested)
    requires OpShape(Prepared(s, t), Table(t, s.fsm).op, r)
    ensures CellGives(Cut(s, t), t, r)
  {
    hide Table;
    var s0 := Cut(s, t);
    assert s0.orders + [] == s0.orders;
    assert Resumption(s0, r) by {
      hide Recovery;
      ResumptionCut(Prepared(s, t), t, r);
    }
    assert Resumes(s0.fsm, t);
    assert Moved(s0, t, Waiting) == if s.flow.req == ReqStop then [Shutdown] else [];
    assert Moved(s0, t, Packaging) == [Package, Reset(false)] && Moved(s0, t, StDown) == [];
    assert Reached(s0, t, StDown) && Reached(s0, t, Packaging);
    assert s.flow.req == ReqNone || s.flow.req == ReqStop ==> Reached(s0, t, Waiting);
    hide Moved, Resumes, Reached;
  }

  lemma {:induction false} ResumptionCut(s: Ctx, t: Trigger, r: Operated)
    requires t == HalBusy || t == DumpSuccess || t == HalNeedReset || t == HalFlash || t == OpFailure
    requires OpShape(s, if t == HalBusy then DumpError else if t == DumpSuccess then DumpEnd else Requested, r)
    ensures Resumption(Cut(s, t), r)
  {
  }

  lemma {:induction false} CellGiven(s: Ctx, t: Trigger, e: Env)
    ensures CellGives(Cut(s, t), t, Operate(Prepared(s, t), Table(t, s.fsm).op, t, e)) || s.fsm != Dumping
    ensures CellGives(s, t, Operate(Prepared(s, t), Table(t, s.fsm).op, t, e)) || s.fsm == Dumping
  {
    hide Operate, Table, OpShape, CellGives;
    var s0, op := Prepared(s, t), Table(t, s.fsm).op;
    var r := Operate(s0, op, t, e);
    if System.TakesRequest(op) {
      AskShape(s0, op, t, e);
    } else {
      EventShape(s0, op, t, e);
    }
    match s.fsm
    case Packaging => GivesPackaging(s, t, r);
    case Flashing => GivesFlashing(s, t, r);
    case Customizing => GivesCustomizing(s, t, r);
    case StUp => GivesRunning(s, t, r);
    case Waiting => GivesWaiting(s, t, r);
    case Dumping => GivesDumping(s, t, r);
    case _ => GivesFrom(s, t, r);
  }

  lemma {:induction false} OrdersMove(s: Ctx, prev: State, next: State)
    ensures Transit(s, prev, next).Ok? ==> Transit(s, prev, next).ctx.orders == s.orders
  {
    hide Watchdog.GenScalar;
  }

  lemma {:induction false} FailureGiven(s: Ctx, t: Trigger, e: Env)
    ensures Operate(Prepared(s, t), Table(t, s.fsm).op, t, e).Ok? && Operate(Prepared(s, t), Table(t, s.fsm).op, t, e).ctx.1.Fail? ==>
              t == OpFailure && s.fsm != Dumping && Operate(Prepared(s, t), Table(t, s.fsm).op, t, e).ctx.0.orders == s.orders
  {
    hide Operate, Table;
    var s0, op := Prepared(s, t), Table(t, s.fsm).op;
    ControlFrame.FailsafeCells(t, s.fsm);
    if op.FailsafeOp? {
      ControlFrame.FailsafeRuns(s0, t, e);
      ControlFrame.QuietFailsafe(s0);
    } else if !op.OpFailed? {
      ControlFrame.QuietOps(s0, op, t, e);
    } else {
      hide OpShape;
      EventShape(s0, op, t, e);
      ControlFrame.FailedRuns(s0, t, e);
      FailedAdds(s0, Operate(s0, op, t, e));
    }
  }

  lemma {:induction false} StateKept(s: Ctx, op: Op, t: Trigger, e: Env)
    ensures Operate(s, op, t, e).Ok? ==> Operate(s, op, t, e).ctx.0.fsm == s.fsm
  {
    hide Operate, Failsafe;
    if op.FailsafeOp? {
      ControlFrame.FailsafeRuns(s, t, e);
      ControlFrame.QuietFailsafe(s);
    } else if op.OpFailed? {
      ControlFrame.FailedRuns(s, t, e);
    } else {
      ControlFrame.QuietOps(s, op, t, e);
    }
  }

  lemma {:induction false} FailedAdds(s: Ctx, r: Operated)
    requires OpShape(s, OpFailed, r) && r.Ok?
    ensures r.ctx.0.orders == s.orders
  {
  }

  /** One event: what is ordered follows from the states it leaves and enters. */
  lemma {:induction false} OrdersGiven(s: Ctx, t: Trigger, e: Env)
    requires Notify(s, t, e).Ok?
    ensures var c := Notify(s, t, e).ctx;
            c.orders == s.orders + Given(s, t, c.fsm) && Reached(s, t, c.fsm)
  {
    hide Operate, Table, Given, Transit, Prepare, Failsafe, IsReason;
    ControlFrame.PrepareQuiet(s, t);
    PrepareKeeps(s, t);
    var cell := Table(t, s.fsm);
    var (s1, ret) := Operate(Prepared(s, t), cell.op, t, e).ctx;
    CellGiven(s, t, e);
    FailureGiven(s, t, e);
    StateKept(Prepared(s, t), cell.op, t, e);
    FailsafeShape(s1);
    StoppedAdds(s1);
    var (s2, failsafe) := (if ret.Fail? then Failsafe(s1) else Ok((s1, Stay))).ctx;
    var next := NextState(s.fsm, cell.forced, ret, failsafe).value;
    OrdersMove(s2, s.fsm, next);
    assert s2.orders == s.orders + Given(s, t, next) && Reached(s, t, next) by {
      GivenParts(s, t, next);
    }
  }

  lemma {:induction false} StoppedAdds(s: Ctx)
    ensures Stopped(s).orders == s.orders + [Shutdown] && Stopped(s).fsm == s.fsm
  {
  }

  lemma {:induction false} GivenParts(s: Ctx, t: Trigger, next: State)
    ensures s.fsm == Dumping ==> Cut(s, t).orders + Moved(Cut(s, t), t, next) == s.orders + Given(s, t, next)
    ensures s.fsm != Dumping ==> s.orders + Moved(s, t, next) == s.orders + Given(s, t, next)
    ensures s.fsm != Dumping && t == OpFailure ==> Given(s, t, Waiting) == [Shutdown]
  {
    assert [] + Moved(s, t, next) == Moved(s, t, next);
  }

  // ---------------------------------------------------------------- runs

  datatype Service = HalService | Upload | Custo | Dump

  function ServiceOf(o: Order): Service {
    match o
    case Package => Upload
    case Flash => Upload
    case Customize => Custo
    case ReadDump => Dump
    case StopDump => Dump
    case _ => HalService
  }

  /** The last order given to a service. */
  function LastTo(log: seq<Order>, to: Service): Option<Order> {
    if log == [] then None
    else if ServiceOf(log[|log| - 1]) == to then Some(log[|log| - 1])
    else LastTo(log[..|log| - 1], to)
  }

  /** What must come before an order: nothing is uploaded that was not packaged since the last
      upload, the modem is powered on or reset right behind a packaging and booted behind an
      upload, and only a dump that is being read is stopped. */
  predicate Follows(before: seq<Order>, o: Order) {
    match o
    case Flash => LastTo(before, Upload) == Some(Package)
    case BootMdm => LastTo(before, Upload) == Some(Flash)
    case PowerOn => before != [] && before[|before| - 1] == Package
    case Reset(_) => before != [] && before[|before| - 1] == Package
    case StopDump => LastTo(before, Dump) == Some(ReadDump)
    case _ => true
  }

  predicate InOrder(log: seq<Order>) {
    forall k :: 0 <= k < |log| ==> Follows(log[..k], log[k])
  }

  /** The state and what was ordered last: a modem that is up or on its way was not told to stop
      since; a stop that is held while no reason is awaited was passed on. */
  predicate OrdersFit(c: Ctx) {
    var hal, upload := LastTo(c.orders, HalService), LastTo(c.orders, Upload);
    && InOrder(c.orders)
    && (hal == Some(Shutdown) ==> c.fsm == Waiting || c.fsm == StDown || c.fsm == Dumping)
    && (c.fsm == Waiting && c.flow.req == ReqStop && !c.flow.waitBusy ==> hal == Some(Shutdown))
    && (c.fsm == Packaging ==> upload == Some(Package))
    && (c.fsm == Flashing ==> upload == Some(Flash))
    && (c.fsm == Packaging || c.fsm == Flashing ==> hal.Some?)
    && (c.fsm == Dumping ==> LastTo(c.orders, Dump) == Some(ReadDump))
  }

  lemma {:induction false} LastMore(log: seq<Order>, o: Order, to: Service)
    ensures LastTo(log + [o], to) == if ServiceOf(o) == to then Some(o) else LastTo(log, to)
  {
    assert (log + [o])[..|log|] == log;
  }

  lemma {:induction false} OneMore(log: seq<Order>, o: Order)
    requires InOrder(log) && Follows(log, o)
    ensures InOrder(log + [o])
  {
    hide Follows;
    forall k | 0 <= k <= |log| ensures Follows((log + [o])[..k], (log + [o])[k]) {
      assert (log + [o])[..k] == log[..k] && log[..|log|] == log;
    }
  }

  lemma {:induction false} TwoMore(log: seq<Order>, o: Order)
    requires InOrder(log) && (o == PowerOn || o.Reset?)
    ensures InOrder(log + [Package, o])
    ensures LastTo(log + [Package, o], HalService) == Some(o) && LastTo(log + [Package, o], Upload) == Some(Package)
    ensures LastTo(log + [Package, o], Dump) == LastTo(log, Dump)
  {
    hide InOrder, LastTo;
    OneMore(log, Package);
    OneMore(log + [Package], o);
    assert log + [Package] + [o] == log + [Package, o];
    LastMore(log, Package, Upload);
    LastMore(log, Package, Dump);
    LastMore(log + [Package], o, HalService);
    LastMore(log + [Package], o, Upload);
    LastMore(log + [Package], o, Dump);
  }

  lemma {:induction false} OneOrder(log: seq<Order>, o: Order)
    requires InOrder(log) && Follows(log, o)
    ensures InOrder(log + [o])
    ensures forall to :: LastTo(log + [o], to) == if ServiceOf(o) == to then Some(o) else LastTo(log, to)
  {
    hide InOrder, Follows, LastTo;
    OneMore(log, o);
    forall to ensures LastTo(log + [o], to) == if ServiceOf(o) == to then Some(o) else LastTo(log, to) {
      LastMore(log, o, to);
    }
  }

  /** A stop held by a modem that waits, with no reason awaited, was passed on by this event. */
  lemma {:induction false} StopHeld(c: Ctx, t: Trigger, e: Env)
    requires WatchdogRuns.Ids(c) && Notify(c, t, e).Ok?
    ensures var c' := Notify(c, t, e).ctx;
            c'.fsm == Waiting && c'.flow.req == ReqStop && !c'.flow.waitBusy ==> StopsModem(c, t)
  {
    hide Notify;
    OrdersGiven(c, t, e);
    ControlFrame.BusyRemembered(c, t, e);
    ControlFrame.PreOpExact(c, t, e);
    if Resumes(c.fsm, t) && c.flow.req == ReqNone {
      Resumed(c, t, e);
    }
  }

  lemma {:induction false} NothingOrdered(c: Ctx)
    requires c.orders == [] && c.fsm == Initial
    ensures OrdersFit(c)
  {
  }

  /** The orders of a resumption. */
  lemma {:induction false} ResumedGives(c: Ctx, t: Trigger, next: State)
    requires Resumes(c.fsm, t) && (next == Waiting || next == Packaging || next == StDown)
    ensures c.orders + Given(c, t, next)
         == c.orders + (if t == HalBusy then [StopDump] else [])
            + match next
              case Waiting => if c.flow.req == ReqStop then [Shutdown] else []
              case Packaging => [Package, Reset(false)]
              case _ => []
  {
  }

  /** The orders of one move behind those given, the end of a dump aside. */
  lemma {:induction false} MovedFits(c: Ctx, t: Trigger, c': Ctx)
    requires OrdersFit(c) && c'.orders == c.orders + Moved(c, t, c'.fsm) && Reached(c, t, c'.fsm)
    requires c'.fsm == Waiting && c'.flow.req == ReqStop && !c'.flow.waitBusy ==> StopsModem(c, t)
    ensures OrdersFit(c')
  {
    hide InOrder, LastTo, StopsModem;
    var log := c.orders;
    assert log + [] == log;
    match c'.fsm
    case Packaging =>
      TwoMore(log, PowerOn);
      TwoMore(log, Reset(t == CliBackup));
    case Flashing =>
      if c.fsm == Packaging {
        OneOrder(log, Flash);
      } else {
        OneOrder(log, BootMdm);
      }
    case Customizing => OneOrder(log, Customize);
    case Dumping => OneOrder(log, ReadDump);
    case Waiting => OneOrder(log, Shutdown);
    case _ =>
  }

  /** The same behind the end of a dump that a busy event interrupts. */
  lemma {:induction false} CutFits(c: Ctx, c': Ctx)
    requires OrdersFit(c) && c.fsm == Dumping && c'.orders == c.orders + Given(c, HalBusy, c'.fsm)
    requires c'.fsm == Waiting || c'.fsm == Packaging || c'.fsm == StDown
    requires c'.fsm == Waiting && c'.flow.req == ReqStop && !c'.flow.waitBusy ==> StopsModem(c, HalBusy)
    ensures OrdersFit(c')
  {
    hide InOrder, LastTo, StopsModem;
    var log := c.orders + [StopDump];
    OneOrder(c.orders, StopDump);
    assert c'.orders == log + Moved(c, HalBusy, c'.fsm);
    assert log + [] == log;
    match c'.fsm
    case Packaging => TwoMore(log, Reset(false));
    case Waiting => OneOrder(log, Shutdown);
    case _ =>
  }

  lemma {:induction false} CutLeads(c: Ctx, e: Env)
    requires WatchdogRuns.Ids(c) && c.fsm == Dumping && Notify(c, HalBusy, e).Ok?
    ensures var st := Notify(c, HalBusy, e).ctx.fsm;
            st == Waiting || st == Packaging || st == StDown
  {
    hide Notify;
    Resumed(c, HalBusy, e);
  }

  /** Every event keeps the orders in order. */
  lemma {:induction false} EventFits(c: Ctx, t: Trigger, e: Env)
    requires WatchdogRuns.Ids(c) && OrdersFit(c) && Notify(c, t, e).Ok?
    ensures OrdersFit(Notify(c, t, e).ctx)
  {
    hide Notify, OrdersFit, Moved, StopsModem, Reached;
    var c' := Notify(c, t, e).ctx;
    OrdersGiven(c, t, e);
    StopHeld(c, t, e);
    if c.fsm == Dumping && t == HalBusy {
      CutLeads(c, e);
      CutFits(c, c');
    } else {
      assert [] + Moved(c, t, c'.fsm) == Moved(c, t, c'.fsm);
      MovedFits(c, t, c');
    }
  }
}
