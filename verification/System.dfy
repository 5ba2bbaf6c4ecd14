/**
 Client abstraction and control joined by their two FIFO queues: a request in flight is a
 token that neither side loses or duplicates.
 */
module System {
  import opened Common
  import opened Fsm
  import Cla
  import ClaRuns
  import Control
  import ControlFrame
  import Watchdog

  // ---------------------------------------------------------------- requests of client abstraction

  /** Each request sent raises `inProgress`, and nothing else does. */
  predicate Tokens(s: Cla.Ctx, s': Cla.Ctx) {
    && s.requests <= s'.requests
    && Bit(s'.inProgress) == Bit(s.inProgress) + |s'.requests| - |s.requests|
  }

  predicate OpTokens(s: Cla.Ctx, r: Cla.Operated) {
    r.Ok? ==> Tokens(s, r.ctx.0)
  }

  predicate Same(s: Cla.Ctx, s': Cla.Ctx) {
    s'.requests == s.requests && s'.inProgress == s.inProgress
  }

  lemma {:induction false} AskTokens(s: Cla.Ctx, s1: Cla.Ctx, r: Cla.Request, st: Cla.State, kind: Cla.RestartKind, dbg: bool)
    requires Same(s, s1)
    ensures OpTokens(s, Cla.AskThen(s1, r, st)) && OpTokens(s, Cla.RestartThen(s1, kind, dbg))
  {
  }

  lemma {:induction false} BroadcastSame(s: Cla.Ctx, e: Cla.Event, bad: Cla.Links)
    ensures Cla.NotifyAll(s, e, bad).Ok? ==>
              Same(s, Cla.NotifyAll(s, e, bad).ctx) && Cla.NotifyAll(s, e, bad).ctx.fake == s.fake
  {
    hide Cla.NotifyFrom;
  }

  lemma {:induction false} StopOrWaitTokens(s: Cla.Ctx, s1: Cla.Ctx)
    requires Same(s, s1)
    ensures OpTokens(s, Cla.StopOrWait(s1))
  {
    hide Cla.AskThen;
    if s1.book.numShut == 0 {
      AskTokens(s, s1, Cla.Stop, Cla.Stopping, s1.restart, s1.dbg);
    }
  }

  lemma {:induction false} RestartOrWaitTokens(s: Cla.Ctx, s1: Cla.Ctx)
    requires Same(s, s1)
    ensures OpTokens(s, Cla.RestartOrWait(s1))
  {
    hide Cla.RestartThen;
    if s1.book.numCold == 0 {
      AskTokens(s, s1, Cla.Stop, Cla.Stopping, s1.restart, s1.dbg);
    }
  }

  lemma {:induction false} ShutdownTokens(s: Cla.Ctx, bad: Cla.Links)
    ensures OpTokens(s, Cla.StartShutdown(s, bad))
  {
    hide Cla.NotifyAll, Cla.StopOrWait, Tokens;
    BroadcastSame(s, Cla.Shutdown, bad);
    var r1 := Cla.NotifyAll(s, Cla.Shutdown, bad);
    if r1.Ok? {
      BroadcastSame(r1.ctx, Cla.Down, bad);
      var r2 := if r1.ctx.fake then r1 else Cla.NotifyAll(r1.ctx, Cla.Down, bad);
      if r2.Ok? {
        StopOrWaitTokens(s, r2.ctx.(fake := true, modem := Cla.Off));
      }
    }
  }

  lemma {:induction false} RestartTokens(s0: Cla.Ctx, s: Cla.Ctx, bad: Cla.Links)
    requires Same(s0, s)
    ensures OpTokens(s0, Cla.StartRestart(s, bad))
  {
    hide Cla.NotifyAll, Cla.RestartOrWait, Tokens;
    BroadcastSame(s, Cla.Down, bad);
    var r1 := if s.modem == Cla.Busy then Ok(s) else Cla.FakeBusy(s, bad);
    if r1.Ok? {
      BroadcastSame(r1.ctx, Cla.ColdReset, bad);
      var r2 := Cla.NotifyAll(r1.ctx, Cla.ColdReset, bad);
      if r2.Ok? {
        RestartOrWaitTokens(s0, r2.ctx);
      }
    }
  }

  lemma {:induction false} OpsTokens(s: Cla.Ctx, op: Cla.Op, t: Cla.Trigger, bad: Cla.Links)
    ensures OpTokens(s, Cla.Operate(s, op, t, bad))
  {
    hide Cla.StartShutdown, Cla.StartRestart, Cla.AskThen, Cla.RestartThen;
    ShutdownTokens(s, bad);
    RestartTokens(s, s, bad);
    AskTokens(s, s, Cla.Start, Cla.Starting, s.restart, s.dbg);
    AskTokens(s, s, Cla.Stop, Cla.Stopping, Cla.ModemRestart, false);
    match op
    case OnBusy => RestartTokens(s, s.(restart := Cla.ModemRestart), bad);
    case AckedShut =>
      AskTokens(s, s.(fake := false, modem := s.reported), Cla.Stop, Cla.Stopping, Cla.ModemRestart, false);
    case _ =>
  }

  /** Any event moves `inProgress` by the requests it sends. */
  lemma {:induction false} EventTokens(s0: Cla.Ctx, s: Cla.Ctx, t: Cla.Trigger, bad: Cla.Links)
    requires Same(s0, s)
    ensures Cla.Notify(s, t, bad).Ok? ==> Tokens(s0, Cla.Notify(s, t, bad).ctx)
  {
    hide Cla.Operate, Cla.Table;
    OpsTokens(s, Cla.Table(t, s.fsm).op, t, bad);
  }

  lemma {:induction false} ChangeTokens(s0: Cla.Ctx, s: Cla.Ctx, m: Cla.Mdm, silent: bool, bad: Cla.Links)
    requires Same(s0, s) && (m == Cla.Off || m == Cla.Unresp || m == Cla.Busy || m == Cla.Ready)
    ensures Cla.ChangeState(s, m, silent, bad).Ok? ==> Tokens(s0, Cla.ChangeState(s, m, silent, bad).ctx)
  {
    hide Cla.Notify, Cla.NotifyAll, Tokens;
    BroadcastSame(s, Cla.ToEvent(m), bad);
    var tell := !silent && (s.modem == Cla.Unknown || Cla.ToEvent(m) != Cla.ToEvent(s.modem));
    var r := if tell then Cla.NotifyAll(s, Cla.ToEvent(m), bad) else Ok(s);
    if r.Ok? {
      EventTokens(s0, r.ctx.(modem := m), Cla.TriggerOf(m), bad);
    }
  }

  lemma {:induction false} ControlMsgTokens(s: Cla.Ctx, m: Cla.ControlMsg, bad: Cla.Links)
    requires Cla.FromControl(m) && Cla.HandleControlMsg(s, m, bad).Ok?
    ensures Tokens(if m.Result? then s.(inProgress := false) else s, Cla.HandleControlMsg(s, m, bad).ctx)
  {
    hide Cla.Notify, Cla.NotifyAll, Cla.ChangeState;
    match m
    case Result(ok) =>
      var s1 := s.(inProgress := false);
      EventTokens(s1, s1, if ok then Cla.Success else Cla.Failure, bad);
    case NotifyClient(e) => BroadcastSame(s, e, bad);
    case ModemState(mdm) =>
      var silent := mdm == Cla.PlatformReboot;
      var m1 := if silent then Cla.Unresp else mdm;
      ChangeTokens(s, Cla.Record(s, m1, silent).(fake := false), m1, silent, bad);
  }

  lemma {:induction false} BookTokens(s: Cla.Ctx, r: Outcome<Cla.Book, Cla.Assertion>)
    ensures Cla.WithBook(s, r).Ok? ==> Tokens(s, Cla.WithBook(s, r).ctx)
  {
  }

  lemma {:induction false} PlainTokens(s: Cla.Ctx, bad: Cla.Links)
    ensures Tokens(s, s) && Tokens(s, s.(reject := true, book := s.book.(numAcquired := 0), shutdownSeen := true))
    ensures Cla.NotifyAll(s, Cla.DbgInfo, bad).Ok? ==> Tokens(s, Cla.NotifyAll(s, Cla.DbgInfo, bad).ctx)
  {
    hide Cla.NotifyAll;
    BroadcastSame(s, Cla.DbgInfo, bad);
  }

  lemma {:induction false} ClientMsgTokens(s: Cla.Ctx, i: nat, m: Cla.ClientMsg, bad: Cla.Links)
    requires i < |s.book.clients| && Cla.HandleClientMsg(s, i, m, bad).Ok?
    ensures Tokens(s, Cla.HandleClientMsg(s, i, m, bad).ctx)
  {
    hide Tokens, Cla.Notify, Cla.NotifyAll, Cla.WithBook, Cla.Unregister, Cla.HandleSlotMsg, Cla.HandleRegister;
    PlainTokens(s, bad);
    if i in s.book.toClean {
    } else if (m.Register? && m.debug != s.sanity) || (!m.Register? && !s.book.clients[i].registered) {
      BookTokens(s, Cla.Unregister(s.book, i));
    } else {
      match m
      case Register(_, events) => BookTokens(s, Cla.HandleRegister(s.book, i, events, s.modem, bad));
      case AskRestart(cause, dbg) =>
        var kind := if cause == Cla.MdmErr then Cla.ModemRestart else Cla.ModemUpdate;
        EventTokens(s, s.(restart := kind, dbg := dbg), Cla.CliRestart, bad);
      case AskBackup => EventTokens(s, s.(restart := Cla.BackupNvm), Cla.CliRestart, bad);
      case NotifyDbg =>
      case AskShutdown =>
      case UnknownId =>
      case _ => BookTokens(s, Cla.HandleSlotMsg(s.book, i, m, s.reject));
    }
  }

  lemma {:induction false} TurnTokens(s: Cla.Ctx, p: Cla.Phase, bad: Cla.Links)
    requires p.Iter? && Cla.FinishTurn(s, p, bad).Ok?
    ensures Tokens(s, Cla.FinishTurn(s, p, bad).ctx)
  {
    hide Cla.Notify;
    EventTokens(s, s, Cla.CliRelease, bad);
    EventTokens(s, s, Cla.CliAcquire, bad);
    EventTokens(s, s, Cla.CliAcked, bad);
    EventTokens(s, s.(restart := Cla.NoRestart), Cla.CliAcked, bad);
  }

  lemma {:induction false} ElapseTokens(s0: Cla.Ctx, s: Cla.Ctx, ack: bool, bad: Cla.Links)
    requires Same(s0, s) && Cla.ElapseAck(s, ack, bad).Ok?
    ensures Tokens(s0, Cla.ElapseAck(s, ack, bad).ctx)
  {
    hide Cla.Notify, Cla.ClearAcks;
    EventTokens(s0, s.(book := Cla.ClearAcks(s.book)), Cla.CliAcked, bad);
  }

  lemma {:induction false} LocalTokens(l: Cla.Loop, i: Cla.Input, bad: Cla.Links)
    requires Cla.Enabled(l, i) && Cla.Step(l, i, bad).Ok?
    requires i.EnterPoll? || i.PollReturns? || i.Turn? || i.Accept? || i.EndScan?
    ensures Same(l.ctx, Cla.Step(l, i, bad).ctx.ctx)
  {
    hide Cla.Unmarked, Cla.ElapseAck, Cla.HandleControlMsg, Cla.HandleClientMsg, Cla.FinishTurn, Cla.Unregister;
  }

  /** Each step of the loop moves `inProgress` by the requests it sends; a result clears it. */
  lemma {:induction false} StepTokens(l: Cla.Loop, i: Cla.Input, bad: Cla.Links)
    requires Cla.Enabled(l, i) && Cla.Step(l, i, bad).Ok?
    ensures Tokens(if i.Control? && i.msg.Result? then l.ctx.(inProgress := false) else l.ctx, Cla.Step(l, i, bad).ctx.ctx)
  {
    hide Cla.ElapseAck, Cla.HandleControlMsg, Cla.HandleClientMsg, Cla.FinishTurn, Cla.Unregister, Cla.WithBook;
    if i.EnterPoll? || i.PollReturns? || i.Turn? || i.Accept? || i.EndScan? {
      hide Cla.Step;
      LocalTokens(l, i, bad);
      return;
    }
    match i
    case Control(m) => ControlMsgTokens(l.ctx, m, bad);
    case FromClient(c, m) => ClientMsgTokens(l.ctx, c, m, bad);
    case Lost(c) => BookTokens(l.ctx, Cla.Unregister(l.ctx.book, c));
    case EndTurn => TurnTokens(l.ctx, l.phase, bad);
    case PollTimesOut(bootLeft) =>
      ElapseTokens(l.ctx, if l.phase.boot then l.ctx.(bootArmed := bootLeft > 0) else l.ctx, l.phase.ack, bad);
    case _ =>
  }

  // ---------------------------------------------------------------- results of control

  /** Results in a queue of messages to client abstraction. */
  function Results(q: seq<Cla.ControlMsg>): nat {
    if q == [] then 0 else Bit(q[0].Result?) + Results(q[1..])
  }

  /** Client requests in the event queue of control. */
  function Requests(q: seq<Control.Trigger>): nat {
    if q == [] then 0 else Bit(IsRequest(q[0])) + Requests(q[1..])
  }

  predicate IsRequest(t: Control.Trigger) {
    t == Control.CliStart || t == Control.CliStop || t == Control.CliReset || t == Control.CliUpdate
    || t == Control.CliBackup
  }

  lemma {:induction false} ResultsAdd(p: seq<Cla.ControlMsg>, q: seq<Cla.ControlMsg>)
    ensures Results(p + q) == Results(p) + Results(q)
  {
    if p == [] {
      assert p + q == q;
    } else {
      assert (p + q)[1..] == p[1..] + q;
      ResultsAdd(p[1..], q);
    }
  }

  lemma {:induction false} RequestsAdd(p: seq<Control.Trigger>, q: seq<Control.Trigger>)
    ensures Requests(p + q) == Requests(p) + Requests(q)
  {
    if p == [] {
      assert p + q == q;
    } else {
      assert (p + q)[1..] == p[1..] + q;
      RequestsAdd(p[1..], q);
    }
  }

  /** Requests held plus results sent grow by `taken`; the log to client abstraction grows. */
  predicate Balance(s: Control.Ctx, s': Control.Ctx, taken: nat) {
    && s.toCla <= s'.toCla
    && Results(s'.toCla) + Bit(s'.flow.req != Control.ReqNone)
       == Results(s.toCla) + Bit(s.flow.req != Control.ReqNone) + taken
    && (forall j :: |s.toCla| <= j < |s'.toCla| ==> Cla.FromControl(s'.toCla[j]))
  }

  predicate OpBalance(s: Control.Ctx, r: Control.Operated, taken: nat) {
    r.Ok? ==> Balance(s, r.ctx.0, taken)
  }

  lemma {:induction false} TellBalance(s: Control.Ctx, m: Cla.ControlMsg)
    requires Cla.FromControl(m)
    ensures Results(Control.Tell(s, m).toCla) == Results(s.toCla) + Bit(m.Result?)
    ensures !m.Result? ==> Balance(s, Control.Tell(s, m), 0)
  {
    ResultsAdd(s.toCla, [m]);
    assert [m][1..] == [];
  }

  lemma {:induction false} ResultBalance(s: Control.Ctx, ok: bool)
    ensures Balance(s, Control.NotifyResult(s, ok), 0) && Control.NotifyResult(s, ok).flow.req == Control.ReqNone
  {
    TellBalance(s.(flow := s.flow.(req := Control.ReqNone)), Cla.Result(ok));
  }

  lemma {:induction false} BalanceTrans(s: Control.Ctx, s1: Control.Ctx, s2: Control.Ctx, a: nat, b: nat)
    requires Balance(s, s1, a) && Balance(s1, s2, b)
    ensures Balance(s, s2, a + b)
  {
  }

  lemma {:induction false} DbgBalance(s: Control.Ctx, report: bool)
    ensures Control.NotifyDbg(s, report).Ok? ==>
              Balance(s, Control.NotifyDbg(s, report).ctx, 0) && Control.NotifyDbg(s, report).ctx.flow == s.flow
  {
    TellBalance(s, Cla.NotifyClient(Cla.DbgInfo));
  }

  /** Every way out of service answers the pending request exactly once. */
  lemma {:induction false} EndBalance(s: Control.Ctx)
    ensures OpBalance(s, Control.SetOos(s), 0) && OpBalance(s, Control.PlatformReboot(s), 0)
    ensures Control.SetOos(s) != Abort(Control.ClientRequest)
    ensures Control.PlatformReboot(s) != Abort(Control.ClientRequest)
  {
    EndAbort(s);
    hide Balance, Control.NotifyDbg, Control.NotifyResult, Control.Tell;
    DbgBalance(s, true);
    var r := Control.NotifyDbg(s, true);
    if r.Ok? {
      var s1 := Control.Tell(r.ctx, Cla.ModemState(Cla.Unresp));
      TellBalance(r.ctx, Cla.ModemState(Cla.Unresp));
      ResultBalance(s1, false);
      BalanceTrans(s, r.ctx, s1, 0, 0);
      BalanceTrans(s, s1, Control.NotifyResult(s1, false), 0, 0);
      OosBalance(s, Control.NotifyResult(s1, false), 0);
      var d := Control.Tell(r.ctx, Cla.NotifyClient(Cla.DbgInfo));
      var s2 := Control.Tell(d, Cla.ModemState(Cla.PlatformReboot));
      TellBalance(r.ctx, Cla.NotifyClient(Cla.DbgInfo));
      TellBalance(d, Cla.ModemState(Cla.PlatformReboot));
      ResultBalance(s2, false);
      BalanceTrans(s, r.ctx, d, 0, 0);
      BalanceTrans(s, d, s2, 0, 0);
      BalanceTrans(s, s2, Control.NotifyResult(s2, false), 0, 0);
      OosBalance(s, Control.NotifyResult(s2, false), 0);
    }
  }

  lemma {:induction false} EndAbort(s: Control.Ctx)
    ensures Control.SetOos(s) != Abort(Control.ClientRequest)
    ensures Control.PlatformReboot(s) != Abort(Control.ClientRequest)
  {
  }

  lemma {:induction false} OosBalance(s: Control.Ctx, s1: Control.Ctx, n: nat)
    requires Balance(s, s1, n)
    ensures Balance(s, s1.(oos := true), n)
  {
  }

  lemma {:induction false} EscalateBalance(s: Control.Ctx, param: bool, step: Control.Step, backup: bool)
    ensures OpBalance(s, Control.Escalate(s, param, step), 0)
    ensures OpBalance(s, Control.MdmRestart(s, param, backup), 0)
  {
    hide Control.SetOos, Control.PlatformReboot, Control.NotifyDbg;
    var s1 := Control.StoreDbg(s, param);
    EndBalance(s1);
    DbgBalance(s1, true);
    DbgBalance(s, param);
  }

  lemma {:induction false} CfgBalance(s: Control.Ctx, tlvs: bool)
    ensures OpBalance(s, Control.MdmCfg(s, tlvs), 0) && Control.MdmCfg(s, tlvs).Ok?
  {
    hide Control.Tell, Control.NotifyResult;
    var s1 := s.(flow := s.flow.(flashDone := false, runIpc := false));
    ResultBalance(s1, true);
    TellBalance(Control.NotifyResult(s1, true), Cla.ModemState(Cla.Ready));
  }

  predicate TakesRequest(op: Control.Op) {
    op.RequestStart? || op.AskStop? || op.AskReset? || op.AskResetTimer? || op.AskUpdate? || op.AskBackup?
    || op.AcceptStop? || op.AcceptReset?
  }

  /** Operations that take a request hold it or answer it; the others only answer. */
  lemma {:induction false} TakeBalance(s: Control.Ctx, op: Control.Op, t: Control.Trigger, e: Control.Env)
    requires TakesRequest(op)
    ensures OpBalance(s, Control.Operate(s, op, t, e), 1)
    ensures Control.Operate(s, op, t, e) == Abort(Control.ClientRequest) ==> s.flow.req != Control.ReqNone
  {
    hide Control.Escalate, Control.MdmRestart, Control.NotifyResult, Results;
    match op
    case RequestStart => ResultBalance(s.(flow := s.flow.(req := Control.ReqStart)), false);
    case AskReset => TakenReset(s, s.dbg.(evt := s.dbg.evt || e.param), e.next, false);
    case AskUpdate => TakenReset(s, s.dbg.(noReport := true), e.next, false);
    case AskBackup => TakenReset(s, s.dbg, e.next, true);
    case _ =>
  }

  /** A reset request that is served at once. */
  lemma {:induction false} TakenReset(s: Control.Ctx, dbg: Control.Dbg, step: Control.Step, backup: bool)
    ensures var s1 := s.(flow := s.flow.(req := Control.ReqReset), dbg := dbg);
            && Control.Escalate(s1, false, step) != Abort(Control.ClientRequest)
            && Control.MdmRestart(s1, false, backup) != Abort(Control.ClientRequest)
            && (s.flow.req == Control.ReqNone ==>
                  OpBalance(s, Control.Escalate(s1, false, step), 1) && OpBalance(s, Control.MdmRestart(s1, false, backup), 1))
  {
    hide Control.Escalate, Control.MdmRestart, Results;
    var s1 := s.(flow := s.flow.(req := Control.ReqReset), dbg := dbg);
    EscalateBalance(s1, false, step, backup);
    RestartAbort(s1, false, step, backup);
  }

  lemma {:induction false} RestartAbort(s: Control.Ctx, b: bool, step: Control.Step, backup: bool)
    ensures Control.Escalate(s, b, step) != Abort(Control.ClientRequest)
    ensures Control.MdmRestart(s, b, backup) != Abort(Control.ClientRequest)
  {
  }

  lemma {:induction false} RequestedBalance(s: Control.Ctx, param: bool, step: Control.Step)
    ensures OpBalance(s, Control.RequestedOperation(s, param, step), 0)
    ensures Control.RequestedOperation(s, param, step) != Abort(Control.ClientRequest)
  {
    hide Control.Escalate;
    EscalateBalance(Control.StoreDbg(s, param), false, step, false);
    RestartAbort(Control.StoreDbg(s, param), false, step, false);
  }

  lemma {:induction false} AnswerBalance(s: Control.Ctx, op: Control.Op, t: Control.Trigger, e: Control.Env)
    requires op.NotifyOff? || op.NotifyUnresp? || op.FlashFailed? || op.RunInitial? || op.Run? || op.FlashSuccess?
    ensures OpBalance(s, Control.Operate(s, op, t, e), 0)
    ensures Control.Operate(s, op, t, e) != Abort(Control.ClientRequest)
  {
    hide Control.MdmCfg, Control.NotifyResult, Control.Tell, Control.SetOos, Control.PlatformReboot, Results;
    match op
    case NotifyOff =>
      ResultBalance(s, true);
      TellBalance(Control.NotifyResult(s, true), Cla.ModemState(Cla.Off));
    case NotifyUnresp => EndAnswers(s, e.param);
    case FlashFailed => EndAnswers(s, e.param);
    case _ =>
      CfgAnswers(s, true, true, e.tlvs);
      CfgAnswers(s, true, s.flow.flashDone, e.tlvs);
      CfgAnswers(s, s.flow.runIpc, true, e.tlvs);
      CfgAnswers(Control.Command(s, [Control.BootMdm]), s.flow.runIpc, true, e.tlvs);
  }

  lemma {:induction false} EndAnswers(s: Control.Ctx, param: bool)
    ensures var s1 := Control.StoreDbg(s, param);
            && OpBalance(s, Control.SetOos(s1), 0) && OpBalance(s, Control.PlatformReboot(s1), 0)
            && Control.SetOos(s1) != Abort(Control.ClientRequest)
            && Control.PlatformReboot(s1) != Abort(Control.ClientRequest)
  {
    hide Control.SetOos, Control.PlatformReboot, Results;
    EndBalance(Control.StoreDbg(s, param));
  }

  lemma {:induction false} CfgAnswers(s: Control.Ctx, runIpc: bool, flashDone: bool, tlvs: bool)
    ensures var s1 := s.(flow := s.flow.(runIpc := runIpc, flashDone := flashDone));
            OpBalance(s, Control.MdmCfg(s1, tlvs), 0) && Control.MdmCfg(s1, tlvs).Ok?
  {
    hide Control.MdmCfg, Results;
    CfgBalance(s.(flow := s.flow.(runIpc := runIpc, flashDone := flashDone)), tlvs);
  }

  lemma {:induction false} ResumeBalance(s: Control.Ctx, op: Control.Op, t: Control.Trigger, e: Control.Env)
    requires op.Escalation? || op.Requested? || op.DumpEnd? || op.DumpError? || op.TlvDone?
    ensures OpBalance(s, Control.Operate(s, op, t, e), 0)
    ensures Control.Operate(s, op, t, e) != Abort(Control.ClientRequest)
  {
    hide Control.Escalate, Control.RequestedOperation, Control.Tell, Control.MdmRestart;
    var s1 := Control.Tell(s, Cla.NotifyClient(Cla.DbgInfo));
    TellBalance(s, Cla.NotifyClient(Cla.DbgInfo));
    match op
    case Escalation =>
      EscalateBalance(s, e.param, e.next, false);
      RestartAbort(s, e.param, e.next, false);
    case DumpError =>
      var s0 := Control.Command(s, [Control.StopDump]);
      TellBalance(s0, Cla.NotifyClient(Cla.DbgInfo));
      RequestedBalance(Control.Tell(s0, Cla.NotifyClient(Cla.DbgInfo)), false, e.next);
    case TlvDone =>
      EscalateBalance(s1, false, e.next, false);
      RestartAbort(s1, false, e.next, false);
    case _ => RequestedBalance(s, e.param, e.next);
  }

  lemma {:induction false} OpsBalance(s: Control.Ctx, op: Control.Op, t: Control.Trigger, e: Control.Env)
    requires !op.FailsafeOp?
    ensures OpBalance(s, Control.Operate(s, op, t, e), Bit(TakesRequest(op)))
    ensures Control.Operate(s, op, t, e) == Abort(Control.ClientRequest) ==>
              TakesRequest(op) && s.flow.req != Control.ReqNone
  {
    if TakesRequest(op) {
      hide Control.Operate;
      TakeBalance(s, op, t, e);
    } else {
      match op
      case Nop => case Assert =>
      case FlashEvt => case FwReady => case MdmStop =>
      case NotifyBusy => TellBalance(s, Cla.ModemState(Cla.Busy));
      case OpFailed => TellBalance(s, Cla.NotifyClient(Cla.DbgInfo));
      case DumpStart => TellBalance(s.(dbg := s.dbg.(noReport := true)), Cla.NotifyClient(Cla.DbgInfo));
      case _ =>
        hide Control.Operate;
        if op.Escalation? || op.Requested? || op.DumpEnd? || op.DumpError? || op.TlvDone? {
          ResumeBalance(s, op, t, e);
        } else {
          AnswerBalance(s, op, t, e);
        }
    }
  }

  /** The two cases in which control breaks the exchange: a failed operation outside a dump
      injects a stop that nobody asked for, and a backup asked during a dump is dropped. */
  predicate Regular(t: Control.Trigger, st: Control.State) {
    !(t == Control.OpFailure && st != Control.Dumping) && !(t == Control.CliBackup && st == Control.Dumping)
  }

  lemma {:induction false} TransitBalance(s: Control.Ctx, prev: Control.State, next: Control.State)
    ensures Control.Transit(s, prev, next) != Abort(Control.ClientRequest)
    ensures Control.Transit(s, prev, next).Ok? ==>
              Control.Transit(s, prev, next).ctx.toCla == s.toCla && Control.Transit(s, prev, next).ctx.flow == s.flow
  {
    hide Watchdog.GenScalar;
  }

  lemma {:induction false} PrepareBalance(s: Control.Ctx, t: Control.Trigger)
    ensures Control.Prepare(s, t) != Abort(Control.ClientRequest)
    ensures Control.Prepare(s, t).Ok? ==>
              && Control.Prepare(s, t).ctx.toCla == s.toCla
              && Control.Prepare(s, t).ctx.flow.req == s.flow.req
              && Control.Prepare(s, t).ctx.fsm == s.fsm
  {
  }

  lemma {:induction false} RegularCells(t: Control.Trigger, st: Control.State)
    requires Regular(t, st)
    ensures var op := Control.Table(t, st).op;
            !op.FailsafeOp? && !op.OpFailed? && (op.Assert? || TakesRequest(op) == IsRequest(t))
  {
  }

  /** One event of control, in the regular cases: a request is taken or answered, any other
      event at most answers, and a second request is the only cause of `ClientRequest`. */
  lemma {:induction false} NotifyBalance(s: Control.Ctx, t: Control.Trigger, e: Control.Env)
    requires Regular(t, s.fsm)
    ensures Control.Notify(s, t, e).Ok? ==> Balance(s, Control.Notify(s, t, e).ctx, Bit(IsRequest(t)))
    ensures Control.Notify(s, t, e) == Abort(Control.ClientRequest) ==> IsRequest(t) && s.flow.req != Control.ReqNone
  {
    hide Control.Operate, Control.Failsafe, Control.Prepare, Control.Transit, Control.Table, IsRequest;
    var cell := Control.Table(t, s.fsm);
    RegularCells(t, s.fsm);
    PrepareBalance(s, t);
    var r0 := Control.Prepare(s, t);
    if r0.Ok? {
      OpsBalance(r0.ctx, cell.op, t, e);
      var r1 := Control.Operate(r0.ctx, cell.op, t, e);
      if r1.Ok? {
        ControlFrame.QuietOps(r0.ctx, cell.op, t, e);
        ControlFrame.AssertRuns(r0.ctx, t, e);
        if !r1.ctx.1.Fail? {
          var next := NextState(s.fsm, cell.forced, r1.ctx.1, Stay);
          TransitBalance(r1.ctx.0, s.fsm, next.value);
        }
      }
    }
  }

  lemma {:induction false} FailsafeBalance(s: Control.Ctx)
    ensures OpBalance(s, Control.Failsafe(s), 1)
    ensures Control.Failsafe(s).Ok? && Control.Failsafe(s).ctx.1 == Goto(Control.Waiting)
  {
    ResultBalance(s, false);
  }

  lemma {:induction false} BackupDropped(s: Control.Ctx, e: Control.Env)
    requires s.fsm == Control.Dumping
    ensures Control.Notify(s, Control.CliBackup, e) == Ok(s)
  {
  }

  /** A failed operation, unfolded to its stop request. */
  lemma {:induction false} FailureUnfolds(s: Control.Ctx, e: Control.Env) returns (s1: Control.Ctx)
    requires s.fsm != Control.Dumping && Control.Notify(s, Control.OpFailure, e).Ok?
    ensures s1 == (if s.fsm == Control.Customizing then Control.Tell(s, Cla.NotifyClient(Cla.DbgInfo)) else s)
    ensures var s2 := Control.Failsafe(s1).ctx.0;
            var c := Control.Notify(s, Control.OpFailure, e).ctx;
            if s.fsm == Control.Waiting then c == s2
            else Control.Transit(s2, s.fsm, Control.Waiting).Ok?
                 && c == Control.Transit(s2, s.fsm, Control.Waiting).ctx.(fsm := Control.Waiting)
  {
    hide Control.Failsafe, Control.Transit;
    s1 := if s.fsm == Control.Customizing then Control.Tell(s, Cla.NotifyClient(Cla.DbgInfo)) else s;
    FailsafeBalance(s1);
  }

  /** A failed operation that control survives leaves one request too many. */
  lemma {:induction false} FailureBalance(s: Control.Ctx, e: Control.Env)
    requires s.fsm != Control.Dumping && Control.Notify(s, Control.OpFailure, e).Ok?
    ensures Balance(s, Control.Notify(s, Control.OpFailure, e).ctx, 1)
  {
    hide Control.Failsafe, Control.Transit, Control.Notify;
    var s1 := FailureUnfolds(s, e);
    FailsafeBalance(s1);
    TellBalance(s, Cla.NotifyClient(Cla.DbgInfo));
    if s1 != s {
      BalanceTrans(s, s1, Control.Failsafe(s1).ctx.0, 0, 1);
    }
    TransitBalance(Control.Failsafe(s1).ctx.0, s.fsm, Control.Waiting);
  }

  /** `Regular` is exact: any other event that control survives unbalances the exchange. */
  lemma {:induction false} IrregularBreaks(s: Control.Ctx, t: Control.Trigger, e: Control.Env)
    requires !Regular(t, s.fsm) && Control.Notify(s, t, e).Ok?
    ensures !Balance(s, Control.Notify(s, t, e).ctx, Bit(IsRequest(t)))
  {
    hide Control.Notify;
    if t == Control.CliBackup {
      BackupDropped(s, e);
    } else {
      FailureBalance(s, e);
    }
  }

  // ---------------------------------------------------------------- both machines

  /** Client abstraction and control with the queue of control (its events, requests mixed
      with those of HAL and the services) and the queue of client abstraction. */
  datatype Sys = Sys(cla: Cla.Loop, ctl: Control.Ctx, toCtl: seq<Control.Trigger>, toCla: seq<Cla.ControlMsg>)

  /** One move: a step of the loop of client abstraction, the next event of control, the expiry
      of control's timer, an event posted to control by somebody else, or an event for the clients
      that the thread of another service puts straight into the queue of client abstraction. */
  datatype Move =
    | MoveCla(input: Cla.Input, bad: Cla.Links)
    | MoveCtl(env: Control.Env)
    | CtlTimer(env: Control.Env)
    | Post(event: Control.Trigger)
    | Relay(passed: Cla.Event)

  function AsTrigger(r: Cla.Request): Control.Trigger {
    match r
    case Start => Control.CliStart
    case Stop => Control.CliStop
    case Restart(kind) =>
      match kind
      case ModemUpdate => Control.CliUpdate
      case BackupNvm => Control.CliBackup
      case _ => Control.CliReset
  }

  function AsTriggers(rs: seq<Cla.Request>): seq<Control.Trigger> {
    if rs == [] then [] else [AsTrigger(rs[0])] + AsTriggers(rs[1..])
  }

  lemma {:induction false} AllRequests(rs: seq<Cla.Request>)
    ensures Requests(AsTriggers(rs)) == |rs|
  {
    if rs != [] {
      AllRequests(rs[1..]);
      assert AsTriggers(rs)[1..] == AsTriggers(rs[1..]);
    }
  }

  predicate CanMove(y: Sys, v: Move) {
    match v
    case MoveCla(i, _) => Cla.Enabled(y.cla, i) && (i.Control? ==> y.toCla != [] && i.msg == y.toCla[0])
    case MoveCtl(_) => y.toCtl != [] && Regular(y.toCtl[0], y.ctl.fsm)
    case CtlTimer(_) => y.ctl.timerArmed
    case Post(t) => !IsRequest(t)
    case Relay(e) => Cla.FromControl(Cla.NotifyClient(e))
  }

  datatype Stop = AtCla(cla: Cla.Assertion) | AtCtl(ctl: Control.Assertion)

  function Moved(y: Sys, v: Move): Outcome<Sys, Stop>
    requires CanMove(y, v)
  {
    match v
    case MoveCla(i, bad) =>
      (match Cla.Step(y.cla, i, bad)
       case Abort(why) => Abort(AtCla(why))
       case Ok(l) =>
         var sent := if |y.cla.ctx.requests| <= |l.ctx.requests| then l.ctx.requests[|y.cla.ctx.requests|..] else [];
         Ok(y.(cla := l, toCtl := y.toCtl + AsTriggers(sent), toCla := if i.Control? then y.toCla[1..] else y.toCla)))
    case MoveCtl(e) => AfterControl(y.(toCtl := y.toCtl[1..]), Control.Notify(y.ctl, y.toCtl[0], e))
    case CtlTimer(e) => AfterControl(y, Control.Notify(y.ctl, Control.Timeout, e))
    case Post(t) => Ok(y.(toCtl := y.toCtl + [t]))
    case Relay(e) => Ok(y.(toCla := y.toCla + [Cla.NotifyClient(e)]))
  }

  function AfterControl(y: Sys, r: Control.Handled): Outcome<Sys, Stop> {
    match r
    case Abort(why) => Abort(AtCtl(why))
    case Ok(c) =>
      var told := if |y.ctl.toCla| <= |c.toCla| then c.toCla[|y.ctl.toCla|..] else [];
      Ok(y.(ctl := c, toCla := y.toCla + told))
  }

  /** The token: a request in flight, held by control, or answered. */
  function Token(y: Sys): nat {
    Requests(y.toCtl) + Bit(y.ctl.flow.req != Control.ReqNone) + Results(y.toCla)
  }

  predicate TokenOk(y: Sys) {
    && Token(y) == Bit(y.cla.ctx.inProgress)
    && (forall j :: 0 <= j < |y.toCla| ==> Cla.FromControl(y.toCla[j]))
  }

  lemma {:induction false} ClaMoveKeeps(y: Sys, i: Cla.Input, bad: Cla.Links)
    requires TokenOk(y) && CanMove(y, MoveCla(i, bad)) && Moved(y, MoveCla(i, bad)).Ok?
    ensures TokenOk(Moved(y, MoveCla(i, bad)).ctx)
  {
    hide Cla.Step, Cla.Enabled, IsRequest, Requests, AsTriggers;
    StepTokens(y.cla, i, bad);
    var l := Cla.Step(y.cla, i, bad).ctx;
    var sent := l.ctx.requests[|y.cla.ctx.requests|..];
    AllRequests(sent);
    RequestsAdd(y.toCtl, AsTriggers(sent));
  }

  lemma {:induction false} CtlMoveKeeps(y: Sys, t: Control.Trigger, e: Control.Env)
    requires Regular(t, y.ctl.fsm) && (forall j :: 0 <= j < |y.toCla| ==> Cla.FromControl(y.toCla[j]))
    requires Token(y) + Bit(IsRequest(t)) == Bit(y.cla.ctx.inProgress)
    ensures var r := AfterControl(y, Control.Notify(y.ctl, t, e));
            && r != Abort(AtCtl(Control.ClientRequest))
            && (r.Ok? ==> TokenOk(r.ctx))
  {
    hide Control.Notify, IsRequest, Requests;
    NotifyBalance(y.ctl, t, e);
    var r := Control.Notify(y.ctl, t, e);
    if r.Ok? {
      var told := r.ctx.toCla[|y.ctl.toCla|..];
      ResultsAdd(y.toCla, told);
      ResultsAdd(y.ctl.toCla, told);
      assert y.ctl.toCla + told == r.ctx.toCla;
    }
  }

  /** An event that is not regular adds a token or loses one, wherever the exchange stands. */
  lemma {:induction false} IrregularMove(y: Sys, e: Control.Env)
    requires TokenOk(y) && y.toCtl != [] && !Regular(y.toCtl[0], y.ctl.fsm)
    ensures var r := AfterControl(y.(toCtl := y.toCtl[1..]), Control.Notify(y.ctl, y.toCtl[0], e));
            r.Ok? ==> !TokenOk(r.ctx) && Token(r.ctx) == Token(y) + (if y.toCtl[0] == Control.OpFailure then 1 else -1)
  {
    hide Control.Notify;
    var r := Control.Notify(y.ctl, y.toCtl[0], e);
    if r.Ok? {
      if y.toCtl[0] == Control.CliBackup {
        BackupDropped(y.ctl, e);
        assert r.ctx.toCla[|y.ctl.toCla|..] == [] && y.toCla + [] == y.toCla;
      } else {
        FailureBalance(y.ctl, e);
        var told := r.ctx.toCla[|y.ctl.toCla|..];
        ResultsAdd(y.toCla, told);
        ResultsAdd(y.ctl.toCla, told);
        assert y.ctl.toCla + told == r.ctx.toCla;
      }
    }
  }

  /** Every regular move keeps the token, and control never meets a second request. */
  lemma {:induction false} MoveKeeps(y: Sys, v: Move)
    requires TokenOk(y) && CanMove(y, v)
    ensures Moved(y, v) != Abort(AtCtl(Control.ClientRequest))
    ensures Moved(y, v).Ok? ==> TokenOk(Moved(y, v).ctx)
  {
    match v
    case MoveCla(i, bad) =>
      hide TokenOk, Cla.Step, Cla.Enabled;
      if Moved(y, v).Ok? {
        ClaMoveKeeps(y, i, bad);
      }
    case MoveCtl(e) =>
      hide Control.Notify, Results, IsRequest;
      CtlMoveKeeps(y.(toCtl := y.toCtl[1..]), y.toCtl[0], e);
    case CtlTimer(e) =>
      hide Control.Notify, Results, Requests;
      CtlMoveKeeps(y, Control.Timeout, e);
    case Post(t) =>
      hide Results;
      RequestsAdd(y.toCtl, [t]);
      assert [t][1..] == [];
    case Relay(e) =>
      hide Requests;
      var m := Cla.NotifyClient(e);
      ResultsAdd(y.toCla, [m]);
      assert [m][1..] == [];
  }

  ghost predicate Reaches(y: Sys, moves: seq<Move>, y': Sys)
    decreases |moves|
  {
    if moves == [] then y == y'
    else CanMove(y, moves[0]) && Moved(y, moves[0]).Ok? && Reaches(Moved(y, moves[0]).ctx, moves[1..], y')
  }

  /** Both machines as they start, the watchdog of control already armed. */
  ghost predicate Boot(y: Sys) {
    && (exists sanity, fmmo :: y.cla == Cla.Boot(sanity, fmmo))
    && (exists timeout :: Control.Boot(timeout) == Ok(y.ctl))
    && y.toCtl == [] && y.toCla == []
  }

  lemma {:induction false} RunKeeps(y: Sys, moves: seq<Move>, y': Sys, base: nat)
    requires TokenOk(y) && ClaRuns.Inv(y.cla, base) && Reaches(y, moves, y')
    ensures TokenOk(y') && ClaRuns.Inv(y'.cla, base)
    decreases |moves|
  {
    hide TokenOk, ClaRuns.Inv, Cla.Step, Cla.Enabled, Control.Notify;
    if moves != [] {
      MoveKeeps(y, moves[0]);
      if moves[0].MoveCla? {
        ClaRuns.StepKeeps(y.cla, moves[0].input, moves[0].bad, base);
      }
      RunKeeps(Moved(y, moves[0]).ctx, moves[1..], y', base);
    }
  }

  /** Request conservation over every interleaving: the requests in flight, the one held by
      control and the results on their way back add up to `request_in_progress`; so no move
      can stop at a second request, on either side. */
  lemma {:induction false} RequestConservation(y: Sys, moves: seq<Move>, y': Sys)
    requires Boot(y) && Reaches(y, moves, y')
    ensures Requests(y'.toCtl) + Bit(y'.ctl.flow.req != Control.ReqNone) + Results(y'.toCla) == Bit(y'.cla.ctx.inProgress)
    ensures forall v :: CanMove(y', v) && Moved(y', v).Abort? ==>
              Moved(y', v).why != AtCtl(Control.ClientRequest) && Moved(y', v).why != AtCla(Cla.InProgress)
  {
    var sanity, fmmo :| y.cla == Cla.Boot(sanity, fmmo);
    ClaRuns.BootInv(sanity, fmmo);
    var base := ClaRuns.BootBase(fmmo);
    RunKeeps(y, moves, y', base);
    forall v | CanMove(y', v) && Moved(y', v).Abort?
      ensures Moved(y', v).why != AtCtl(Control.ClientRequest) && Moved(y', v).why != AtCla(Cla.InProgress)
    {
      hide TokenOk, ClaRuns.Inv, Cla.Step, Cla.Enabled, Control.Notify;
      MoveKeeps(y', v);
      if v.MoveCla? {
        ClaRuns.StepKeeps(y'.cla, v.input, v.bad, base);
      }
    }
  }
}
