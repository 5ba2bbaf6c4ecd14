/**
 The results that control sends back: client abstraction always expects them, and a failure comes
 behind the news that the modem is gone.
 */
module SystemResults {
  import opened Common
  import opened Fsm
  import opened System
  import Cla
  import ClaInvariant
  import ClaRuns
  import Control
  import ControlFrame
  import Watchdog

  // ---------------------------------------------------------------- queues

  /** The modem is gone for good. */
  predicate IsEnd(m: Cla.ControlMsg) {
    m == Cla.ModemState(Cla.Unresp) || m == Cla.ModemState(Cla.PlatformReboot)
  }

  predicate IsFailure(m: Cla.ControlMsg) {
    m == Cla.Result(false)
  }

  predicate Ends(q: seq<Cla.ControlMsg>) {
    exists j :: 0 <= j < |q| && IsEnd(q[j])
  }

  /** Every failure of `q` has the end of the modem before it, or comes when it is `gone`. */
  predicate Behind(q: seq<Cla.ControlMsg>, gone: bool) {
    gone || forall j :: 0 <= j < |q| && IsFailure(q[j]) ==> Ends(q[..j])
  }

  lemma {:induction false} BehindAppend(p: seq<Cla.ControlMsg>, q: seq<Cla.ControlMsg>, gone: bool)
    requires Behind(p, gone) && Behind(q, gone || Ends(p))
    ensures Behind(p + q, gone)
    ensures Ends(p) || Ends(q) ==> Ends(p + q)
  {
    hide IsEnd, IsFailure;
    forall j | 0 <= j < |p + q| && IsFailure((p + q)[j]) && !gone ensures Ends((p + q)[..j]) {
      if j < |p| {
        assert (p + q)[..j] == p[..j];
      } else {
        EndsMore(p, q, j - |p|);
      }
    }
    if Ends(p) {
      EndsPart(p + q, 0, |p|);
      assert (p + q)[0..|p|] == p;
    }
    if Ends(q) {
      EndsPart(p + q, |p|, |p + q|);
      assert (p + q)[|p|..|p + q|] == q;
    }
  }

  lemma {:induction false} EndsMore(p: seq<Cla.ControlMsg>, q: seq<Cla.ControlMsg>, j: nat)
    requires j < |q| && (Ends(p) || Ends(q[..j]))
    ensures Ends((p + q)[..|p| + j])
  {
    hide IsEnd;
    var r := (p + q)[..|p| + j];
    if Ends(p) {
      EndsPart(r, 0, |p|);
      assert r[0..|p|] == p;
    } else {
      EndsPart(r, |p|, |r|);
      assert r[|p|..|r|] == q[..j];
    }
  }

  lemma {:induction false} EndsPart(q: seq<Cla.ControlMsg>, lo: nat, hi: nat)
    requires lo <= hi <= |q|
    ensures Ends(q[lo..hi]) ==> Ends(q)
  {
    hide IsEnd;
    if Ends(q[lo..hi]) {
      var j :| 0 <= j < |q[lo..hi]| && IsEnd(q[lo..hi][j]);
      assert IsEnd(q[lo + j]);
    }
  }

  /** The first message is handled. */
  lemma {:induction false} BehindTail(q: seq<Cla.ControlMsg>, gone: bool)
    requires q != [] && Behind(q, gone)
    ensures Behind(q[1..], gone || IsEnd(q[0]))
    ensures IsFailure(q[0]) ==> gone
    ensures Ends(q) ==> IsEnd(q[0]) || Ends(q[1..])
  {
    hide IsEnd, IsFailure;
    assert q[..0] == [];
    if Ends(q) && !IsEnd(q[0]) {
      var j :| 0 <= j < |q| && IsEnd(q[j]);
      assert IsEnd(q[1..][j - 1]);
    }
    forall j | 0 <= j < |q[1..]| && IsFailure(q[1..][j]) && !gone && !IsEnd(q[0]) ensures Ends(q[1..][..j]) {
      assert IsFailure(q[j + 1]);
      var k :| 0 <= k < |q[..j + 1]| && IsEnd(q[..j + 1][k]);
      assert IsEnd(q[1..][..j][k - 1]);
    }
  }

  // ---------------------------------------------------------------- what control sends

  /** What an operation of control adds: out of service is for good and is told, and a failure is
      answered only out of service. */
  predicate Honest(s: Control.Ctx, s': Control.Ctx) {
    && s.toCla <= s'.toCla
    && (s.oos ==> s'.oos)
    && (s.oos || (var told := s'.toCla[|s.toCla|..]; Behind(told, false) && (s'.oos ==> Ends(told))))
  }

  predicate OpHonest(s: Control.Ctx, r: Control.Operated) {
    r.Ok? ==> Honest(s, r.ctx.0)
  }

  lemma {:induction false} HonestTrans(s: Control.Ctx, s1: Control.Ctx, s2: Control.Ctx)
    requires Honest(s, s1) && Honest(s1, s2)
    ensures Honest(s, s2)
  {
    hide Ends, Behind;
    if !s.oos {
      var p, q := s1.toCla[|s.toCla|..], s2.toCla[|s1.toCla|..];
      assert s2.toCla[|s.toCla|..] == p + q;
      AfterEnd(q);
      BehindAppend(p, q, false);
    }
  }

  lemma {:induction false} AfterEnd(q: seq<Cla.ControlMsg>)
    ensures Behind(q, true) && (Behind(q, false) ==> forall gone :: Behind(q, gone))
  {
  }

  /** A context that says nothing new. */
  lemma {:induction false} HonestSame(s: Control.Ctx, s': Control.Ctx)
    requires s'.toCla == s.toCla && s'.oos == s.oos
    ensures Honest(s, s')
  {
    assert s'.toCla[|s.toCla|..] == [];
  }

  lemma {:induction false} TellHonest(s: Control.Ctx, s0: Control.Ctx, m: Cla.ControlMsg)
    requires s0.toCla == s.toCla && s0.oos == s.oos && !IsFailure(m)
    ensures Honest(s, Control.Tell(s0, m))
  {
    assert Control.Tell(s0, m).toCla[|s.toCla|..] == [m];
  }

  lemma {:induction false} SuccessHonest(s: Control.Ctx, s0: Control.Ctx)
    requires s0.toCla == s.toCla && s0.oos == s.oos
    ensures Honest(s, Control.NotifyResult(s0, true))
  {
    HonestSame(s, s0);
    TellHonest(s, s0.(flow := s0.flow.(req := Control.ReqNone)), Cla.Result(true));
  }

  lemma {:induction false} DbgHonest(s: Control.Ctx, report: bool)
    ensures Control.NotifyDbg(s, report).Ok? ==> Honest(s, Control.NotifyDbg(s, report).ctx) && Control.NotifyDbg(s, report).ctx.oos == s.oos
  {
    hide Honest;
    var clear := Control.Dbg(false, false, false);
    HonestSame(s, s.(dbg := clear));
    TellHonest(s, s, Cla.NotifyClient(Cla.DbgInfo));
    var s1 := Control.Tell(s, Cla.NotifyClient(Cla.DbgInfo));
    HonestSame(s1, s1.(dbg := clear));
    HonestTrans(s, s1, s1.(dbg := clear));
  }

  /** The end is told, then a pending request fails. */
  lemma {:induction false} EndHonest(s: Control.Ctx, m: Cla.ControlMsg)
    requires IsEnd(m)
    ensures Honest(s, Control.NotifyResult(Control.Tell(s, m), false).(oos := true))
  {
    var s1 := Control.Tell(s, m);
    var s2 := Control.NotifyResult(s1, false).(oos := true);
    if s.flow.req == Control.ReqNone {
      assert s2.toCla[|s.toCla|..] == [m];
      assert IsEnd([m][0]);
    } else {
      var q := [m, Cla.Result(false)];
      assert s2.toCla[|s.toCla|..] == q;
      assert IsEnd(q[0]) && IsEnd(q[..1][0]);
    }
  }

  lemma {:induction false} GoneHonest(s: Control.Ctx)
    ensures OpHonest(s, Control.SetOos(s)) && OpHonest(s, Control.PlatformReboot(s))
  {
    hide Honest, Control.NotifyDbg, Control.NotifyResult, Control.Tell;
    DbgHonest(s, true);
    var r := Control.NotifyDbg(s, true);
    if r.Ok? {
      EndHonest(r.ctx, Cla.ModemState(Cla.Unresp));
      var d := Control.Tell(r.ctx, Cla.NotifyClient(Cla.DbgInfo));
      TellHonest(r.ctx, r.ctx, Cla.NotifyClient(Cla.DbgInfo));
      HonestTrans(s, r.ctx, d);
      EndHonest(d, Cla.ModemState(Cla.PlatformReboot));
      if Control.SetOos(s).Ok? {
        HonestTrans(s, r.ctx, Control.SetOos(s).ctx.0);
      }
      HonestTrans(s, d, Control.PlatformReboot(s).ctx.0);
    }
  }

  /** From a context that says nothing new. */
  lemma {:induction false} After(s: Control.Ctx, s0: Control.Ctx, r: Control.Operated)
    requires Honest(s, s0) && OpHonest(s0, r)
    ensures OpHonest(s, r)
  {
    hide Honest;
    if r.Ok? {
      HonestTrans(s, s0, r.ctx.0);
    }
  }

  lemma {:induction false} EscalateHonest(s: Control.Ctx, s0: Control.Ctx, param: bool, step: Control.Step)
    requires Honest(s, s0)
    ensures OpHonest(s, Control.Escalate(s0, param, step)) && OpHonest(s, Control.MdmRestart(s0, param, false))
  {
    hide Honest, Control.SetOos, Control.PlatformReboot, Control.NotifyDbg;
    var s1 := Control.StoreDbg(s0, param);
    HonestSame(s0, s1);
    HonestTrans(s, s0, s1);
    GoneHonest(s1);
    After(s, s1, Control.SetOos(s1));
    After(s, s1, Control.PlatformReboot(s1));
    RestartHonest(s, s1, true, false);
    RestartHonest(s, s0, param, false);
  }

  lemma {:induction false} RestartHonest(s: Control.Ctx, s0: Control.Ctx, report: bool, backup: bool)
    requires Honest(s, s0)
    ensures OpHonest(s, Control.MdmRestart(s0, report, backup))
  {
    hide Honest, Control.NotifyDbg;
    DbgHonest(s0, report);
    if Control.NotifyDbg(s0, report).Ok? {
      var s1 := Control.NotifyDbg(s0, report).ctx;
      HonestTrans(s, s0, s1);
      OrderHonest(s, s1, [Control.Package, Control.Reset(backup)]);
    }
  }

  lemma {:induction false} OrderHonest(s: Control.Ctx, s0: Control.Ctx, orders: seq<Control.Order>)
    requires Honest(s, s0)
    ensures Honest(s, Control.Command(s0, orders))
  {
  }

  lemma {:induction false} CfgHonest(s: Control.Ctx, s0: Control.Ctx, tlvs: bool)
    requires s0.toCla == s.toCla && s0.oos == s.oos
    ensures OpHonest(s, Control.MdmCfg(s0, tlvs)) && OpHonest(s, Control.MdmFlash(s0))
  {
    hide Honest, Control.NotifyResult, Control.Tell;
    HonestSame(s, s0);
    HonestSame(s, Control.Command(s0, [Control.Flash]).(flow := s0.flow.(halEvt := false, fwReady := false)));
    var s1 := s0.(flow := s0.flow.(flashDone := false, runIpc := false));
    HonestSame(s, Control.Command(s1, [Control.Customize]));
    ReadyHonest(s, s1, Cla.ModemState(Cla.Ready));
  }

  /** A success, then a state. */
  lemma {:induction false} ReadyHonest(s: Control.Ctx, s0: Control.Ctx, m: Cla.ControlMsg)
    requires s0.toCla == s.toCla && s0.oos == s.oos && !IsFailure(m)
    ensures Honest(s, Control.Tell(Control.NotifyResult(s0, true), m))
  {
    hide Honest, Control.NotifyResult, Control.Tell;
    SuccessHonest(s, s0);
    var s1 := Control.NotifyResult(s0, true);
    TellHonest(s1, s1, m);
    HonestTrans(s, s1, Control.Tell(s1, m));
  }

  lemma {:induction false} ResumeHonest(s: Control.Ctx, s0: Control.Ctx, param: bool, step: Control.Step)
    requires Honest(s, s0)
    ensures OpHonest(s, Control.RequestedOperation(s0, param, step))
  {
    hide Honest, Control.Escalate;
    var s1 := Control.StoreDbg(s0, param);
    HonestSame(s0, s1);
    HonestTrans(s, s0, s1);
    OrderHonest(s, s1, [Control.Shutdown]);
    EscalateHonest(s, s1, false, step);
  }

  /** A request taken; a start out of service fails at once. */
  lemma {:induction false} TakeHonest(s: Control.Ctx, op: Control.Op, t: Control.Trigger, e: Control.Env)
    requires TakesRequest(op)
    ensures OpHonest(s, Control.Operate(s, op, t, e))
  {
    if op.AskStop? || op.AskResetTimer? || op.AcceptStop? || op.AcceptReset? {
      hide Honest;
      if Control.Operate(s, op, t, e).Ok? {
        HonestSame(s, Control.Operate(s, op, t, e).ctx.0);
      }
      return;
    }
    match op
    case RequestStart =>
      HonestSame(s, Control.Command(s.(flow := s.flow.(req := Control.ReqStart)), [Control.Package, Control.PowerOn]));
      if s.oos {
        OosHonest(s, s.(flow := s.flow.(req := Control.ReqStart)));
      }
    case AskReset =>
      hide Control.Escalate, Honest;
      var s1 := Control.StoreDbg(s, e.param).(flow := s.flow.(req := Control.ReqReset));
      HonestSame(s, s1);
      EscalateHonest(s, s1, false, e.next);
    case AskUpdate =>
      hide Control.MdmRestart, Honest;
      var s1 := s.(flow := s.flow.(req := Control.ReqReset), dbg := s.dbg.(noReport := true));
      HonestSame(s, s1);
      RestartHonest(s, s1, false, false);
    case AskBackup =>
      hide Control.MdmRestart, Honest;
      var s1 := s.(flow := s.flow.(req := Control.ReqReset));
      HonestSame(s, s1);
      RestartHonest(s, s1, false, true);
    case _ =>
  }

  lemma {:induction false} OosHonest(s: Control.Ctx, s0: Control.Ctx)
    requires s0.toCla == s.toCla && s0.oos && s.oos
    ensures Honest(s, Control.NotifyResult(s0, false))
  {
  }

  lemma {:induction false} AnswerHonest(s: Control.Ctx, op: Control.Op, t: Control.Trigger, e: Control.Env)
    requires op.NotifyOff? || op.NotifyUnresp? || op.FlashFailed? || op.RunInitial? || op.Run? || op.FlashSuccess?
    ensures OpHonest(s, Control.Operate(s, op, t, e))
  {
    hide Honest, Control.MdmCfg, Control.SetOos, Control.PlatformReboot, Control.NotifyResult, Control.Tell;
    match op
    case NotifyOff => ReadyHonest(s, s, Cla.ModemState(Cla.Off));
    case RunInitial => CfgHonest(s, s.(flow := s.flow.(runIpc := true, flashDone := true)), e.tlvs);
    case Run => CfgHonest(s, s.(flow := s.flow.(runIpc := true)), e.tlvs);
    case FlashSuccess =>
      var s1 := if s.flow.runIpc then s else Control.Command(s, [Control.BootMdm]);
      CfgHonest(s, s1.(flow := s.flow.(flashDone := true)), e.tlvs);
    case _ =>
      var s1 := Control.StoreDbg(s, e.param);
      HonestSame(s, s1);
      GoneHonest(s1);
      After(s, s1, Control.SetOos(s1));
      After(s, s1, Control.PlatformReboot(s1));
  }

  lemma {:induction false} ReturnHonest(s: Control.Ctx, op: Control.Op, t: Control.Trigger, e: Control.Env)
    requires op.Escalation? || op.Requested? || op.DumpEnd? || op.DumpError? || op.TlvDone?
    ensures OpHonest(s, Control.Operate(s, op, t, e))
  {
    hide Honest, Control.Escalate, Control.RequestedOperation, Control.Tell, Control.MdmRestart;
    var s1 := Control.Tell(s, Cla.NotifyClient(Cla.DbgInfo));
    TellHonest(s, s, Cla.NotifyClient(Cla.DbgInfo));
    HonestSame(s, s);
    match op
    case Escalation => EscalateHonest(s, s, e.param, e.next);
    case DumpError =>
      var s0 := Control.Command(s, [Control.StopDump]);
      HonestSame(s, s0);
      TellHonest(s, s0, Cla.NotifyClient(Cla.DbgInfo));
      ResumeHonest(s, Control.Tell(s0, Cla.NotifyClient(Cla.DbgInfo)), false, e.next);
    case TlvDone => RestartHonest(s, s1, false, false);
    case _ => ResumeHonest(s, s, e.param, e.next);
  }

  lemma {:induction false} OpsHonest(s: Control.Ctx, op: Control.Op, t: Control.Trigger, e: Control.Env)
    requires !op.FailsafeOp?
    ensures OpHonest(s, Control.Operate(s, op, t, e))
  {
    if TakesRequest(op) {
      hide Control.Operate, Honest;
      TakeHonest(s, op, t, e);
    } else if op.Escalation? || op.Requested? || op.DumpEnd? || op.DumpError? || op.TlvDone? {
      hide Control.Operate, Honest;
      ReturnHonest(s, op, t, e);
    } else if op.NotifyOff? || op.NotifyUnresp? || op.FlashFailed? || op.RunInitial? || op.Run? || op.FlashSuccess? {
      hide Control.Operate, Honest;
      AnswerHonest(s, op, t, e);
    } else {
      hide Honest, Control.Tell, Control.MdmFlash;
      HonestSame(s, s);
      TellHonest(s, s, Cla.ModemState(Cla.Busy));
      TellHonest(s, s, Cla.NotifyClient(Cla.DbgInfo));
      var s1 := s.(dbg := s.dbg.(noReport := true));
      TellHonest(s, s1, Cla.NotifyClient(Cla.DbgInfo));
      OrderHonest(s, Control.Tell(s1, Cla.NotifyClient(Cla.DbgInfo)), [Control.ReadDump]);
      HonestSame(s, Control.Command(s, [Control.Shutdown]));
      CfgHonest(s, s.(flow := s.flow.(halEvt := true)), false);
      CfgHonest(s, s.(flow := s.flow.(fwReady := true)), false);
    }
  }

  lemma {:induction false} PrepareHonest(s: Control.Ctx, t: Control.Trigger)
    ensures Control.Prepare(s, t).Ok? ==> Honest(s, Control.Prepare(s, t).ctx)
  {
    hide Honest;
    if Control.Prepare(s, t).Ok? {
      HonestSame(s, Control.Prepare(s, t).ctx);
    }
  }

  lemma {:induction false} TransitHonest(s: Control.Ctx, prev: Control.State, next: Control.State)
    ensures Control.Transit(s, prev, next).Ok? ==>
              Honest(s, Control.Transit(s, prev, next).ctx.(fsm := next))
  {
    hide Honest, Watchdog.GenScalar;
    if Control.Transit(s, prev, next).Ok? {
      HonestSame(s, Control.Transit(s, prev, next).ctx.(fsm := next));
    }
  }

  /** One regular event of control. */
  lemma {:induction false} EventHonest(s: Control.Ctx, t: Control.Trigger, e: Control.Env)
    requires Regular(t, s.fsm) && Control.Notify(s, t, e).Ok?
    ensures Honest(s, Control.Notify(s, t, e).ctx)
  {
    hide Honest, Control.Operate, Control.Failsafe, Control.Prepare, Control.Transit, Control.Table, IsRequest;
    var cell := Control.Table(t, s.fsm);
    RegularCells(t, s.fsm);
    PrepareHonest(s, t);
    var s0 := Control.Prepare(s, t).ctx;
    OpsHonest(s0, cell.op, t, e);
    ControlFrame.QuietOps(s0, cell.op, t, e);
    var (s1, ret) := Control.Operate(s0, cell.op, t, e).ctx;
    HonestTrans(s, s0, s1);
    var st := NextState(s.fsm, cell.forced, ret, Stay).value;
    if st != s.fsm {
      TransitHonest(s1, s.fsm, st);
      HonestTrans(s, s1, Control.Transit(s1, s.fsm, st).ctx.(fsm := st));
    }
  }

  // ---------------------------------------------------------------- the joined system

  predicate Gone(y: Sys) {
    y.cla.ctx.modem == Cla.Unresp
  }

  /** What is on its way to client abstraction. */
  predicate Ordered(y: Sys) {
    Behind(y.toCla, Gone(y)) && (y.ctl.oos ==> Gone(y) || Ends(y.toCla))
  }

  lemma {:induction false} CtlOrdered(y: Sys, t: Control.Trigger, e: Control.Env)
    requires Ordered(y) && Regular(t, y.ctl.fsm)
    ensures var r := AfterControl(y, Control.Notify(y.ctl, t, e));
            r.Ok? ==> Ordered(r.ctx)
  {
    hide Control.Notify, Ends, Behind;
    if Control.Notify(y.ctl, t, e).Ok? {
      EventHonest(y.ctl, t, e);
      var told := Control.Notify(y.ctl, t, e).ctx.toCla[|y.ctl.toCla|..];
      AfterEnd(told);
      BehindAppend(y.toCla, told, Gone(y));
    }
  }

  /** The end of the modem, handled. */
  lemma {:induction false} EndHandled(s: Cla.Ctx, m: Cla.ControlMsg, bad: Cla.Links)
    requires IsEnd(m) && Cla.HandleControlMsg(s, m, bad).Ok?
    ensures Cla.HandleControlMsg(s, m, bad).ctx.modem == Cla.Unresp
  {
    hide Cla.ChangeState;
    var silent := m.mdm == Cla.PlatformReboot;
    ChangeGone(Cla.Record(s, Cla.Unresp, silent).(fake := false), silent, bad);
  }

  lemma {:induction false} ChangeGone(s: Cla.Ctx, silent: bool, bad: Cla.Links)
    ensures Cla.ChangeState(s, Cla.Unresp, silent, bad).Ok? ==> Cla.ChangeState(s, Cla.Unresp, silent, bad).ctx.modem == Cla.Unresp
  {
    hide Cla.Notify, Cla.NotifyAll, Cla.ChangeState;
    ClaRuns.ChangeUnfolds(s, Cla.Unresp, silent, bad);
    var tell := !silent && (s.modem == Cla.Unknown || Cla.ToEvent(Cla.Unresp) != Cla.ToEvent(s.modem));
    var r := if tell then Cla.NotifyAll(s, Cla.ToEvent(Cla.Unresp), bad) else Ok(s);
    if r.Ok? {
      UnrespHeard(r.ctx.(modem := Cla.Unresp), bad);
    }
  }

  lemma {:induction false} UnrespHeard(s: Cla.Ctx, bad: Cla.Links)
    ensures Cla.Notify(s, Cla.MdmUnresp, bad).Ok? ==> Cla.Notify(s, Cla.MdmUnresp, bad).ctx.modem == s.modem
  {
    hide Cla.StartShutdown, Cla.StartRestart, Cla.CheckUp, Cla.CheckDown, Cla.ColdAcked, Cla.ShutAcked, Cla.AskThen;
  }

  lemma {:induction false} ControlStep(l: Cla.Loop, i: Cla.Input, bad: Cla.Links)
    requires Cla.Enabled(l, i) && i.Control? && Cla.Step(l, i, bad).Ok?
    ensures Cla.FromControl(i.msg) && Cla.HandleControlMsg(l.ctx, i.msg, bad) == Ok(Cla.Step(l, i, bad).ctx.ctx)
  {
    hide Cla.HandleControlMsg;
  }

  lemma {:induction false} ClaOrdered(y: Sys, i: Cla.Input, bad: Cla.Links, base: nat)
    requires Ordered(y) && ClaRuns.Inv(y.cla, base) && CanMove(y, MoveCla(i, bad)) && Moved(y, MoveCla(i, bad)).Ok?
    ensures Ordered(Moved(y, MoveCla(i, bad)).ctx)
  {
    hide Cla.Step, Cla.Enabled, ClaRuns.Inv, Ends, Behind, IsEnd, IsFailure, AsTriggers, Cla.HandleControlMsg;
    if Gone(y) {
      ClaRuns.FrozenStep(y.cla, i, bad, base);
    }
    AfterEnd(y.toCla);
    if i.Control? {
      BehindTail(y.toCla, Gone(y));
      AfterEnd(y.toCla[1..]);
      ControlStep(y.cla, i, bad);
      if IsEnd(i.msg) {
        EndHandled(y.cla.ctx, i.msg, bad);
      }
    }
  }

  lemma {:induction false} MoveOrdered(y: Sys, v: Move, base: nat)
    requires Ordered(y) && ClaRuns.Inv(y.cla, base) && CanMove(y, v) && Moved(y, v).Ok?
    ensures Ordered(Moved(y, v).ctx)
  {
    match v
    case MoveCla(i, bad) =>
      hide Ordered, Moved, CanMove, ClaRuns.Inv;
      ClaOrdered(y, i, bad, base);
    case MoveCtl(e) =>
      hide Control.Notify, Ends, Behind;
      CtlOrdered(y.(toCtl := y.toCtl[1..]), y.toCtl[0], e);
    case CtlTimer(e) =>
      hide Control.Notify, Ends, Behind;
      CtlOrdered(y, Control.Timeout, e);
    case Post(t) =>
    case Relay(e) =>
      hide Ends;
      BehindAppend(y.toCla, [Cla.NotifyClient(e)], Gone(y));
  }

  lemma {:induction false} RunOrdered(y: Sys, moves: seq<Move>, y': Sys, base: nat)
    requires Ordered(y) && TokenOk(y) && ClaRuns.Inv(y.cla, base) && Reaches(y, moves, y')
    ensures Ordered(y') && TokenOk(y') && ClaRuns.Inv(y'.cla, base)
    decreases |moves|
  {
    hide Ordered, TokenOk, ClaRuns.Inv, Cla.Step, Cla.Enabled, Control.Notify;
    if moves != [] {
      MoveOrdered(y, moves[0], base);
      MoveKeeps(y, moves[0]);
      if moves[0].MoveCla? {
        ClaRuns.StepKeeps(y.cla, moves[0].input, moves[0].bad, base);
      }
      RunOrdered(Moved(y, moves[0]).ctx, moves[1..], y', base);
    }
  }

  lemma {:induction false} BootOrdered(y: Sys)
    requires Boot(y)
    ensures Ordered(y) && TokenOk(y) && !y.ctl.oos
  {
    hide Watchdog.GenScalar;
  }

  lemma {:induction false} PendingStates(y: Sys, base: nat)
    requires TokenOk(y) && ClaRuns.Inv(y.cla, base) && y.toCla != [] && y.toCla[0].Result?
    ensures y.cla.ctx.fsm == Cla.Starting || y.cla.ctx.fsm == Cla.Stopping
            || (y.cla.ctx.fsm == Cla.StOff && y.cla.ctx.modem == Cla.Unresp)
    ensures y.cla.ctx.modem == Cla.Unresp ==> y.cla.ctx.fsm != Cla.Starting
  {
    hide ClaInvariant.LogOk;
  }

  /** An unresponsive modem: a failure is always accepted. */
  lemma {:induction false} FailureAccepted(s: Cla.Ctx, bad: Cla.Links)
    requires s.modem == Cla.Unresp && (s.fsm == Cla.Stopping || s.fsm == Cla.StOff)
    ensures Cla.HandleControlMsg(s, Cla.Result(false), bad).Ok?
  {
    hide Cla.StartShutdown, Cla.StartRestart, Cla.CheckUp, Cla.CheckDown, Cla.ColdAcked, Cla.ShutAcked, Cla.AskThen;
  }

  /** Results are expected, over every interleaving: client abstraction is starting, stopping, or
      off with an unresponsive modem when the next message is a result, so the assertions on
      results of its other states are out of reach; and a failure finds the modem unresponsive, so
      it meets no assertion at all. */
  lemma {:induction false} ResultsExpected(y: Sys, moves: seq<Move>, y': Sys, bad: Cla.Links)
    requires Boot(y) && Reaches(y, moves, y') && y'.toCla != [] && y'.toCla[0].Result?
    ensures y'.cla.ctx.fsm == Cla.Starting || y'.cla.ctx.fsm == Cla.Stopping
            || (y'.cla.ctx.fsm == Cla.StOff && y'.cla.ctx.modem == Cla.Unresp)
    ensures y'.toCla[0] == Cla.Result(false) ==>
              y'.cla.ctx.modem == Cla.Unresp && Cla.HandleControlMsg(y'.cla.ctx, y'.toCla[0], bad).Ok?
  {
    hide ClaRuns.Inv, TokenOk, Cla.HandleControlMsg, Ends;
    var sanity, fmmo :| y.cla == Cla.Boot(sanity, fmmo);
    var base := ClaRuns.BootBase(fmmo);
    ClaRuns.BootInv(sanity, fmmo);
    BootOrdered(y);
    RunOrdered(y, moves, y', base);
    PendingStates(y', base);
    BehindTail(y'.toCla, Gone(y'));
    if y'.toCla[0] == Cla.Result(false) {
      FailureAccepted(y'.cla.ctx, bad);
    }
  }
}
