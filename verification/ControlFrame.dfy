/**
 What the operations of control leave alone, whatever the event.
 */
module ControlFrame {
  import opened Common
  import opened Fsm
  import Cla
  import Control
  import Watchdog

  /** What the engine and the watchdog look at. */
  predicate SameWatch(s: Control.Ctx, s': Control.Ctx) {
    s'.toWatch == s.toWatch && s'.watchId == s.watchId && s'.timeout == s.timeout && s'.fsm == s.fsm
  }

  predicate Same(s: Control.Ctx, s': Control.Ctx) {
    SameWatch(s, s') && s'.flow.waitBusy == s.flow.waitBusy
  }

  predicate Quiet(s: Control.Ctx, r: Control.Operated) {
    if r.Ok? then Same(s, r.ctx.0) && !r.ctx.1.Fail? else r.why != Control.PreOp
  }

  lemma {:induction false} QuietResult(s: Control.Ctx, ok: bool)
    ensures Same(s, Control.NotifyResult(s, ok))
  {
  }

  lemma {:induction false} QuietDbg(s: Control.Ctx, report: bool)
    ensures var r := Control.NotifyDbg(s, report);
            if r.Ok? then Same(s, r.ctx) else r.why != Control.PreOp
  {
  }

  lemma {:induction false} QuietEnds(s: Control.Ctx)
    ensures Quiet(s, Control.SetOos(s)) && Quiet(s, Control.PlatformReboot(s))
  {
    hide Control.NotifyDbg, Control.NotifyResult;
    QuietDbg(s, true);
    var r := Control.NotifyDbg(s, true);
    if r.Ok? {
      QuietResult(Control.Tell(r.ctx, Cla.ModemState(Cla.Unresp)), false);
      QuietResult(Control.Tell(Control.Tell(r.ctx, Cla.NotifyClient(Cla.DbgInfo)), Cla.ModemState(Cla.PlatformReboot)), false);
    }
  }

  lemma {:induction false} QuietRestart(s: Control.Ctx, report: bool, backup: bool)
    ensures Quiet(s, Control.MdmRestart(s, report, backup))
  {
    hide Control.NotifyDbg;
    QuietDbg(s, report);
  }

  lemma {:induction false} QuietCfg(s: Control.Ctx, tlvs: bool)
    ensures Quiet(s, Control.MdmCfg(s, tlvs)) && Quiet(s, Control.MdmFlash(s))
  {
    hide Control.NotifyResult;
    QuietResult(s.(flow := s.flow.(flashDone := false, runIpc := false)), true);
  }

  lemma {:induction false} QuietFlow(s: Control.Ctx, s0: Control.Ctx, tlvs: bool)
    requires Same(s, s0)
    ensures Quiet(s, Control.MdmCfg(s0, tlvs)) && Quiet(s, Control.MdmFlash(s0))
  {
    hide Control.MdmCfg, Control.MdmFlash;
    QuietCfg(s0, tlvs);
  }

  lemma {:induction false} QuietEscalate(s: Control.Ctx, param: bool, step: Control.Step)
    ensures Quiet(s, Control.Escalate(s, param, step))
  {
    hide Control.MdmRestart, Control.SetOos, Control.PlatformReboot;
    var s1 := Control.StoreDbg(s, param);
    QuietRestart(s1, true, false);
    QuietEnds(s1);
  }

  lemma {:induction false} QuietRequested(s: Control.Ctx, param: bool, step: Control.Step)
    ensures Quiet(s, Control.RequestedOperation(s, param, step))
  {
    hide Control.Escalate;
    QuietEscalate(Control.StoreDbg(s, param), false, step);
  }

  lemma {:induction false} QuietFailsafe(s: Control.Ctx)
    ensures Control.Failsafe(s).Ok? && SameWatch(s, Control.Failsafe(s).ctx.0)
    ensures !Control.Failsafe(s).ctx.0.flow.waitBusy && Control.Failsafe(s).ctx.1 == Goto(Control.Waiting)
    ensures Quiet(s, Control.RequestStop(s))
  {
    QuietResult(s, false);
  }

  lemma {:induction false} QuietAsks(s: Control.Ctx, op: Control.Op, t: Control.Trigger, e: Control.Env)
    requires op.RequestStart? || op.AskReset? || op.AskResetTimer? || op.AskUpdate? || op.AskBackup?
    ensures Quiet(s, Control.Operate(s, op, t, e))
  {
    hide Control.Escalate, Control.MdmRestart, Control.NotifyResult;
    var s0 := if op.AskReset? || op.AskResetTimer? then Control.StoreDbg(s, e.param) else s;
    var r := Control.Take(s0, if op.RequestStart? then Control.ReqStart else Control.ReqReset);
    if r.Ok? {
      QuietResult(r.ctx, false);
      QuietEscalate(r.ctx, false, e.next);
      QuietRestart(r.ctx, false, true);
      QuietRestart(r.ctx.(dbg := r.ctx.dbg.(noReport := true)), false, false);
    }
  }

  lemma {:induction false} QuietAnswers(s: Control.Ctx, op: Control.Op, t: Control.Trigger, e: Control.Env)
    requires op.NotifyOff? || op.NotifyUnresp? || op.FlashFailed? || op.RunInitial? || op.Run? || op.FlashSuccess?
             || op.FlashEvt? || op.FwReady?
    ensures Quiet(s, Control.Operate(s, op, t, e))
  {
    if op.RunInitial? || op.Run? || op.FlashSuccess? {
      hide Control.Operate;
      QuietConfig(s, op, t, e);
      return;
    }
    hide Control.MdmFlash, Control.NotifyResult, Control.SetOos, Control.PlatformReboot;
    match op
    case NotifyOff => QuietResult(s, true);
    case FlashEvt => QuietFlow(s, s.(flow := s.flow.(halEvt := true)), e.tlvs);
    case FwReady => QuietFlow(s, s.(flow := s.flow.(fwReady := true)), e.tlvs);
    case _ => QuietEnds(Control.StoreDbg(s, e.param));
  }

  lemma {:induction false} QuietConfig(s: Control.Ctx, op: Control.Op, t: Control.Trigger, e: Control.Env)
    requires op.RunInitial? || op.Run? || op.FlashSuccess?
    ensures Quiet(s, Control.Operate(s, op, t, e))
  {
    hide Control.MdmCfg, Quiet;
    match op
    case RunInitial => QuietFlow(s, s.(flow := s.flow.(runIpc := true, flashDone := true)), e.tlvs);
    case Run => QuietFlow(s, s.(flow := s.flow.(runIpc := true)), e.tlvs);
    case FlashSuccess =>
      var s1 := if s.flow.runIpc then s else Control.Command(s, [Control.BootMdm]);
      QuietFlow(s, s1.(flow := s.flow.(flashDone := true)), e.tlvs);
  }

  lemma {:induction false} QuietResumes(s: Control.Ctx, op: Control.Op, t: Control.Trigger, e: Control.Env)
    requires op.Escalation? || op.Requested? || op.DumpEnd? || op.DumpError? || op.TlvDone? || op.AskStop?
    ensures Quiet(s, Control.Operate(s, op, t, e))
  {
    hide Control.Escalate, Control.RequestedOperation, Control.MdmRestart, Control.RequestStop;
    QuietEscalate(s, e.param, e.next);
    QuietFailsafe(s);
    QuietRequested(s, e.param, e.next);
    var s1 := Control.Tell(s, Cla.NotifyClient(Cla.DbgInfo));
    QuietRequested(Control.Tell(Control.Command(s, [Control.StopDump]), Cla.NotifyClient(Cla.DbgInfo)), false, e.next);
    QuietRestart(s1, false, false);
  }

  /** No operation talks to the watchdog, and none but the failsafe one forgets a busy event. */
  lemma {:induction false} QuietOps(s: Control.Ctx, op: Control.Op, t: Control.Trigger, e: Control.Env)
    requires !op.FailsafeOp? && !op.OpFailed?
    ensures Quiet(s, Control.Operate(s, op, t, e))
  {
    match op
    case Nop => case Assert => case AcceptStop => case AcceptReset => case NotifyBusy => case MdmStop =>
    case DumpStart =>
    case _ =>
      hide Control.Operate;
      if op.RequestStart? || op.AskReset? || op.AskResetTimer? || op.AskUpdate? || op.AskBackup? {
        QuietAsks(s, op, t, e);
      } else if op.Escalation? || op.Requested? || op.DumpEnd? || op.DumpError? || op.TlvDone? || op.AskStop? {
        QuietResumes(s, op, t, e);
      } else {
        QuietAnswers(s, op, t, e);
      }
  }

  lemma {:induction false} PrepareQuiet(s: Control.Ctx, t: Control.Trigger)
    ensures Control.Prepare(s, t).Ok? ==>
              && SameWatch(s, Control.Prepare(s, t).ctx)
              && Control.Prepare(s, t).ctx.flow.waitBusy == (t == Control.HalBusy || (s.flow.waitBusy && !Control.IsReason(t)))
    ensures Control.Prepare(s, t).Abort? <==> Control.IsReason(t) && !s.flow.waitBusy
  {
  }

  lemma {:induction false} FailsafeRuns(s: Control.Ctx, t: Control.Trigger, e: Control.Env)
    ensures Control.Operate(s, Control.FailsafeOp, t, e) == Control.Failsafe(s)
  {
  }

  /** The failsafe operation is run: directly by the table, or after a failed operation. */
  predicate FailsafeEvent(t: Control.Trigger, st: Control.State) {
    t == Control.OpFailure && st != Control.Dumping
  }

  lemma {:induction false} FailsafeCells(t: Control.Trigger, st: Control.State)
    ensures var op := Control.Table(t, st).op;
            FailsafeEvent(t, st) <==> op.FailsafeOp? || op.OpFailed? || (t == Control.OpFailure && op.Assert?)
  {
  }

  lemma {:induction false} FailedRuns(s: Control.Ctx, t: Control.Trigger, e: Control.Env)
    ensures var r := Control.Operate(s, Control.OpFailed, t, e);
            r.Ok? && Same(s, r.ctx.0) && r.ctx.1.Fail?
  {
  }

  lemma {:induction false} AssertRuns(s: Control.Ctx, t: Control.Trigger, e: Control.Env)
    ensures Control.Operate(s, Control.Assert, t, e).Abort?
  {
  }

  /** The context just before the transition hook, and the state it leads to. */
  lemma {:induction false} Before(s: Control.Ctx, t: Control.Trigger, e: Control.Env)
    returns (s2: Control.Ctx, st: Control.State)
    requires Control.Notify(s, t, e).Ok?
    ensures SameWatch(s, s2)
    ensures s2.flow.waitBusy == (!FailsafeEvent(t, s.fsm) && (t == Control.HalBusy || (s.flow.waitBusy && !Control.IsReason(t))))
    ensures if st == s.fsm then Control.Notify(s, t, e) == Ok(s2)
            else Control.Transit(s2, s.fsm, st).Ok?
                 && Control.Notify(s, t, e) == Ok(Control.Transit(s2, s.fsm, st).ctx.(fsm := st))
  {
    hide Control.Operate, Control.Failsafe, Control.Prepare, Control.Transit, Control.Table, Control.IsReason;
    var cell := Control.Table(t, s.fsm);
    FailsafeCells(t, s.fsm);
    PrepareQuiet(s, t);
    var s0 := Control.Prepare(s, t).ctx;
    if cell.op.FailsafeOp? {
      FailsafeRuns(s0, t, e);
      QuietFailsafe(s0);
    } else if cell.op.OpFailed? {
      FailedRuns(s0, t, e);
      QuietFailsafe(Control.Operate(s0, cell.op, t, e).ctx.0);
    } else {
      AssertRuns(s0, t, e);
      QuietOps(s0, cell.op, t, e);
    }
    var (s1, ret) := Control.Operate(s0, cell.op, t, e).ctx;
    var (s', failsafe) := (if ret.Fail? then Control.Failsafe(s1) else Ok((s1, Stay))).ctx;
    s2 := s';
    st := NextState(s.fsm, cell.forced, ret, failsafe).value;
  }

  /** A busy event is remembered until the reason it announces, unless control falls back to
      its failsafe operation. */
  lemma {:induction false} BusyRemembered(s: Control.Ctx, t: Control.Trigger, e: Control.Env)
    requires Control.Notify(s, t, e).Ok?
    ensures Control.Notify(s, t, e).ctx.flow.waitBusy ==
            (!FailsafeEvent(t, s.fsm) && (t == Control.HalBusy || (s.flow.waitBusy && !Control.IsReason(t))))
  {
    hide Control.Notify, Control.Transit, Control.IsReason, FailsafeEvent;
    var s2, st := Before(s, t, e);
    if st != s.fsm {
      TransitFlow(s2, s.fsm, st);
    }
  }

  lemma {:induction false} TransitFlow(s: Control.Ctx, prev: Control.State, next: Control.State)
    ensures Control.Transit(s, prev, next).Ok? ==> Control.Transit(s, prev, next).ctx.flow == s.flow
    ensures Control.Transit(s, prev, next) != Abort(Control.PreOp)
  {
    hide Watchdog.GenScalar;
  }

  /** The assertion on reasons fires exactly on one that no busy event announced. */
  lemma {:induction false} PreOpExact(s: Control.Ctx, t: Control.Trigger, e: Control.Env)
    ensures Control.Notify(s, t, e) == Abort(Control.PreOp) <==> Control.IsReason(t) && !s.flow.waitBusy
  {
    hide Control.Operate, Control.Failsafe, Control.Prepare, Control.Transit, Control.Table, Control.IsReason;
    PrepareQuiet(s, t);
    PrepareWhy(s, t);
    if Control.Prepare(s, t).Ok? {
      var s0 := Control.Prepare(s, t).ctx;
      var cell := Control.Table(t, s.fsm);
      if cell.op.FailsafeOp? {
        FailsafeRuns(s0, t, e);
        QuietFailsafe(s0);
      } else if cell.op.OpFailed? {
        FailedRuns(s0, t, e);
      } else {
        QuietOps(s0, cell.op, t, e);
      }
      var r := Control.Operate(s0, cell.op, t, e);
      if r.Ok? {
        QuietFailsafe(r.ctx.0);
        var (s2, failsafe) := (if r.ctx.1.Fail? then Control.Failsafe(r.ctx.0) else Ok((r.ctx.0, Stay))).ctx;
        var next := NextState(s.fsm, cell.forced, r.ctx.1, failsafe);
        if next.Some? {
          TransitFlow(s2, s.fsm, next.value);
        }
      }
    }
  }

  lemma {:induction false} PrepareWhy(s: Control.Ctx, t: Control.Trigger)
    ensures Control.Prepare(s, t).Abort? ==> Control.Prepare(s, t).why == Control.PreOp
  {
  }
}
