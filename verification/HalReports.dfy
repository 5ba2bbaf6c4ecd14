/**
 What the Sofia HAL reports to control, and why: each event it sends, from what happened to the
 modem and from what it was asked before.
 */
module HalReports {
  import opened Common
  import opened Fsm
  import opened Hal
  import opened HalRuns
  import Control

  // ---------------------------------------------------------------- one step

  /** The step sends `ts` and leads to `st`. */
  predicate Sends(s: Ctx, r: Handled, ts: seq<Control.Trigger>, st: State) {
    r.Ok? && r.ctx.toCtl == s.toCtl + ts && r.ctx.fsm == st
  }

  const RESET := [Control.HalBusy, Control.HalNeedReset]

  /** The modem traps: a dump is announced if and only if dumps are enabled, else a reset. */
  lemma {:induction false} TrapReported(s: Ctx, e: Env)
    requires Inv(s)
    ensures Sends(s, Step(s, Uevent(MdmTrap), e),
                  if s.dumpEnabled then [Control.HalBusy, Control.HalDump] else RESET, NeedResetting)
  {
  }

  /** The firmware cannot be loaded: the modem is unresponsive. Expected while booting only. */
  lemma {:induction false} FirmwareReported(s: Ctx, e: Env)
    requires Inv(s)
    ensures if s.fsm == Booting then Sends(s, Step(s, Uevent(MdmFwFail), e), [Control.HalBusy, Control.HalUnresponsive], StOff)
            else Step(s, Uevent(MdmFwFail), e).Abort?
  {
  }

  /** Too slow to boot, to answer the ping or to bring its RPC up: a reset, from whatever state the
      modem is in. A modem too slow to stop stops the process. */
  lemma {:induction false} TimeoutReported(s: Ctx, e: Env)
    requires Inv(s)
    ensures var rest := if s.mdm == MdmOff then StOff else NeedResetting;
            && (s.timerArmed && s.fsm != Stopping ==> Sends(s, Step(s, TimerExpires, e), RESET, rest))
            && (s.fsm == Stopping ==> Step(s, TimerExpires, e) == Abort(AtCell(Timeout, Stopping)))
            && (s.pinging ==> Sends(s, Step(s, PingAnswer(false), e), RESET, rest))
  {
  }

  /** The ping is answered: the RPC daemon starts, and nothing is said yet. */
  lemma {:induction false} PingReported(s: Ctx, e: Env)
    requires Inv(s) && s.pinging
    ensures Sends(s, Step(s, PingAnswer(true), e), [], WaitingRpc)
  {
    assert s.toCtl + [] == s.toCtl;
  }

  /** The RPC is up: the modem runs. It dies: a reset, if it was in use. */
  lemma {:induction false} RpcReported(s: Ctx, e: Env)
    requires Inv(s)
    ensures if s.fsm == WaitingRpc then Sends(s, Step(s, RpcEvent(true), e), [Control.HalRun], StRun)
            else Step(s, RpcEvent(true), e).Abort?
    ensures if s.rpcd then Sends(s, Step(s, RpcEvent(false), e), RESET, NeedResetting)
            else Sends(s, Step(s, RpcEvent(false), e), [], s.fsm)
  {
    assert s.toCtl + [] == s.toCtl;
  }

  /** The modem is on: it is pinged if it was booting. */
  lemma {:induction false} OnReported(s: Ctx, e: Env)
    requires Inv(s)
    ensures if s.fsm == Booting then Sends(s, Step(s, Uevent(MdmOn), e), [], Pinging)
            else if s.fsm == StOff && s.secvm then Sends(s, Step(s, Uevent(MdmOn), e), [], StOff)
            else Step(s, Uevent(MdmOn), e).Abort?
  {
    assert s.toCtl + [] == s.toCtl;
  }

  /** The modem goes off: a reset if nobody asked for it. */
  lemma {:induction false} OffReported(s: Ctx, e: Env)
    requires Inv(s)
    ensures match s.fsm
            case Stopping =>
              Sends(s, Step(s, Uevent(MdmOff), e),
                    [Control.HalBusy, if s.stopping then Control.HalOff else Control.HalFlash], StOff)
            case StOff => Step(s, Uevent(MdmOff), e).Abort?
            case NeedResetting => Step(s, Uevent(MdmOff), e).Abort?
            case _ => Sends(s, Step(s, Uevent(MdmOff), e), RESET, StOff)
  {
  }

  /** The requests of control. With the modem off they are answered at once: POWER and RESET by
      FLASH, STOP by OFF. */
  lemma {:induction false} RequestReported(s: Ctx, e: Env)
    requires Inv(s)
    ensures s.fsm == StOff ==> Sends(s, Step(s, Request(Power), e), [Control.HalBusy, Control.HalFlash], StOff)
    ensures s.fsm == StOff ==> Sends(s, Step(s, Request(ResetMdm), e), [Control.HalBusy, Control.HalFlash], StOff)
    ensures s.fsm == StOff ==> Sends(s, Step(s, Request(StopMdm), e), [Control.HalBusy, Control.HalOff], StOff)
    ensures s.fsm != StOff ==> Step(s, Request(Power), e).Abort? && Step(s, Request(BootMdm), e).Abort?
  {
  }

  /** A boot: a secured modem that is on already is pinged, any other is awaited; if it cannot be
      started, it is stopped. */
  lemma {:induction false} BootReported(s: Ctx, e: Env)
    requires Inv(s) && s.fsm == StOff
    ensures var r := Step(s, Request(BootMdm), e);
            if s.secvm then Sends(s, r, [], if s.mdm == MdmOn then Pinging else Booting)
            else if !e.startFails then Sends(s, r, [], Booting)
            else if s.mdm == MdmOff then Sends(s, r, [], StOff)
            else if e.stopFailsAgain then r == Abort(BadState)
            else Sends(s, r, [], Stopping) && r.ctx.stopping
  {
    assert s.toCtl + [] == s.toCtl;
  }

  /** STOP and RESET of a modem that is not off: it is being stopped, for the one or the other; a
      stop that fails is tried once more, as a STOP. */
  lemma {:induction false} StopReported(s: Ctx, t: Trigger, e: Env)
    requires Inv(s) && (t == StopMdm || t == ResetMdm) && (s.fsm == StRun || s.fsm == NeedResetting)
    ensures var r := Step(s, Request(t), e);
            if e.stopFails && e.stopFailsAgain then r == Abort(BadState)
            else Sends(s, r, [], Stopping) && r.ctx.stopping == (t == StopMdm || e.stopFails)
  {
    assert s.toCtl + [] == s.toCtl;
  }

  // ---------------------------------------------------------------- runs

  /** Whether the modem was last asked to stop for a reset: a RESET that did not fail. Any other
      way into STOPPING is a STOP or the failsafe operation. */
  predicate ForReset(s: Ctx, i: Input, e: Env, before: bool) {
    if !Enabled(s, i) || Step(s, i, e).Abort? then before
    else if s.fsm != Stopping && Step(s, i, e).ctx.fsm == Stopping then i == Request(ResetMdm) && !e.stopFails
    else before
  }

  ghost predicate LastForReset(s: Ctx, run: seq<(Input, Env)>, before: bool)
    decreases |run|
  {
    if run == [] then before
    else if !Enabled(s, run[0].0) || Step(s, run[0].0, run[0].1).Abort? then before
    else LastForReset(Step(s, run[0].0, run[0].1).ctx, run[1..], ForReset(s, run[0].0, run[0].1, before))
  }

  predicate Remembered(s: Ctx, reset: bool) {
    s.fsm == Stopping ==> s.stopping == !reset
  }

  lemma {:induction false} StepRemembers(s: Ctx, i: Input, e: Env, before: bool)
    requires Inv(s) && Remembered(s, before) && Enabled(s, i) && Step(s, i, e).Ok?
    ensures Remembered(Step(s, i, e).ctx, ForReset(s, i, e, before))
  {
    if i.Request? {
      RequestRemembers(s, i.request, e, before);
    } else {
      OthersRemember(s, i, e);
    }
  }

  /** Nothing but a request leads to STOPPING. */
  lemma {:induction false} OthersRemember(s: Ctx, i: Input, e: Env)
    requires Inv(s) && Enabled(s, i) && !i.Request? && Step(s, i, e).Ok?
    ensures Step(s, i, e).ctx.fsm == Stopping ==> s.fsm == Stopping && Step(s, i, e).ctx.stopping == s.stopping
  {
    hide Step;
    match i
    case Uevent(t) =>
      TrapReported(s, e);
      FirmwareReported(s, e);
      OnReported(s, e);
      OffReported(s, e);
    case PingAnswer(alive) =>
      PingReported(s, e);
      TimeoutReported(s, e);
    case TimerExpires => TimeoutReported(s, e);
    case RpcEvent(running) =>
      RpcReported(s, e);
      RpcQuiet(s, e);
  }

  lemma {:induction false} RpcQuiet(s: Ctx, e: Env)
    requires Inv(s)
    ensures s.fsm == Stopping ==> Step(s, RpcEvent(false), e) == Ok(s)
  {
  }

  lemma {:induction false} RequestRemembers(s: Ctx, t: Trigger, e: Env, before: bool)
    requires Inv(s) && Remembered(s, before) && Enabled(s, Request(t)) && Step(s, Request(t), e).Ok?
    ensures Remembered(Step(s, Request(t), e).ctx, ForReset(s, Request(t), e, before))
  {
    hide Step;
    RequestReported(s, e);
    if s.fsm == StOff {
      BootReported(s, e);
    }
    if (t == StopMdm || t == ResetMdm) && (s.fsm == StRun || s.fsm == NeedResetting) {
      StopReported(s, t, e);
    } else {
      Refused(s, t, e);
    }
  }

  lemma {:induction false} Refused(s: Ctx, t: Trigger, e: Env)
    requires Inv(s)
    ensures t == Backup ==> Step(s, Request(t), e).Abort?
    ensures (t == StopMdm || t == ResetMdm) && s.fsm != StOff && s.fsm != StRun && s.fsm != NeedResetting ==> Step(s, Request(t), e).Abort?
  {
  }

  lemma {:induction false} RunRemembers(s: Ctx, run: seq<(Input, Env)>, s': Ctx, before: bool)
    requires Inv(s) && Remembered(s, before) && Reaches(s, run, s')
    ensures Inv(s') && Remembered(s', LastForReset(s, run, before))
    decreases |run|
  {
    hide Inv, Remembered, Step, Enabled, ForReset, Announced;
    if run != [] {
      StepKeeps(s, run[0].0, run[0].1);
      StepRemembers(s, run[0].0, run[0].1, before);
      RunRemembers(Step(s, run[0].0, run[0].1).ctx, run[1..], s', ForReset(s, run[0].0, run[0].1, before));
    }
  }

  /** In every run, the modem that goes off while it is being stopped is reported as flashable if
      it was stopped for a reset, and as off if it was stopped by a STOP request or by the failsafe
      operation. */
  lemma {:induction false} StopAnswered(mdm: Trigger, dump: bool, secvm: bool, e0: Env, s: Ctx, run: seq<(Input, Env)>, s': Ctx, e: Env)
    requires Start(mdm, dump, secvm, e0) == Ok(s) && Reaches(s, run, s') && s'.fsm == Stopping
    ensures Sends(s', Step(s', Uevent(MdmOff), e),
                  [Control.HalBusy, if LastForReset(s, run, false) then Control.HalFlash else Control.HalOff], StOff)
  {
    hide Step, Reaches;
    StartInv(mdm, dump, secvm, e0);
    StartQuiet(mdm, dump, secvm, e0);
    RunRemembers(s, run, s', false);
    OffReported(s', e);
  }

  /** The first event is OFF, or a ping. */
  lemma {:induction false} StartQuiet(mdm: Trigger, dump: bool, secvm: bool, e: Env)
    ensures var r := Start(mdm, dump, secvm, e);
            && (mdm == MdmOff ==> Sends(Init(mdm, dump, secvm), r, [Control.HalOff], StOff))
            && (mdm == MdmOn ==> Sends(Init(mdm, dump, secvm), r, [], Pinging))
            && (mdm != MdmOff && mdm != MdmOn ==> r.Abort?)
  {
  }
}
