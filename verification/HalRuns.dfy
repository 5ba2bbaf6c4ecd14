/**
 Runs of the Sofia HAL.
 */
module HalRuns {
  import opened Common
  import opened Fsm
  import opened Hal
  import Control

  // ---------------------------------------------------------------- resources and states

  predicate Timed(st: State) {
    st == Booting || st == WaitingRpc || st == Stopping
  }

  /** Each resource lives in exactly the states that own it. */
  predicate Owned(s: Ctx) {
    && (s.timerArmed <==> Timed(s.fsm))
    && (s.rpcd <==> s.fsm == WaitingRpc || s.fsm == StRun)
    && (s.pinging <==> s.fsm == Pinging)
  }

  /** What is known of the modem: on from the ping to the run state, not off while it is
      being stopped or waits for a reset. */
  predicate Known(s: Ctx) {
    && s.fsm != Initial
    && (s.fsm == Pinging || s.fsm == WaitingRpc || s.fsm == StRun ==> s.mdm == MdmOn)
    && (s.fsm == Stopping || s.fsm == NeedResetting ==> s.mdm != MdmOff)
  }

  predicate Inv(s: Ctx) {
    Owned(s) && Known(s)
  }

  /** What a reason needs: a busy event just before it. */
  predicate Announced(ts: seq<Control.Trigger>) {
    || ts == [] || ts == [Control.HalOff] || ts == [Control.HalRun] || ts == [Control.HalBusy, Control.HalOff]
    || (|ts| == 2 && ts[0] == Control.HalBusy && Control.IsReason(ts[1]))
  }

  /** The assertions one event can meet: an event the table excludes, a modem switched on by
      nobody, and a modem that cannot be stopped. */
  predicate MayStop(why: Assertion, e: Env) {
    why.AtCell? || why == NotSecvm || (why == BadState && e.stopFailsAgain)
  }

  /** What one event does. */
  predicate Fine(s: Ctx, e: Env, r: Handled) {
    && (r.Abort? ==> MayStop(r.why, e))
    && (r.Ok? ==> Inv(r.ctx)
                  && |s.toCtl| <= |r.ctx.toCtl| && s.toCtl == r.ctx.toCtl[..|s.toCtl|]
                  && Announced(r.ctx.toCtl[|s.toCtl|..]))
  }

  /** The state just before an event: the modem's own events come with the new hardware
      state, an answer to a ping with the thread gone. */
  predicate Ready(s: Ctx, t: Trigger) {
    match t
    case MdmOff => Owned(s) && s.mdm == t
    case MdmOn => Owned(s) && s.mdm == t
    case MdmTrap => Owned(s) && s.mdm == t
    case MdmFwFail => Owned(s) && s.mdm == t
    case MdmRun => Known(s) && s.fsm == Pinging && !s.pinging && !s.timerArmed && !s.rpcd
    case Timeout => Known(s) && ((s.fsm == Pinging && !s.pinging && !s.timerArmed && !s.rpcd) || (Owned(s) && s.timerArmed))
    case _ => Inv(s)
  }

  predicate HasRpcd(st: State) {
    st == WaitingRpc || st == StRun
  }

  /** Between the operation and the transition hook: what the next state owns is there on top
      of what the previous one leaves behind. */
  predicate Handover(s: Ctx, s1: Ctx, st: State) {
    && s1.fsm == s.fsm
    && Known(s1.(fsm := st))
    && (s1.timerArmed <==> Timed(s.fsm) || Timed(st)) && (Timed(s.fsm) && Timed(st) ==> st == s.fsm)
    && (s1.rpcd <==> HasRpcd(s.fsm) || HasRpcd(st))
    && (HasRpcd(s.fsm) && HasRpcd(st) ==> st == s.fsm || (s.fsm == WaitingRpc && st == StRun))
    && (st == Pinging ==> s1.pinging) && (s.fsm != Pinging && st != Pinging ==> !s1.pinging)
  }

  predicate Logged(s: Ctx, s1: Ctx) {
    |s.toCtl| <= |s1.toCtl| && s.toCtl == s1.toCtl[..|s.toCtl|] && Announced(s1.toCtl[|s.toCtl|..])
  }

  lemma {:induction false} TransitKeeps(s: Ctx, s1: Ctx, st: State)
    requires Handover(s, s1, st)
    ensures st == s.fsm ==> Inv(s1)
    ensures st != s.fsm ==> Transit(s1, s.fsm, st).Ok? && Inv(Transit(s1, s.fsm, st).ctx.(fsm := st))
                            && Transit(s1, s.fsm, st).ctx.toCtl == s1.toCtl
  {
  }

  /** An operation hands over to the state it asks for. A failure changes nothing, and leaves
      the modem where a stop request is possible. */
  predicate OpFine(s: Ctx, r: Operated) {
    match r
    case Abort(why) => why.AtCell? || why == NotSecvm
    case Ok((s1, Stay)) => Handover(s, s1, s.fsm) && Logged(s, s1)
    case Ok((s1, Goto(st))) => Handover(s, s1, st) && Logged(s, s1)
    case Ok((s1, Fail)) => s1 == s && Inv(s) && !Timed(s.fsm) && s.fsm != Pinging
  }

  lemma {:induction false} LogAdds(s: Ctx, ts: seq<Control.Trigger>)
    requires Announced(ts)
    ensures Logged(s, Tell(s, ts))
  {
    hide Announced;
    assert (s.toCtl + ts)[|s.toCtl|..] == ts;
  }

  lemma {:induction false} SameLog(s: Ctx, s1: Ctx)
    requires s1.toCtl == s.toCtl
    ensures Logged(s, s1)
  {
    assert s1.toCtl[|s.toCtl|..] == [];
  }

  lemma {:induction false} StopKeeps(s: Ctx, stopping: bool, fails: bool)
    requires Inv(s) && !Timed(s.fsm) && s.fsm != Pinging
    ensures OpFine(s, StopModem(s, stopping, fails))
  {
    hide Logged;
    SameLog(s, s);
    SameLog(s, s.(timerArmed := true, stopping := stopping));
  }

  lemma {:induction false} BootKeeps(s: Ctx, fails: bool)
    requires Inv(s) && s.fsm == StOff
    ensures OpFine(s, RequestBoot(s, fails))
  {
    hide Logged;
    SameLog(s, s.(pinging := true));
    SameLog(s, s.(timerArmed := true));
  }

  lemma {:induction false} RequestFine(s: Ctx, t: Trigger, e: Env)
    requires Inv(s) && (t == Power || t == BootMdm || t == StopMdm || t == ResetMdm || t == Backup || t == RpcDead || t == RpcRun)
    ensures OpFine(s, Operate(s, Table(t, s.fsm), t, e))
  {
    hide Logged, StopModem, RequestBoot;
    if t == StopMdm || t == ResetMdm {
      StopFine(s, t, e);
    } else if t == BootMdm && s.fsm == StOff {
      BootKeeps(s, e.startFails);
    } else {
      LogAdds(s, [Control.HalBusy, Control.HalFlash]);
      LogAdds(s, [Control.HalBusy, Control.HalNeedReset]);
      LogAdds(s, [Control.HalRun]);
      SameLog(s, s);
    }
  }

  lemma {:induction false} StopFine(s: Ctx, t: Trigger, e: Env)
    requires Inv(s) && (t == StopMdm || t == ResetMdm)
    ensures OpFine(s, Operate(s, Table(t, s.fsm), t, e))
  {
    hide Logged, StopModem;
    if s.fsm == StRun || s.fsm == NeedResetting {
      StopKeeps(s, t == StopMdm, e.stopFails);
    } else {
      LogAdds(s, [Control.HalBusy, Control.HalFlash]);
      LogAdds(s, [Control.HalBusy, Control.HalOff]);
      LogAdds(s, [Control.HalBusy, Control.HalNeedReset]);
      SameLog(s, s);
    }
  }

  lemma {:induction false} StoppedFine(s: Ctx)
    requires Owned(s) && s.mdm == MdmOff && s.fsm == Stopping
    ensures OpFine(s, OffOrFlash(s))
  {
    hide Logged;
    var s1 := s.(stopping := false);
    LogAdds(s1, [Control.HalBusy, Control.HalOff]);
    SameStart(s, s1, Tell(s1, [Control.HalBusy, Control.HalOff]));
    LogAdds(s, [Control.HalBusy, Control.HalFlash]);
  }

  lemma {:induction false} OffFine(s: Ctx, e: Env)
    requires Owned(s) && s.mdm == MdmOff
    ensures OpFine(s, Operate(s, Table(MdmOff, s.fsm), MdmOff, e))
  {
    hide Logged, OffOrFlash;
    if s.fsm == Stopping {
      StoppedFine(s);
    }
    LogAdds(s, [Control.HalBusy, Control.HalNeedReset]);
    LogAdds(s, [Control.HalOff]);
  }

  lemma {:induction false} TrapFine(s: Ctx, e: Env)
    requires Owned(s) && s.mdm == MdmTrap && s.fsm != Initial
    ensures OpFine(s, Operate(s, Table(MdmTrap, s.fsm), MdmTrap, e))
  {
    hide Logged;
    LogAdds(s, [Control.HalBusy, Control.HalNeedReset]);
    LogAdds(s, [Control.HalBusy, Control.HalDump]);
  }

  lemma {:induction false} BootedFine(s: Ctx, t: Trigger, e: Env)
    requires Owned(s) && s.mdm == t && (t == MdmOn || t == MdmFwFail)
    requires s.fsm == Initial ==> t == MdmOn
    ensures OpFine(s, Operate(s, Table(t, s.fsm), t, e))
  {
    hide Logged;
    LogAdds(s, [Control.HalBusy, Control.HalUnresponsive]);
    SameLog(s, s);
    SameLog(s, s.(pinging := true));
  }

  lemma {:induction false} SameStart(s: Ctx, s1: Ctx, s2: Ctx)
    requires Logged(s1, s2) && s1.toCtl == s.toCtl
    ensures Logged(s, s2)
  {
  }

  lemma {:induction false} InternalFine(s: Ctx, t: Trigger, e: Env)
    requires Ready(s, t) && (t == MdmRun || t == Timeout)
    ensures OpFine(s, Operate(s, Table(t, s.fsm), t, e))
  {
    hide Logged;
    LogAdds(s, [Control.HalBusy, Control.HalNeedReset]);
    SameLog(s, s.(rpcd := true, timerArmed := true));
  }

  lemma {:induction false} EventKeeps(s: Ctx, t: Trigger, e: Env)
    requires Ready(s, t) && (s.fsm == Initial ==> t == MdmOff || t == MdmOn)
    ensures Fine(s, e, Notify(s, t, e))
  {
    hide Operate, Table, Inv, Handover, Announced, Transit, Known, Owned, StopModem;
    OperatedWell(s, t, e);
    var r := Operate(s, Table(t, s.fsm), t, e);
    if r.Ok? {
      var (s1, ret) := r.ctx;
      if ret.Fail? {
        FailsafeWell(s, e);
        var r2 := StopModem(s, true, e.stopFailsAgain);
        if r2.ctx.1.Goto? {
          TransitKeeps(s, r2.ctx.0, r2.ctx.1.state);
        }
      } else {
        TransitKeeps(s, s1, if ret.Goto? then ret.state else s.fsm);
      }
    }
  }

  lemma {:induction false} OperatedWell(s: Ctx, t: Trigger, e: Env)
    requires Ready(s, t) && (s.fsm == Initial ==> t == MdmOff || t == MdmOn)
    ensures OpFine(s, Operate(s, Table(t, s.fsm), t, e))
  {
    hide Operate, Table, OpFine;
    if t == MdmOff {
      OffFine(s, e);
    } else if t == MdmTrap {
      TrapFine(s, e);
    } else if t == MdmOn || t == MdmFwFail {
      BootedFine(s, t, e);
    } else if t == MdmRun || t == Timeout {
      InternalFine(s, t, e);
    } else {
      RequestFine(s, t, e);
    }
  }

  lemma {:induction false} FailsafeWell(s: Ctx, e: Env)
    requires Inv(s) && !Timed(s.fsm) && s.fsm != Pinging
    ensures var r := StopModem(s, true, e.stopFailsAgain);
            && OpFine(s, r) && r.Ok? && !r.ctx.1.Stay?
            && (r.ctx.1.Fail? ==> e.stopFailsAgain)
  {
    StopKeeps(s, true, e.stopFailsAgain);
  }

  lemma {:induction false} StepKeeps(s: Ctx, i: Input, e: Env)
    requires Inv(s) && Enabled(s, i)
    ensures Fine(s, e, Step(s, i, e))
  {
    hide Notify, Announced;
    match i
    case Request(t) => EventKeeps(s, t, e);
    case Uevent(t) => EventKeeps(s.(mdm := t), t, e);
    case PingAnswer(alive) => EventKeeps(s.(pinging := false), if alive then MdmRun else Timeout, e);
    case RpcEvent(running) => EventKeeps(s, if running then RpcRun else RpcDead, e);
    case TimerExpires => EventKeeps(s, Timeout, e);
  }

  // ---------------------------------------------------------------- runs of the HAL alone

  ghost predicate Reaches(s: Ctx, run: seq<(Input, Env)>, s': Ctx)
    decreases |run|
  {
    if run == [] then s == s'
    else Enabled(s, run[0].0) && Step(s, run[0].0, run[0].1).Ok? && Reaches(Step(s, run[0].0, run[0].1).ctx, run[1..], s')
  }

  lemma {:induction false} StartInv(mdm: Trigger, dumpEnabled: bool, secvm: bool, e: Env)
    ensures var r := Start(mdm, dumpEnabled, secvm, e);
            if mdm == MdmOff || mdm == MdmOn then Fine(Init(mdm, dumpEnabled, secvm), e, r) else r == Abort(BadBoot)
  {
    hide Notify, Fine;
    if mdm == MdmOff || mdm == MdmOn {
      EventKeeps(Init(mdm, dumpEnabled, secvm), mdm, e);
    }
  }

  lemma {:induction false} RunKeeps(s: Ctx, run: seq<(Input, Env)>, s': Ctx)
    requires Inv(s) && Reaches(s, run, s')
    ensures Inv(s')
    decreases |run|
  {
    hide Inv, Step, Enabled, Announced;
    if run != [] {
      StepKeeps(s, run[0].0, run[0].1);
      RunKeeps(Step(s, run[0].0, run[0].1).ctx, run[1..], s');
    }
  }

  /** In every run the timer is armed exactly in BOOTING, WAITING_RPC and STOPPING, the RPC
      daemon runs exactly in WAITING_RPC and RUN, the ping thread lives exactly in PINGING;
      so none of their assertions can fire, and an answer to a ping always finds a cell that
      expects it. */
  lemma {:induction false} ResourcesFollowState(mdm: Trigger, dump: bool, secvm: bool, e: Env, s: Ctx, run: seq<(Input, Env)>, s': Ctx)
    requires Start(mdm, dump, secvm, e) == Ok(s) && Reaches(s, run, s')
    ensures s'.timerArmed <==> s'.fsm == Booting || s'.fsm == WaitingRpc || s'.fsm == Stopping
    ensures s'.rpcd <==> s'.fsm == WaitingRpc || s'.fsm == StRun
    ensures s'.pinging <==> s'.fsm == Pinging
    ensures forall i, e :: Enabled(s', i) && Step(s', i, e).Abort? ==>
              var why := Step(s', i, e).why;
              && (why.AtCell? || why == NotSecvm || (why == BadState && e.stopFailsAgain))
              && !i.PingAnswer?
  {
    StartInv(mdm, dump, secvm, e);
    RunKeeps(s, run, s');
    forall i, e | Enabled(s', i) && Step(s', i, e).Abort?
      ensures MayStop(Step(s', i, e).why, e) && !i.PingAnswer?
    {
      hide Step;
      StepKeeps(s', i, e);
      if i.PingAnswer? {
        AnswerExpected(s', i.alive, e);
      }
    }
  }

  lemma {:induction false} AnswerExpected(s: Ctx, alive: bool, e: Env)
    requires Inv(s) && s.fsm == Pinging
    ensures Step(s, PingAnswer(alive), e).Ok?
  {
  }
}
