/**
 Where the moves of client abstraction come from: what it takes to ask for a start, to be off, and
 to leave the initial state.
 */
module ClaOrigins {
  import opened Common
  import opened Fsm
  import opened Cla
  import opened ClaRuns
  import opened ClaOutcomes
  import opened ClaRequests
  import ClaBook
  import ClaInvariant

  /** A start was asked only if `start`, the machine is newly off only if `off` (or the modem is
      gone), and it has left INITIAL only if `first`, for good. */
  predicate From(s: Ctx, s': Ctx, start: bool, off: bool, first: bool) {
    && (s'.requests != s.requests && LastSent(s') == Some(Start) ==> start)
    && (s.fsm != StOff && s'.fsm == StOff && s'.modem != Unresp ==> off)
    && (s.fsm == Initial && s'.fsm != Initial ==> first)
    && (s'.fsm == Initial ==> s.fsm == Initial)
  }

  predicate StartDue(s: Ctx, t: Trigger) {
    !s.inProgress && ((t == CliAcquire && s.fsm == StOff) || t == MdmOff || (t == Success && s.fsm == Stopping))
  }

  predicate OffDue(s: Ctx, t: Trigger) {
    !s.inProgress && (t == MdmOff || ((t == Success || t == Failure) && s.fsm == Stopping))
  }

  predicate FirstDue(t: Trigger) {
    t == MdmOff || t == MdmReady
  }

  lemma {:induction false} ShutdownFrom(s: Ctx, s': Ctx, t: Trigger)
    requires ShutsDown(s, s') && (s.fsm == Initial ==> FirstDue(t))
    ensures From(s, s', false, false, FirstDue(t))
  {
  }

  lemma {:induction false} OverFrom(s: Ctx, s': Ctx, kind: RestartKind, t: Trigger)
    requires StartsOver(s, s', kind) && (s.fsm == Initial ==> FirstDue(t))
    ensures From(s, s', false, false, FirstDue(t))
  {
  }

  lemma {:induction false} AckedFrom(s: Ctx, bad: Links)
    requires (s.fsm == AckCold || s.fsm == AckShut) && Notify(s, CliAcked, bad).Ok?
    ensures From(s, Notify(s, CliAcked, bad).ctx, false, false, false)
  {
    hide Notify, From;
    if s.fsm == AckCold {
      ColdFrom(s, bad);
    } else {
      ShutFrom(s, bad);
    }
  }

  lemma {:induction false} ColdFrom(s: Ctx, bad: Links)
    requires s.fsm == AckCold && Notify(s, CliAcked, bad).Ok?
    ensures From(s, Notify(s, CliAcked, bad).ctx, false, false, false)
  {
    hide Notify, ShutsDown;
    ColdResetAcked(s, bad);
    if s.modem != Unresp && s.book.numAcquired == 0 {
      ShutdownFrom(s, Notify(s, CliAcked, bad).ctx, CliAcked);
    }
  }

  lemma {:induction false} ShutFrom(s: Ctx, bad: Links)
    requires s.fsm == AckShut && Notify(s, CliAcked, bad).Ok?
    ensures From(s, Notify(s, CliAcked, bad).ctx, false, false, false)
  {
    hide Notify, StartsOver;
    ShutdownAcked(s, bad);
    if !(s.book.numAcquired == 0 || (s.restart == NoRestart && s.reported == Ready)) && s.restart != NoRestart {
      OverFrom(s, Notify(s, CliAcked, bad).ctx, s.restart, CliAcked);
    }
  }

  lemma {:induction false} UpFrom(s: Ctx, t: Trigger, bad: Links)
    requires LooksUp(s.fsm, t) && Notify(s, t, bad).Ok?
    ensures From(s, Notify(s, t, bad).ctx, false, false, FirstDue(t))
  {
    hide Notify, ShutsDown, StartsOver;
    CameUp(s, t, bad);
    var s' := Notify(s, t, bad).ctx;
    if !(s.inProgress || s.modem != Ready) {
      if s.book.numAcquired == 0 {
        ShutdownFrom(s, s', t);
      } else if s.restart != NoRestart {
        OverFrom(s, s', s.restart, t);
      }
    }
  }

  lemma {:induction false} DownFrom(s: Ctx, t: Trigger, bad: Links)
    requires LooksDown(s.fsm, t) && Notify(s, t, bad).Ok?
    ensures From(s, Notify(s, t, bad).ctx, StartDue(s, t), OffDue(s, t), FirstDue(t))
  {
    hide Notify;
    WentOff(s, t, bad);
  }

  lemma {:induction false} ClientFrom(s: Ctx, t: Trigger, bad: Links)
    requires (t == CliAcquire || t == CliRelease || (t == CliRestart && s.restart != NoRestart)) && Notify(s, t, bad).Ok?
    ensures From(s, Notify(s, t, bad).ctx, StartDue(s, t), false, false)
  {
    hide Notify, ShutsDown, StartsOver;
    Unexpected(s, t, bad);
    var s' := Notify(s, t, bad).ctx;
    if Ignores(s.fsm, t) {
      Ignored(s, t, bad);
    } else if t == CliAcquire {
      Acquired(s, bad);
    } else if t == CliRelease {
      Released(s, bad);
      ShutdownFrom(s, s', t);
    } else {
      RestartAsked(s, bad);
      OverFrom(s, s', s.restart, t);
    }
  }

  lemma {:induction false} ModemFrom(s: Ctx, t: Trigger, bad: Links)
    requires (t == MdmBusy || (t == MdmUnresp && s.modem == Unresp) || t == Failure) && Notify(s, t, bad).Ok?
    requires t == Failure ==> !s.inProgress
    ensures From(s, Notify(s, t, bad).ctx, false, OffDue(s, t), false)
  {
    hide Notify, StartsOver;
    Unexpected(s, t, bad);
    match t
    case MdmBusy =>
      BecameBusy(s, bad);
      if s.fsm == StUp {
        OverFrom(s, Notify(s, t, bad).ctx, ModemRestart, t);
      }
    case MdmUnresp => BecameUnresponsive(s, bad);
    case _ => Failed(s, bad);
  }

  lemma {:induction false} EventFrom(s: Ctx, t: Trigger, bad: Links)
    requires Notify(s, t, bad).Ok? && (t == CliRestart ==> s.restart != NoRestart) && (t == MdmUnresp ==> s.modem == Unresp)
    requires (t == Failure || t == Success ==> !s.inProgress) && (t == CliAcked ==> s.fsm == AckCold || s.fsm == AckShut)
    ensures From(s, Notify(s, t, bad).ctx, StartDue(s, t), OffDue(s, t), FirstDue(t))
  {
    hide Notify;
    Unexpected(s, t, bad);
    if LooksUp(s.fsm, t) {
      UpFrom(s, t, bad);
    } else if LooksDown(s.fsm, t) {
      DownFrom(s, t, bad);
    } else if t == CliAcked {
      AckedFrom(s, bad);
    } else if t == CliAcquire || t == CliRelease || t == CliRestart {
      ClientFrom(s, t, bad);
    } else {
      ModemFrom(s, t, bad);
    }
  }

  // ---------------------------------------------------------------- messages and turns

  predicate Quietly(s: Ctx, r: Handled) {
    r.Ok? ==> From(s, r.ctx, false, false, false)
  }

  lemma {:induction false} SameFrom(s: Ctx, s': Ctx)
    requires s'.requests == s.requests && s'.fsm == s.fsm
    ensures From(s, s', false, false, false)
  {
  }

  lemma {:induction false} ChangeFrom(s: Ctx, s0: Ctx, m: Mdm, silent: bool, bad: Links)
    requires s0.requests == s.requests && s0.fsm == s.fsm && s0.inProgress == s.inProgress
    requires (m == Off || m == Unresp || m == Busy || m == Ready) && ChangeState(s0, m, silent, bad).Ok?
    ensures From(s, ChangeState(s0, m, silent, bad).ctx, m == Off && !s.inProgress, m == Off && !s.inProgress, m == Off || m == Ready)
  {
    hide Notify, NotifyAll, ChangeState;
    ChangeUnfolds(s0, m, silent, bad);
    var tell := !silent && (s0.modem == Unknown || ToEvent(m) != ToEvent(s0.modem));
    var r := if tell then NotifyAll(s0, ToEvent(m), bad) else Ok(s0);
    Broadcast(s0, ToEvent(m), bad);
    EventFrom(r.ctx.(modem := m), TriggerOf(m), bad);
    MatchTrigger(r.ctx.(modem := m), m);
  }

  lemma {:induction false} MatchTrigger(s: Ctx, m: Mdm)
    requires (m == Off || m == Unresp || m == Busy || m == Ready) && s.modem == m
    ensures StartDue(s, TriggerOf(m)) ==> m == Off && !s.inProgress
    ensures OffDue(s, TriggerOf(m)) ==> m == Off && !s.inProgress
    ensures FirstDue(TriggerOf(m)) ==> m == Off || m == Ready
  {
  }

  lemma {:induction false} StateFrom(s: Ctx, mdm: Mdm, bad: Links)
    requires mdm != Unknown && HandleModemState(s, mdm, bad).Ok?
    ensures From(s, HandleModemState(s, mdm, bad).ctx, mdm == Off && !s.inProgress, mdm == Off && !s.inProgress, mdm == Off || mdm == Ready)
  {
    hide ChangeState;
    var silent := mdm == PlatformReboot;
    var m := if silent then Unresp else mdm;
    if !(s.fake && m != Unresp) && s.modem != m && s.modem != Unresp {
      ChangeFrom(s, Record(s, m, silent).(fake := false), m, silent, bad);
    }
  }

  /** A message of control. */
  lemma {:induction false} ControlFrom(s: Ctx, m: ControlMsg, bad: Links)
    requires FromControl(m) && HandleControlMsg(s, m, bad).Ok?
    ensures var s' := HandleControlMsg(s, m, bad).ctx;
            From(s, s', (m == ModemState(Off) && !s.inProgress) || (m == Result(true) && s.fsm == Stopping),
                 (m == ModemState(Off) && !s.inProgress) || (m.Result? && s.fsm == Stopping),
                 m == ModemState(Off) || m == ModemState(Ready))
  {
    hide Notify, NotifyAll, HandleModemState;
    match m
    case Result(ok) => EventFrom(s.(inProgress := false), if ok then Success else Failure, bad);
    case NotifyClient(e) => Broadcast(s, e, bad);
    case ModemState(mdm) => StateFrom(s, mdm, bad);
  }

  lemma {:induction false} RestartQuietly(s: Ctx, kind: RestartKind, dbg: bool, bad: Links)
    requires kind != NoRestart
    ensures Quietly(s, Notify(s.(restart := kind, dbg := dbg), CliRestart, bad))
  {
    hide Notify;
    var s0 := s.(restart := kind, dbg := dbg);
    if Notify(s0, CliRestart, bad).Ok? {
      ClientFrom(s0, CliRestart, bad);
    }
  }

  lemma {:induction false} PlainQuietly(s: Ctx, bad: Links, r: Outcome<Book, Assertion>)
    ensures Quietly(s, Ok(s)) && Quietly(s, NotifyAll(s, DbgInfo, bad)) && Quietly(s, WithBook(s, r))
    ensures Quietly(s, Ok(s.(reject := true, book := s.book.(numAcquired := 0), shutdownSeen := true)))
  {
    hide NotifyAll;
    Broadcast(s, DbgInfo, bad);
  }

  lemma {:induction false} ClientQuietly(s: Ctx, c: nat, m: ClientMsg, bad: Links)
    requires c < |s.book.clients|
    ensures Quietly(s, HandleClientMsg(s, c, m, bad))
  {
    hide From, Notify, NotifyAll, HandleSlotMsg, HandleRegister, Unregister, WithBook;
    PlainQuietly(s, bad, Unregister(s.book, c));
    if c in s.book.toClean {
    } else if (m.Register? && m.debug != s.sanity) || (!m.Register? && !s.book.clients[c].registered) {
    } else {
      match m
      case Register(_, events) => PlainQuietly(s, bad, HandleRegister(s.book, c, events, s.modem, bad));
      case AskRestart(cause, dbg) => RestartQuietly(s, if cause == MdmErr then ModemRestart else ModemUpdate, dbg, bad);
      case AskBackup => RestartQuietly(s, BackupNvm, s.dbg, bad);
      case NotifyDbg =>
      case AskShutdown =>
      case UnknownId =>
      case _ => PlainQuietly(s, bad, HandleSlotMsg(s.book, c, m, s.reject));
    }
  }

  lemma {:induction false} TurnFrom(l: Loop, bad: Links, base: nat)
    requires ClaRuns.Inv(l, base) && l.phase.Iter? && FinishTurn(l.ctx, l.phase, bad).Ok?
    ensures From(l.ctx, FinishTurn(l.ctx, l.phase, bad).ctx, l.ctx.fsm == StOff && !l.ctx.inProgress && l.ctx.modem != Unresp, false, false)
  {
    hide ClaInvariant.Core, ClaBook.MarkedIdle, ClaBook.Surplus, Notify;
    var s := l.ctx;
    NonNegative(s);
    var acked := l.phase.waiting && !Waiting(s.book);
    if l.phase.acquired && s.book.numAcquired == 0 {
      if acked {
        AckedFrom(s.(restart := NoRestart), bad);
      } else {
        ClientFrom(s, CliRelease, bad);
      }
    } else if !l.phase.acquired && s.book.numAcquired != 0 {
      ClientFrom(s, CliAcquire, bad);
    } else if acked {
      AckedFrom(s, bad);
    }
  }

  lemma {:induction false} TimeoutFrom(s: Ctx, p: Phase, bootLeft: nat, bad: Links)
    requires p.Polling? && (p.ack ==> s.fsm == AckCold || s.fsm == AckShut) && HandleTimeout(s, p, bootLeft, bad).Ok?
    ensures From(s, HandleTimeout(s, p, bootLeft, bad).ctx, false, false, false)
  {
    hide ElapseAck;
    ElapseFrom(if p.boot then s.(bootArmed := bootLeft > 0) else s, p.ack, bad);
  }

  lemma {:induction false} ElapseFrom(s: Ctx, ack: bool, bad: Links)
    requires (ack ==> s.fsm == AckCold || s.fsm == AckShut) && ElapseAck(s, ack, bad).Ok?
    ensures From(s, ElapseAck(s, ack, bad).ctx, false, false, false)
  {
    hide Notify, ClearAcks;
    if ack {
      AckedFrom(s.(book := ClearAcks(s.book)), bad);
    }
  }

  // ---------------------------------------------------------------- steps

  predicate StartStep(l: Loop, i: Input) {
    || (l.ctx.fsm == StOff && !l.ctx.inProgress && l.ctx.modem != Unresp)
    || (i == Control(ModemState(Off)) && !l.ctx.inProgress)
    || (i == Control(Result(true)) && l.ctx.fsm == Stopping)
  }

  predicate OffStep(l: Loop, i: Input) {
    || (i == Control(ModemState(Off)) && !l.ctx.inProgress)
    || (i.Control? && i.msg.Result? && l.ctx.fsm == Stopping)
  }

  predicate FirstStep(i: Input) {
    i == Control(ModemState(Off)) || i == Control(ModemState(Ready))
  }

  lemma {:induction false} StepFrom(l: Loop, i: Input, bad: Links, base: nat)
    requires ClaRuns.Inv(l, base) && Enabled(l, i) && Step(l, i, bad).Ok?
    ensures From(l.ctx, Step(l, i, bad).ctx.ctx, StartStep(l, i), OffStep(l, i), FirstStep(i))
  {
    hide ClaRuns.Inv, HandleControlMsg, HandleClientMsg, HandleTimeout, FinishTurn, Unregister, WithBook, Unmarked, PollTimeout;
    Facts(l, base);
    match i
    case Control(m) => ControlFrom(l.ctx, m, bad);
    case FromClient(c, m) => ClientQuietly(l.ctx, c, m, bad);
    case Lost(c) => PlainQuietly(l.ctx, bad, Unregister(l.ctx.book, c));
    case EndTurn => TurnFrom(l, bad, base);
    case PollTimesOut(bootLeft) => TimeoutFrom(l.ctx, l.phase, bootLeft, bad);
    case _ => SameFrom(l.ctx, Step(l, i, bad).ctx.ctx);
  }
}
