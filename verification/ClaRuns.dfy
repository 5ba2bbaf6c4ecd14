/**
 Whole runs of the client abstraction's loop.
 */
module ClaRuns {
  import opened Common
  import opened Fsm
  import opened Cla
  import opened ClaBook
  import opened ClaInvariant

  // ---------------------------------------------------------------- messages

  /** What handling one message of control keeps. */
  predicate Handles(s: Ctx, r: Handled) {
    && (r.Abort? ==> Admitted(s, r.why))
    && (r.Ok? ==>
          && Core(r.ctx) && Kept(s.book, r.ctx.book)
          && r.ctx.bootArmed == s.bootArmed && r.ctx.shutdownSeen == s.shutdownSeen
          && (r.ctx.fsm == StUp ==> s.fsm == StUp || r.ctx.book.numAcquired > 0)
          && (s.fsm == AckCold || s.fsm == AckShut ==> r.ctx.fsm == s.fsm))
  }

  /** The broadcast that goes with a change of state, before the machine hears of it. */
  lemma {:induction false} Announce(s: Ctx, m: Mdm, bad: Links)
    requires Base(s) && s.modem != Unresp && !s.fake
    requires (m == Off || m == Unresp || m == Busy || m == Ready) && m != s.modem
    ensures var tell := s.modem == Unknown || ToEvent(m) != ToEvent(s.modem);
            var r := if tell then NotifyAll(s, ToEvent(m), bad) else Ok(s);
            && (r.Abort? ==> r.why == NegativeAcquired && Surplus(s.book) < 0)
            && (r.Ok? ==> LogOk(r.ctx.(modem := m)) && Carried(s, r.ctx)
                          && r.ctx == s.(book := r.ctx.book, broadcasts := r.ctx.broadcasts)
                          && r.ctx.book.numCold <= s.book.numCold && r.ctx.book.numShut <= s.book.numShut)
  {
    hide Base, LogOk, Carried, BookOk, NotifyAll, NotifyFrom, Surplus;
    if s.modem == Unknown || ToEvent(m) != ToEvent(s.modem) {
      AnnounceLoud(s, m, bad);
    } else {
      AnnounceNothing(s, m);
    }
  }

  lemma {:induction false} AnnounceNothing(s: Ctx, m: Mdm)
    requires Base(s) && s.modem != Unresp && s.modem != Unknown && m != Unknown && ToEvent(m) == ToEvent(s.modem)
    ensures LogOk(s.(modem := m)) && Carried(s, s)
  {
    hide Agrees, MarkedIdle, Surplus, UpAfterDown, Last;
  }

  lemma {:induction false} LogReady(s: Ctx, m: Mdm)
    requires Base(s) && s.modem != Unresp && (s.modem == Unknown || ToEvent(m) != ToEvent(s.modem))
    requires m == Off || m == Unresp || m == Busy || m == Ready
    ensures BookOk(s.book) && CanExpect(s.book, ToEvent(m), 0) && UpAfterDown(s.broadcasts) && !s.rebootSeen
    ensures ToEvent(m) == Up ==> (Last(s.broadcasts) == None || Last(s.broadcasts) == Some(Down))
  {
    hide Agrees, UpAfterDown, Last;
  }

  lemma {:induction false} AnnounceLoud(s: Ctx, m: Mdm, bad: Links)
    requires Base(s) && s.modem != Unresp && (s.modem == Unknown || ToEvent(m) != ToEvent(s.modem))
    requires m == Off || m == Unresp || m == Busy || m == Ready
    ensures var r := NotifyAll(s, ToEvent(m), bad);
            && (r.Abort? ==> r.why == NegativeAcquired && Surplus(s.book) < 0)
            && (r.Ok? ==> LogOk(r.ctx.(modem := m)) && Carried(s, r.ctx)
                          && r.ctx == s.(book := r.ctx.book, broadcasts := r.ctx.broadcasts)
                          && r.ctx.book.numCold <= s.book.numCold && r.ctx.book.numShut <= s.book.numShut)
  {
    hide Base, CanExpect, BookOk, MarkedIdle, Surplus, UpAfterDown, Last, NotifyFrom, NotifyAll;
    LogReady(s, m);
    BroadcastCtx(s, ToEvent(m), bad);
    AllUnfolds(s, ToEvent(m), bad);
  }

  /** The new state in place: all is ready for the modem event. */
  lemma {:induction false} Rebased(s: Ctx, s1: Ctx, m: Mdm)
    requires Base(s.(rebootSeen := false)) && !s.fake && s.modem != Unresp && (s.fsm == StUp ==> s.modem == Ready)
    requires s1 == s.(book := s1.book, broadcasts := s1.broadcasts) && BookOk(s1.book)
    requires s1.book.numCold <= s.book.numCold && s1.book.numShut <= s.book.numShut
    requires (m == Off || m == Unresp || m == Busy || m == Ready) && m != s.modem && (m == Unresp ==> s.reject)
    requires LogOk(s1.(modem := m))
    ensures Base(s1.(modem := m)) && JustChanged(s1.(modem := m), TriggerOf(m))
  {
    hide Agrees, LogOk;
  }

  lemma {:induction false} Told(s: Ctx, s1: Ctx, t: Trigger, r: Handled)
    requires Delivered(s1, t, r) && t != CliAcked && Kept(s.book, s1.book)
    requires s1.fsm == s.fsm && s1.bootArmed == s.bootArmed && s1.shutdownSeen == s.shutdownSeen
    ensures Handles(s, r)
  {
    hide Core, BookOk, MarkedIdle, Surplus;
  }

  lemma {:induction false} ChangeUnfolds(s: Ctx, m: Mdm, silent: bool, bad: Links)
    requires m == Off || m == Unresp || m == Busy || m == Ready
    ensures var tell := !silent && (s.modem == Unknown || ToEvent(m) != ToEvent(s.modem));
            var r := if tell then NotifyAll(s, ToEvent(m), bad) else Ok(s);
            ChangeState(s, m, silent, bad) == if r.Ok? then Notify(r.ctx.(modem := m), TriggerOf(m), bad) else r
  {
    hide Notify, NotifyAll;
  }

  lemma {:induction false} LoudChange(s: Ctx, m: Mdm, bad: Links)
    requires Base(s) && s.modem != Unresp && !s.fake && !s.rebootSeen
    requires (m == Off || m == Unresp || m == Busy || m == Ready) && m != s.modem
    requires (m == Unresp ==> s.reject) && (s.fsm == StUp ==> s.modem == Ready)
    ensures Handles(s, ChangeState(s, m, false, bad))
  {
    hide Base, Core, Handles, Delivered, Admitted, Agrees, MarkedIdle, Surplus, LogOk, Notify, NotifyAll, ChangeState, JustChanged;
    hide ToEvent, Carried;
    Announce(s, m, bad);
    ChangeUnfolds(s, m, false, bad);
    var tell := s.modem == Unknown || ToEvent(m) != ToEvent(s.modem);
    var r := if tell then NotifyAll(s, ToEvent(m), bad) else Ok(s);
    if r.Ok? {
      Changed(s, r.ctx, m, bad);
    } else {
      Refused(s, r.why);
    }
  }

  /** The machine hears of the new state once it is announced. */
  lemma {:induction false} Changed(s: Ctx, s0: Ctx, m: Mdm, bad: Links)
    requires Base(s) && s.modem != Unresp && !s.fake && !s.rebootSeen
    requires (m == Off || m == Unresp || m == Busy || m == Ready) && m != s.modem
    requires (m == Unresp ==> s.reject) && (s.fsm == StUp ==> s.modem == Ready)
    requires LogOk(s0.(modem := m)) && Carried(s, s0) && s0 == s.(book := s0.book, broadcasts := s0.broadcasts)
    requires s0.book.numCold <= s.book.numCold && s0.book.numShut <= s.book.numShut
    ensures Handles(s, Notify(s0.(modem := m), TriggerOf(m), bad))
  {
    hide Base, Core, Handles, Delivered, Admitted, Agrees, MarkedIdle, Surplus, LogOk, Notify, JustChanged;
    assert s == s.(rebootSeen := false);
    Rebased(s, s0, m);
    var s1 := s0.(modem := m);
    ModemEventKeeps(s1, TriggerOf(m), bad);
    Told(s, s1, TriggerOf(m), Notify(s1, TriggerOf(m), bad));
  }

  lemma {:induction false} Refused(s: Ctx, why: Assertion)
    requires why == NegativeAcquired && Surplus(s.book) < 0
    ensures Handles(s, Abort(why))
  {
  }

  /** A platform reboot: the machine hears of an unresponsive modem, the clients do not. */
  lemma {:induction false} SilentChange(s: Ctx, bad: Links)
    requires Base(s.(rebootSeen := false)) && s.modem != Unresp && !s.fake && s.rebootSeen && s.reject
    requires s.fsm == StUp ==> s.modem == Ready
    ensures Handles(s, ChangeState(s, Unresp, true, bad))
  {
    hide Base, Core, Handles, Delivered, Admitted, Agrees, MarkedIdle, Surplus, LogOk, Notify, JustChanged;
    SilentLog(s, Unresp);
    Rebased(s, s, Unresp);
    var s1 := s.(modem := Unresp);
    ModemEventKeeps(s1, MdmUnresp, bad);
    Told(s, s1, MdmUnresp, Notify(s1, MdmUnresp, bad));
  }

  lemma {:induction false} SilentLog(s: Ctx, m: Mdm)
    requires Base(s.(rebootSeen := false)) && s.rebootSeen && m == Unresp
    ensures LogOk(s.(modem := m)) && BookOk(s.book)
  {
    hide UpAfterDown, Last, Agrees;
  }

  /** A state the clients do not see changes no more than flags. */
  lemma {:induction false} Filtered(s: Ctx, m: Mdm, fake: bool)
    requires Core(s) && s.modem != Unresp && m != Unresp && (fake ==> s.fake)
    ensures Handles(s, Ok(Record(s, m, false).(fake := fake)))
  {
    hide Agrees, MarkedIdle, Surplus, UpAfterDown, Last;
  }

  lemma {:induction false} ModemStateKeeps(s: Ctx, mdm: Mdm, bad: Links)
    requires Core(s) && mdm != Unknown
    ensures Handles(s, HandleModemState(s, mdm, bad))
  {
    hide Agrees, MarkedIdle, Surplus, UpAfterDown, Last, ChangeState;
    var silent := mdm == PlatformReboot;
    var m := if silent then Unresp else mdm;
    var s1 := Record(s, m, silent);
    if s.modem != Unresp {
      if (s.fake && m != Unresp) || s.modem == m {
        Filtered(s, m, s.fake && s.modem != m);
      } else if silent {
        SilentChange(s1.(fake := false), bad);
      } else {
        LoudChange(s1.(fake := false), m, bad);
      }
    }
  }

  lemma {:induction false} ControlMsgKeeps(s: Ctx, m: ControlMsg, bad: Links)
    requires Core(s) && FromControl(m)
    ensures Handles(s, HandleControlMsg(s, m, bad))
  {
    hide Agrees, MarkedIdle, Surplus, UpAfterDown, Last, Notify, NotifyFrom, HandleModemState;
    match m
    case Result(ok) => ClientEventKeeps(s.(inProgress := false), if ok then Success else Failure, bad);
    case NotifyClient(e) => BroadcastCtx(s, e, bad);
    case ModemState(mdm) => ModemStateKeeps(s, mdm, bad);
  }

  /** What handling one client message keeps. */
  predicate Serves(s: Ctx, r: Handled) {
    && (r.Abort? ==> Admitted(s, r.why))
    && (r.Ok? ==>
          && Core(r.ctx) && r.ctx.bootArmed == s.bootArmed
          && (r.ctx.shutdownSeen || (!s.shutdownSeen && Surplus(r.ctx.book) == Surplus(s.book)))
          && (MarkedIdle(s.book) ==> MarkedIdle(r.ctx.book))
          && (r.ctx.fsm == StUp ==> s.fsm == StUp)
          && (s.fsm == AckCold || s.fsm == AckShut ==> r.ctx.fsm == s.fsm)
          && (r.ctx.book.numAcquired > s.book.numAcquired ==>
                r.ctx.fsm == s.fsm && Waiting(r.ctx.book) == Waiting(s.book) && r.ctx.modem != Unresp))
  }

  /** A change of the book alone. */
  lemma {:induction false} BookChange(s: Ctx, b: Book)
    requires Core(s) && BookOk(b) && b.numCold <= s.book.numCold && b.numShut <= s.book.numShut
    ensures Core(s.(book := b))
  {
    hide Agrees, UpAfterDown, Last;
  }

  lemma {:induction false} SlotFacts(s: Ctx)
    requires Core(s)
    ensures BookOk(s.book) && (s.modem == Unresp ==> s.reject)
  {
  }

  lemma {:induction false} SlotServes(s: Ctx, i: nat, m: ClientMsg, bad: Links)
    requires Core(s) && i < |s.book.clients| && i !in s.book.toClean && s.book.clients[i].registered
    requires m.Acquire? || m.Release? || m.AckColdReset? || m.AckShutdown?
    ensures Serves(s, HandleClientMsg(s, i, m, bad))
  {
    hide Core, BookOk, MarkedIdle, Surplus, HandleSlotMsg;
    SlotFacts(s);
    SlotMsgKeeps(s.book, i, m, s.reject);
    var r := HandleSlotMsg(s.book, i, m, s.reject);
    if r.Ok? {
      BookChange(s, r.ctx);
    }
  }

  lemma {:induction false} LeaveServes(s: Ctx, i: nat)
    requires Core(s) && i < |s.book.clients| && i !in s.book.toClean
    ensures Serves(s, WithBook(s, Unregister(s.book, i)))
  {
    assert BookOk(s.book);
    hide Base, BookOk, MarkedIdle, Surplus, Unregister;
    UnregisterKeeps(s.book, i);
    if Unregister(s.book, i).Ok? {
      BookChange(s, Unregister(s.book, i).ctx);
    }
  }

  lemma {:induction false} JoinServes(s: Ctx, i: nat, m: ClientMsg, bad: Links)
    requires Core(s) && i < |s.book.clients| && i !in s.book.toClean && m.Register?
    ensures Serves(s, WithBook(s, HandleRegister(s.book, i, m.events, s.modem, bad)))
  {
    assert BookOk(s.book);
    hide Base, BookOk, MarkedIdle, Surplus, HandleRegister;
    RegisterKeeps(s.book, i, m.events, s.modem, bad);
    var r := HandleRegister(s.book, i, m.events, s.modem, bad);
    if r.Ok? {
      BookChange(s, r.ctx);
    }
  }

  lemma {:induction false} RestartServes(s: Ctx, kind: RestartKind, dbg: bool, bad: Links)
    requires Core(s)
    ensures Serves(s, Notify(s.(restart := kind, dbg := dbg), CliRestart, bad))
  {
    hide Agrees, MarkedIdle, Surplus, UpAfterDown, Last, Notify;
    ClientEventKeeps(s.(restart := kind, dbg := dbg), CliRestart, bad);
  }

  lemma {:induction false} ShutdownServes(s: Ctx)
    requires Core(s)
    ensures Serves(s, Ok(s.(reject := true, book := s.book.(numAcquired := 0), shutdownSeen := true)))
  {
    hide UpAfterDown, Last;
  }

  lemma {:induction false} IgnoredServes(s: Ctx)
    requires Core(s)
    ensures Serves(s, Ok(s))
  {
  }

  lemma {:induction false} DebugServes(s: Ctx, bad: Links)
    requires Core(s)
    ensures Serves(s, NotifyAll(s, DbgInfo, bad))
  {
    hide Agrees, MarkedIdle, Surplus, UpAfterDown, Last, NotifyFrom;
    BroadcastCtx(s, DbgInfo, bad);
  }

  lemma {:induction false} ClientMsgKeeps(s: Ctx, i: nat, m: ClientMsg, bad: Links)
    requires Core(s) && i < |s.book.clients|
    ensures Serves(s, HandleClientMsg(s, i, m, bad))
  {
    hide Core, Serves, Notify, NotifyAll, WithBook, HandleSlotMsg, HandleRegister, Unregister;
    IgnoredServes(s);
    if i in s.book.toClean {
    } else if (m.Register? && m.debug != s.sanity) || (!m.Register? && !s.book.clients[i].registered) {
      LeaveServes(s, i);
    } else {
      match m
      case Register(_, _) => JoinServes(s, i, m, bad);
      case AskRestart(cause, dbg) =>
        RestartServes(s, if cause == MdmErr then ModemRestart else ModemUpdate, dbg, bad);
        BadCauseServes(s);
      case AskBackup => RestartServes(s, BackupNvm, s.dbg, bad);
      case AskShutdown => ShutdownServes(s);
      case NotifyDbg => DebugServes(s, bad);
      case UnknownId =>
      case _ => SlotServes(s, i, m, bad);
    }
  }

  lemma {:induction false} BadCauseServes(s: Ctx)
    ensures Serves(s, Abort(UnknownCause))
  {
  }

  // ---------------------------------------------------------------- loop

  predicate HeldWhenUp(s: Ctx) {
    s.fsm == StUp ==> s.book.numAcquired > 0
  }

  predicate AwaitsAck(s: Ctx) {
    s.fsm == AckCold || s.fsm == AckShut
  }

  /** The loop invariant. `base` is what the acquisition counter starts with. */
  predicate Inv(l: Loop, base: nat) {
    var s := l.ctx;
    && Core(s)
    && (!s.shutdownSeen ==> Surplus(s.book) == base)
    && match l.phase
       case Top => HeldWhenUp(s)
       case Polling(timeout, ack, boot) =>
         && HeldWhenUp(s) && timeout >= -1
         && (timeout == -1 <==> !ack && !boot)
         && (ack ==> Waiting(s.book))
         && (boot ==> s.bootArmed)
       case Scan => HeldWhenUp(s) && MarkedIdle(s.book)
       case Iter(acquired, waiting, source) =>
         && MarkedIdle(s.book)
         && (waiting ==> AwaitsAck(s))
         && match source
            case Ipc => (s.fsm == StUp || s.book.numAcquired > 0 ==> acquired)
            case Other => HeldWhenUp(s) && acquired == (s.book.numAcquired != 0) && waiting == Waiting(s.book)
            case Served =>
              && (acquired || HeldWhenUp(s))
              && (!acquired && s.book.numAcquired != 0 ==>
                    s.fsm != StUp && s.modem != Unresp && (waiting ==> Waiting(s.book)))
  }

  /** The assertions a step can stop at: those of `Admitted`, a negative acquisition
      counter only after a SHUTDOWN request. */
  predicate MayStop(s: Ctx, why: Assertion) {
    && Admitted(s, why)
    && (why == NegativeAcquired ==> s.shutdownSeen)
  }

  predicate StepOk(l: Loop, base: nat, r: Outcome<Loop, Assertion>) {
    && (r.Abort? ==> MayStop(l.ctx, r.why))
    && (r.Ok? ==> Inv(r.ctx, base))
  }

  lemma {:induction false} PollStep(l: Loop, i: Input, bad: Links, base: nat)
    requires Inv(l, base) && Enabled(l, i) && (i.EnterPoll? || i.PollReturns? || i.Turn?)
    ensures StepOk(l, base, Step(l, i, bad))
  {
    hide UpAfterDown, Last, Num;
  }

  lemma {:induction false} AcceptStep(l: Loop, i: Input, bad: Links, base: nat)
    requires Inv(l, base) && Enabled(l, i) && i.Accept?
    ensures StepOk(l, base, Step(l, i, bad))
  {
    hide UpAfterDown, Last, Num;
    var cs := l.ctx.book.clients;
    var c := Client(i.fd, false, {}, false, false, false, []);
    NumSnoc(cs, c, IsAcquired);
    NumSnoc(cs, c, IsCold);
    NumSnoc(cs, c, IsShut);
  }

  lemma {:induction false} ControlStep(l: Loop, i: Input, bad: Links, base: nat)
    requires Inv(l, base) && Enabled(l, i) && i.Control?
    ensures StepOk(l, base, Step(l, i, bad))
  {
    hide Core, BookOk, MarkedIdle, Surplus, HandleControlMsg;
    ControlMsgKeeps(l.ctx, i.msg, bad);
  }

  lemma {:induction false} NonNegative(s: Ctx)
    requires Core(s)
    ensures s.book.numAcquired >= 0
  {
  }

  /** One client handled in a turn that was not about control. */
  lemma {:induction false} TurnServed(l: Loop, r: Handled, base: nat)
    requires Inv(l, base) && l.phase.Iter? && l.phase.source == Other && Serves(l.ctx, r)
    ensures r.Abort? ==> MayStop(l.ctx, r.why)
    ensures r.Ok? ==> Inv(Loop(r.ctx, l.phase.(source := Served)), base)
  {
    hide Core, MarkedIdle, Surplus;
    NonNegative(l.ctx);
    if r.Ok? {
      NonNegative(r.ctx);
    }
  }

  lemma {:induction false} ClientStep(l: Loop, i: Input, bad: Links, base: nat)
    requires Inv(l, base) && Enabled(l, i) && i.FromClient?
    ensures StepOk(l, base, Step(l, i, bad))
  {
    hide Core, MarkedIdle, Surplus, HandleClientMsg, Admitted;
    ClientMsgKeeps(l.ctx, i.client, i.cmsg, bad);
    TurnServed(l, HandleClientMsg(l.ctx, i.client, i.cmsg, bad), base);
  }

  lemma {:induction false} LostStep(l: Loop, i: Input, bad: Links, base: nat)
    requires Inv(l, base) && Enabled(l, i) && i.Lost?
    ensures StepOk(l, base, Step(l, i, bad))
  {
    hide Core, MarkedIdle, Surplus, Unregister, Admitted;
    var r := if i.client in l.ctx.book.toClean then Ok(l.ctx) else WithBook(l.ctx, Unregister(l.ctx.book, i.client));
    if i.client in l.ctx.book.toClean {
      IgnoredServes(l.ctx);
    } else {
      LeaveServes(l.ctx, i.client);
    }
    TurnServed(l, r, base);
  }

  /** The event synthesised at the end of a turn is always one the machine expects. */
  lemma {:induction false} EndTurnStep(l: Loop, i: Input, bad: Links, base: nat)
    requires Inv(l, base) && Enabled(l, i) && i.EndTurn?
    ensures StepOk(l, base, Step(l, i, bad))
  {
    hide Core, MarkedIdle, Surplus, Notify, BookOk;
    var s, p := l.ctx, l.phase;
    NonNegative(s);
    var acked := p.waiting && !Waiting(s.book);
    if p.acquired && s.book.numAcquired == 0 {
      if acked {
        RestartCleared(s);
        ClientEventKeeps(s.(restart := NoRestart), CliAcked, bad);
      } else {
        ClientEventKeeps(s, CliRelease, bad);
      }
    } else if !p.acquired && s.book.numAcquired != 0 {
      ClientEventKeeps(s, CliAcquire, bad);
    } else if acked {
      ClientEventKeeps(s, CliAcked, bad);
    }
  }

  lemma {:induction false} RestartCleared(s: Ctx)
    requires Core(s)
    ensures Core(s.(restart := NoRestart))
  {
    hide Agrees, UpAfterDown, Last;
  }

  /** A poll time-out always belongs to a timer and always finds the wakelock held. */
  lemma {:induction false} TimeoutStep(l: Loop, i: Input, bad: Links, base: nat)
    requires Inv(l, base) && Enabled(l, i) && i.PollTimesOut?
    ensures StepOk(l, base, Step(l, i, bad))
  {
    hide Core, Surplus, HandleTimeout;
    TimerOwned(l, base);
    TimeoutHandles(l.ctx, l.phase, i.bootLeft, bad);
  }

  lemma {:induction false} TimeoutHandles(s: Ctx, p: Phase, bootLeft: nat, bad: Links)
    requires Core(s) && HeldWhenUp(s) && s.wakelock == 1 && p.Polling? && (p.ack || p.boot) && (p.ack ==> Waiting(s.book))
    ensures var r := HandleTimeout(s, p, bootLeft, bad);
            && (r.Abort? ==> Admitted(s, r.why))
            && (r.Ok? ==> Core(r.ctx) && HeldWhenUp(r.ctx) && Surplus(r.ctx.book) == Surplus(s.book)
                          && r.ctx.shutdownSeen == s.shutdownSeen)
  {
    hide Core, Surplus, ElapseAck, Admitted;
    BootElapses(s, bootLeft > 0);
    var s1 := if p.boot then s.(bootArmed := bootLeft > 0) else s;
    ElapseKeeps(s1, p.ack, bad);
    SameAdmitted(s, s1);
  }

  lemma {:induction false} SameAdmitted(s: Ctx, s1: Ctx)
    requires s1.book == s.book
    ensures forall why :: Admitted(s, why) == Admitted(s1, why)
  {
  }

  lemma {:induction false} ElapseKeeps(s: Ctx, ack: bool, bad: Links)
    requires Core(s) && HeldWhenUp(s) && s.wakelock == 1 && (ack ==> Waiting(s.book))
    ensures var r := ElapseAck(s, ack, bad);
            && (r.Abort? ==> Admitted(s, r.why))
            && (r.Ok? ==> Core(r.ctx) && HeldWhenUp(r.ctx) && Surplus(r.ctx.book) == Surplus(s.book)
                          && r.ctx.shutdownSeen == s.shutdownSeen)
  {
    hide Core, Surplus, Notify, ClearAcks, ReleaseIfIdle, Admitted;
    if ack {
      AckTimeout(s, bad);
      var r := Notify(s.(book := ClearAcks(s.book)), CliAcked, bad);
      if r.Ok? {
        ReleaseKeeps(r.ctx);
      }
    } else {
      ReleaseKeeps(s);
    }
  }

  lemma {:induction false} TimerOwned(l: Loop, base: nat)
    requires Inv(l, base) && l.phase.Polling? && l.phase.timeout != -1
    ensures l.ctx.wakelock == 1
  {
    hide Agrees, Surplus, LogOk;
  }

  lemma {:induction false} BootElapses(s: Ctx, armed: bool)
    requires Core(s) && s.wakelock == 1
    ensures Core(s.(bootArmed := armed))
  {
    hide Agrees, UpAfterDown, Last;
  }

  lemma {:induction false} ReleaseKeeps(s: Ctx)
    requires Core(s)
    ensures Core(ReleaseIfIdle(s))
    ensures ReleaseIfIdle(s) == s.(wakelock := ReleaseIfIdle(s).wakelock)
  {
    hide Agrees, UpAfterDown, Last;
  }

  /** Every acknowledgement given up at once: the machine is in a waiting state. */
  lemma {:induction false} AckTimeout(s: Ctx, bad: Links)
    requires Core(s) && Waiting(s.book) && s.wakelock == 1
    ensures var r := Notify(s.(book := ClearAcks(s.book)), CliAcked, bad);
            && (r.Abort? ==> Admitted(s, r.why))
            && (r.Ok? ==> Core(r.ctx) && HeldWhenUp(r.ctx) && Surplus(r.ctx.book) == Surplus(s.book)
                          && r.ctx.shutdownSeen == s.shutdownSeen)
  {
    hide Agrees, LogOk, MarkedIdle, Surplus, Notify, ClearAcks;
    ClearKeeps(s.book);
    var s1 := s.(book := ClearAcks(s.book));
    BookChange(s, s1.book);
    ClientEventKeeps(s1, CliAcked, bad);
  }

  lemma {:induction false} EndScanStep(l: Loop, i: Input, bad: Links, base: nat)
    requires Inv(l, base) && Enabled(l, i) && i.EndScan?
    ensures StepOk(l, base, Step(l, i, bad))
  {
    CompactKeeps(l.ctx.book);
    var b := l.ctx.book.(clients := Unmarked(l.ctx.book.clients, l.ctx.book.toClean, 0));
    BookChange(l.ctx, b);
    hide Core, Surplus;
  }

  /** Every step keeps the invariant and stops only where `MayStop` says. */
  lemma {:induction false} StepKeeps(l: Loop, i: Input, bad: Links, base: nat)
    requires Inv(l, base) && Enabled(l, i)
    ensures StepOk(l, base, Step(l, i, bad))
  {
    hide Inv, Step, StepOk;
    match i
    case Control(_) => ControlStep(l, i, bad, base);
    case Accept(_) => AcceptStep(l, i, bad, base);
    case FromClient(_, _) => ClientStep(l, i, bad, base);
    case Lost(_) => LostStep(l, i, bad, base);
    case EndTurn => EndTurnStep(l, i, bad, base);
    case PollTimesOut(_) => TimeoutStep(l, i, bad, base);
    case EndScan => EndScanStep(l, i, bad, base);
    case _ => PollStep(l, i, bad, base);
  }

  // ---------------------------------------------------------------- unresponsive modem

  /** Nothing but pass-through broadcasts is added, and no request is sent. */
  predicate Frozen(s: Ctx, s': Ctx) {
    && s'.modem == Unresp
    && s'.requests == s.requests
    && s.broadcasts <= s'.broadcasts
    && forall j :: |s.broadcasts| <= j < |s'.broadcasts| ==> s'.broadcasts[j] == On || s'.broadcasts[j] == DbgInfo
  }

  lemma {:induction false} FrozenEvent(s: Ctx, t: Trigger, bad: Links)
    requires s.modem == Unresp && t != CliAcquire
    requires s.fsm == StOff || s.fsm == AckCold || s.fsm == Stopping
    ensures Notify(s, t, bad).Ok? ==> Frozen(s, Notify(s, t, bad).ctx)
  {
  }

  lemma {:induction false} FrozenControl(s: Ctx, m: ControlMsg, bad: Links)
    requires Core(s) && s.modem == Unresp && FromControl(m) && HandleControlMsg(s, m, bad).Ok?
    ensures Frozen(s, HandleControlMsg(s, m, bad).ctx)
  {
    hide Base, Notify, NotifyFrom;
    if m.Result? {
      FrozenEvent(s.(inProgress := false), if m.ok then Success else Failure, bad);
    }
  }

  lemma {:induction false} FrozenClient(s: Ctx, i: nat, m: ClientMsg, bad: Links)
    requires Core(s) && s.modem == Unresp && i < |s.book.clients| && HandleClientMsg(s, i, m, bad).Ok?
    ensures Frozen(s, HandleClientMsg(s, i, m, bad).ctx)
  {
    hide Core, Frozen, Notify, NotifyAll, WithBook, Unregister, HandleSlotMsg, HandleRegister;
    FrozenPlain(s, bad);
    if i in s.book.toClean {
    } else if (m.Register? && m.debug != s.sanity) || (!m.Register? && !s.book.clients[i].registered) {
      FrozenBook(s, Unregister(s.book, i));
    } else {
      match m
      case Register(_, events) => FrozenBook(s, HandleRegister(s.book, i, events, s.modem, bad));
      case AskRestart(_, _) =>
      case AskBackup =>
      case NotifyDbg =>
      case AskShutdown =>
      case UnknownId =>
      case _ => FrozenBook(s, HandleSlotMsg(s.book, i, m, s.reject));
    }
  }

  /** The messages that do not touch the book; restarts are rejected. */
  lemma {:induction false} FrozenPlain(s: Ctx, bad: Links)
    requires Core(s) && s.modem == Unresp
    ensures s.reject && Frozen(s, s) && Frozen(s, s.(reject := true, book := s.book.(numAcquired := 0), shutdownSeen := true))
    ensures NotifyAll(s, DbgInfo, bad).Ok? ==> Frozen(s, NotifyAll(s, DbgInfo, bad).ctx)
    ensures var r := Notify(s.(restart := BackupNvm), CliRestart, bad);
            r.Ok? ==> Frozen(s, r.ctx)
  {
    hide Base, Notify, NotifyFrom;
    FrozenEvent(s.(restart := BackupNvm), CliRestart, bad);
  }

  lemma {:induction false} FrozenBook(s: Ctx, r: Outcome<Book, Assertion>)
    requires s.modem == Unresp
    ensures WithBook(s, r).Ok? ==> Frozen(s, WithBook(s, r).ctx)
  {
  }

  lemma {:induction false} FrozenTimeout(s: Ctx, ack: bool, bad: Links)
    requires Core(s) && s.modem == Unresp && ElapseAck(s, ack, bad).Ok?
    ensures Frozen(s, ElapseAck(s, ack, bad).ctx)
  {
    hide Base, Notify, ClearAcks;
    FrozenEvent(s.(book := ClearAcks(s.book)), CliAcked, bad);
  }

  lemma {:induction false} FrozenEndTurn(l: Loop, bad: Links, base: nat)
    requires Inv(l, base) && l.ctx.modem == Unresp && l.phase.Iter? && FinishTurn(l.ctx, l.phase, bad).Ok?
    ensures Frozen(l.ctx, FinishTurn(l.ctx, l.phase, bad).ctx)
  {
    hide Base, Notify, MarkedIdle, Surplus, Frozen;
    NonNegative(l.ctx);
    FrozenSame(l.ctx, l.ctx);
    FrozenRestart(l.ctx, bad);
    FrozenEvent(l.ctx, CliRelease, bad);
    FrozenEvent(l.ctx, CliAcked, bad);
  }

  lemma {:induction false} FrozenRestart(s: Ctx, bad: Links)
    requires s.modem == Unresp && (s.fsm == StOff || s.fsm == AckCold || s.fsm == Stopping)
    ensures var r := Notify(s.(restart := NoRestart), CliAcked, bad);
            r.Ok? ==> Frozen(s, r.ctx)
  {
    hide Notify;
    FrozenEvent(s.(restart := NoRestart), CliAcked, bad);
  }

  /** Once the modem is unresponsive, no step undoes it, broadcasts a state or asks control
      for anything. */
  lemma {:induction false} FrozenStep(l: Loop, i: Input, bad: Links, base: nat)
    requires Inv(l, base) && Enabled(l, i) && l.ctx.modem == Unresp && Step(l, i, bad).Ok?
    ensures Frozen(l.ctx, Step(l, i, bad).ctx.ctx)
  {
    hide Inv, Frozen, HandleControlMsg, HandleClientMsg, HandleTimeout, FinishTurn, Unregister, WithBook, Unmarked, PollTimeout;
    CoreAt(l, base);
    match i
    case Control(m) => FrozenControl(l.ctx, m, bad);
    case FromClient(c, m) => FrozenClient(l.ctx, c, m, bad);
    case Lost(c) =>
      FrozenBook(l.ctx, Unregister(l.ctx.book, c));
      FrozenSame(l.ctx, l.ctx);
    case PollTimesOut(bootLeft) => FrozenElapse(l, bootLeft, bad, base);
    case EndTurn => FrozenEndTurn(l, bad, base);
    case _ => FrozenSame(l.ctx, Step(l, i, bad).ctx.ctx);
  }

  lemma {:induction false} CoreAt(l: Loop, base: nat)
    requires Inv(l, base)
    ensures Core(l.ctx)
  {
  }

  lemma {:induction false} FrozenSame(s: Ctx, s': Ctx)
    requires s.modem == Unresp && s'.modem == s.modem && s'.requests == s.requests && s'.broadcasts == s.broadcasts
    ensures Frozen(s, s')
  {
  }

  lemma {:induction false} FrozenElapse(l: Loop, bootLeft: nat, bad: Links, base: nat)
    requires Inv(l, base) && l.ctx.modem == Unresp && l.phase.Polling? && l.phase.timeout != -1
    requires HandleTimeout(l.ctx, l.phase, bootLeft, bad).Ok?
    ensures Frozen(l.ctx, HandleTimeout(l.ctx, l.phase, bootLeft, bad).ctx)
  {
    hide Inv, Core, ElapseAck;
    CoreAt(l, base);
    TimerOwned(l, base);
    BootElapses(l.ctx, bootLeft > 0);
    FrozenTimeout(if l.phase.boot then l.ctx.(bootArmed := bootLeft > 0) else l.ctx, l.phase.ack, bad);
  }

  // ---------------------------------------------------------------- runs

  /** A run: the inputs, each with the sends that fail while it is handled. */
  type Script = seq<(Input, Links)>

  ghost predicate Reaches(l: Loop, script: Script, l': Loop)
    decreases |script|
  {
    if script == [] then l == l'
    else
      && Enabled(l, script[0].0)
      && Step(l, script[0].0, script[0].1).Ok?
      && Reaches(Step(l, script[0].0, script[0].1).ctx, script[1..], l')
  }

  function BootBase(fmmo: bool): nat {
    if fmmo then 0 else 1
  }

  lemma {:induction false} BootInv(sanity: bool, fmmo: bool)
    ensures Inv(Boot(sanity, fmmo), BootBase(fmmo))
  {
  }

  lemma {:induction false} RunKeeps(l: Loop, script: Script, l': Loop, base: nat)
    requires Inv(l, base) && Reaches(l, script, l')
    ensures Inv(l', base)
    decreases |script|
  {
    hide Inv, Step, Enabled;
    if script != [] {
      StepKeeps(l, script[0].0, script[0].1, base);
      RunKeeps(Step(l, script[0].0, script[0].1).ctx, script[1..], l', base);
    }
  }

  /** Acknowledgements, in every run: both counters equal the number of clients with the
      matching flag, each kind is awaited only in its own state, and no step can stop at a
      mutual-exclusion assertion, at a negative counter or at an unexpected EV_CLI_ACKED. */
  lemma {:induction false} AckBookkeeping(sanity: bool, fmmo: bool, script: Script, l: Loop)
    requires Reaches(Boot(sanity, fmmo), script, l)
    ensures l.ctx.book.numCold == Num(l.ctx.book.clients, IsCold)
    ensures l.ctx.book.numShut == Num(l.ctx.book.clients, IsShut)
    ensures l.ctx.book.numCold > 0 ==> l.ctx.fsm == AckCold
    ensures l.ctx.book.numShut > 0 ==> l.ctx.fsm == AckShut
    ensures l.phase.Iter? && l.phase.waiting ==> l.ctx.fsm == AckCold || l.ctx.fsm == AckShut
    ensures forall i, bad :: Enabled(l, i) && Step(l, i, bad).Abort? ==>
              var why := Step(l, i, bad).why;
              why != AckExclusion && why != NegativeAck && why != AcquireWhileAcked && why != CleanTwice
              && !(why.AtCell? && why.trigger == CliAcked)
  {
    NoForbiddenStop(sanity, fmmo, script, l);
  }

  lemma {:induction false} NoForbiddenStop(sanity: bool, fmmo: bool, script: Script, l: Loop)
    requires Reaches(Boot(sanity, fmmo), script, l)
    ensures Inv(l, BootBase(fmmo))
    ensures forall i, bad :: Enabled(l, i) && Step(l, i, bad).Abort? ==> MayStop(l.ctx, Step(l, i, bad).why)
  {
    hide Inv, Step, Enabled;
    BootInv(sanity, fmmo);
    RunKeeps(Boot(sanity, fmmo), script, l, BootBase(fmmo));
    forall i, bad | Enabled(l, i) && Step(l, i, bad).Abort?
      ensures MayStop(l.ctx, Step(l, i, bad).why)
    {
      StepKeeps(l, i, bad, BootBase(fmmo));
    }
  }

  /** Holders, in every run: between two turns ST_UP means that somebody holds the modem, so
      EV_CLI_ACQUIRE never meets ST_UP; the counter is exact until a SHUTDOWN request; the
      wakelock is taken at most once and is held whenever a timer runs, so no poll time-out
      stops the process; and no second request is ever sent to control. */
  lemma {:induction false} HoldersAndTimers(sanity: bool, fmmo: bool, script: Script, l: Loop)
    requires Reaches(Boot(sanity, fmmo), script, l)
    ensures !l.phase.Iter? && l.ctx.fsm == StUp ==> l.ctx.book.numAcquired > 0
    ensures !l.ctx.shutdownSeen ==> l.ctx.book.numAcquired == Num(l.ctx.book.clients, IsAcquired) + BootBase(fmmo)
    ensures l.ctx.wakelock <= 1
    ensures Waiting(l.ctx.book) || l.ctx.bootArmed ==> l.ctx.wakelock == 1
    ensures forall i, bad :: Enabled(l, i) && Step(l, i, bad).Abort? ==>
              var why := Step(l, i, bad).why;
              why != TimeoutIdx && why != TimeoutWakelock && why != InProgress
              && why != AtCell(CliAcquire, StUp)
              && (why == NegativeAcquired ==> l.ctx.shutdownSeen)
  {
    NoForbiddenStop(sanity, fmmo, script, l);
  }

  /** Broadcasts, in every run: the last UP, DOWN or OOS is the image of the modem state (a
      platform reboot excepted), and two UP broadcasts have a DOWN between them. */
  lemma {:induction false} CoherentBroadcasts(sanity: bool, fmmo: bool, script: Script, l: Loop)
    requires Reaches(Boot(sanity, fmmo), script, l)
    ensures !l.ctx.rebootSeen ==>
              Last(l.ctx.broadcasts) == match l.ctx.modem
                                        case Unknown => None
                                        case Ready => Some(Up)
                                        case Unresp => Some(Oos)
                                        case _ => Some(Down)
    ensures l.ctx.rebootSeen ==> l.ctx.modem == Unresp
    ensures forall i, j :: 0 <= i < j < |l.ctx.broadcasts| && l.ctx.broadcasts[i] == Up && l.ctx.broadcasts[j] == Up ==>
              exists k :: i < k < j && l.ctx.broadcasts[k] == Down
  {
    NoForbiddenStop(sanity, fmmo, script, l);
    var log := l.ctx.broadcasts;
    forall i, j | 0 <= i < j < |log| && log[i] == Up && log[j] == Up
      ensures exists k :: i < k < j && log[k] == Down
    {
      UpsSeparated(log, i, j);
    }
  }

  lemma {:induction false} StaysFrozen(l: Loop, script: Script, l': Loop, base: nat)
    requires Inv(l, base) && l.ctx.modem == Unresp && Reaches(l, script, l')
    ensures Frozen(l.ctx, l'.ctx)
    decreases |script|
  {
    hide Inv, Step, Enabled;
    if script != [] {
      var l1 := Step(l, script[0].0, script[0].1).ctx;
      StepKeeps(l, script[0].0, script[0].1, base);
      FrozenStep(l, script[0].0, script[0].1, base);
      StaysFrozen(l1, script[1..], l', base);
    }
  }

  /** Unresponsive is terminal: after any run that reaches it, the rest of the run sends no
      request to control and adds only pass-through broadcasts. */
  lemma {:induction false} UnresponsiveIsTerminal(sanity: bool, fmmo: bool, before: Script, l: Loop,
                                                  after: Script, l': Loop)
    requires Reaches(Boot(sanity, fmmo), before, l) && l.ctx.modem == Unresp && Reaches(l, after, l')
    ensures Frozen(l.ctx, l'.ctx)
  {
    NoForbiddenStop(sanity, fmmo, before, l);
    StaysFrozen(l, after, l', BootBase(fmmo));
  }
}
