/**
 Which request client abstraction has in flight, and why it was sent, in every run.
 */
module ClaRequests {
  import opened Common
  import opened Fsm
  import opened Cla
  import opened ClaBook
  import opened ClaInvariant
  import opened ClaRuns
  import opened ClaOutcomes
  import ClaFrame

  /** The last request sent. */
  function LastSent(s: Ctx): Option<Request> {
    if s.requests == [] then None else Some(s.requests[|s.requests| - 1])
  }

  /** What a request means when it leaves: somebody holds the modem; nobody holds it, or it runs
      unseen behind a shutdown; BUSY is shown and the restart is the pending one. */
  predicate Meant(s: Ctx, r: Request) {
    match r
    case Start => s.fsm == Starting && s.book.numAcquired > 0 && s.modem != Unresp
    case Stop => s.fsm == Stopping && (s.book.numAcquired == 0 || (s.reported == Ready && s.restart == NoRestart))
    case Restart(kind) =>
      && s.fsm == Starting && s.modem == Busy && kind != NoRestart
      && (kind == s.restart || (kind == ModemRestart && s.restart == NoRestart && s.reported == Busy))
  }

  /** What is in flight while the machine starts or stops. */
  predicate Fits(s: Ctx) {
    && (s.inProgress ==> s.requests != [])
    && (s.inProgress && s.fsm == Stopping ==> LastSent(s) == Some(Stop))
    && (s.inProgress && s.fsm == Starting ==> LastSent(s) != Some(Stop))
  }

  /** Cold resets are acknowledged behind a busy modem, or one that is gone. */
  predicate Shown(s: Ctx) {
    s.fsm == AckCold ==> s.modem == Busy || s.modem == Unresp
  }

  /** A machine that is off shows a modem that is off, or gone. */
  predicate OffShown(s: Ctx) {
    s.fsm == StOff ==> s.modem == Off || s.modem == Unresp
  }

  /** A start is asked for a modem that is shown off. */
  predicate StartsOff(s: Ctx, s': Ctx) {
    s'.requests != s.requests && LastSent(s') == Some(Start) ==> s'.modem == Off
  }

  /** At most one request, and for a reason. */
  predicate Sends(s: Ctx, s': Ctx) {
    || s'.requests == s.requests
    || (s.requests < s'.requests && |s'.requests| == |s.requests| + 1 && Meant(s', s'.requests[|s.requests|]))
  }

  /** What one event is delivered with. */
  predicate Due(s: Ctx, t: Trigger) {
    && s.book.numAcquired >= 0
    && (t == CliAcquire ==> s.book.numAcquired > 0 && s.modem != Unresp)
    && (t == CliRelease && s.fsm == StUp ==> s.book.numAcquired == 0)
    && (t == CliRestart ==> s.restart != NoRestart)
    && (t == CliAcked ==> s.fsm == AckCold || s.fsm == AckShut)
  }

  /** A failed stop of a modem shown neither off nor unresponsive: the one way to OFF that says
      nothing of the modem. */
  predicate Odd(s: Ctx, t: Trigger) {
    t == Failure && s.fsm == Stopping && s.modem != Off && s.modem != Unresp
  }

  predicate OfModem(t: Trigger) {
    t == MdmOff || t == MdmUnresp || t == MdmBusy || t == MdmReady
  }

  predicate Served(s: Ctx, t: Trigger, r: Handled) {
    r.Ok? ==>
      && Sends(s, r.ctx) && Fits(r.ctx) && Shown(r.ctx)
      && (OffShown(s) || OfModem(t) ==> StartsOff(s, r.ctx) && (!Odd(s, t) ==> OffShown(r.ctx)))
  }

  lemma {:induction false} OneSent(s: Ctx, s': Ctx, r: Request)
    requires s'.requests == s.requests + [r] && Meant(s', r)
    ensures Sends(s, s') && Fits(s') && Shown(s') && OffShown(s')
    ensures r != Start || s'.modem == Off ==> StartsOff(s, s')
  {
  }

  lemma {:induction false} NoneSent(s: Ctx, s': Ctx)
    requires s'.requests == s.requests && Fits(s) && s'.inProgress == s.inProgress && Shown(s')
    requires s'.fsm == s.fsm || !s.inProgress || (s'.fsm != Starting && s'.fsm != Stopping)
    ensures Sends(s, s') && Fits(s') && Shown(s') && StartsOff(s, s')
  {
  }

  lemma {:induction false} ShutdownSends(s: Ctx, s': Ctx)
    requires ShutsDown(s, s') && Fits(s) && s'.book.numAcquired == 0
    ensures Sends(s, s') && Fits(s') && Shown(s') && StartsOff(s, s') && OffShown(s')
  {
    if s'.book.numShut == 0 {
      OneSent(s, s', Stop);
    } else {
      NoneSent(s, s');
    }
  }

  lemma {:induction false} OverSends(s: Ctx, s': Ctx, kind: RestartKind)
    requires StartsOver(s, s', kind) && Fits(s)
    ensures Sends(s, s') && Fits(s') && Shown(s') && StartsOff(s, s') && OffShown(s')
  {
    if s'.book.numCold == 0 {
      OneSent(s, s', Restart(kind));
    } else {
      NoneSent(s, s');
    }
  }

  lemma {:induction false} CountKept(s: Ctx, t: Trigger, bad: Links)
    requires s.book.numAcquired >= 0 && Notify(s, t, bad).Ok?
    ensures 0 <= Notify(s, t, bad).ctx.book.numAcquired <= s.book.numAcquired
  {
    hide Notify;
    ClaFrame.EventMild(s, t, bad);
  }

  lemma {:induction false} AckedSends(s: Ctx, bad: Links)
    requires (s.fsm == AckCold || s.fsm == AckShut) && Due(s, CliAcked) && Fits(s) && Shown(s) && Notify(s, CliAcked, bad).Ok?
    ensures Served(s, CliAcked, Notify(s, CliAcked, bad))
  {
    hide Notify, ShutsDown, StartsOver, Sends, Meant;
    CountKept(s, CliAcked, bad);
    var s' := Notify(s, CliAcked, bad).ctx;
    if s.fsm == AckCold {
      ColdResetAcked(s, bad);
      ColdSends(s, s');
    } else {
      ShutdownAcked(s, bad);
      ShutSends(s, s');
    }
  }

  lemma {:induction false} ColdSends(s: Ctx, s': Ctx)
    requires s.fsm == AckCold && Fits(s) && Shown(s) && 0 <= s'.book.numAcquired <= s.book.numAcquired
    requires if s.modem == Unresp then s' == s.(fsm := StOff)
             else if s.book.numAcquired == 0 then ShutsDown(s, s')
             else
               var kind := if s.restart == NoRestart then ModemRestart else s.restart;
               && s' == s.(inProgress := true, requests := s.requests + [Restart(kind)], fsm := Starting)
               && (s.restart == NoRestart ==> s.reported == Busy)
    ensures Sends(s, s') && Fits(s') && Shown(s') && StartsOff(s, s') && OffShown(s')
  {
    hide ShutsDown, Sends;
    if s.modem == Unresp {
      NoneSent(s, s');
    } else if s.book.numAcquired == 0 {
      ShutdownSends(s, s');
    } else {
      OneSent(s, s', Restart(if s.restart == NoRestart then ModemRestart else s.restart));
    }
  }

  lemma {:induction false} ShutSends(s: Ctx, s': Ctx)
    requires s.fsm == AckShut && Fits(s) && 0 <= s'.book.numAcquired <= s.book.numAcquired
    requires if s.book.numAcquired == 0 || (s.restart == NoRestart && s.reported == Ready) then
               s' == s.(inProgress := true, requests := s.requests + [Stop], fsm := Stopping)
             else if s.restart != NoRestart then StartsOver(s, s', s.restart)
             else
               s.reported == Busy
               && s' == s.(fake := false, modem := Busy, inProgress := true, requests := s.requests + [Restart(ModemRestart)], fsm := Starting)
    ensures Sends(s, s') && Fits(s') && Shown(s') && StartsOff(s, s') && OffShown(s')
  {
    hide StartsOver, Sends;
    if s.book.numAcquired == 0 || (s.restart == NoRestart && s.reported == Ready) {
      OneSent(s, s', Stop);
    } else if s.restart != NoRestart {
      OverSends(s, s', s.restart);
    } else {
      OneSent(s, s', Restart(ModemRestart));
    }
  }

  lemma {:induction false} LookSends(s: Ctx, t: Trigger, bad: Links)
    requires (LooksUp(s.fsm, t) || LooksDown(s.fsm, t)) && s.book.numAcquired >= 0 && Fits(s) && Notify(s, t, bad).Ok?
    ensures Served(s, t, Notify(s, t, bad))
  {
    hide Notify, ShutsDown, StartsOver, Sends;
    CountKept(s, t, bad);
    var s' := Notify(s, t, bad).ctx;
    if LooksUp(s.fsm, t) {
      CameUp(s, t, bad);
      UpSends(s, s');
    } else {
      WentOff(s, t, bad);
      DownSends(s, s');
    }
  }

  lemma {:induction false} UpSends(s: Ctx, s': Ctx)
    requires Fits(s) && 0 <= s'.book.numAcquired <= s.book.numAcquired && (s.fsm == Initial || s.fsm == Starting)
    requires if s.inProgress || s.modem != Ready then s' == s
             else if s.book.numAcquired == 0 then ShutsDown(s, s')
             else if s.restart != NoRestart then StartsOver(s, s', s.restart)
             else s' == s.(fsm := StUp)
    ensures Sends(s, s') && Fits(s') && Shown(s') && StartsOff(s, s') && OffShown(s')
  {
    hide ShutsDown, StartsOver, Sends;
    if s.inProgress || s.modem != Ready {
      NoneSent(s, s');
    } else if s.book.numAcquired == 0 {
      ShutdownSends(s, s');
    } else if s.restart != NoRestart {
      OverSends(s, s', s.restart);
    } else {
      NoneSent(s, s');
    }
  }

  lemma {:induction false} DownSends(s: Ctx, s': Ctx)
    requires Fits(s) && (s.fsm == Initial || s.fsm == Stopping)
    requires if s.inProgress || s.modem != Off then s' == s
             else if s.book.numAcquired > 0 then s' == s.(inProgress := true, requests := s.requests + [Start], fsm := Starting)
             else s' == s.(fsm := StOff)
    ensures Sends(s, s') && Fits(s') && Shown(s') && StartsOff(s, s') && OffShown(s')
  {
    hide Sends;
    if s.inProgress || s.modem != Off || s.book.numAcquired <= 0 {
      NoneSent(s, s');
    } else {
      OneSent(s, s', Start);
    }
  }

  lemma {:induction false} ClientSends(s: Ctx, t: Trigger, bad: Links)
    requires (t == CliAcquire || t == CliRelease || t == CliRestart) && Due(s, t) && Fits(s) && Shown(s) && Notify(s, t, bad).Ok?
    ensures Served(s, t, Notify(s, t, bad))
  {
    hide Notify, ShutsDown, StartsOver, Sends;
    CountKept(s, t, bad);
    Unexpected(s, t, bad);
    var s' := Notify(s, t, bad).ctx;
    if Ignores(s.fsm, t) {
      Ignored(s, t, bad);
      NoneSent(s, s');
    } else if t == CliAcquire {
      Acquired(s, bad);
      OneSent(s, s', Start);
    } else if t == CliRelease {
      Released(s, bad);
      ShutdownSends(s, s');
    } else {
      RestartAsked(s, bad);
      OverSends(s, s', s.restart);
    }
  }

  lemma {:induction false} OtherSends(s: Ctx, t: Trigger, bad: Links)
    requires (t == MdmBusy || t == MdmUnresp || t == Failure) && Fits(s) && Notify(s, t, bad).Ok?
    requires t == Failure ==> !s.inProgress && Shown(s)
    requires OfModem(t) ==> s.modem == if t == MdmBusy then Busy else Unresp
    ensures Served(s, t, Notify(s, t, bad))
  {
    hide Notify, StartsOver;
    Unexpected(s, t, bad);
    match t
    case MdmBusy =>
      BecameBusy(s, bad);
      if s.fsm == StUp {
        OverSends(s, Notify(s, t, bad).ctx, ModemRestart);
      }
    case MdmUnresp => BecameUnresponsive(s, bad);
    case _ => Failed(s, bad);
  }

  /** Whatever the event, the request it sends is the right one. */
  lemma {:induction false} EventSends(s: Ctx, t: Trigger, bad: Links)
    requires Due(s, t) && Fits(s) && Notify(s, t, bad).Ok?
    requires if OfModem(t) then (s.modem == Off || s.modem == Unresp || s.modem == Busy || s.modem == Ready) && t == TriggerOf(s.modem) else Shown(s)
    requires t == Success || t == Failure ==> !s.inProgress
    ensures Served(s, t, Notify(s, t, bad))
  {
    hide Notify, Served, Fits, Shown, OffShown;
    Unexpected(s, t, bad);
    if LooksUp(s.fsm, t) || LooksDown(s.fsm, t) {
      LookSends(s, t, bad);
    } else if t == CliAcked {
      AckedSends(s, bad);
    } else if t == CliAcquire || t == CliRelease || t == CliRestart {
      ClientSends(s, t, bad);
    } else {
      OtherSends(s, t, bad);
    }
  }

  // ---------------------------------------------------------------- steps

  /** A step that is not odd serves well; `off` is what is known of an off machine before. */
  predicate Well(s: Ctx, odd: bool, r: Handled) {
    r.Ok? ==>
      && Sends(s, r.ctx) && Fits(r.ctx) && Shown(r.ctx)
      && (OffShown(s) ==> StartsOff(s, r.ctx) && (!odd ==> OffShown(r.ctx)))
  }

  /** A context that differs elsewhere. */
  lemma {:induction false} Same(s: Ctx, s': Ctx)
    requires Fits(s) && Shown(s)
    requires s'.fsm == s.fsm && s'.modem == s.modem && s'.requests == s.requests && (s'.inProgress ==> s.inProgress)
    ensures Well(s, false, Ok(s'))
  {
  }

  /** An event, after a change elsewhere. */
  lemma {:induction false} EventWell(s: Ctx, s0: Ctx, t: Trigger, bad: Links)
    requires s0.fsm == s.fsm && s0.modem == s.modem && s0.requests == s.requests && (s0.inProgress ==> s.inProgress)
    requires Fits(s) && Shown(s) && Due(s0, t) && !OfModem(t) && (t == Success || t == Failure ==> !s0.inProgress)
    ensures Well(s, Odd(s0, t), Notify(s0, t, bad))
  {
    hide Notify;
    if Notify(s0, t, bad).Ok? {
      EventSends(s0, t, bad);
    }
  }

  lemma {:induction false} ModemWell(s: Ctx, s1: Ctx, bad: Links)
    requires s1.fsm == s.fsm && s1.requests == s.requests && s1.inProgress == s.inProgress && s1.book.numAcquired >= 0
    requires Fits(s) && (s1.modem == Off || s1.modem == Unresp || s1.modem == Busy || s1.modem == Ready)
    ensures Well(s, false, Notify(s1, TriggerOf(s1.modem), bad))
  {
    hide Notify;
    if Notify(s1, TriggerOf(s1.modem), bad).Ok? {
      EventSends(s1, TriggerOf(s1.modem), bad);
    }
  }

  lemma {:induction false} Announced(s: Ctx, e: Event, bad: Links)
    requires s.book.numAcquired >= 0 && NotifyAll(s, e, bad).Ok?
    ensures var s1 := NotifyAll(s, e, bad).ctx;
            s1.fsm == s.fsm && s1.requests == s.requests && s1.inProgress == s.inProgress && s1.book.numAcquired >= 0
  {
    hide NotifyAll;
    Broadcast(s, e, bad);
    ClaFrame.AllMild(s, e, bad);
  }

  lemma {:induction false} ChangeWell(s: Ctx, s0: Ctx, m: Mdm, silent: bool, bad: Links)
    requires s0.fsm == s.fsm && s0.requests == s.requests && s0.inProgress == s.inProgress && s0.book.numAcquired >= 0
    requires Fits(s) && (m == Off || m == Unresp || m == Busy || m == Ready)
    ensures Well(s, false, ChangeState(s0, m, silent, bad))
  {
    hide Notify, NotifyAll, ChangeState, Well, Fits;
    ChangeUnfolds(s0, m, silent, bad);
    AbortWell(s);
    var tell := !silent && (s0.modem == Unknown || ToEvent(m) != ToEvent(s0.modem));
    var r := if tell then NotifyAll(s0, ToEvent(m), bad) else Ok(s0);
    if r.Ok? {
      if tell {
        Announced(s0, ToEvent(m), bad);
      }
      ModemWell(s, r.ctx.(modem := m), bad);
    }
  }

  lemma {:induction false} StateWell(s: Ctx, mdm: Mdm, bad: Links)
    requires Fits(s) && Shown(s) && mdm != Unknown && s.book.numAcquired >= 0
    ensures Well(s, false, HandleModemState(s, mdm, bad))
  {
    hide ChangeState, Well;
    var silent := mdm == PlatformReboot;
    var m := if silent then Unresp else mdm;
    var s1 := Record(s, m, silent);
    Same(s, s1);
    Same(s, s1.(fake := s1.modem != m));
    AbortWell(s);
    ChangeWell(s, s1.(fake := false), m, silent, bad);
  }

  lemma {:induction false} AbortWell(s: Ctx)
    ensures forall why :: Well(s, false, Abort(why))
  {
  }

  predicate OddMsg(s: Ctx, m: ControlMsg) {
    m == Result(false) && s.fsm == Stopping && s.modem != Off && s.modem != Unresp
  }

  lemma {:induction false} ControlWell(s: Ctx, m: ControlMsg, bad: Links)
    requires Fits(s) && Shown(s) && FromControl(m) && s.book.numAcquired >= 0
    ensures Well(s, OddMsg(s, m), HandleControlMsg(s, m, bad))
  {
    hide Notify, NotifyAll, HandleModemState;
    match m
    case Result(ok) => EventWell(s, s.(inProgress := false), if ok then Success else Failure, bad);
    case NotifyClient(e) =>
      Broadcast(s, e, bad);
      if NotifyAll(s, e, bad).Ok? {
        Same(s, NotifyAll(s, e, bad).ctx);
      }
    case ModemState(mdm) => StateWell(s, mdm, bad);
  }

  lemma {:induction false} BookWell(s: Ctx, r: Outcome<Book, Assertion>)
    requires Fits(s) && Shown(s)
    ensures Well(s, false, WithBook(s, r))
  {
  }

  lemma {:induction false} PlainWell(s: Ctx, bad: Links)
    requires Fits(s) && Shown(s)
    ensures Well(s, false, Ok(s)) && Well(s, false, NotifyAll(s, DbgInfo, bad))
    ensures Well(s, false, Ok(s.(reject := true, book := s.book.(numAcquired := 0), shutdownSeen := true)))
  {
    hide NotifyAll, Well;
    Same(s, s);
    Same(s, s.(reject := true, book := s.book.(numAcquired := 0), shutdownSeen := true));
    Broadcast(s, DbgInfo, bad);
    AbortWell(s);
    if NotifyAll(s, DbgInfo, bad).Ok? {
      Same(s, NotifyAll(s, DbgInfo, bad).ctx);
    }
  }

  lemma {:induction false} ClientWell(s: Ctx, c: nat, m: ClientMsg, bad: Links)
    requires Fits(s) && Shown(s) && c < |s.book.clients| && s.book.numAcquired >= 0
    ensures Well(s, false, HandleClientMsg(s, c, m, bad))
  {
    hide Well, Notify, NotifyAll, HandleSlotMsg, HandleRegister, Unregister, WithBook, Fits, Shown;
    PlainWell(s, bad);
    AbortWell(s);
    if c in s.book.toClean {
    } else if (m.Register? && m.debug != s.sanity) || (!m.Register? && !s.book.clients[c].registered) {
      BookWell(s, Unregister(s.book, c));
    } else {
      match m
      case Register(_, events) => BookWell(s, HandleRegister(s.book, c, events, s.modem, bad));
      case AskRestart(cause, dbg) =>
        EventWell(s, s.(restart := if cause == MdmErr then ModemRestart else ModemUpdate, dbg := dbg), CliRestart, bad);
      case AskBackup => EventWell(s, s.(restart := BackupNvm), CliRestart, bad);
      case NotifyDbg =>
      case AskShutdown =>
      case UnknownId =>
      case _ => BookWell(s, HandleSlotMsg(s.book, c, m, s.reject));
    }
  }

  lemma {:induction false} TurnWell(l: Loop, bad: Links, base: nat)
    requires Inv(l, base) && l.phase.Iter? && Fits(l.ctx) && Shown(l.ctx)
    ensures Well(l.ctx, false, FinishTurn(l.ctx, l.phase, bad))
  {
    hide Core, MarkedIdle, Surplus, Notify, Well;
    var s := l.ctx;
    NonNegative(s);
    AbortWell(s);
    Same(s, s);
    var acked := l.phase.waiting && !Waiting(s.book);
    if l.phase.acquired && s.book.numAcquired == 0 {
      if acked {
        EventWell(s, s.(restart := NoRestart), CliAcked, bad);
      } else {
        EventWell(s, s, CliRelease, bad);
      }
    } else if !l.phase.acquired && s.book.numAcquired != 0 && !acked {
      EventWell(s, s, CliAcquire, bad);
    } else if acked {
      EventWell(s, s, CliAcked, bad);
    }
  }

  lemma {:induction false} ElapseWell(s: Ctx, ack: bool, bad: Links)
    requires Fits(s) && Shown(s) && s.book.numAcquired >= 0 && (ack ==> s.fsm == AckCold || s.fsm == AckShut)
    ensures Well(s, false, ElapseAck(s, ack, bad))
  {
    hide Notify, ClearAcks;
    var s0 := s.(book := ClearAcks(s.book));
    CountCleared(s.book);
    if ack {
      EventWell(s, s0, CliAcked, bad);
    }
  }

  lemma {:induction false} CountCleared(b: Book)
    ensures ClearAcks(b).numAcquired == b.numAcquired
  {
  }

  lemma {:induction false} TimeoutWell(s: Ctx, p: Phase, bootLeft: nat, bad: Links)
    requires Fits(s) && Shown(s) && s.book.numAcquired >= 0 && p.Polling? && (p.ack ==> s.fsm == AckCold || s.fsm == AckShut)
    ensures Well(s, false, HandleTimeout(s, p, bootLeft, bad))
  {
    hide ElapseAck;
    ElapseWell(if p.boot then s.(bootArmed := bootLeft > 0) else s, p.ack, bad);
  }

  lemma {:induction false} Facts(l: Loop, base: nat)
    requires Inv(l, base)
    ensures l.ctx.book.numAcquired >= 0
    ensures l.phase.Polling? && l.phase.ack ==> l.ctx.fsm == AckCold || l.ctx.fsm == AckShut
  {
    hide Agrees, LogOk, Surplus;
  }

  predicate OddStep(l: Loop, i: Input) {
    i.Control? && OddMsg(l.ctx, i.msg)
  }

  /** Each step of the loop sends at most one request, the one its state calls for. */
  lemma {:induction false} StepWell(l: Loop, i: Input, bad: Links, base: nat)
    requires Inv(l, base) && Fits(l.ctx) && Shown(l.ctx) && Enabled(l, i) && Step(l, i, bad).Ok?
    ensures Well(l.ctx, OddStep(l, i), Ok(Step(l, i, bad).ctx.ctx))
  {
    hide Inv, Fits, Shown, HandleControlMsg, HandleClientMsg, HandleTimeout, FinishTurn, Unregister, WithBook, Unmarked, PollTimeout, Well;
    Facts(l, base);
    match i
    case Control(m) => ControlWell(l.ctx, m, bad);
    case FromClient(c, m) => ClientWell(l.ctx, c, m, bad);
    case Lost(c) =>
      BookWell(l.ctx, Unregister(l.ctx.book, c));
      Same(l.ctx, l.ctx);
    case EndTurn => TurnWell(l, bad, base);
    case PollTimesOut(bootLeft) => TimeoutWell(l.ctx, l.phase, bootLeft, bad);
    case _ => Same(l.ctx, Step(l, i, bad).ctx.ctx);
  }

  // ---------------------------------------------------------------- runs

  lemma {:induction false} RunFits(l: Loop, script: Script, l': Loop, base: nat)
    requires Inv(l, base) && Fits(l.ctx) && Shown(l.ctx) && Reaches(l, script, l')
    ensures Inv(l', base) && Fits(l'.ctx) && Shown(l'.ctx)
    decreases |script|
  {
    hide Inv, Step, Enabled, Fits, Shown, Sends;
    if script != [] {
      StepKeeps(l, script[0].0, script[0].1, base);
      StepWell(l, script[0].0, script[0].1, base);
      RunFits(Step(l, script[0].0, script[0].1).ctx, script[1..], l', base);
    }
  }

  /** The request in flight, in every run: a stop while the machine stops, a start or a restart
      while it starts; and every step that sends one has its reason. */
  lemma {:induction false} RequestsRight(sanity: bool, fmmo: bool, script: Script, l: Loop)
    requires Reaches(Boot(sanity, fmmo), script, l)
    ensures l.ctx.inProgress ==> l.ctx.requests != []
    ensures l.ctx.inProgress && l.ctx.fsm == Stopping ==> LastSent(l.ctx) == Some(Stop)
    ensures l.ctx.inProgress && l.ctx.fsm == Starting ==> LastSent(l.ctx) == Some(Start) || LastSent(l.ctx).value.Restart?
    ensures forall i, bad :: Enabled(l, i) && Step(l, i, bad).Ok? ==> Sends(l.ctx, Step(l, i, bad).ctx.ctx)
  {
    hide Inv, Step, Enabled, Sends;
    BootInv(sanity, fmmo);
    RunFits(Boot(sanity, fmmo), script, l, BootBase(fmmo));
    forall i, bad | Enabled(l, i) && Step(l, i, bad).Ok? ensures Sends(l.ctx, Step(l, i, bad).ctx.ctx) {
      StepWell(l, i, bad, BootBase(fmmo));
    }
  }

  /** No step of the run is odd. */
  ghost predicate NothingOdd(l: Loop, script: Script)
    decreases |script|
  {
    script == []
    || (!OddStep(l, script[0].0)
        && (Enabled(l, script[0].0) && Step(l, script[0].0, script[0].1).Ok? ==> NothingOdd(Step(l, script[0].0, script[0].1).ctx, script[1..])))
  }

  lemma {:induction false} RunOff(l: Loop, script: Script, l': Loop, base: nat)
    requires Inv(l, base) && Fits(l.ctx) && Shown(l.ctx) && OffShown(l.ctx) && Reaches(l, script, l') && NothingOdd(l, script)
    ensures Inv(l', base) && Fits(l'.ctx) && Shown(l'.ctx) && OffShown(l'.ctx)
    decreases |script|
  {
    hide Inv, Step, Enabled, Fits, Shown, OffShown, OddStep, Sends, StartsOff;
    if script != [] {
      StepKeeps(l, script[0].0, script[0].1, base);
      StepWell(l, script[0].0, script[0].1, base);
      RunOff(Step(l, script[0].0, script[0].1).ctx, script[1..], l', base);
    }
  }

  /** A start is asked only for a modem shown off that somebody holds, in every run in which no stop
      fails behind the back of a modem that is neither off nor gone. */
  lemma {:induction false} StartsWhenOff(sanity: bool, fmmo: bool, script: Script, l: Loop, i: Input, bad: Links)
    requires Reaches(Boot(sanity, fmmo), script, l) && NothingOdd(Boot(sanity, fmmo), script)
    requires Enabled(l, i) && Step(l, i, bad).Ok?
    ensures var s, s' := l.ctx, Step(l, i, bad).ctx.ctx;
            s'.requests == s.requests + [Start] ==> s'.modem == Off && s'.book.numAcquired > 0
  {
    hide Inv, Step, Enabled;
    BootInv(sanity, fmmo);
    RunOff(Boot(sanity, fmmo), script, l, BootBase(fmmo));
    StepWell(l, i, bad, BootBase(fmmo));
  }
}
