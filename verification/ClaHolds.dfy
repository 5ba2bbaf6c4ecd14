/**
 Whose hold a time-out can end: nobody's, unless control reports OFF to a client abstraction that
 waits for shutdown acknowledgements and has not asked for a stop yet.
 */
module ClaHolds {
  import opened Common
  import opened Fsm
  import opened Cla
  import opened ClaBook
  import opened ClaInvariant
  import opened ClaFrame
  import opened ClaSessions
  import ClaRuns
  import ClaStuck
  import Session

  // ---------------------------------------------------------------- the state shown while waiting

  /** While shutdown acknowledgements are awaited, the OFF that the clients see is a faked one. */
  predicate Faked(s: Ctx) {
    s.fsm == AckShut ==> s.fake && s.modem == Off
  }

  /** Control reports OFF, and nothing is faked any more. */
  predicate StrayOff(s: Ctx, i: Input) {
    i.Control? && i.msg == ModemState(Off) && s.fsm == AckShut
  }

  lemma {:induction false} ShutdownFaked(s: Ctx, bad: Links)
    ensures var r := StartShutdown(s, bad);
            r.Ok? ==> r.ctx.1.Goto? && Faked(r.ctx.0.(fsm := r.ctx.1.state))
  {
    hide NotifyAll;
  }

  lemma {:induction false} RestartElsewhere(s: Ctx, bad: Links)
    ensures var r := StartRestart(s, bad);
            r.Ok? ==> r.ctx.1.Goto? && r.ctx.1.state != AckShut
  {
    hide NotifyAll;
  }

  /** What an operation leads to, if it moves the machine. */
  predicate LeadsFaked(r: Operated) {
    r.Ok? && r.ctx.1.Goto? ==> Faked(r.ctx.0.(fsm := r.ctx.1.state))
  }

  lemma {:induction false} AskLeads(s: Ctx, r: Request, st: State, kind: RestartKind, dbg: bool)
    requires st != AckShut
    ensures LeadsFaked(AskThen(s, r, st)) && LeadsFaked(RestartThen(s, kind, dbg))
    ensures AskThen(s, r, st).Ok? ==> AskThen(s, r, st).ctx.1.Goto?
    ensures RestartThen(s, kind, dbg).Ok? ==> RestartThen(s, kind, dbg).ctx.1.Goto?
  {
  }

  lemma {:induction false} AckedLeads(s: Ctx, bad: Links)
    ensures LeadsFaked(ColdAcked(s, bad)) && LeadsFaked(ShutAcked(s, bad))
    ensures ColdAcked(s, bad).Ok? ==> ColdAcked(s, bad).ctx.1.Goto?
    ensures ShutAcked(s, bad).Ok? ==> ShutAcked(s, bad).ctx.1.Goto?
  {
    hide StartShutdown, StartRestart, AskThen, RestartThen;
    ShutdownFaked(s, bad);
    RestartElsewhere(s, bad);
    AskLeads(s, Stop, Stopping, s.restart, s.dbg);
    AskLeads(s, Stop, Stopping, ModemRestart, false);
    AskLeads(s.(fake := false, modem := s.reported), Stop, Stopping, ModemRestart, false);
  }

  lemma {:induction false} PendingLeads(s: Ctx, bad: Links)
    ensures LeadsFaked(CheckUp(s, bad)) && LeadsFaked(CheckDown(s))
  {
    hide StartShutdown, StartRestart, AskThen;
    ShutdownFaked(s, bad);
    RestartElsewhere(s, bad);
    AskLeads(s, Start, Starting, NoRestart, false);
  }

  lemma {:induction false} OpLeads(s: Ctx, op: Op, t: Trigger, bad: Links)
    ensures LeadsFaked(Operate(s, op, t, bad))
    ensures (op.AckedCold? || op.AckedShut?) && Operate(s, op, t, bad).Ok? ==> Operate(s, op, t, bad).ctx.1.Goto?
  {
    hide Faked, StartShutdown, StartRestart, CheckUp, CheckDown, ColdAcked, ShutAcked, AskThen;
    match op
    case ClientAcquire => AskLeads(s, Start, Starting, NoRestart, false);
    case CheckPendingUp => PendingLeads(s, bad);
    case CheckPendingDown => PendingLeads(s, bad);
    case OnBusy => RestartLeads(s.(restart := ModemRestart), bad);
    case ClientRelease => ShutdownFaked(s, bad);
    case ClientRestart => RestartLeads(s, bad);
    case AckedCold => AckedLeads(s, bad);
    case AckedShut => AckedLeads(s, bad);
    case _ =>
  }

  lemma {:induction false} RestartLeads(s: Ctx, bad: Links)
    ensures LeadsFaked(StartRestart(s, bad))
  {
    hide StartRestart;
    RestartElsewhere(s, bad);
  }

  lemma {:induction false} AckedCells(st: State)
    ensures st == AckShut ==> Table(CliAcked, st) == Cell(None, AckedShut)
    ensures forall t :: Table(t, st).forced != Some(AckShut)
  {
  }

  /** WAITING_SHUTDOWN is entered with OFF faked, and left by EV_CLI_ACKED. */
  lemma {:induction false} EventFaked(s: Ctx, t: Trigger, bad: Links)
    requires s.fsm == AckShut && t != CliAcked ==> s.fake && s.modem == Off
    ensures Notify(s, t, bad).Ok? ==> Faked(Notify(s, t, bad).ctx)
  {
    if s.fsm == AckShut && t != CliAcked {
      hide Notify;
      ClaStuck.WaitingIgnores(s, t, bad);
    } else {
      hide Operate, Table;
      AckedCells(s.fsm);
      OpLeads(s, Table(t, s.fsm).op, t, bad);
    }
  }

  lemma {:induction false} BroadcastFaked(s: Ctx, e: Event, bad: Links)
    ensures var r := NotifyAll(s, e, bad);
            r.Ok? ==> r.ctx.fsm == s.fsm && r.ctx.fake == s.fake && r.ctx.modem == s.modem
  {
    hide NotifyFrom;
  }

  /** Another state than OFF, reported in WAITING_SHUTDOWN. */
  lemma {:induction false} StateFaked(s: Ctx, mdm: Mdm, bad: Links)
    requires mdm != Unknown && Faked(s) && !(mdm == Off && s.fsm == AckShut)
    ensures HandleModemState(s, mdm, bad).Ok? ==> Faked(HandleModemState(s, mdm, bad).ctx)
  {
    hide ChangeState, Record, Faked;
    var silent := mdm == PlatformReboot;
    var m := if silent then Unresp else mdm;
    RecordFaked(s, m, silent);
    if !(s.fake && m != Unresp) && s.modem != m {
      ChangeFaked(Record(s, m, silent).(fake := false), m, silent, bad);
    }
  }

  lemma {:induction false} RecordFaked(s: Ctx, m: Mdm, silent: bool)
    requires Faked(s) && !(m == Off && s.fsm == AckShut)
    ensures var s1 := Record(s, m, silent);
            && s1.fsm == s.fsm && s1.fake == s.fake && s1.modem == s.modem
            && Faked(s1) && (s.modem != m ==> Faked(s1.(fake := s1.modem != m)))
            && (s.fsm == AckShut ==> s.fake && s.modem == Off)
            && (s.modem == m ==> s.fsm != AckShut && Faked(s1.(fake := false)))
  {
  }

  lemma {:induction false} ChangeFaked(s: Ctx, m: Mdm, silent: bool, bad: Links)
    requires (m == Off || m == Unresp || m == Busy || m == Ready) && (s.fsm == AckShut ==> m == Unresp)
    ensures ChangeState(s, m, silent, bad).Ok? ==> Faked(ChangeState(s, m, silent, bad).ctx)
  {
    hide NotifyAll, Notify, ChangeState;
    ClaRuns.ChangeUnfolds(s, m, silent, bad);
    BroadcastFaked(s, ToEvent(m), bad);
    var tell := !silent && (s.modem == Unknown || ToEvent(m) != ToEvent(s.modem));
    var r := if tell then NotifyAll(s, ToEvent(m), bad) else Ok(s);
    if r.Ok? {
      if s.fsm == AckShut {
        UnrespRefused(r.ctx.(modem := m), bad);
      } else {
        EventFaked(r.ctx.(modem := m), TriggerOf(m), bad);
      }
    }
  }

  lemma {:induction false} UnrespRefused(s: Ctx, bad: Links)
    requires s.fsm == AckShut
    ensures Notify(s, MdmUnresp, bad).Abort?
  {
  }

  lemma {:induction false} ControlFaked(s: Ctx, m: ControlMsg, bad: Links)
    requires FromControl(m) && Faked(s) && !(m == ModemState(Off) && s.fsm == AckShut)
    ensures HandleControlMsg(s, m, bad).Ok? ==> Faked(HandleControlMsg(s, m, bad).ctx)
  {
    hide NotifyAll, Notify, HandleModemState;
    match m
    case Result(ok) => EventFaked(s.(inProgress := false), if ok then Success else Failure, bad);
    case NotifyClient(e) => BroadcastFaked(s, e, bad);
    case ModemState(mdm) => StateFaked(s, mdm, bad);
  }

  lemma {:induction false} BookFaked(s: Ctx, r: Outcome<Book, Assertion>)
    requires Faked(s)
    ensures WithBook(s, r).Ok? ==> Faked(WithBook(s, r).ctx)
  {
  }

  lemma {:induction false} PlainFaked(s: Ctx, bad: Links)
    requires Faked(s)
    ensures Faked(s.(reject := true, book := s.book.(numAcquired := 0), shutdownSeen := true))
    ensures NotifyAll(s, DbgInfo, bad).Ok? ==> Faked(NotifyAll(s, DbgInfo, bad).ctx)
  {
    hide NotifyAll;
    BroadcastFaked(s, DbgInfo, bad);
  }

  lemma {:induction false} RestartFaked(s: Ctx, kind: RestartKind, dbg: bool, bad: Links)
    requires Faked(s)
    ensures var r := Notify(s.(restart := kind, dbg := dbg), CliRestart, bad);
            r.Ok? ==> Faked(r.ctx)
  {
    hide Notify;
    EventFaked(s.(restart := kind, dbg := dbg), CliRestart, bad);
  }

  lemma {:induction false} ClientFaked(s: Ctx, c: nat, m: ClientMsg, bad: Links)
    requires c < |s.book.clients| && Faked(s)
    ensures HandleClientMsg(s, c, m, bad).Ok? ==> Faked(HandleClientMsg(s, c, m, bad).ctx)
  {
    hide Faked, Notify, NotifyAll, HandleSlotMsg, HandleRegister, Unregister, WithBook;
    PlainFaked(s, bad);
    if c in s.book.toClean {
    } else if (m.Register? && m.debug != s.sanity) || (!m.Register? && !s.book.clients[c].registered) {
      BookFaked(s, Unregister(s.book, c));
    } else {
      match m
      case Register(_, events) => BookFaked(s, HandleRegister(s.book, c, events, s.modem, bad));
      case AskRestart(cause, dbg) => RestartFaked(s, if cause == MdmErr then ModemRestart else ModemUpdate, dbg, bad);
      case AskBackup => RestartFaked(s, BackupNvm, s.dbg, bad);
      case NotifyDbg =>
      case AskShutdown =>
      case UnknownId =>
      case _ => BookFaked(s, HandleSlotMsg(s.book, c, m, s.reject));
    }
  }

  lemma {:induction false} TurnFaked(s: Ctx, p: Phase, bad: Links)
    requires p.Iter? && Faked(s)
    ensures FinishTurn(s, p, bad).Ok? ==> Faked(FinishTurn(s, p, bad).ctx)
  {
    hide Notify;
    EventFaked(s, CliRelease, bad);
    EventFaked(s, CliAcquire, bad);
    EventFaked(s, CliAcked, bad);
    EventFaked(s.(restart := NoRestart), CliAcked, bad);
  }

  lemma {:induction false} TimeoutFaked(s: Ctx, p: Phase, bootLeft: nat, bad: Links)
    requires p.Polling? && Faked(s)
    ensures HandleTimeout(s, p, bootLeft, bad).Ok? ==> Faked(HandleTimeout(s, p, bootLeft, bad).ctx)
  {
    hide ElapseAck;
    var s1 := if p.boot then s.(bootArmed := bootLeft > 0) else s;
    ElapseFaked(s1, p.ack, bad);
  }

  lemma {:induction false} ElapseFaked(s: Ctx, ack: bool, bad: Links)
    requires Faked(s)
    ensures ElapseAck(s, ack, bad).Ok? ==> Faked(ElapseAck(s, ack, bad).ctx)
  {
    hide Notify, ClearAcks;
    EventFaked(s.(book := ClearAcks(s.book)), CliAcked, bad);
  }

  /** Only a stray OFF ends it. */
  lemma {:induction false} StepFaked(l: Loop, i: Input, bad: Links)
    requires Enabled(l, i) && Step(l, i, bad).Ok? && Faked(l.ctx) && !StrayOff(l.ctx, i)
    ensures Faked(Step(l, i, bad).ctx.ctx)
  {
    hide HandleControlMsg, HandleClientMsg, HandleTimeout, FinishTurn, Unregister, WithBook, Unmarked;
    match i
    case Control(m) => ControlFaked(l.ctx, m, bad);
    case FromClient(c, m) => ClientFaked(l.ctx, c, m, bad);
    case Lost(c) => BookFaked(l.ctx, Unregister(l.ctx.book, c));
    case EndTurn => TurnFaked(l.ctx, l.phase, bad);
    case PollTimesOut(bootLeft) => TimeoutFaked(l.ctx, l.phase, bootLeft, bad);
    case _ =>
  }

  // ---------------------------------------------------------------- holders in a time-out

  /** Every hold is kept. */
  predicate Spared(b: Book, b': Book) {
    |b'.clients| == |b.clients| && forall k :: 0 <= k < |b.clients| ==> b'.clients[k].acquired == b.clients[k].acquired
  }

  lemma {:induction false} SingleSpares(b: Book, i: nat, e: Event, failed: bool)
    requires i < |b.clients| && b.numAcquired <= 0
    ensures var r := NotifySingle(b, i, e, failed);
            r.Ok? ==> r.ctx.numAcquired <= 0 && Spared(b, r.ctx)
  {
  }

  /** With the counter at 0, a broadcast that goes through gives no holder up. */
  lemma {:induction false} BroadcastSpares(b: Book, e: Event, bad: Links, i: nat)
    requires i <= |b.clients| && b.numAcquired <= 0
    ensures var r := NotifyFrom(b, e, bad, i);
            r.Ok? ==> r.ctx.numAcquired <= 0 && Spared(b, r.ctx)
    decreases |b.clients| - i
  {
    hide NotifySingle;
    if i < |b.clients| {
      if i in b.toClean {
        BroadcastSpares(b, e, bad, i + 1);
      } else {
        SingleSpares(b, i, e, bad(e, i));
        var r := NotifySingle(b, i, e, bad(e, i));
        if r.Ok? {
          BroadcastSpares(r.ctx, e, bad, i + 1);
        }
      }
    }
  }

  lemma {:induction false} AllSpares(s: Ctx, e: Event, bad: Links)
    requires s.book.numAcquired <= 0
    ensures var r := NotifyAll(s, e, bad);
            r.Ok? ==> r.ctx.book.numAcquired <= 0 && Spared(s.book, r.ctx.book)
  {
    hide NotifyFrom, Spared;
    BroadcastSpares(s.book, e, bad, 0);
  }

  lemma {:induction false} AsksKeepBook(s: Ctx, r: Request, st: State, kind: RestartKind, dbg: bool)
    ensures AskThen(s, r, st).Ok? ==> AskThen(s, r, st).ctx.0.book == s.book
    ensures RestartThen(s, kind, dbg).Ok? ==> RestartThen(s, kind, dbg).ctx.0.book == s.book
  {
  }

  lemma {:induction false} StopKeepsBook(s: Ctx)
    ensures StopOrWait(s).Ok? ==> StopOrWait(s).ctx.0.book == s.book
  {
    hide AskThen;
    AsksKeepBook(s, Stop, Stopping, NoRestart, false);
  }

  lemma {:induction false} SparedTrans(b: Book, b1: Book, b2: Book)
    requires Spared(b, b1) && Spared(b1, b2)
    ensures Spared(b, b2)
  {
  }

  lemma {:induction false} ShutdownSpares(s: Ctx, bad: Links)
    requires s.book.numAcquired <= 0
    ensures StartShutdown(s, bad).Ok? ==> Spared(s.book, StartShutdown(s, bad).ctx.0.book)
  {
    hide NotifyAll, Spared, StopOrWait;
    AllSpares(s, Shutdown, bad);
    var r1 := NotifyAll(s, Shutdown, bad);
    if r1.Ok? {
      AllSpares(r1.ctx, Down, bad);
      var r2 := if r1.ctx.fake then r1 else NotifyAll(r1.ctx, Down, bad);
      if r2.Ok? {
        if !r1.ctx.fake {
          SparedTrans(s.book, r1.ctx.book, r2.ctx.book);
        }
        StopKeepsBook(r2.ctx.(fake := true, modem := Off));
      }
    }
  }

  /** A restart needs a state that is not faked. */
  lemma {:induction false} RestartRefused(s: Ctx, bad: Links)
    requires s.modem != Busy && s.fake
    ensures StartRestart(s, bad).Abort?
  {
    hide NotifyAll;
    BroadcastFaked(s, Down, bad);
  }

  /** The time-out of the acknowledgements. */
  lemma {:induction false} AckedSpares(s: Ctx, bad: Links)
    requires (s.fsm == AckCold || s.fsm == AckShut) && Faked(s) && s.book.numAcquired >= 0
    ensures Notify(s, CliAcked, bad).Ok? ==> Spared(s.book, Notify(s, CliAcked, bad).ctx.book)
  {
    hide StartRestart, StartShutdown, Spared, AskThen, RestartThen;
    SameSpared(s.book);
    if s.book.numAcquired == 0 {
      ShutdownSpares(s, bad);
    }
    if s.fsm == AckShut {
      RestartRefused(s, bad);
    }
    AsksKeepBook(s, Stop, Stopping, s.restart, s.dbg);
    AsksKeepBook(s, Stop, Stopping, ModemRestart, false);
    AsksKeepBook(s.(fake := false, modem := s.reported), Stop, Stopping, ModemRestart, false);
  }

  lemma {:induction false} TimeoutBook(l: Loop, i: Input, bad: Links)
    requires i.PollTimesOut? && Enabled(l, i) && Step(l, i, bad).Ok?
    ensures var s := if l.phase.boot then l.ctx.(bootArmed := i.bootLeft > 0) else l.ctx;
            var r := Notify(s.(book := ClearAcks(s.book)), CliAcked, bad);
            if l.phase.ack then r.Ok? && Step(l, i, bad).ctx.ctx.book == r.ctx.book
            else Step(l, i, bad).ctx.ctx.book == l.ctx.book
  {
    hide Notify, ClearAcks;
  }

  lemma {:induction false} HasPoll(l: Loop, i: Input)
    requires i.PollTimesOut? && Enabled(l, i)
    ensures l.phase.Polling?
  {
  }

  lemma {:induction false} TimeoutSpares(l: Loop, i: Input, bad: Links, base: nat)
    requires ClaRuns.Inv(l, base) && i.PollTimesOut? && Enabled(l, i) && Step(l, i, bad).Ok? && Faked(l.ctx)
    ensures Spared(l.ctx.book, Step(l, i, bad).ctx.ctx.book)
  {
    hide Notify, Spared, ClaRuns.Inv, ClearAcks, Step, Enabled;
    HasPoll(l, i);
    Awaiting(l, base);
    TimeoutBook(l, i, bad);
    SameSpared(l.ctx.book);
    if l.phase.ack {
      var s := if l.phase.boot then l.ctx.(bootArmed := i.bootLeft > 0) else l.ctx;
      var s1 := s.(book := ClearAcks(s.book));
      AckedSpares(s1, bad);
      ClearSpares(s.book, Notify(s1, CliAcked, bad).ctx.book);
    }
  }

  lemma {:induction false} SameSpared(b: Book)
    ensures Spared(b, b) && ClearAcks(b).numAcquired == b.numAcquired
  {
  }

  lemma {:induction false} ClearSpares(b: Book, b': Book)
    requires Spared(ClearAcks(b), b')
    ensures Spared(b, b')
  {
    forall k | 0 <= k < |b.clients| ensures b'.clients[k].acquired == b.clients[k].acquired {
      assert ClearAcks(b).clients[k].acquired == b.clients[k].acquired;
    }
  }

  lemma {:induction false} Awaiting(l: Loop, base: nat)
    requires ClaRuns.Inv(l, base) && l.phase.Polling?
    ensures l.ctx.book.numAcquired >= 0
    ensures l.phase.ack ==> l.ctx.fsm == AckCold || l.ctx.fsm == AckShut
  {
    hide Agrees, LogOk, Surplus;
  }

  // ---------------------------------------------------------------- sessions

  /** No OFF was stray in the run. */
  ghost predicate NoStrayOff(y: Sys, moves: seq<Move>)
    decreases |moves|
  {
    if moves == [] then true
    else
      && (moves[0].Server? ==> !StrayOff(y.loop.ctx, moves[0].input))
      && (Session.Open(y.lib) && CanMove(y, moves[0]) && Moved(y, moves[0]).Ok? ==> NoStrayOff(Moved(y, moves[0]).ctx, moves[1..]))
  }

  /** What the last ACQUIRE or RELEASE of the session met: it was taken, or it changed nothing. */
  predicate Grants(y: Sys, v: Move, before: bool) {
    match v
    case Library(m) => before || m.Retry?
    case Server(i, _, _) =>
      if !Own(y, i) || !(i.cmsg.Acquire? || i.cmsg.Release?) || i.client >= |y.loop.ctx.book.clients| then before
      else
        Taken(y.loop.ctx.book, i.client, y.loop.ctx.reject)
        || y.loop.ctx.book.clients[i.client].acquired == i.cmsg.Acquire?
  }

  ghost predicate Granted(y: Sys, moves: seq<Move>, before: bool)
    decreases |moves|
  {
    if moves == [] then before
    else if Session.Open(y.lib) && CanMove(y, moves[0]) && Moved(y, moves[0]).Ok? then
      Granted(Moved(y, moves[0]).ctx, moves[1..], Grants(y, moves[0], before))
    else before
  }

  /** A mark outside a scan comes from a time-out. */
  lemma {:induction false} MarksInScan(l: Loop, i: Input, bad: Links, k: nat)
    requires Enabled(l, i) && Step(l, i, bad).Ok? && !i.PollTimesOut? && !i.EndScan?
    requires Marked(l.ctx.book, Step(l, i, bad).ctx.ctx.book, k)
    ensures Scanning(Step(l, i, bad).ctx)
  {
    hide HandleControlMsg, HandleClientMsg, FinishTurn, Unregister, WithBook;
  }

  /** Nothing but the session's own requests decides whether they stand. */
  lemma {:induction false} OnlyRequests(y: Sys, i: Input, bad: Links, mine: bool, before: bool, base: nat)
    requires ClaSessions.Inv(y) && ClaRuns.Inv(y.loop, base) && Faked(y.loop.ctx)
    requires CanMove(y, Server(i, bad, mine)) && Step(y.loop, i, bad).Ok?
    requires y.place != Nowhere && !Ending(y) ==> y.stands == before
    ensures var y' := ServerMoved(y, i, mine, Step(y.loop, i, bad).ctx);
            y'.place != Nowhere && !Ending(y') ==> y'.stands == Grants(y, Server(i, bad, mine), before)
  {
    hide ClaSessions.Inv, ClaRuns.Inv, Step, Enabled, Faked;
    var l := Step(y.loop, i, bad).ctx;
    PlacedAt(y);
    if y.place.At? && !i.EndScan? {
      EndingStays(y, i, bad);
      if Marked(y.loop.ctx.book, l.ctx.book, y.place.index) {
        if i.PollTimesOut? {
          TimeoutSpares(y.loop, i, bad, base);
          StepKeepsSlot(y.loop, i, bad, y.place.index);
        } else {
          MarksInScan(y.loop, i, bad, y.place.index);
        }
      }
    } else if y.place.At? {
      ScanOver(y, i, bad);
    }
  }

  lemma {:induction false} PlacedAt(y: Sys)
    requires ClaSessions.Inv(y)
    ensures Placed(y) && Session.Open(y.lib)
  {
  }

  /** Once ending, a session ends. */
  lemma {:induction false} EndingStays(y: Sys, i: Input, bad: Links)
    requires y.place.At? && y.place.index < |y.loop.ctx.book.clients|
    requires Enabled(y.loop, i) && Step(y.loop, i, bad).Ok? && !i.EndScan?
    ensures Ending(y) ==> Scanning(Step(y.loop, i, bad).ctx) && y.place.index in Step(y.loop, i, bad).ctx.ctx.book.toClean
  {
    hide Step, Enabled;
    if Ending(y) {
      InScan(y.loop, i);
      MarksStay(y.loop, i, bad);
      StillEnding(y, i, bad);
    }
  }

  lemma {:induction false} InScan(l: Loop, i: Input)
    requires Scanning(l) && Enabled(l, i)
    ensures !i.PollReturns? && !i.PollTimesOut? && !i.EnterPoll?
  {
  }

  lemma {:induction false} MarksStay(l: Loop, i: Input, bad: Links)
    requires Enabled(l, i) && Step(l, i, bad).Ok? && !i.PollReturns? && !i.EndScan?
    ensures Marks(l.ctx.book, Step(l, i, bad).ctx.ctx.book)
  {
    hide HandleControlMsg, HandleClientMsg, HandleTimeout, FinishTurn, Unregister, KeptAt;
    match i
    case Control(m) => ControlMild(l.ctx, m, bad);
    case EndTurn => TurnMild(l.ctx, l.phase, bad);
    case PollTimesOut(bootLeft) => TimeoutMild(l.ctx, l.phase, bootLeft, bad);
    case FromClient(c, m) => ClientServed(l.ctx, c, m, bad);
    case Lost(c) => LeaveServed(l.ctx.book, c);
    case _ =>
  }

  lemma {:induction false} ScanOver(y: Sys, i: Input, bad: Links)
    requires y.place.At? && Placed(y) && i.EndScan? && Enabled(y.loop, i) && Step(y.loop, i, bad).Ok?
    ensures Step(y.loop, i, bad).ctx.ctx.book.toClean == y.loop.ctx.book.toClean && Scanning(y.loop)
    ensures Moves(y, i, false) != Nowhere ==> !Ending(y)
  {
    hide Unmarked;
  }

  lemma {:induction false} GrantedRun(y: Sys, moves: seq<Move>, y': Sys, before: bool, base: nat)
    requires ClaSessions.Inv(y) && ClaRuns.Inv(y.loop, base) && Faked(y.loop.ctx)
    requires ClaSessions.Reaches(y, moves, y') && NoStrayOff(y, moves)
    requires y.place != Nowhere && !Ending(y) ==> y.stands == before
    ensures y'.place != Nowhere && !Ending(y') ==> y'.stands == Granted(y, moves, before)
    decreases |moves|
  {
    hide ClaSessions.Inv, ClaRuns.Inv, Faked, Step, Enabled, CanMove, LibraryMoved, ServerMoved, Grants, Ending;
    if moves != [] {
      var v := moves[0];
      var y1 := Moved(y, v).ctx;
      match v {
        case Library(m) =>
          LibraryKeeps(y, m);
          LibraryGrants(y, m, before);
        case Server(i, bad, mine) =>
          Stepped(y, i, bad, mine);
          ServerKeeps(y, i, bad, mine);
          ClaRuns.StepKeeps(y.loop, i, bad, base);
          StepFaked(y.loop, i, bad);
          OnlyRequests(y, i, bad, mine, before, base);
      }
      GrantedRun(y1, moves[1..], y', Grants(y, v, before), base);
    }
  }

  lemma {:induction false} Stepped(y: Sys, i: Input, bad: Links, mine: bool)
    requires CanMove(y, Server(i, bad, mine))
    ensures Enabled(y.loop, i) && forall l :: ServerMoved(y, i, mine, l).loop == l
  {
    hide Enabled, Stands, Moves;
  }

  lemma {:induction false} LibraryGrants(y: Sys, m: Session.Move, before: bool)
    requires Session.Open(y.lib) && CanMove(y, Library(m)) && (y.place != Nowhere && !Ending(y) ==> y.stands == before)
    ensures var y' := LibraryMoved(y, m);
            y'.loop == y.loop && (y'.place != Nowhere && !Ending(y') ==> y'.stands == Grants(y, Library(m), before))
  {
  }

  /** Session replay, in every run without a stray OFF: the flags of a drained session that is not
      ending agree if and only if its last request was taken or changed nothing. */
  lemma {:induction false} ReplayUnlessRefused(sanity: bool, fmmo: bool, moves: seq<Move>, y: Sys)
    requires ClaSessions.Reaches(ClaSessions.Boot(sanity, fmmo), moves, y) && NoStrayOff(ClaSessions.Boot(sanity, fmmo), moves)
    requires y.place.At? && y.lib.out == Some([]) && !Ending(y)
    ensures y.place.index < |y.loop.ctx.book.clients|
    ensures var c := y.loop.ctx.book.clients[y.place.index];
            c.registered && (c.acquired == y.lib.acquired <==> Granted(ClaSessions.Boot(sanity, fmmo), moves, true))
  {
    hide ClaRuns.Inv;
    var y0 := ClaSessions.Boot(sanity, fmmo);
    BootKeeps(sanity, fmmo);
    ReplayOnServer(sanity, fmmo, moves, y);
    ClaRuns.BootInv(sanity, fmmo);
    GrantedRun(y0, moves, y, true, ClaRuns.BootBase(fmmo));
  }
}
