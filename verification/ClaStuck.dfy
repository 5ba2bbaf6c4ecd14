/**
 When a waiting state of client abstraction has somebody to wait for: exactly as long as no message
 of control is refused by every awaited client in a turn that began with nobody awaited.
 */
module ClaStuck {
  import opened Common
  import opened Fsm
  import opened Cla
  import opened ClaBook
  import opened ClaInvariant
  import opened ClaRuns
  import opened ClaScripts
  import opened ClaFrame

  /** The machine waits for acknowledgements that nobody owes. */
  predicate Stuck(s: Ctx) {
    AwaitsAck(s) && !Waiting(s.book)
  }

  /** No turn under way remembers that somebody was awaited. */
  predicate Forgotten(l: Loop) {
    Stuck(l.ctx) && (l.phase.Iter? ==> !l.phase.waiting)
  }

  /** The event that a message of control sends to the clients, if any. */
  function Told(s: Ctx, m: ControlMsg): Option<Event> {
    match m
    case Result(_) => None
    case NotifyClient(e) => Some(e)
    case ModemState(mdm) =>
      var state := if mdm == PlatformReboot then Unresp else mdm;
      if s.modem == Unresp || (s.fake && state != Unresp) || s.modem == state || mdm == PlatformReboot
         || (s.modem != Unknown && ToEvent(state) == ToEvent(s.modem))
      then None else Some(ToEvent(state))
  }

  /** Client `k` is sent the event, and the send fails. */
  predicate Fails(b: Book, e: Event, bad: Links, k: nat)
    requires k < |b.clients|
  {
    k !in b.toClean && e in b.clients[k].events && bad(e, k)
  }

  predicate Awaited(c: Client) {
    c.waitCold || c.waitShut
  }

  /** A message of control, in a turn begun with nobody awaited, that cannot be sent to any of the
      clients awaited since. */
  predicate LosesLast(l: Loop, i: Input, bad: Links) {
    && i.Control? && l.phase.Iter? && !l.phase.waiting && Waiting(l.ctx.book)
    && var e := Told(l.ctx, i.msg);
       && e.Some?
       && forall k :: 0 <= k < |l.ctx.book.clients| && Awaited(l.ctx.book.clients[k]) ==> Fails(l.ctx.book, e.value, bad, k)
  }

  // ---------------------------------------------------------------- events

  /** In a waiting state only EV_CLI_ACKED does anything. */
  lemma {:induction false} WaitingIgnores(s: Ctx, t: Trigger, bad: Links)
    requires AwaitsAck(s) && t != CliAcked
    ensures Notify(s, t, bad).Ok? ==> Notify(s, t, bad).ctx == s
  {
    hide Table, StartShutdown, StartRestart, CheckUp, CheckDown, ColdAcked, ShutAcked, AskThen;
    WaitingCells(s.fsm, t);
  }

  lemma {:induction false} WaitingCells(st: State, t: Trigger)
    requires (st == AckCold || st == AckShut) && t != CliAcked
    ensures Table(t, st).forced == None && (Table(t, st).op == Nop || Table(t, st).op == Assert)
  {
  }

  /** A procedure enters a waiting state only with somebody to wait for. */
  lemma {:induction false} OpAwake(s: Ctx, op: Op, t: Trigger, bad: Links)
    ensures var r := Operate(s, op, t, bad);
            && (r.Ok? && (r.ctx.1 == Goto(AckCold) || r.ctx.1 == Goto(AckShut)) ==> Waiting(r.ctx.0.book))
            && (r.Ok? && (op.AckedCold? || op.AckedShut?) ==> r.ctx.1.Goto?)
  {
    hide NotifyAll, Ask, AskControlRestart;
  }

  lemma {:induction false} EventAwake(s: Ctx, t: Trigger, bad: Links)
    requires AwaitsAck(s) ==> t == CliAcked
    ensures Notify(s, t, bad).Ok? ==> !Stuck(Notify(s, t, bad).ctx)
  {
    hide Operate;
    OpAwake(s, Table(t, s.fsm).op, t, bad);
  }

  // ---------------------------------------------------------------- steps

  lemma {:induction false} BookAwake(s: Ctx, r: Outcome<Book, Assertion>)
    ensures WithBook(s, r).Ok? && !AwaitsAck(s) ==> !Stuck(WithBook(s, r).ctx)
    ensures WithBook(s, r).Ok? && Stuck(s) && StaysQuiet(s.book, r) ==> StillStuck(s, WithBook(s, r).ctx)
  {
  }

  lemma {:induction false} RestartAwake(s: Ctx, kind: RestartKind, dbg: bool, bad: Links)
    ensures var r := Notify(s.(restart := kind, dbg := dbg), CliRestart, bad);
            && (r.Ok? && !AwaitsAck(s) ==> !Stuck(r.ctx))
            && (r.Ok? && Stuck(s) ==> StillStuck(s, r.ctx))
  {
    hide Notify;
    var s1 := s.(restart := kind, dbg := dbg);
    if AwaitsAck(s) {
      WaitingIgnores(s1, CliRestart, bad);
    } else {
      EventAwake(s1, CliRestart, bad);
    }
  }

  /** The simple answers to a client. */
  lemma {:induction false} PlainAwake(s: Ctx, bad: Links)
    ensures var off := s.(reject := true, book := s.book.(numAcquired := 0), shutdownSeen := true);
            && (!AwaitsAck(s) ==> !Stuck(s) && !Stuck(off))
            && (Stuck(s) ==> StillStuck(s, s) && StillStuck(s, off))
    ensures var r := NotifyAll(s, DbgInfo, bad);
            && (r.Ok? && !AwaitsAck(s) ==> !Stuck(r.ctx))
            && (r.Ok? && Stuck(s) ==> StillStuck(s, r.ctx))
  {
    hide NotifyFrom;
    if Stuck(s) {
      BroadcastStuck(s, DbgInfo, bad);
    }
  }

  lemma {:induction false} ClientAwake(s: Ctx, c: nat, m: ClientMsg, bad: Links)
    requires c < |s.book.clients| && HandleClientMsg(s, c, m, bad).Ok?
    ensures !AwaitsAck(s) ==> !Stuck(HandleClientMsg(s, c, m, bad).ctx)
    ensures Stuck(s) ==> StillStuck(s, HandleClientMsg(s, c, m, bad).ctx)
  {
    hide Notify, NotifyAll, HandleSlotMsg, HandleRegister, Unregister, WithBook, AwaitsAck, Stuck, StillStuck, StaysQuiet;
    PlainAwake(s, bad);
    if c in s.book.toClean {
    } else if (m.Register? && m.debug != s.sanity) || (!m.Register? && !s.book.clients[c].registered) {
      SingleQuiet(s.book, c, Down, false);
      BookAwake(s, Unregister(s.book, c));
    } else {
      match m
      case Register(_, events) =>
        JoinQuiet(s.book, c, events, s.modem, bad);
        BookAwake(s, HandleRegister(s.book, c, events, s.modem, bad));
      case AskRestart(cause, dbg) => RestartAwake(s, if cause == MdmErr then ModemRestart else ModemUpdate, dbg, bad);
      case AskBackup => RestartAwake(s, BackupNvm, s.dbg, bad);
      case NotifyDbg =>
      case AskShutdown =>
      case UnknownId =>
      case _ =>
        SlotQuiet(s.book, c, m, s.reject);
        BookAwake(s, HandleSlotMsg(s.book, c, m, s.reject));
    }
  }

  lemma {:induction false} TurnAwake(l: Loop, bad: Links, base: nat)
    requires Inv(l, base) && !Forgotten(l) && l.phase.Iter? && FinishTurn(l.ctx, l.phase, bad).Ok?
    ensures !Stuck(FinishTurn(l.ctx, l.phase, bad).ctx)
  {
    hide Core, Surplus, MarkedIdle, Notify;
    var s := l.ctx;
    if AwaitsAck(s) {
      WaitingIgnores(s, CliRelease, bad);
      WaitingIgnores(s, CliAcquire, bad);
    } else {
      EventAwake(s, CliRelease, bad);
      EventAwake(s, CliAcquire, bad);
    }
    EventAwake(s, CliAcked, bad);
    EventAwake(s.(restart := NoRestart), CliAcked, bad);
  }

  lemma {:induction false} ElapseAwake(s: Ctx, ack: bool, bad: Links)
    requires !Stuck(s) && ElapseAck(s, ack, bad).Ok?
    ensures !Stuck(ElapseAck(s, ack, bad).ctx)
  {
    hide Notify, ClearAcks;
    EventAwake(s.(book := ClearAcks(s.book)), CliAcked, bad);
  }

  lemma {:induction false} TimeoutAwake(s: Ctx, p: Phase, bootLeft: nat, bad: Links)
    requires !Stuck(s) && p.Polling? && HandleTimeout(s, p, bootLeft, bad).Ok?
    ensures !Stuck(HandleTimeout(s, p, bootLeft, bad).ctx)
  {
    hide ElapseAck;
    ElapseAwake(if p.boot then s.(bootArmed := bootLeft > 0) else s, p.ack, bad);
  }

  // ---------------------------------------------------------------- messages of control

  lemma {:induction false} ChangeAwake(s: Ctx, m: Mdm, silent: bool, bad: Links)
    requires !AwaitsAck(s) && (m == Off || m == Unresp || m == Busy || m == Ready)
    ensures ChangeState(s, m, silent, bad).Ok? ==> !Stuck(ChangeState(s, m, silent, bad).ctx)
  {
    hide Notify, NotifyAll, NotifyFrom, ChangeState, Waiting;
    ChangeUnfolds(s, m, silent, bad);
    BroadcastBook(s, ToEvent(m), bad);
    var tell := !silent && (s.modem == Unknown || ToEvent(m) != ToEvent(s.modem));
    var r := if tell then NotifyAll(s, ToEvent(m), bad) else Ok(s);
    if r.Ok? {
      EventAwake(r.ctx.(modem := m), TriggerOf(m), bad);
    }
  }

  lemma {:induction false} BroadcastBook(s: Ctx, e: Event, bad: Links)
    ensures var r, b := NotifyAll(s, e, bad), NotifyFrom(s.book, e, bad, 0);
            r.Ok? ==> b.Ok? && r.ctx.book == b.ctx && r.ctx.fsm == s.fsm
  {
    hide NotifyFrom;
  }

  /** A message of control that enters a waiting state leaves somebody to wait for. */
  lemma {:induction false} ControlAwake(s: Ctx, m: ControlMsg, bad: Links)
    requires FromControl(m) && !AwaitsAck(s)
    ensures HandleControlMsg(s, m, bad).Ok? ==> !Stuck(HandleControlMsg(s, m, bad).ctx)
  {
    hide Notify, NotifyAll, HandleModemState;
    match m
    case Result(ok) => EventAwake(s.(inProgress := false), if ok then Success else Failure, bad);
    case NotifyClient(e) => BroadcastBook(s, e, bad);
    case ModemState(mdm) => StateAwake(s, mdm, bad);
  }

  lemma {:induction false} StateAwake(s: Ctx, mdm: Mdm, bad: Links)
    requires mdm != Unknown && !AwaitsAck(s)
    ensures HandleModemState(s, mdm, bad).Ok? ==> !Stuck(HandleModemState(s, mdm, bad).ctx)
  {
    hide ChangeState, Waiting;
    var silent := mdm == PlatformReboot;
    var m := if silent then Unresp else mdm;
    ChangeAwake(Record(s, m, silent).(fake := false), m, silent, bad);
  }

  /** What a broadcast, or none, leaves of a waiting state. */
  predicate Tells(s: Ctx, told: Option<Event>, bad: Links, s': Ctx) {
    && s'.fsm == s.fsm
    && match told
       case None => s'.book == s.book
       case Some(e) => NotifyFrom(s.book, e, bad, 0) == Ok(s'.book) && e != ColdReset && e != Shutdown
  }

  lemma {:induction false} ChangeTells(s: Ctx, m: Mdm, silent: bool, bad: Links)
    requires AwaitsAck(s) && (m == Off || m == Unresp || m == Busy || m == Ready) && ChangeState(s, m, silent, bad).Ok?
    ensures var tell := !silent && (s.modem == Unknown || ToEvent(m) != ToEvent(s.modem));
            Tells(s, if tell then Some(ToEvent(m)) else None, bad, ChangeState(s, m, silent, bad).ctx)
  {
    hide Notify, NotifyAll, NotifyFrom, ChangeState;
    ChangeUnfolds(s, m, silent, bad);
    BroadcastBook(s, ToEvent(m), bad);
    var tell := !silent && (s.modem == Unknown || ToEvent(m) != ToEvent(s.modem));
    var r := if tell then NotifyAll(s, ToEvent(m), bad) else Ok(s);
    WaitingIgnores(r.ctx.(modem := m), TriggerOf(m), bad);
  }

  lemma {:induction false} StateTells(s: Ctx, mdm: Mdm, bad: Links)
    requires mdm != Unknown && AwaitsAck(s) && HandleModemState(s, mdm, bad).Ok?
    ensures Tells(s, Told(s, ModemState(mdm)), bad, HandleModemState(s, mdm, bad).ctx)
  {
    hide NotifyFrom, ChangeState;
    var silent := mdm == PlatformReboot;
    var m := if silent then Unresp else mdm;
    if !(s.fake && m != Unresp) && s.modem != m {
      ChangeTells(Record(s, m, silent).(fake := false), m, silent, bad);
    }
  }

  /** In a waiting state a message of control is the broadcast it makes. */
  lemma {:induction false} ControlTells(s: Ctx, m: ControlMsg, bad: Links)
    requires FromControl(m) && AwaitsAck(s) && HandleControlMsg(s, m, bad).Ok?
    ensures Tells(s, Told(s, m), bad, HandleControlMsg(s, m, bad).ctx)
  {
    hide Notify, NotifyAll, NotifyFrom, HandleModemState;
    match m
    case Result(ok) => WaitingIgnores(s.(inProgress := false), if ok then Success else Failure, bad);
    case NotifyClient(e) => BroadcastBook(s, e, bad);
    case ModemState(mdm) =>
      hide Tells, Told;
      StateTells(s, mdm, bad);
  }

  lemma {:induction false} SingleFlags(b: Book, i: nat, e: Event, failed: bool)
    requires i < |b.clients| && i !in b.toClean && e != ColdReset && e != Shutdown
    requires b.clients[i].registered || b.clients[i].events == {}
    ensures var r := NotifySingle(b, i, e, failed);
            r.Ok? ==>
              && r.ctx.toClean == b.toClean + (if e in b.clients[i].events && failed then {i} else {})
              && (forall k :: 0 <= k < |b.clients| && k != i ==> r.ctx.clients[k] == b.clients[k])
              && r.ctx.clients[i].events == b.clients[i].events && r.ctx.clients[i].registered == b.clients[i].registered
              && Awaited(r.ctx.clients[i]) == (Awaited(b.clients[i]) && !(e in b.clients[i].events && failed))
  {
  }

  /** A broadcast leaves awaited exactly the clients that were and did not fail. */
  lemma {:induction false} BroadcastFlags(b: Book, e: Event, bad: Links, i: nat, k: nat)
    requires i <= |b.clients| && k < |b.clients| && e != ColdReset && e != Shutdown && NotifyFrom(b, e, bad, i).Ok?
    requires forall j :: 0 <= j < |b.clients| ==> b.clients[j].registered || b.clients[j].events == {}
    ensures Awaited(NotifyFrom(b, e, bad, i).ctx.clients[k]) <==> Awaited(b.clients[k]) && !(i <= k && Fails(b, e, bad, k))
    decreases |b.clients| - i
  {
    hide NotifySingle;
    if i < |b.clients| {
      if i in b.toClean {
        BroadcastFlags(b, e, bad, i + 1, k);
      } else {
        SingleFlags(b, i, e, bad(e, i));
        BroadcastFlags(NotifySingle(b, i, e, bad(e, i)).ctx, e, bad, i + 1, k);
      }
    }
  }

  lemma {:induction false} NobodyCounted(cs: seq<Client>, f: Client -> bool)
    ensures Num(cs, f) == 0 <==> forall k :: 0 <= k < |cs| ==> !f(cs[k])
  {
    if cs != [] {
      NobodyCounted(cs[1..], f);
      assert forall k :: 0 < k < |cs| ==> cs[k] == cs[1..][k - 1];
      assert forall k :: 0 <= k < |cs[1..]| ==> cs[1..][k] == cs[k + 1];
    }
  }

  lemma {:induction false} WaitingMeans(b: Book)
    requires BookOk(b)
    ensures Waiting(b) <==> exists k :: 0 <= k < |b.clients| && Awaited(b.clients[k])
  {
    NobodyCounted(b.clients, IsCold);
    NobodyCounted(b.clients, IsShut);
  }

  lemma {:induction false} BroadcastLoses(b: Book, e: Event, bad: Links)
    requires BookOk(b) && e != ColdReset && e != Shutdown && NotifyFrom(b, e, bad, 0).Ok?
    ensures !Waiting(NotifyFrom(b, e, bad, 0).ctx)
            <==> forall k :: 0 <= k < |b.clients| && Awaited(b.clients[k]) ==> Fails(b, e, bad, k)
  {
    hide NotifyFrom, Waiting, Awaited;
    BroadcastKeeps(b, e, bad, 0);
    var b' := NotifyFrom(b, e, bad, 0).ctx;
    WaitingMeans(b');
    forall k | 0 <= k < |b.clients|
      ensures Awaited(b'.clients[k]) <==> Awaited(b.clients[k]) && !Fails(b, e, bad, k)
    {
      BroadcastFlags(b, e, bad, 0, k);
    }
  }

  lemma {:induction false} BookAt(l: Loop, base: nat)
    requires Inv(l, base)
    ensures BookOk(l.ctx.book) && (Waiting(l.ctx.book) ==> AwaitsAck(l.ctx))
    ensures l.phase.Iter? && l.phase.source == Other ==> l.phase.waiting == Waiting(l.ctx.book)
  {
    hide LogOk, Agrees, Surplus, MarkedIdle;
  }

  lemma {:induction false} ControlForgets(l: Loop, i: Input, bad: Links, base: nat)
    requires Inv(l, base) && !Forgotten(l) && i.Control? && Enabled(l, i) && Step(l, i, bad).Ok?
    ensures Forgotten(Step(l, i, bad).ctx) <==> LosesLast(l, i, bad)
  {
    hide Inv, HandleControlMsg, HandleClientMsg, HandleTimeout, FinishTurn, Unregister, Unmarked, Told, Fails, Awaited, BookOk;
    BookAt(l, base);
    if AwaitsAck(l.ctx) {
      ControlTells(l.ctx, i.msg, bad);
      if Told(l.ctx, i.msg).Some? {
        BroadcastLoses(l.ctx.book, Told(l.ctx, i.msg).value, bad);
      }
    } else {
      ControlAwake(l.ctx, i.msg, bad);
    }
  }

  /** One step forgets a waiting state exactly so. */
  lemma {:induction false} StepAwake(l: Loop, i: Input, bad: Links, base: nat)
    requires Inv(l, base) && !Forgotten(l) && Enabled(l, i) && Step(l, i, bad).Ok?
    ensures Forgotten(Step(l, i, bad).ctx) <==> LosesLast(l, i, bad)
  {
    if i.Control? {
      hide Inv, Step, Enabled, Forgotten, LosesLast;
      ControlForgets(l, i, bad, base);
      return;
    }
    hide Inv, HandleControlMsg, HandleClientMsg, HandleTimeout, FinishTurn, Unregister, Unmarked, BookOk;
    BookAt(l, base);
    match i
    case FromClient(c, m) => ClientAwake(l.ctx, c, m, bad);
    case EndTurn => TurnAwake(l, bad, base);
    case PollTimesOut(bootLeft) => TimeoutAwake(l.ctx, l.phase, bootLeft, bad);
    case _ =>
  }

  // ---------------------------------------------------------------- no way out

  /** Nothing moves the machine or asks control for anything. */
  predicate StillStuck(s: Ctx, s': Ctx) {
    Stuck(s') && s'.fsm == s.fsm && s'.requests == s.requests
  }

  /** Nobody waits in `b`, nor after `r`. */
  predicate StaysQuiet(b: Book, r: Outcome<Book, Assertion>) {
    !Waiting(b) && r.Ok? ==> !Waiting(r.ctx)
  }

  lemma {:induction false} SingleQuiet(b: Book, i: nat, e: Event, failed: bool)
    requires i < |b.clients| && e != ColdReset && e != Shutdown
    ensures StaysQuiet(b, NotifySingle(b, i, e, failed)) && StaysQuiet(b, Unregister(b, i))
  {
  }

  lemma {:induction false} BroadcastQuiet(b: Book, e: Event, bad: Links, i: nat)
    requires i <= |b.clients| && e != ColdReset && e != Shutdown
    ensures StaysQuiet(b, NotifyFrom(b, e, bad, i))
    decreases |b.clients| - i
  {
    hide NotifySingle;
    if i < |b.clients| {
      if i in b.toClean {
        BroadcastQuiet(b, e, bad, i + 1);
      } else {
        SingleQuiet(b, i, e, bad(e, i));
        var r := NotifySingle(b, i, e, bad(e, i));
        if r.Ok? {
          BroadcastQuiet(r.ctx, e, bad, i + 1);
        }
      }
    }
  }

  lemma {:induction false} BroadcastStuck(s: Ctx, e: Event, bad: Links)
    requires Stuck(s) && e != ColdReset && e != Shutdown
    ensures NotifyAll(s, e, bad).Ok? ==> StillStuck(s, NotifyAll(s, e, bad).ctx)
  {
    hide NotifyFrom;
    BroadcastQuiet(s.book, e, bad, 0);
  }

  lemma {:induction false} ChangeStuck(s: Ctx, m: Mdm, silent: bool, bad: Links)
    requires Stuck(s) && (m == Off || m == Unresp || m == Busy || m == Ready)
    ensures ChangeState(s, m, silent, bad).Ok? ==> StillStuck(s, ChangeState(s, m, silent, bad).ctx)
  {
    hide Notify, NotifyAll;
    BroadcastStuck(s, ToEvent(m), bad);
    var tell := !silent && (s.modem == Unknown || ToEvent(m) != ToEvent(s.modem));
    var r := if tell then NotifyAll(s, ToEvent(m), bad) else Ok(s);
    if r.Ok? {
      WaitingIgnores(r.ctx.(modem := m), TriggerOf(m), bad);
    }
  }

  lemma {:induction false} ControlStuck(s: Ctx, m: ControlMsg, bad: Links)
    requires Stuck(s) && FromControl(m) && HandleControlMsg(s, m, bad).Ok?
    ensures StillStuck(s, HandleControlMsg(s, m, bad).ctx)
  {
    hide Notify, NotifyAll, ChangeState;
    match m
    case Result(ok) => WaitingIgnores(s.(inProgress := false), if ok then Success else Failure, bad);
    case NotifyClient(e) => BroadcastStuck(s, e, bad);
    case ModemState(mdm) =>
      var silent := mdm == PlatformReboot;
      var m1 := if silent then Unresp else mdm;
      ChangeStuck(Record(s, m1, silent).(fake := false), m1, silent, bad);
  }

  lemma {:induction false} SlotQuiet(b: Book, c: nat, m: ClientMsg, reject: bool)
    requires c < |b.clients| && (m.Acquire? || m.Release? || m.AckColdReset? || m.AckShutdown?)
    ensures StaysQuiet(b, HandleSlotMsg(b, c, m, reject))
  {
  }

  lemma {:induction false} JoinQuiet(b: Book, c: nat, events: set<Event>, modem: Mdm, bad: Links)
    requires c < |b.clients|
    ensures StaysQuiet(b, HandleRegister(b, c, events, modem, bad))
  {
    hide NotifySingle, Unregister;
    SingleQuiet(b, c, Down, false);
    var b1 := b.(clients := b.clients[c := b.clients[c].(registered := true, events := events)]);
    SingleQuiet(b1, c, ToEvent(modem), bad(ToEvent(modem), c));
  }

  lemma {:induction false} TurnStuck(s: Ctx, p: Phase, bad: Links)
    requires Stuck(s) && p.Iter? && !p.waiting && FinishTurn(s, p, bad).Ok?
    ensures StillStuck(s, FinishTurn(s, p, bad).ctx)
  {
    hide Notify;
    WaitingIgnores(s, CliRelease, bad);
    WaitingIgnores(s, CliAcquire, bad);
  }

  lemma {:induction false} TimeoutStuck(s: Ctx, p: Phase, bootLeft: nat, bad: Links)
    requires Stuck(s) && p.Polling? && !p.ack && HandleTimeout(s, p, bootLeft, bad).Ok?
    ensures StillStuck(s, HandleTimeout(s, p, bootLeft, bad).ctx)
  {
    hide Notify;
  }

  lemma {:induction false} NobodyAwaited(l: Loop, base: nat)
    requires Inv(l, base) && Stuck(l.ctx) && l.phase.Polling?
    ensures !l.phase.ack
  {
    hide Core, Surplus, MarkedIdle;
  }

  lemma {:induction false} StepStuck(l: Loop, i: Input, bad: Links, base: nat)
    requires Inv(l, base) && Forgotten(l) && Enabled(l, i) && Step(l, i, bad).Ok?
    ensures Forgotten(Step(l, i, bad).ctx) && StillStuck(l.ctx, Step(l, i, bad).ctx.ctx)
  {
    hide Inv, HandleControlMsg, HandleClientMsg, HandleTimeout, Unregister, FinishTurn, Unmarked;
    match i
    case Control(m) => ControlStuck(l.ctx, m, bad);
    case FromClient(c, m) => ClientAwake(l.ctx, c, m, bad);
    case Lost(c) => SingleQuiet(l.ctx.book, c, Down, false);
    case EndTurn => TurnStuck(l.ctx, l.phase, bad);
    case PollTimesOut(bootLeft) =>
      NobodyAwaited(l, base);
      TimeoutStuck(l.ctx, l.phase, bootLeft, bad);
    case _ =>
  }

  /** From then on, whatever happens, the machine stays where it is and asks control for nothing. */
  lemma {:induction false} StuckForever(l: Loop, script: Script, l': Loop, base: nat)
    requires Inv(l, base) && Forgotten(l) && Reaches(l, script, l')
    ensures Forgotten(l') && StillStuck(l.ctx, l'.ctx)
    decreases |script|
  {
    hide Inv, Step, Enabled;
    if script != [] {
      StepKeeps(l, script[0].0, script[0].1, base);
      StepStuck(l, script[0].0, script[0].1, base);
      StuckForever(Step(l, script[0].0, script[0].1).ctx, script[1..], l', base);
    }
  }

  // ---------------------------------------------------------------- runs

  /** Some message of control in the run lost the last awaited client. */
  ghost predicate LostIn(l: Loop, script: Script)
    decreases |script|
  {
    script != [] && Enabled(l, script[0].0) && Step(l, script[0].0, script[0].1).Ok?
    && (LosesLast(l, script[0].0, script[0].1) || LostIn(Step(l, script[0].0, script[0].1).ctx, script[1..]))
  }

  lemma {:induction false} RunAwake(l: Loop, script: Script, l': Loop, base: nat)
    requires Inv(l, base) && !Forgotten(l) && Reaches(l, script, l')
    ensures Forgotten(l') <==> LostIn(l, script)
    decreases |script|
  {
    hide Inv, Step, Enabled, Forgotten, LosesLast;
    if script != [] {
      var i, bad := script[0].0, script[0].1;
      var l1 := Step(l, i, bad).ctx;
      StepKeeps(l, i, bad, base);
      StepAwake(l, i, bad, base);
      if Forgotten(l1) {
        StuckForever(l1, script[1..], l', base);
      } else {
        RunAwake(l1, script[1..], l', base);
      }
    }
  }

  /** Between two turns of any run, a waiting state has somebody to wait for exactly if no message
      of control, in a turn begun with nobody awaited, failed to reach every client awaited since. */
  lemma {:induction false} AwaitedExact(sanity: bool, fmmo: bool, script: Script, l: Loop)
    requires Reaches(Boot(sanity, fmmo), script, l) && !l.phase.Iter?
    ensures (AwaitsAck(l.ctx) ==> l.ctx.book.numCold > 0 || l.ctx.book.numShut > 0) <==> !LostIn(Boot(sanity, fmmo), script)
  {
    hide Inv, LostIn;
    BootInv(sanity, fmmo);
    RunAwake(Boot(sanity, fmmo), script, l, BootBase(fmmo));
    NoForbiddenStop(sanity, fmmo, script, l);
    CountersNat(l, BootBase(fmmo));
  }

  lemma {:induction false} CountersNat(l: Loop, base: nat)
    requires Inv(l, base)
    ensures l.ctx.book.numCold >= 0 && l.ctx.book.numShut >= 0
  {
    hide LogOk, Agrees, Surplus;
  }

  // ---------------------------------------------------------------- such a run

  const EVENTS: set<Event> := {ColdReset, DbgInfo}

  /** BUSY is heard: the only client is told of the cold reset and awaited. */
  function BusyCtx(): Ctx {
    ReadyCtx(EVENTS).(fsm := AckCold, modem := Busy, reported := Busy, restart := ModemRestart,
                      book := Book([Guest(EVENTS).(waitCold := true, told := [ColdReset])], {}, 1, 1, 0),
                      broadcasts := [Up, Down, ColdReset])
  }

  lemma {:induction false} ColdResetTold(s: Ctx)
    requires s.book == ReadyCtx(EVENTS).book && s.broadcasts == [Up, Down]
    ensures NotifyAll(s, ColdReset, Never()) == Ok(s.(book := BusyCtx().book, broadcasts := [Up, Down, ColdReset]))
  {
    hide NotifyAll;
    ToOne(s, ColdReset, Never());
    var c, c1 := Guest(EVENTS).(waitCold := true), Guest(EVENTS).(waitCold := true, told := [ColdReset]);
    assert [Guest(EVENTS)][0 := c] == [c] && [c][0 := c1] == [c1];
    assert [Up, Down] + [ColdReset] == [Up, Down, ColdReset] && [] + [ColdReset] == [ColdReset];
  }

  lemma {:induction false} HearsBusy()
    ensures HandleControlMsg(ReadyCtx(EVENTS), ModemState(Busy), Never()) == Ok(BusyCtx())
  {
    hide NotifyAll;
    var s := Record(ReadyCtx(EVENTS), Busy, false).(fake := false);
    ToNobody(s, Down, Never());
    assert [Up] + [Down] == [Up, Down];
    ColdResetTold(s.(modem := Busy, restart := ModemRestart, broadcasts := [Up, Down]));
  }

  /** The debug information cannot be sent to it: it is removed, and nobody is awaited. */
  function AloneCtx(): Ctx {
    BusyCtx().(book := Book([Guest(EVENTS).(told := [ColdReset])], {0}, 1, 0, 0), broadcasts := [Up, Down, ColdReset, DbgInfo])
  }

  lemma {:induction false} NotReached(bad: Links)
    requires bad(DbgInfo, 0)
    ensures HandleControlMsg(BusyCtx(), NotifyClient(DbgInfo), bad) == Ok(AloneCtx())
  {
    hide NotifyAll;
    ToOne(BusyCtx(), DbgInfo, bad);
    assert BusyCtx().book.toClean + {0} == {0};
    assert [Guest(EVENTS).(waitCold := true, told := [ColdReset])][0 := Guest(EVENTS).(told := [ColdReset])] == [Guest(EVENTS).(told := [ColdReset])];
    assert [Up, Down, ColdReset] + [DbgInfo] == [Up, Down, ColdReset, DbgInfo];
  }

  /** A run from the start of the loop that is stuck: BUSY, then debug information that the only
      awaited client does not get, read from control in one turn. */
  lemma {:induction false} MissedAck() returns (script: Script, l: Loop)
    ensures Reaches(Boot(false, false), script, l) && l.phase == Scan
    ensures l.ctx.fsm == AckCold && l.ctx.book.numCold == 0 && !l.ctx.inProgress
  {
    hide HandleControlMsg, HandleClientMsg, HandleTimeout, Unregister, Unmarked, Reaches;
    var l0 := Boot(false, false);
    var s := ReadyCtx(EVENTS);
    script := Registered(false, EVENTS);
    HearsReady(EVENTS);
    script := ControlTurn(l0, script, Joined(false, EVENTS), ModemState(Ready), s, s);
    script := Begin(l0, script, s, true);
    HearsBusy();
    Snoc(l0, script, Loop(s, Begun(s, Ipc)), Control(ModemState(Busy)), Never());
    script := script + [(Control(ModemState(Busy)), Never())];
    var bad: Links := (e, i) => true;
    NotReached(bad);
    Snoc(l0, script, Loop(BusyCtx(), Begun(s, Ipc)), Control(NotifyClient(DbgInfo)), bad);
    script := script + [(Control(NotifyClient(DbgInfo)), bad)];
    Snoc(l0, script, Loop(AloneCtx(), Begun(s, Ipc)), EndTurn, Never());
    script := script + [(EndTurn, Never())];
    l := Loop(AloneCtx(), Scan);
  }
}
