/**
 Client abstraction (CLA): the clients, the modem state shown to them, and the state
 machine that turns their requests into start, stop and restart requests to control.
 */
module Cla {
  import opened Common
  import opened Fsm

  /** Modem state reported by control. */
  datatype Mdm = Off | Unresp | Busy | Ready | PlatformReboot | Unknown

  /** Events sent to the clients. */
  datatype Event = Down | On | Up | Oos | ColdReset | Shutdown | DbgInfo

  datatype State = Initial | StOff | Starting | StUp | AckCold | AckShut | Stopping

  datatype Trigger =
    | Success | Failure
    | MdmOff | MdmUnresp | MdmBusy | MdmReady
    | CliAcquire | CliRelease | CliRestart | CliAcked

  /** Pending restart; `NoRestart` is the value 0 of restart_type. */
  datatype RestartKind = NoRestart | ModemRestart | ModemUpdate | BackupNvm

  /** Requests queued to control. */
  datatype Request = Start | Stop | Restart(kind: RestartKind)

  /** Messages queued by control. */
  datatype ControlMsg = Result(ok: bool) | NotifyClient(event: Event) | ModemState(mdm: Mdm)

  datatype Cause = MdmErr | ApplyUpdate | BadCause

  /** Messages received from a client socket. */
  datatype ClientMsg =
    | Register(debug: bool, events: set<Event>)
    | Acquire
    | Release
    | AskRestart(cause: Cause, dbg: bool)
    | AskShutdown
    | AskBackup
    | AckColdReset
    | AckShutdown
    | NotifyDbg
    | UnknownId

  /** `told` logs the events sent to the client. */
  datatype Client = Client(fd: int, registered: bool, events: set<Event>, acquired: bool,
                           waitCold: bool, waitShut: bool, told: seq<Event>)

  /** The assertions of the component. */
  datatype Assertion =
    | AtCell(trigger: Trigger, state: State)  // an asserting cell of the table
    | CleanTwice                              // a client marked twice for removal
    | NegativeAcquired
    | NegativeAck
    | AckExclusion                            // both kinds of acknowledgement awaited
    | InProgress                              // a second request to control
    | RestartArgs                             // debug data on an update or a backup
    | FakeState
    | RealNotBusy
    | Mismatch                                // check_failure
    | ModemGone                               // a modem state after UNRESP
    | BackToInitial
    | UnknownCause
    | TooManyClients
    | TimeoutIdx
    | TimeoutWakelock
    | AcquireWhileAcked
    | FailsafeMissing

  const MAX_CLIENTS := 16

  /** `(e, i)` holds when sending event `e` to client `i` fails. */
  type Links = (Event, nat) -> bool

  /** The client array with its three counters and the clients marked for removal. */
  datatype Book = Book(clients: seq<Client>, toClean: set<nat>,
                       numAcquired: int, numCold: int, numShut: int)

  /** The component's context. The last four fields are logs and history: the requests
      sent to control, the broadcasts made, and whether a SHUTDOWN request or a platform
      reboot has been handled. */
  datatype Ctx = Ctx(
    fsm: State,
    sanity: bool,
    book: Book,
    modem: Mdm,
    reported: Mdm,
    fake: bool,
    inProgress: bool,
    reject: bool,
    restart: RestartKind,
    dbg: bool,
    bootArmed: bool,
    wakelock: nat,
    requests: seq<Request>,
    broadcasts: seq<Event>,
    shutdownSeen: bool,
    rebootSeen: bool)

  type Handled = Outcome<Ctx, Assertion>
  type Operated = Outcome<(Ctx, Ret<State>), Assertion>

  function Init(sanity: bool, fmmo: bool): Ctx {
    Ctx(Initial, sanity, Book([], {}, if fmmo then 0 else 1, 0, 0), Unknown, Unknown, false, false, false,
        NoRestart, false, false, 0, [], [], false, false)
  }

  function ToEvent(m: Mdm): Event {
    match m
    case Off => Down
    case Unresp => Oos
    case PlatformReboot => Oos
    case Busy => Down
    case Ready => Up
    case Unknown => Down
  }

  // ---------------------------------------------------------------- clients

  predicate Waiting(b: Book) {
    b.numCold != 0 || b.numShut != 0
  }

  function Unregister(b: Book, i: nat): (r: Outcome<Book, Assertion>)
    requires i < |b.clients|
    ensures r.Ok? ==> |r.ctx.clients| == |b.clients|
  {
    var c := b.clients[i];
    if i in b.toClean then Abort(CleanTwice)
    else if !c.registered then Ok(b.(toClean := b.toClean + {i}))
    else if c.acquired && b.numAcquired < 1 then Abort(NegativeAcquired)
    else if (c.waitCold && b.numCold < 1) || (c.waitShut && b.numShut < 1) then Abort(NegativeAck)
    else
      Ok(Book(b.clients[i := c.(acquired := false, waitCold := false, waitShut := false)],
              b.toClean + {i},
              b.numAcquired - Bit(c.acquired), b.numCold - Bit(c.waitCold), b.numShut - Bit(c.waitShut)))
  }

  /** The acknowledgement that an event asks for. */
  function Expect(b: Book, i: nat, e: Event): (r: Book)
    requires i < |b.clients|
    ensures |r.clients| == |b.clients|
  {
    if e == ColdReset then
      b.(clients := b.clients[i := b.clients[i].(waitCold := true)], numCold := b.numCold + 1)
    else if e == Shutdown then
      b.(clients := b.clients[i := b.clients[i].(waitShut := true)], numShut := b.numShut + 1)
    else b
  }

  function NotifySingle(b: Book, i: nat, e: Event, failed: bool): (r: Outcome<Book, Assertion>)
    requires i < |b.clients|
    ensures r.Ok? ==> |r.ctx.clients| == |b.clients|
  {
    if i in b.toClean then Abort(CleanTwice)
    else if e !in b.clients[i].events then Ok(b)
    else if (e == ColdReset && b.numShut != 0) || (e == Shutdown && b.numCold != 0) then Abort(AckExclusion)
    else if failed then Unregister(Expect(b, i, e), i)
    else Ok(Deliver(Expect(b, i, e), i, e))
  }

  function Deliver(b: Book, i: nat, e: Event): (r: Book)
    requires i < |b.clients|
    ensures |r.clients| == |b.clients|
  {
    b.(clients := b.clients[i := b.clients[i].(told := b.clients[i].told + [e])])
  }

  function NotifyFrom(b: Book, e: Event, bad: Links, i: nat): (r: Outcome<Book, Assertion>)
    requires i <= |b.clients|
    ensures r.Ok? ==> |r.ctx.clients| == |b.clients|
    decreases |b.clients| - i
  {
    if i == |b.clients| then Ok(b)
    else if i in b.toClean then NotifyFrom(b, e, bad, i + 1)
    else
      var b1 :- NotifySingle(b, i, e, bad(e, i));
      NotifyFrom(b1, e, bad, i + 1)
  }

  /** notify_cli_event_all, with the broadcast recorded. */
  function NotifyAll(s: Ctx, e: Event, bad: Links): Handled {
    var b :- NotifyFrom(s.book, e, bad, 0);
    Ok(s.(book := b, broadcasts := s.broadcasts + [e]))
  }

  // ---------------------------------------------------------------- procedures

  function Ask(s: Ctx, r: Request): Handled {
    if s.inProgress then Abort(InProgress)
    else Ok(s.(inProgress := true, requests := s.requests + [r]))
  }

  /** control's restart entry refuses debug data on anything but a plain restart. */
  function AskControlRestart(s: Ctx, kind: RestartKind, dbg: bool): Handled {
    if s.inProgress then Abort(InProgress)
    else if kind == NoRestart || (dbg && kind != ModemRestart) then Abort(RestartArgs)
    else Ask(s, Restart(kind))
  }

  function StartAckTimer(s: Ctx): Ctx {
    if s.wakelock == 0 then s.(wakelock := 1) else s
  }

  function AskThen(s: Ctx, r: Request, st: State): Operated {
    var s1 :- Ask(s, r);
    Ok((s1, Goto(st)))
  }

  function RestartThen(s: Ctx, kind: RestartKind, dbg: bool): Operated {
    var s1 :- AskControlRestart(s, kind, dbg);
    Ok((s1, Goto(Starting)))
  }

  function StopOrWait(s: Ctx): Operated {
    if s.book.numShut == 0 then AskThen(s, Stop, Stopping)
    else
      Ok((StartAckTimer(s), Goto(AckShut)))
  }

  function StartShutdown(s: Ctx, bad: Links): Operated {
    var s1 :- NotifyAll(s, Shutdown, bad);
    var s2 :- if s1.fake then Ok(s1) else NotifyAll(s1, Down, bad);
    StopOrWait(s2.(fake := true, modem := Off))
  }

  function FakeBusy(s: Ctx, bad: Links): Handled {
    var s1 :- NotifyAll(s, Down, bad);
    if s1.fake then Abort(FakeState) else Ok(s1.(modem := Busy, fake := true))
  }

  function RestartOrWait(s: Ctx): Operated {
    if s.book.numCold == 0 then RestartThen(s, s.restart, s.dbg)
    else
      Ok((StartAckTimer(s), Goto(AckCold)))
  }

  function StartRestart(s: Ctx, bad: Links): Operated {
    var s1 :- if s.modem == Busy then Ok(s) else FakeBusy(s, bad);
    var s2 :- NotifyAll(s1, ColdReset, bad);
    RestartOrWait(s2)
  }

  // ---------------------------------------------------------------- operations

  datatype Op = Nop | Assert | ClientAcquire | CheckPendingUp | CheckPendingDown | CheckFailure
              | OnBusy | ClientRelease | ClientRestart | AckedCold | AckedShut

  function CheckUp(s: Ctx, bad: Links): Operated {
    if s.inProgress || s.modem != Ready then Ok((s, Stay))
    else if s.book.numAcquired == 0 then StartShutdown(s, bad)
    else if s.restart != NoRestart then StartRestart(s, bad)
    else Ok((s, Goto(StUp)))
  }

  function CheckDown(s: Ctx): Operated {
    if s.inProgress || s.modem != Off then Ok((s, Stay))
    else if s.book.numAcquired > 0 then AskThen(s, Start, Starting)
    else Ok((s, Goto(StOff)))
  }

  function ColdAcked(s: Ctx, bad: Links): Operated {
    if s.modem == Unresp then Ok((s, Goto(StOff)))
    else if s.book.numAcquired == 0 then StartShutdown(s, bad)
    else if s.restart != NoRestart then RestartThen(s, s.restart, s.dbg)
    else if s.inProgress then Abort(InProgress)
    else if s.reported != Busy then Abort(RealNotBusy)
    else RestartThen(s, ModemRestart, false)
  }

  function ShutAcked(s: Ctx, bad: Links): Operated {
    if s.book.numAcquired == 0 then AskThen(s, Stop, Stopping)
    else if s.restart != NoRestart then StartRestart(s, bad)
    else if s.reported == Ready then AskThen(s, Stop, Stopping)
    else if s.reported != Busy then Abort(RealNotBusy)
    else RestartThen(s.(fake := false, modem := s.reported), ModemRestart, false)
  }

  function Operate(s: Ctx, op: Op, t: Trigger, bad: Links): Operated {
    match op
    case Nop => Ok((s, Stay))
    case Assert => Abort(AtCell(t, s.fsm))
    case ClientAcquire => AskThen(s, Start, Starting)
    case CheckPendingUp => CheckUp(s, bad)
    case CheckPendingDown => CheckDown(s)
    case CheckFailure => if s.modem == Unresp then Ok((s, Stay)) else Abort(Mismatch)
    case OnBusy => StartRestart(s.(restart := ModemRestart), bad)
    case ClientRelease => StartShutdown(s, bad)
    case ClientRestart => StartRestart(s, bad)
    case AckedCold => ColdAcked(s, bad)
    case AckedShut => ShutAcked(s, bad)
  }

  /** The transition table. */
  function Table(t: Trigger, st: State): Cell<State, Op> {
    match t
    case Success =>
      (match st
       case Starting => Cell(None, CheckPendingUp)
       case Stopping => Cell(None, CheckPendingDown)
       case _ => Cell(None, Assert))
    case Failure =>
      (match st
       case StOff => Cell(None, CheckFailure)
       case Stopping => Cell(Some(StOff), Nop)
       case _ => Cell(None, Assert))
    case MdmOff =>
      (match st
       case Initial => Cell(None, CheckPendingDown)
       case Stopping => Cell(None, CheckPendingDown)
       case _ => Cell(None, Assert))
    case MdmUnresp =>
      (match st
       case StOff => Cell(Some(StOff), Nop)
       case Starting => Cell(Some(StOff), Nop)
       case AckCold => Cell(None, Nop)
       case Stopping => Cell(None, Nop)
       case _ => Cell(None, Assert))
    case MdmBusy =>
      (match st
       case Initial => Cell(None, Assert)
       case StOff => Cell(None, Assert)
       case StUp => Cell(None, OnBusy)
       case _ => Cell(None, Nop))
    case MdmReady =>
      (match st
       case Initial => Cell(None, CheckPendingUp)
       case Starting => Cell(None, CheckPendingUp)
       case _ => Cell(None, Assert))
    case CliAcquire =>
      (match st
       case StOff => Cell(None, ClientAcquire)
       case StUp => Cell(None, Assert)
       case _ => Cell(None, Nop))
    case CliRelease =>
      (match st
       case StOff => Cell(None, CheckFailure)
       case StUp => Cell(None, ClientRelease)
       case _ => Cell(None, Nop))
    case CliRestart =>
      (match st
       case StUp => Cell(None, ClientRestart)
       case StOff => Cell(None, Assert)
       case AckCold => Cell(None, Assert)
       case Stopping => Cell(None, Assert)
       case _ => Cell(None, Nop))
    case CliAcked =>
      (match st
       case Initial => Cell(None, Nop)
       case AckCold => Cell(None, AckedCold)
       case AckShut => Cell(None, AckedShut)
       case _ => Cell(None, Assert))
  }

  /** One event through the engine; the transition hook forbids a return to INITIAL. */
  function Notify(s: Ctx, t: Trigger, bad: Links): Handled {
    var cell := Table(t, s.fsm);
    var (s1, ret) :- Operate(s, cell.op, t, bad);
    match NextState(s.fsm, cell.forced, ret, Fail)
    case None => Abort(FailsafeMissing)
    case Some(st) =>
      if st != s.fsm && st == Initial then Abort(BackToInitial) else Ok(s1.(fsm := st))
  }

  // ---------------------------------------------------------------- messages from control

  function TriggerOf(m: Mdm): Trigger
    requires m == Off || m == Unresp || m == Busy || m == Ready
  {
    match m
    case Off => MdmOff
    case Unresp => MdmUnresp
    case Busy => MdmBusy
    case Ready => MdmReady
  }

  /** The flags that a reported state sets, whatever is shown to the clients. */
  function Record(s: Ctx, m: Mdm, silent: bool): Ctx {
    s.(reported := m,
       restart := if m == Ready || m == Off then NoRestart else s.restart,
       reject := s.reject || m == Unresp,
       rebootSeen := s.rebootSeen || silent)
  }

  /** Tells the clients, then the machine, that the modem state is now `m`. */
  function ChangeState(s: Ctx, m: Mdm, silent: bool, bad: Links): Handled
    requires m == Off || m == Unresp || m == Busy || m == Ready
  {
    var tell := !silent && (s.modem == Unknown || ToEvent(m) != ToEvent(s.modem));
    var s1 :- if tell then NotifyAll(s, ToEvent(m), bad) else Ok(s);
    Notify(s1.(modem := m), TriggerOf(m), bad)
  }

  /** A modem state from control, kept from the clients while another one is faked. */
  function HandleModemState(s: Ctx, mdm: Mdm, bad: Links): Handled
    requires mdm != Unknown
  {
    var silent := mdm == PlatformReboot;
    var m := if silent then Unresp else mdm;
    var s1 := Record(s, m, silent);
    if s1.modem == Unresp then Abort(ModemGone)
    else if s1.fake && m != Unresp then Ok(s1.(fake := s1.modem != m))
    else if s1.modem == m then Ok(s1)
    else ChangeState(s1.(fake := false), m, silent, bad)
  }

  /** Messages control can send: it never reports an unknown state, and it passes through
      only debug information and MDM_ON. */
  predicate FromControl(m: ControlMsg) {
    match m
    case Result(_) => true
    case NotifyClient(e) => e == On || e == DbgInfo
    case ModemState(mdm) => mdm != Unknown
  }

  function HandleControlMsg(s: Ctx, m: ControlMsg, bad: Links): Handled
    requires FromControl(m)
  {
    match m
    case Result(ok) => Notify(s.(inProgress := false), if ok then Success else Failure, bad)
    case NotifyClient(e) => NotifyAll(s, e, bad)
    case ModemState(mdm) => HandleModemState(s, mdm, bad)
  }

  // ---------------------------------------------------------------- messages from clients

  function HandleRestart(s: Ctx, cause: Cause, dbg: bool, bad: Links): Handled {
    if s.restart != NoRestart || s.reported != Ready || s.reject then Ok(s)
    else if cause == BadCause then Abort(UnknownCause)
    else
      var kind := if cause == MdmErr then ModemRestart else ModemUpdate;
      Notify(s.(restart := kind, dbg := dbg), CliRestart, bad)
  }

  function HandleRegister(b: Book, i: nat, events: set<Event>, modem: Mdm, bad: Links): Outcome<Book, Assertion>
    requires i < |b.clients|
  {
    if b.clients[i].registered then Unregister(b, i)
    else
      var b1 := b.(clients := b.clients[i := b.clients[i].(registered := true, events := events)]);
      if modem == Unknown then Ok(b1)
      else NotifySingle(b1, i, ToEvent(modem), bad(ToEvent(modem), i))
  }

  /** Requests that only touch the client's own slot and the counters. */
  function HandleSlotMsg(b: Book, i: nat, m: ClientMsg, reject: bool): Outcome<Book, Assertion>
    requires i < |b.clients|
    requires m.Acquire? || m.Release? || m.AckColdReset? || m.AckShutdown?
  {
    var c := b.clients[i];
    match m
    case Acquire =>
      if reject || c.acquired then Ok(b)
      else Ok(b.(clients := b.clients[i := c.(acquired := true)], numAcquired := b.numAcquired + 1))
    case Release =>
      if reject || !c.acquired then Ok(b)
      else if b.numAcquired < 1 then Abort(NegativeAcquired)
      else Ok(b.(clients := b.clients[i := c.(acquired := false)], numAcquired := b.numAcquired - 1))
    case AckColdReset =>
      if !c.waitCold then Ok(b)
      else if b.numCold < 1 then Abort(NegativeAck)
      else Ok(b.(clients := b.clients[i := c.(waitCold := false)], numCold := b.numCold - 1))
    case AckShutdown =>
      if !c.waitShut then Ok(b)
      else if b.numShut < 1 then Abort(NegativeAck)
      else Ok(b.(clients := b.clients[i := c.(waitShut := false)], numShut := b.numShut - 1))
  }

  function WithBook(s: Ctx, r: Outcome<Book, Assertion>): Handled {
    var b :- r;
    Ok(s.(book := b))
  }

  function HandleClientMsg(s: Ctx, i: nat, m: ClientMsg, bad: Links): Handled
    requires i < |s.book.clients|
  {
    if i in s.book.toClean then Ok(s)
    else if m.Register? && m.debug != s.sanity then WithBook(s, Unregister(s.book, i))
    else if !m.Register? && !s.book.clients[i].registered then WithBook(s, Unregister(s.book, i))
    else
      match m
      case Register(_, events) => WithBook(s, HandleRegister(s.book, i, events, s.modem, bad))
      case Acquire => WithBook(s, HandleSlotMsg(s.book, i, m, s.reject))
      case Release => WithBook(s, HandleSlotMsg(s.book, i, m, s.reject))
      case AckColdReset => WithBook(s, HandleSlotMsg(s.book, i, m, s.reject))
      case AckShutdown => WithBook(s, HandleSlotMsg(s.book, i, m, s.reject))
      case AskRestart(cause, dbg) => HandleRestart(s, cause, dbg, bad)
      case AskShutdown => Ok(s.(reject := true, book := s.book.(numAcquired := 0), shutdownSeen := true))
      case AskBackup => Notify(s.(restart := BackupNvm), CliRestart, bad)
      case NotifyDbg => NotifyAll(s, DbgInfo, bad)
      case UnknownId => Ok(s)
  }

  // ---------------------------------------------------------------- client list

  /** The clients from index `i` on that are not marked. */
  function Unmarked<T>(xs: seq<T>, marked: set<nat>, i: nat): seq<T>
    requires i <= |xs|
    decreases |xs| - i
  {
    if i == |xs| then []
    else if i in marked then Unmarked(xs, marked, i + 1)
    else [xs[i]] + Unmarked(xs, marked, i + 1)
  }

  function Compact(s: Ctx): Ctx {
    s.(book := s.book.(clients := Unmarked(s.book.clients, s.book.toClean, 0)))
  }

  // ---------------------------------------------------------------- main loop

  /** get_timeout: the delay given to poll (-1 for none) and the timers it stands for. */
  function PollTimeout(s: Ctx, ackRemain: nat, bootRemain: nat): (int, bool, bool) {
    var ack := Waiting(s.book);
    var timeout: int := if ack then ackRemain else -1;
    if !s.bootArmed then (timeout, ack, false)
    else if timeout == bootRemain then (timeout, ack, true)
    else if timeout < 0 || (timeout > 0 && bootRemain < timeout) then (bootRemain, false, true)
    else (timeout, ack, false)
  }

  /** Where the loop thread is. `Iter` is one turn of the descriptor loop: the two flags
      sampled on entry and what the turn is about. */
  datatype Source = Ipc | Other | Served
  datatype Phase =
    | Top
    | Polling(timeout: int, ack: bool, boot: bool)
    | Scan
    | Iter(acquired: bool, waiting: bool, source: Source)

  datatype Loop = Loop(ctx: Ctx, phase: Phase)

  /** What happens next to the loop. Clock readings, poll results and socket failures are
      inputs; the turn order of the descriptors is left free. */
  datatype Input =
    | EnterPoll(ackRemain: nat, bootRemain: nat)
    | PollTimesOut(bootLeft: nat)
    | PollReturns
    | Turn(ipc: bool)
    | Control(msg: ControlMsg)
    | Accept(fd: int)
    | FromClient(client: nat, cmsg: ClientMsg)
    | Lost(client: nat)
    | EndTurn
    | EndScan

  predicate Enabled(l: Loop, i: Input) {
    match i
    case EnterPoll(_, _) => l.phase.Top?
    case PollTimesOut(_) => l.phase.Polling? && l.phase.timeout != -1
    case PollReturns => l.phase.Polling?
    case Turn(_) => l.phase.Scan?
    case Control(m) => l.phase.Iter? && l.phase.source == Ipc && FromControl(m)
    case Accept(_) => l.phase.Iter? && l.phase.source == Other
    case FromClient(c, _) => l.phase.Iter? && l.phase.source == Other && c < |l.ctx.book.clients|
    case Lost(c) => l.phase.Iter? && l.phase.source == Other && c < |l.ctx.book.clients|
    case EndTurn => l.phase.Iter?
    case EndScan => l.phase.Scan?
  }

  function ClearAcks(b: Book): Book {
    var cs := b.clients;
    b.(clients := seq(|cs|, i requires 0 <= i < |cs| => cs[i].(waitCold := false, waitShut := false)),
       numCold := 0, numShut := 0)
  }

  function ReleaseIfIdle(s: Ctx): Ctx {
    if !s.bootArmed && !Waiting(s.book) && s.wakelock > 0 then s.(wakelock := s.wakelock - 1) else s
  }

  /** The acknowledgement timer, when it is one of those that elapsed. */
  function ElapseAck(s: Ctx, ack: bool, bad: Links): Handled {
    var s1 :- if ack then Notify(s.(book := ClearAcks(s.book)), CliAcked, bad) else Ok(s);
    Ok(ReleaseIfIdle(s1))
  }

  function HandleTimeout(s: Ctx, p: Phase, bootLeft: nat, bad: Links): Handled
    requires p.Polling?
  {
    if !p.ack && !p.boot then Abort(TimeoutIdx)
    else if s.wakelock == 0 then Abort(TimeoutWakelock)
    else ElapseAck(if p.boot then s.(bootArmed := bootLeft > 0) else s, p.ack, bad)
  }

  /** The event synthesised at the end of a turn, from what changed since its start. */
  function FinishTurn(s: Ctx, p: Phase, bad: Links): Handled
    requires p.Iter?
  {
    var acked := p.waiting && !Waiting(s.book);
    if p.acquired && s.book.numAcquired == 0 then
      if acked then Notify(s.(restart := NoRestart), CliAcked, bad) else Notify(s, CliRelease, bad)
    else if !p.acquired && s.book.numAcquired != 0 then
      if acked then Abort(AcquireWhileAcked) else Notify(s, CliAcquire, bad)
    else if acked then Notify(s, CliAcked, bad)
    else Ok(s)
  }

  function Step(l: Loop, i: Input, bad: Links): Outcome<Loop, Assertion>
    requires Enabled(l, i)
  {
    var s := l.ctx;
    match i
    case EnterPoll(a, b) =>
      var (timeout, ack, boot) := PollTimeout(s, a, b);
      var s1 := if timeout == -1 && s.wakelock > 0 then s.(wakelock := s.wakelock - 1) else s;
      Ok(Loop(s1, Polling(timeout, ack, boot)))
    case PollTimesOut(bootLeft) =>
      var s1 :- HandleTimeout(s, l.phase, bootLeft, bad);
      Ok(Loop(s1, Top))
    case PollReturns => Ok(Loop(s.(book := s.book.(toClean := {})), Scan))
    case Turn(ipc) =>
      Ok(Loop(s, Iter(s.book.numAcquired != 0, Waiting(s.book), if ipc then Ipc else Other)))
    case Control(m) =>
      var s1 :- HandleControlMsg(s, m, bad);
      Ok(Loop(s1, l.phase))
    case Accept(fd) =>
      if |s.book.clients| >= MAX_CLIENTS then Abort(TooManyClients)
      else
        var newcomer := Client(fd, false, {}, false, false, false, []);
        Ok(Loop(s.(book := s.book.(clients := s.book.clients + [newcomer])), l.phase.(source := Served)))
    case FromClient(c, m) =>
      var s1 :- HandleClientMsg(s, c, m, bad);
      Ok(Loop(s1, l.phase.(source := Served)))
    case Lost(c) =>
      var s1 :- if c in s.book.toClean then Ok(s) else WithBook(s, Unregister(s.book, c));
      Ok(Loop(s1, l.phase.(source := Served)))
    case EndTurn =>
      var s1 :- FinishTurn(s, l.phase, bad);
      Ok(Loop(s1, Scan))
    case EndScan => Ok(Loop(Compact(s), Top))
  }

  /** Start of the loop thread: the boot timer is armed under the wakelock. */
  function Boot(sanity: bool, fmmo: bool): Loop {
    Loop(Init(sanity, fmmo).(bootArmed := true, wakelock := 1), Top)
  }
}
