/**
 What the steps of client abstraction leave alone: the registration and the hold of every client
 that the step is not about, and what a SHUTDOWN request has settled; and what they tell each client.
 */
module ClaFrame {
  import opened Common
  import opened Fsm
  import opened Cla
  import opened ClaBook
  import opened ClaInvariant
  import opened ClaRuns

  /** The slot keeps its registration, and its hold on the modem unless the step marks it: then a
      registered client holds nothing any more. */
  predicate KeptAt(b: Book, b': Book, k: nat)
    requires k < |b.clients| <= |b'.clients|
  {
    && b'.clients[k].registered == b.clients[k].registered
    && b'.clients[k].acquired == (b.clients[k].acquired && !(b.clients[k].registered && k in b'.toClean && k !in b.toClean))
  }

  /** Marks are only added, and to clients of the array. */
  predicate Marks(b: Book, b': Book) {
    b.toClean <= b'.toClean && forall j :: j in b'.toClean ==> j in b.toClean || j < |b.clients|
  }

  /** Every slot is kept or given up, and the acquisition counter does not rise. */
  predicate Untouched(b: Book, b': Book) {
    && |b'.clients| == |b.clients|
    && Marks(b, b')
    && (forall j :: 0 <= j < |b.clients| ==> KeptAt(b, b', j))
    && b'.numAcquired <= b.numAcquired && (b.numAcquired >= 0 ==> b'.numAcquired >= 0)
  }

  /** The events of a log that a client listens to. */
  function Listened(log: seq<Event>, events: set<Event>): seq<Event> {
    if log == [] then []
    else Listened(log[..|log| - 1], events) + if log[|log| - 1] in events then [log[|log| - 1]] else []
  }

  /** The broadcasts `ext`, as client `k` hears them: all those it listens to unless it is marked,
      nothing if it was marked before, and nothing else in any case. */
  predicate HearsAt(b: Book, b': Book, ext: seq<Event>, k: nat)
    requires k < |b.clients| <= |b'.clients|
  {
    var c, c' := b.clients[k], b'.clients[k];
    && c'.events == c.events && c'.registered == c.registered && c.told <= c'.told
    && (forall j :: |c.told| <= j < |c'.told| ==> c'.told[j] in ext)
    && (k in b.toClean ==> c'.told == c.told)
    && (k !in b'.toClean ==> c'.told == c.told + Listened(ext, c.events))
  }

  predicate Hears(b: Book, b': Book, ext: seq<Event>) {
    && |b'.clients| == |b.clients| && b.toClean <= b'.toClean
    && forall j :: 0 <= j < |b.clients| ==> HearsAt(b, b', ext, j)
  }

  predicate Heard(s: Ctx, s': Ctx) {
    s.broadcasts <= s'.broadcasts && Hears(s.book, s'.book, s'.broadcasts[|s.broadcasts|..])
  }

  lemma {:induction false} ListenedAdd(x: seq<Event>, y: seq<Event>, events: set<Event>)
    ensures Listened(x + y, events) == Listened(x, events) + Listened(y, events)
    decreases |y|
  {
    if y == [] {
      assert x + y == x;
    } else {
      ListenedAdd(x, y[..|y| - 1], events);
      assert (x + y)[..|x + y| - 1] == x + y[..|y| - 1];
    }
  }

  lemma {:induction false} HearsTrans(b: Book, b1: Book, b2: Book, x: seq<Event>, y: seq<Event>)
    requires Hears(b, b1, x) && Hears(b1, b2, y)
    ensures Hears(b, b2, x + y)
  {
    forall k | 0 <= k < |b.clients| ensures HearsAt(b, b2, x + y, k) {
      assert HearsAt(b, b1, x, k) && HearsAt(b1, b2, y, k);
      ListenedAdd(x, y, b.clients[k].events);
    }
  }

  lemma {:induction false} HearsNothing(b: Book)
    ensures Hears(b, b, [])
  {
  }

  lemma {:induction false} HeardTrans(s: Ctx, s1: Ctx, s2: Ctx)
    requires Heard(s, s1) && Heard(s1, s2)
    ensures Heard(s, s2)
  {
    hide Hears;
    var x, y := s1.broadcasts[|s.broadcasts|..], s2.broadcasts[|s1.broadcasts|..];
    assert s2.broadcasts[|s.broadcasts|..] == x + y;
    HearsTrans(s.book, s1.book, s2.book, x, y);
  }

  lemma {:induction false} HeardNothing(s: Ctx, s': Ctx)
    requires s'.book == s.book && s'.broadcasts == s.broadcasts
    ensures Heard(s, s')
  {
    hide Hears;
    HearsNothing(s.book);
    assert s'.broadcasts[|s.broadcasts|..] == [];
  }

  /** The same of a whole context; a rejection is for good, and clients hear what is broadcast. */
  predicate Mild(s: Ctx, s': Ctx) {
    Untouched(s.book, s'.book) && (s.reject ==> s'.reject) && s'.shutdownSeen == s.shutdownSeen && (s.rebootSeen ==> s'.rebootSeen) && Heard(s, s')
  }

  lemma {:induction false} UntouchedTrans(b: Book, b1: Book, b2: Book)
    requires Untouched(b, b1) && Untouched(b1, b2)
    ensures Untouched(b, b2)
  {
    forall j | 0 <= j < |b.clients| ensures KeptAt(b, b2, j) {
      assert KeptAt(b, b1, j) && KeptAt(b1, b2, j);
    }
  }

  lemma {:induction false} SameUntouched(b: Book)
    ensures Untouched(b, b)
  {
  }

  lemma {:induction false} MildTrans(s: Ctx, s1: Ctx, s2: Ctx)
    requires Mild(s, s1) && Mild(s1, s2)
    ensures Mild(s, s2)
  {
    hide Untouched, Heard;
    UntouchedTrans(s.book, s1.book, s2.book);
    HeardTrans(s, s1, s2);
  }

  /** A context that differs only where nobody looks. */
  lemma {:induction false} MildSame(s: Ctx, s': Ctx)
    requires s'.book == s.book && (s.reject ==> s'.reject) && s'.shutdownSeen == s.shutdownSeen && (s.rebootSeen ==> s'.rebootSeen)
    requires s'.broadcasts == s.broadcasts
    ensures Mild(s, s')
  {
    hide Untouched, Heard;
    SameUntouched(s.book);
    HeardNothing(s, s');
  }

  // ---------------------------------------------------------------- broadcasts

  lemma {:induction false} SingleUntouched(b: Book, i: nat, e: Event, failed: bool)
    requires i < |b.clients|
    ensures NotifySingle(b, i, e, failed).Ok? ==> Untouched(b, NotifySingle(b, i, e, failed).ctx)
  {
  }

  lemma {:induction false} BroadcastUntouched(b: Book, e: Event, bad: Links, i: nat)
    requires i <= |b.clients|
    ensures NotifyFrom(b, e, bad, i).Ok? ==> Untouched(b, NotifyFrom(b, e, bad, i).ctx)
    decreases |b.clients| - i
  {
    hide Untouched, NotifySingle;
    if i == |b.clients| {
      SameUntouched(b);
    } else if i in b.toClean {
      BroadcastUntouched(b, e, bad, i + 1);
    } else {
      SingleUntouched(b, i, e, bad(e, i));
      var r := NotifySingle(b, i, e, bad(e, i));
      if r.Ok? {
        BroadcastUntouched(r.ctx, e, bad, i + 1);
        if NotifyFrom(r.ctx, e, bad, i + 1).Ok? {
          UntouchedTrans(b, r.ctx, NotifyFrom(r.ctx, e, bad, i + 1).ctx);
        }
      }
    }
  }

  /** An event sent from slot `i` on. */
  predicate HearsOne(b: Book, b': Book, e: Event, i: nat, j: nat)
    requires j < |b.clients| <= |b'.clients|
  {
    HearsAt(b, b', if i <= j then [e] else [], j)
  }

  predicate HearsFrom(b: Book, b': Book, e: Event, i: nat) {
    && |b'.clients| == |b.clients| && b.toClean <= b'.toClean
    && (forall j :: 0 <= j < |b.clients| ==> HearsOne(b, b', e, i, j))
  }

  lemma {:induction false} SingleHears(b: Book, i: nat, e: Event, failed: bool)
    requires i < |b.clients| && i !in b.toClean
    ensures var r := NotifySingle(b, i, e, failed);
            r.Ok? ==> |r.ctx.clients| == |b.clients| && b.toClean <= r.ctx.toClean <= b.toClean + {i} && HearsAt(b, r.ctx, [e], i)
                      && forall j :: 0 <= j < |b.clients| && j != i ==> r.ctx.clients[j] == b.clients[j]
  {
    hide Listened;
    ListenedOne(e, b.clients[i].events);
    if e in b.clients[i].events && failed {
      hide Deliver;
    }
  }

  lemma {:induction false} ListenedOne(e: Event, events: set<Event>)
    ensures Listened([e], events) == if e in events then [e] else []
  {
    assert [e][..0] == [];
  }

  lemma {:induction false} BroadcastHears(b: Book, e: Event, bad: Links, i: nat)
    requires i <= |b.clients|
    ensures NotifyFrom(b, e, bad, i).Ok? ==> HearsFrom(b, NotifyFrom(b, e, bad, i).ctx, e, i)
    decreases |b.clients| - i
  {
    hide NotifySingle, HearsFrom;
    if i == |b.clients| {
      NobodyHears(b, e);
    } else if i in b.toClean {
      BroadcastHears(b, e, bad, i + 1);
      if NotifyFrom(b, e, bad, i).Ok? {
        MarkedHears(b, NotifyFrom(b, e, bad, i).ctx, e, i);
      }
    } else {
      SingleHears(b, i, e, bad(e, i));
      var r := NotifySingle(b, i, e, bad(e, i));
      if r.Ok? {
        BroadcastHears(r.ctx, e, bad, i + 1);
        if NotifyFrom(r.ctx, e, bad, i + 1).Ok? {
          NextHears(b, r.ctx, NotifyFrom(r.ctx, e, bad, i + 1).ctx, e, i);
        }
      }
    }
  }

  lemma {:induction false} NobodyHears(b: Book, e: Event)
    ensures HearsFrom(b, b, e, |b.clients|)
  {
  }

  lemma {:induction false} MarkedHears(b: Book, b': Book, e: Event, i: nat)
    requires i < |b.clients| && i in b.toClean && HearsFrom(b, b', e, i + 1)
    ensures HearsFrom(b, b', e, i)
  {
    forall j | 0 <= j < |b.clients| ensures HearsOne(b, b', e, i, j) {
      assert HearsOne(b, b', e, i + 1, j);
    }
  }

  lemma {:induction false} NextHears(b: Book, b1: Book, b2: Book, e: Event, i: nat)
    requires i < |b.clients| && i !in b.toClean && |b1.clients| == |b.clients| && b.toClean <= b1.toClean <= b.toClean + {i}
    requires HearsAt(b, b1, [e], i) && (forall j :: 0 <= j < |b.clients| && j != i ==> b1.clients[j] == b.clients[j])
    requires HearsFrom(b1, b2, e, i + 1)
    ensures HearsFrom(b, b2, e, i)
  {
    forall j | 0 <= j < |b.clients| ensures HearsOne(b, b2, e, i, j) {
      assert HearsOne(b1, b2, e, i + 1, j);
      if j == i {
        ListenedAdd([e], [], b.clients[i].events);
      }
    }
  }

  /** A broadcast reaches every client that is not marked and listens to it. */
  lemma {:induction false} AllHeard(s: Ctx, e: Event, bad: Links)
    ensures NotifyAll(s, e, bad).Ok? ==> Heard(s, NotifyAll(s, e, bad).ctx)
  {
    hide NotifyFrom;
    BroadcastHears(s.book, e, bad, 0);
    assert (s.broadcasts + [e])[|s.broadcasts|..] == [e];
    if NotifyAll(s, e, bad).Ok? {
      var b' := NotifyAll(s, e, bad).ctx.book;
      forall j | 0 <= j < |s.book.clients| ensures HearsAt(s.book, b', [e], j) {
        assert HearsOne(s.book, b', e, 0, j);
      }
    }
  }

  predicate HandledMild(s: Ctx, r: Handled) {
    r.Ok? ==> Mild(s, r.ctx)
  }

  predicate OpMild(s: Ctx, r: Operated) {
    r.Ok? ==> Mild(s, r.ctx.0)
  }

  lemma {:induction false} AllMild(s: Ctx, e: Event, bad: Links)
    ensures HandledMild(s, NotifyAll(s, e, bad))
  {
    hide Untouched, NotifyFrom, NotifyAll, Heard;
    BroadcastUntouched(s.book, e, bad, 0);
    AllHeard(s, e, bad);
    AllUnfolds(s, e, bad);
  }

  // ---------------------------------------------------------------- operations

  lemma {:induction false} AskMild(s: Ctx, r: Request, st: State)
    ensures OpMild(s, AskThen(s, r, st))
  {
    hide Mild;
    if AskThen(s, r, st).Ok? {
      MildSame(s, AskThen(s, r, st).ctx.0);
    }
  }

  lemma {:induction false} RestartAskMild(s: Ctx, kind: RestartKind, dbg: bool)
    ensures OpMild(s, RestartThen(s, kind, dbg))
  {
    hide Mild;
    if RestartThen(s, kind, dbg).Ok? {
      MildSame(s, RestartThen(s, kind, dbg).ctx.0);
    }
  }

  lemma {:induction false} WaitsMild(s: Ctx)
    ensures OpMild(s, StopOrWait(s)) && OpMild(s, RestartOrWait(s))
  {
    hide Mild, AskThen, RestartThen;
    AskMild(s, Stop, Stopping);
    RestartAskMild(s, s.restart, s.dbg);
    MildSame(s, StartAckTimer(s));
  }

  /** An operation that goes on from a context that is itself mild. */
  lemma {:induction false} OpMildTrans(s: Ctx, s1: Ctx, r: Operated)
    requires Mild(s, s1) && OpMild(s1, r)
    ensures OpMild(s, r)
  {
    hide Mild;
    if r.Ok? {
      MildTrans(s, s1, r.ctx.0);
    }
  }

  lemma {:induction false} ShutdownMild(s: Ctx, bad: Links)
    ensures OpMild(s, StartShutdown(s, bad))
  {
    hide Mild, OpMild, NotifyAll, StopOrWait;
    AllMild(s, Shutdown, bad);
    AbortMild(s, NotifyAll(s, Shutdown, bad));
    var r1 := NotifyAll(s, Shutdown, bad);
    if r1.Ok? {
      AllMild(r1.ctx, Down, bad);
      var r2 := if r1.ctx.fake then r1 else NotifyAll(r1.ctx, Down, bad);
      AbortMild(s, r2);
      if r2.Ok? {
        if !r1.ctx.fake {
          MildTrans(s, r1.ctx, r2.ctx);
        }
        var s3 := r2.ctx.(fake := true, modem := Off);
        MildSame(r2.ctx, s3);
        MildTrans(s, r2.ctx, s3);
        WaitsMild(s3);
        OpMildTrans(s, s3, StopOrWait(s3));
      }
    }
  }

  lemma {:induction false} AbortMild(s: Ctx, r: Handled)
    ensures r.Abort? ==> OpMild(s, Abort(r.why))
  {
  }

  lemma {:induction false} FakeMild(s: Ctx, bad: Links)
    ensures HandledMild(s, FakeBusy(s, bad))
  {
    hide Mild, NotifyAll;
    AllMild(s, Down, bad);
    var r := NotifyAll(s, Down, bad);
    if r.Ok? {
      MildSame(r.ctx, r.ctx.(modem := Busy, fake := true));
      MildTrans(s, r.ctx, r.ctx.(modem := Busy, fake := true));
    }
  }

  lemma {:induction false} RestartMild(s: Ctx, bad: Links)
    ensures OpMild(s, StartRestart(s, bad))
  {
    hide Mild, OpMild, NotifyAll, FakeBusy, RestartOrWait;
    MildSame(s, s);
    FakeMild(s, bad);
    var r1 := if s.modem == Busy then Ok(s) else FakeBusy(s, bad);
    AbortMild(s, r1);
    if r1.Ok? {
      AllMild(r1.ctx, ColdReset, bad);
      var r2 := NotifyAll(r1.ctx, ColdReset, bad);
      AbortMild(s, r2);
      if r2.Ok? {
        MildTrans(s, r1.ctx, r2.ctx);
        WaitsMild(r2.ctx);
        OpMildTrans(s, r2.ctx, RestartOrWait(r2.ctx));
      }
    }
  }

  lemma {:induction false} PendingMild(s: Ctx, bad: Links)
    ensures OpMild(s, CheckUp(s, bad)) && OpMild(s, CheckDown(s))
  {
    hide Mild, StartShutdown, StartRestart, AskThen;
    MildSame(s, s);
    ShutdownMild(s, bad);
    RestartMild(s, bad);
    AskMild(s, Start, Starting);
  }

  lemma {:induction false} AckedMild(s: Ctx, bad: Links)
    ensures OpMild(s, ColdAcked(s, bad)) && OpMild(s, ShutAcked(s, bad))
  {
    hide Mild, StartShutdown, StartRestart, AskThen, RestartThen;
    MildSame(s, s);
    ShutdownMild(s, bad);
    RestartMild(s, bad);
    AskMild(s, Stop, Stopping);
    RestartAskMild(s, s.restart, s.dbg);
    RestartAskMild(s, ModemRestart, false);
    var s1 := s.(fake := false, modem := s.reported);
    MildSame(s, s1);
    RestartAskMild(s1, ModemRestart, false);
    OpMildTrans(s, s1, RestartThen(s1, ModemRestart, false));
  }

  lemma {:induction false} BusyMild(s: Ctx, bad: Links)
    ensures OpMild(s, StartRestart(s.(restart := ModemRestart), bad))
  {
    hide Mild, StartRestart;
    var s1 := s.(restart := ModemRestart);
    MildSame(s, s1);
    RestartMild(s1, bad);
    OpMildTrans(s, s1, StartRestart(s1, bad));
  }

  lemma {:induction false} OperateMild(s: Ctx, op: Op, t: Trigger, bad: Links)
    ensures OpMild(s, Operate(s, op, t, bad))
  {
    hide Mild, StartShutdown, StartRestart, AskThen, CheckUp, CheckDown, ColdAcked, ShutAcked;
    match op
    case ClientAcquire => AskMild(s, Start, Starting);
    case OnBusy => BusyMild(s, bad);
    case ClientRelease => ShutdownMild(s, bad);
    case ClientRestart => RestartMild(s, bad);
    case AckedCold => AckedMild(s, bad);
    case AckedShut => AckedMild(s, bad);
    case CheckPendingUp => PendingMild(s, bad);
    case CheckPendingDown => PendingMild(s, bad);
    case _ => MildSame(s, s);
  }

  /** No event of the machine changes the registration or the hold of a client it does not give
      up. */
  lemma {:induction false} EventMild(s: Ctx, t: Trigger, bad: Links)
    ensures HandledMild(s, Notify(s, t, bad))
  {
    hide Mild, Operate, Table;
    OperateMild(s, Table(t, s.fsm).op, t, bad);
    var r := Notify(s, t, bad);
    if r.Ok? {
      var s1 := Operate(s, Table(t, s.fsm).op, t, bad).ctx.0;
      MildSame(s1, r.ctx);
      MildTrans(s, s1, r.ctx);
    }
  }

  /** An event after a change that is itself mild. */
  lemma {:induction false} EventAfter(s: Ctx, s1: Ctx, t: Trigger, bad: Links)
    requires Mild(s, s1)
    ensures HandledMild(s, Notify(s1, t, bad))
  {
    hide Mild, Notify;
    EventMild(s1, t, bad);
    if Notify(s1, t, bad).Ok? {
      MildTrans(s, s1, Notify(s1, t, bad).ctx);
    }
  }

  // ---------------------------------------------------------------- messages, time-outs, turns

  lemma {:induction false} ChangeMild(s: Ctx, m: Mdm, silent: bool, bad: Links)
    requires m == Off || m == Unresp || m == Busy || m == Ready
    ensures HandledMild(s, ChangeState(s, m, silent, bad))
  {
    hide Mild, Notify, NotifyAll, ChangeState;
    AllMild(s, ToEvent(m), bad);
    MildSame(s, s);
    ChangeUnfolds(s, m, silent, bad);
    var tell := !silent && (s.modem == Unknown || ToEvent(m) != ToEvent(s.modem));
    var r := if tell then NotifyAll(s, ToEvent(m), bad) else Ok(s);
    if r.Ok? {
      MildSame(r.ctx, r.ctx.(modem := m));
      MildTrans(s, r.ctx, r.ctx.(modem := m));
      EventAfter(s, r.ctx.(modem := m), TriggerOf(m), bad);
    }
  }

  lemma {:induction false} RecordMild(s: Ctx, m: Mdm, silent: bool, fake: bool)
    ensures Mild(s, Record(s, m, silent)) && Mild(s, Record(s, m, silent).(fake := fake))
  {
    hide Mild;
    MildSame(s, Record(s, m, silent));
    MildSame(s, Record(s, m, silent).(fake := fake));
  }

  lemma {:induction false} ModemMild(s: Ctx, mdm: Mdm, bad: Links)
    requires mdm != Unknown
    ensures HandledMild(s, HandleModemState(s, mdm, bad))
  {
    hide Mild, ChangeState, Record;
    var silent := mdm == PlatformReboot;
    var m := if silent then Unresp else mdm;
    var s1 := Record(s, m, silent);
    RecordMild(s, m, silent, s1.modem != m);
    RecordMild(s, m, silent, false);
    var s2 := s1.(fake := false);
    ChangeMild(s2, m, silent, bad);
    if ChangeState(s2, m, silent, bad).Ok? {
      MildTrans(s, s2, ChangeState(s2, m, silent, bad).ctx);
    }
  }

  lemma {:induction false} ControlMild(s: Ctx, m: ControlMsg, bad: Links)
    requires FromControl(m)
    ensures HandledMild(s, HandleControlMsg(s, m, bad))
  {
    hide Mild, Notify, NotifyAll, HandleModemState;
    match m
    case Result(ok) =>
      MildSame(s, s.(inProgress := false));
      EventAfter(s, s.(inProgress := false), if ok then Success else Failure, bad);
    case NotifyClient(e) => AllMild(s, e, bad);
    case ModemState(mdm) => ModemMild(s, mdm, bad);
  }

  lemma {:induction false} ClearMild(s: Ctx)
    ensures Mild(s, s.(book := ClearAcks(s.book)))
  {
    var s' := s.(book := ClearAcks(s.book));
    assert s'.broadcasts[|s.broadcasts|..] == [];
    forall j | 0 <= j < |s.book.clients| ensures HearsAt(s.book, s'.book, [], j) {
    }
  }

  lemma {:induction false} ElapseMild(s: Ctx, ack: bool, bad: Links)
    ensures HandledMild(s, ElapseAck(s, ack, bad))
  {
    hide Mild, Notify, ClearAcks;
    MildSame(s, s);
    if ack {
      ClearMild(s);
      EventAfter(s, s.(book := ClearAcks(s.book)), CliAcked, bad);
    }
    var r := if ack then Notify(s.(book := ClearAcks(s.book)), CliAcked, bad) else Ok(s);
    if r.Ok? {
      MildSame(r.ctx, ReleaseIfIdle(r.ctx));
      MildTrans(s, r.ctx, ReleaseIfIdle(r.ctx));
    }
  }

  lemma {:induction false} TimeoutMild(s: Ctx, p: Phase, bootLeft: nat, bad: Links)
    requires p.Polling?
    ensures HandledMild(s, HandleTimeout(s, p, bootLeft, bad))
  {
    hide Mild, ElapseAck;
    var s1 := if p.boot then s.(bootArmed := bootLeft > 0) else s;
    MildSame(s, s1);
    ElapseMild(s1, p.ack, bad);
    if ElapseAck(s1, p.ack, bad).Ok? {
      MildTrans(s, s1, ElapseAck(s1, p.ack, bad).ctx);
    }
  }

  lemma {:induction false} TurnMild(s: Ctx, p: Phase, bad: Links)
    requires p.Iter?
    ensures HandledMild(s, FinishTurn(s, p, bad))
  {
    hide Mild, Notify;
    MildSame(s, s);
    MildSame(s, s.(restart := NoRestart));
    EventAfter(s, s.(restart := NoRestart), CliAcked, bad);
    EventMild(s, CliRelease, bad);
    EventMild(s, CliAcquire, bad);
    EventMild(s, CliAcked, bad);
  }

  // ---------------------------------------------------------------- messages of a client

  /** A message of client `c`: the others are kept or given up. */
  predicate Served(s: Ctx, c: nat, s': Ctx) {
    && |s'.book.clients| == |s.book.clients|
    && Marks(s.book, s'.book)
    && (forall j :: 0 <= j < |s.book.clients| && j != c ==> KeptAt(s.book, s'.book, j))
    && (s.reject ==> s'.reject)
  }

  lemma {:induction false} MildServed(s: Ctx, c: nat, r: Handled)
    requires HandledMild(s, r)
    ensures r.Ok? ==> Served(s, c, r.ctx)
  {
  }

  predicate BookServed(b: Book, c: nat, r: Outcome<Book, Assertion>) {
    r.Ok? ==>
      && |r.ctx.clients| == |b.clients|
      && Marks(b, r.ctx)
      && (forall j :: 0 <= j < |b.clients| && j != c ==> KeptAt(b, r.ctx, j))
  }

  lemma {:induction false} LeaveServed(b: Book, c: nat)
    requires c < |b.clients|
    ensures BookServed(b, c, Unregister(b, c))
  {
  }

  lemma {:induction false} JoinServed(b: Book, c: nat, events: set<Event>, modem: Mdm, bad: Links)
    requires c < |b.clients|
    ensures BookServed(b, c, HandleRegister(b, c, events, modem, bad))
  {
    hide NotifySingle, Unregister;
    LeaveServed(b, c);
    var b1 := b.(clients := b.clients[c := b.clients[c].(registered := true, events := events)]);
    SingleUntouched(b1, c, ToEvent(modem), bad(ToEvent(modem), c));
    var r := NotifySingle(b1, c, ToEvent(modem), bad(ToEvent(modem), c));
    if r.Ok? {
      forall j | 0 <= j < |b.clients| && j != c ensures KeptAt(b, r.ctx, j) {
        assert KeptAt(b1, r.ctx, j);
      }
    }
  }

  lemma {:induction false} SlotServed(b: Book, c: nat, m: ClientMsg, reject: bool)
    requires c < |b.clients| && (m.Acquire? || m.Release? || m.AckColdReset? || m.AckShutdown?)
    ensures BookServed(b, c, HandleSlotMsg(b, c, m, reject))
  {
  }

  lemma {:induction false} BookToCtx(s: Ctx, c: nat, r: Outcome<Book, Assertion>)
    requires BookServed(s.book, c, r)
    ensures WithBook(s, r).Ok? ==> Served(s, c, WithBook(s, r).ctx)
  {
  }

  lemma {:induction false} ShutdownServed(s: Ctx, c: nat)
    ensures Served(s, c, s.(reject := true, book := s.book.(numAcquired := 0), shutdownSeen := true))
  {
  }

  lemma {:induction false} RestartServed(s: Ctx, c: nat, kind: RestartKind, dbg: bool, bad: Links)
    ensures var r := Notify(s.(restart := kind, dbg := dbg), CliRestart, bad);
            r.Ok? ==> Served(s, c, r.ctx)
  {
    hide Mild, Notify, Served;
    var s1 := s.(restart := kind, dbg := dbg);
    MildSame(s, s1);
    EventAfter(s, s1, CliRestart, bad);
    MildServed(s, c, Notify(s1, CliRestart, bad));
  }

  /** A client's message is about its own slot. */
  lemma {:induction false} ClientServed(s: Ctx, c: nat, m: ClientMsg, bad: Links)
    requires c < |s.book.clients|
    ensures HandleClientMsg(s, c, m, bad).Ok? ==> Served(s, c, HandleClientMsg(s, c, m, bad).ctx)
  {
    hide Served, Mild, BookServed, Notify, NotifyAll, HandleRegister, HandleSlotMsg, Unregister, WithBook;
    MildSame(s, s);
    MildServed(s, c, Ok(s));
    LeaveServed(s.book, c);
    BookToCtx(s, c, Unregister(s.book, c));
    match m
    case Register(_, events) =>
      JoinServed(s.book, c, events, s.modem, bad);
      BookToCtx(s, c, HandleRegister(s.book, c, events, s.modem, bad));
    case AskRestart(cause, dbg) =>
      RestartServed(s, c, if cause == MdmErr then ModemRestart else ModemUpdate, dbg, bad);
    case AskBackup => RestartServed(s, c, BackupNvm, s.dbg, bad);
    case AskShutdown => ShutdownServed(s, c);
    case NotifyDbg =>
      AllMild(s, DbgInfo, bad);
      MildServed(s, c, NotifyAll(s, DbgInfo, bad));
    case UnknownId =>
    case _ =>
      SlotServed(s.book, c, m, s.reject);
      BookToCtx(s, c, HandleSlotMsg(s.book, c, m, s.reject));
  }

  // ---------------------------------------------------------------- steps

  /** The inputs about client `k`. */
  predicate About(i: Input, k: nat) {
    (i.FromClient? && i.client == k) || (i.Lost? && i.client == k)
  }

  lemma {:induction false} LocalKeepsSlot(l: Loop, i: Input, bad: Links, k: nat)
    requires Enabled(l, i) && Step(l, i, bad).Ok? && k < |l.ctx.book.clients|
    requires i.EnterPoll? || i.PollReturns? || i.Turn? || i.Accept?
    ensures var l' := Step(l, i, bad).ctx;
            && |l.ctx.book.clients| <= |l'.ctx.book.clients|
            && KeptAt(l.ctx.book, l'.ctx.book, k)
            && (i.PollReturns? || Marks(l.ctx.book, l'.ctx.book))
            && (l.ctx.reject ==> l'.ctx.reject)
  {
    hide Step;
    LocalShape(l, i, bad);
  }

  lemma {:induction false} LocalShape(l: Loop, i: Input, bad: Links)
    requires Enabled(l, i) && Step(l, i, bad).Ok? && (i.EnterPoll? || i.PollReturns? || i.Turn? || i.Accept?)
    ensures var b, b' := l.ctx.book, Step(l, i, bad).ctx.ctx.book;
            && Step(l, i, bad).ctx.ctx.reject == l.ctx.reject
            && (if i.PollReturns? then b' == b.(toClean := {})
                else if i.Accept? then b' == b.(clients := b.clients + [Client(i.fd, false, {}, false, false, false, [])])
                else b' == b)
  {
    hide HandleControlMsg, HandleClientMsg, HandleTimeout, FinishTurn, Unregister, Compact;
  }

  /** A step that is not about client `k` keeps its slot or gives it up. */
  lemma {:induction false} StepKeepsSlot(l: Loop, i: Input, bad: Links, k: nat)
    requires Enabled(l, i) && Step(l, i, bad).Ok? && k < |l.ctx.book.clients| && !About(i, k) && !i.EndScan?
    ensures var l' := Step(l, i, bad).ctx;
            && |l.ctx.book.clients| <= |l'.ctx.book.clients|
            && KeptAt(l.ctx.book, l'.ctx.book, k)
            && (i.PollReturns? || Marks(l.ctx.book, l'.ctx.book))
            && (l.ctx.reject ==> l'.ctx.reject)
  {
    hide HandleControlMsg, HandleClientMsg, HandleTimeout, FinishTurn, Unregister, KeptAt, Marks;
    if i.EnterPoll? || i.PollReturns? || i.Turn? || i.Accept? {
      hide Step;
      LocalKeepsSlot(l, i, bad, k);
      return;
    }
    if i.Lost? {
      SameUntouched(l.ctx.book);
    }
    match i
    case Control(m) => ControlMild(l.ctx, m, bad);
    case PollTimesOut(bootLeft) => TimeoutMild(l.ctx, l.phase, bootLeft, bad);
    case EndTurn => TurnMild(l.ctx, l.phase, bad);
    case FromClient(c, m) => ClientServed(l.ctx, c, m, bad);
    case Lost(c) => LeaveServed(l.ctx.book, c);
    case _ =>
  }

  /** Where client `k` is once the marked clients are gone. */
  function Rank(marked: set<nat>, i: nat, k: nat): nat
    requires i <= k
    decreases k - i
  {
    if i == k then 0 else Rank(marked, i + 1, k) + Bit(i !in marked)
  }

  lemma {:induction false} RankFinds(xs: seq<Client>, marked: set<nat>, i: nat, k: nat)
    requires i <= k < |xs| && k !in marked
    ensures Rank(marked, i, k) < |Unmarked(xs, marked, i)| && Unmarked(xs, marked, i)[Rank(marked, i, k)] == xs[k]
    decreases k - i
  {
    if i < k {
      RankFinds(xs, marked, i + 1, k);
    }
  }

  // ---------------------------------------------------------------- after a SHUTDOWN request

  /** A SHUTDOWN request settles the matter: requests are rejected and nobody counts as a holder. */
  predicate Settled(s: Ctx) {
    s.shutdownSeen ==> s.reject && s.book.numAcquired == 0
  }

  lemma {:induction false} MildSettled(s: Ctx, r: Handled)
    requires HandledMild(s, r) && Settled(s)
    ensures r.Ok? ==> Settled(r.ctx)
  {
    hide KeptAt, Marks;
  }

  predicate Sinks(b: Book, r: Outcome<Book, Assertion>) {
    r.Ok? ==> r.ctx.numAcquired <= b.numAcquired && (b.numAcquired >= 0 ==> r.ctx.numAcquired >= 0)
  }

  lemma {:induction false} LeaveSinks(b: Book, c: nat)
    requires c < |b.clients|
    ensures Sinks(b, Unregister(b, c))
  {
  }

  lemma {:induction false} JoinSinks(b: Book, c: nat, events: set<Event>, modem: Mdm, bad: Links)
    requires c < |b.clients|
    ensures Sinks(b, HandleRegister(b, c, events, modem, bad))
  {
  }

  lemma {:induction false} SlotSinks(b: Book, c: nat, m: ClientMsg)
    requires c < |b.clients| && (m.Acquire? || m.Release? || m.AckColdReset? || m.AckShutdown?)
    ensures Sinks(b, HandleSlotMsg(b, c, m, true))
  {
  }

  lemma {:induction false} BookSettled(s: Ctx, r: Outcome<Book, Assertion>)
    requires Settled(s) && (s.shutdownSeen ==> Sinks(s.book, r))
    ensures WithBook(s, r).Ok? ==> Settled(WithBook(s, r).ctx)
  {
  }

  lemma {:induction false} RestartSettled(s: Ctx, kind: RestartKind, dbg: bool, bad: Links)
    requires Settled(s)
    ensures var r := Notify(s.(restart := kind, dbg := dbg), CliRestart, bad);
            r.Ok? ==> Settled(r.ctx)
  {
    hide Mild, Notify;
    var s1 := s.(restart := kind, dbg := dbg);
    EventMild(s1, CliRestart, bad);
    MildSettled(s1, Notify(s1, CliRestart, bad));
  }

  lemma {:induction false} ClientSettled(s: Ctx, c: nat, m: ClientMsg, bad: Links)
    requires c < |s.book.clients| && Settled(s)
    ensures HandleClientMsg(s, c, m, bad).Ok? ==> Settled(HandleClientMsg(s, c, m, bad).ctx)
  {
    hide HandledMild, Sinks, Notify, NotifyAll, HandleRegister, HandleSlotMsg, Unregister, WithBook;
    if c in s.book.toClean {
    } else if (m.Register? && m.debug != s.sanity) || (!m.Register? && !s.book.clients[c].registered) {
      LeaveSinks(s.book, c);
      BookSettled(s, Unregister(s.book, c));
    } else {
      match m
      case Register(_, events) =>
        JoinSinks(s.book, c, events, s.modem, bad);
        BookSettled(s, HandleRegister(s.book, c, events, s.modem, bad));
      case AskRestart(cause, dbg) => RestartSettled(s, if cause == MdmErr then ModemRestart else ModemUpdate, dbg, bad);
      case AskBackup => RestartSettled(s, BackupNvm, s.dbg, bad);
      case NotifyDbg =>
        AllMild(s, DbgInfo, bad);
        MildSettled(s, NotifyAll(s, DbgInfo, bad));
      case AskShutdown =>
      case UnknownId =>
      case _ =>
        SlotSinks(s.book, c, m);
        BookSettled(s, HandleSlotMsg(s.book, c, m, s.reject));
    }
  }

  lemma {:induction false} StepSettled(l: Loop, i: Input, bad: Links)
    requires Enabled(l, i) && Step(l, i, bad).Ok? && Settled(l.ctx)
    ensures Settled(Step(l, i, bad).ctx.ctx)
  {
    hide HandledMild, HandleControlMsg, HandleClientMsg, HandleTimeout, FinishTurn, Unregister, WithBook;
    match i
    case Control(m) =>
      ControlMild(l.ctx, m, bad);
      MildSettled(l.ctx, HandleControlMsg(l.ctx, m, bad));
    case PollTimesOut(bootLeft) =>
      TimeoutMild(l.ctx, l.phase, bootLeft, bad);
      MildSettled(l.ctx, HandleTimeout(l.ctx, l.phase, bootLeft, bad));
    case EndTurn =>
      TurnMild(l.ctx, l.phase, bad);
      MildSettled(l.ctx, FinishTurn(l.ctx, l.phase, bad));
    case FromClient(c, m) => ClientSettled(l.ctx, c, m, bad);
    case Lost(c) =>
      LeaveSinks(l.ctx.book, c);
      BookSettled(l.ctx, Unregister(l.ctx.book, c));
    case _ =>
  }

  lemma {:induction false} RunSettled(l: Loop, script: Script, l': Loop)
    requires Settled(l.ctx) && Reaches(l, script, l')
    ensures Settled(l'.ctx)
    decreases |script|
  {
    hide Settled, Step, Enabled;
    if script != [] {
      StepSettled(l, script[0].0, script[0].1);
      RunSettled(Step(l, script[0].0, script[0].1).ctx, script[1..], l');
    }
  }
}
