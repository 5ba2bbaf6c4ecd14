/**
 What every step of the client abstraction keeps, and what follows for its assertions,
 its broadcasts and its requests to control.
 */
module ClaInvariant {
  import opened Common
  import opened Fsm
  import opened Cla
  import opened ClaBook

  // ---------------------------------------------------------------- broadcast log

  /** The last UP, DOWN or OOS in the log. */
  function Last(log: seq<Event>): Option<Event> {
    if log == [] then None
    else if (log[|log| - 1] == Up || log[|log| - 1] == Down || log[|log| - 1] == Oos) then Some(log[|log| - 1])
    else Last(log[..|log| - 1])
  }

  /** An UP is only broadcast first or after a DOWN. */
  predicate UpAfterDown(log: seq<Event>) {
    forall j :: 0 <= j < |log| && log[j] == Up ==> (Last(log[..j]) == None || Last(log[..j]) == Some(Down))
  }

  lemma {:induction false} LogSnoc(log: seq<Event>, e: Event)
    requires UpAfterDown(log)
    requires e == Up ==> (Last(log) == None || Last(log) == Some(Down))
    ensures UpAfterDown(log + [e])
    ensures Last(log + [e]) == if (e == Up || e == Down || e == Oos) then Some(e) else Last(log)
  {
    assert (log + [e])[..|log|] == log;
    forall j | 0 <= j < |log + [e]| && (log + [e])[j] == Up
      ensures (Last((log + [e])[..j]) == None || Last((log + [e])[..j]) == Some(Down))
    {
      assert (log + [e])[..j] == log[..j];
    }
  }

  lemma {:induction false} LastDown(log: seq<Event>, i: nat)
    requires i < |log| && log[i] == Up && Last(log) == Some(Down)
    ensures exists k :: i < k < |log| && log[k] == Down
    decreases |log|
  {
    var n := |log| - 1;
    if (log[n] != Up && log[n] != Down && log[n] != Oos) {
      assert i < n;
      assert log[..n][i] == Up;
      LastDown(log[..n], i);
      var k :| i < k < n && log[..n][k] == Down;
      assert log[k] == Down;
    }
  }

  /** Between two UP broadcasts there is a DOWN one. */
  lemma {:induction false} UpsSeparated(log: seq<Event>, i: nat, j: nat)
    requires UpAfterDown(log) && i < j < |log| && log[i] == Up && log[j] == Up
    ensures exists k :: i < k < j && log[k] == Down
  {
    var p := log[..j];
    assert p[i] == Up;
    LastSome(p, i);
    LastDown(p, i);
    var k :| i < k < |p| && p[k] == Down;
    assert log[k] == Down;
  }

  lemma {:induction false} LastSome(log: seq<Event>, i: nat)
    requires i < |log| && log[i] == Up
    ensures Last(log) != None
    decreases |log|
  {
    var n := |log| - 1;
    if (log[n] != Up && log[n] != Down && log[n] != Oos) {
      assert i < n;
      assert log[..n][i] == Up;
      LastSome(log[..n], i);
    }
  }

  // ---------------------------------------------------------------- invariant

  /** The log matches the modem state shown to the clients, a platform reboot excepted. */
  predicate LogOk(s: Ctx) {
    && UpAfterDown(s.broadcasts)
    && (s.modem == Unknown ==> Last(s.broadcasts) == None)
    && (s.modem != Unknown && !s.rebootSeen ==> Last(s.broadcasts) == Some(ToEvent(s.modem)))
    && (s.rebootSeen ==> s.modem == Unresp)
  }

  /** The part that does not relate the modem state to the machine's state. */
  predicate Base(s: Ctx) {
    && BookOk(s.book)
    && (s.book.numCold > 0 ==> s.fsm == AckCold)
    && (s.book.numShut > 0 ==> s.fsm == AckShut)
    && (s.fake ==> (s.modem == Off || s.modem == Busy))
    && s.modem != PlatformReboot
    && s.wakelock <= 1
    && (Waiting(s.book) || s.bootArmed ==> s.wakelock == 1)
    && LogOk(s)
    && (s.inProgress ==> (s.fsm == Starting || s.fsm == Stopping) || (s.fsm == StOff && s.modem == Unresp))
  }

  predicate Core(s: Ctx) {
    && Base(s)
    && (s.fsm == StUp ==> s.modem == Ready)
    && (s.fsm == AckShut ==> s.modem == Off || s.modem == Busy)
    && (s.fsm == Initial <==> s.modem == Unknown)
    && (s.modem == Unresp ==> s.reject && (s.fsm == StOff || s.fsm == AckCold || s.fsm == Stopping))
  }

  /** What every handler carries over. */
  predicate Carried(s: Ctx, s': Ctx) {
    && Kept(s.book, s'.book)
    && s'.reject == s.reject
    && s'.bootArmed == s.bootArmed
    && s'.shutdownSeen == s.shutdownSeen
    && s'.rebootSeen == s.rebootSeen
    && s'.sanity == s.sanity
  }

  /** The assertions that the invariant does not exclude. */
  predicate Admitted(s: Ctx, why: Assertion) {
    match why
    case AtCell(t, st) => t != CliAcked && !(t == CliAcquire && st == StUp)
    case NegativeAcquired => Surplus(s.book) < 0
    case RestartArgs => true
    case FakeState => true
    case RealNotBusy => true
    case Mismatch => true
    case ModemGone => true
    case UnknownCause => true
    case TooManyClients => true
    case _ => false
  }

  lemma {:induction false} AllUnfolds(s: Ctx, e: Event, bad: Links)
    ensures var b := NotifyFrom(s.book, e, bad, 0);
            NotifyAll(s, e, bad) == if b.Ok? then Ok(s.(book := b.ctx, broadcasts := s.broadcasts + [e])) else Abort(b.why)
  {
    hide NotifyFrom;
  }

  lemma {:induction false} BroadcastCtx(s: Ctx, e: Event, bad: Links)
    requires BookOk(s.book) && CanExpect(s.book, e, 0) && UpAfterDown(s.broadcasts)
    requires e == Up ==> (Last(s.broadcasts) == None || Last(s.broadcasts) == Some(Down))
    ensures var r := NotifyAll(s, e, bad);
            && (r.Abort? ==> r.why == NegativeAcquired && Surplus(s.book) < 0)
            && (r.Ok? ==>
                  && Carried(s, r.ctx)
                  && (e != ColdReset ==> r.ctx.book.numCold <= s.book.numCold)
                  && (e != Shutdown ==> r.ctx.book.numShut <= s.book.numShut)
                  && UpAfterDown(r.ctx.broadcasts)
                  && Last(r.ctx.broadcasts) == if (e == Up || e == Down || e == Oos) then Some(e) else Last(s.broadcasts))
  {
    hide NotifyAll, Kept, BookOk, MarkedIdle, Surplus, CanExpect, NotifyFrom, UpAfterDown, Last;
    BroadcastKeeps(s.book, e, bad, 0);
    LogSnoc(s.broadcasts, e);
    AllUnfolds(s, e, bad);
  }

  /** Common ground of both procedures: nothing awaited, no request in flight, a live modem. */
  predicate Calm(s: Ctx) {
    && Base(s) && !Waiting(s.book) && !s.inProgress
    && s.modem != Unknown && s.modem != Unresp
  }

  /** What an operation owes the engine: the state it settles on fits, and only an
      operation that saw a holder moves to UP. */
  predicate OpOk(s: Ctx, r: Operated) {
    && (r.Abort? ==> Admitted(s, r.why))
    && (r.Ok? ==>
          var st := if r.ctx.1.Goto? then r.ctx.1.state else s.fsm;
          && !r.ctx.1.Fail? && (st == Initial ==> s.fsm == Initial)
          && Core(r.ctx.0.(fsm := st)) && Carried(s, r.ctx.0)
          && (st == StUp ==> s.fsm == StUp || r.ctx.0.book.numAcquired > 0))
  }

  /** A request leaves for control when none is in flight and nothing is awaited. */
  lemma {:induction false} AskKeeps(s: Ctx, r: Request, st: State)
    requires Calm(s) && (st == Starting || st == Stopping)
    ensures OpOk(s, AskThen(s, r, st)) && AskThen(s, r, st).Ok? && AskThen(s, r, st).ctx.1 == Goto(st)
  {
    hide Agrees, MarkedIdle, Surplus, UpAfterDown, Last;
  }

  lemma {:induction false} RestartThenKeeps(s: Ctx, kind: RestartKind, dbg: bool)
    requires Calm(s)
    ensures OpOk(s, RestartThen(s, kind, dbg))
    ensures RestartThen(s, kind, dbg).Ok? ==> RestartThen(s, kind, dbg).ctx.1 == Goto(Starting)
  {
    hide Agrees, MarkedIdle, Surplus, UpAfterDown, Last, LogOk, Carried;
    AskKeeps(s, Restart(kind), Starting);
  }

  lemma {:induction false} StopOrWaitKeeps(s: Ctx)
    requires BookOk(s.book) && s.book.numCold == 0 && s.modem == Off && s.wakelock <= 1
    requires (s.bootArmed ==> s.wakelock == 1) && !s.inProgress && LogOk(s)
    ensures OpOk(s, StopOrWait(s))
    ensures StopOrWait(s).Ok? ==> StopOrWait(s).ctx.1 == Goto(Stopping) || StopOrWait(s).ctx.1 == Goto(AckShut)
  {
    hide Agrees, MarkedIdle, Surplus, UpAfterDown, Last;
  }

  /** An operation that goes on from a carried context. */
  lemma {:induction false} OpTrans(s: Ctx, s1: Ctx, r: Operated)
    requires OpOk(s1, r) && Carried(s, s1)
    requires r.Ok? ==> r.ctx.1.Goto? && r.ctx.1.state != Initial && r.ctx.1.state != StUp
    ensures OpOk(s, r)
  {
    hide Core, BookOk, MarkedIdle, Surplus;
  }

  lemma {:induction false} ShutdownKeeps(s: Ctx, bad: Links)
    requires Calm(s)
    ensures OpOk(s, StartShutdown(s, bad))
    ensures StartShutdown(s, bad).Ok? ==> StartShutdown(s, bad).ctx.1 == Goto(Stopping) || StartShutdown(s, bad).ctx.1 == Goto(AckShut)
  {
    hide Agrees, MarkedIdle, CanExpect, Surplus, UpAfterDown, Last, NotifyFrom, StopOrWait;
    QuietBook(s.book, Shutdown);
    BroadcastCtx(s, Shutdown, bad);
    var r1 := NotifyAll(s, Shutdown, bad);
    if r1.Ok? {
      DownAfterShutdown(s, r1.ctx, bad);
      var r2 := if r1.ctx.fake then r1 else NotifyAll(r1.ctx, Down, bad);
      if r2.Ok? {
        var s3 := r2.ctx.(fake := true, modem := Off);
        StopOrWaitKeeps(s3);
        hide Core, BookOk, Calm, LogOk;
        OpTrans(s, s3, StopOrWait(s3));
      }
    }
  }

  lemma {:induction false} DownAfterShutdown(s: Ctx, s1: Ctx, bad: Links)
    requires Calm(s)
    requires Carried(s, s1) && s1.book.numCold == 0 && s1 == s.(book := s1.book, broadcasts := s1.broadcasts)
    requires UpAfterDown(s1.broadcasts) && Last(s1.broadcasts) == Last(s.broadcasts)
    ensures var r := if s1.fake then Ok(s1) else NotifyAll(s1, Down, bad);
            && (r.Abort? ==> r.why == NegativeAcquired && Surplus(s.book) < 0)
            && (r.Ok? ==>
                  var s3 := r.ctx.(fake := true, modem := Off);
                  Carried(s, s3) && s3.book.numCold == 0 && LogOk(s3)
                  && s3.inProgress == s.inProgress && s3.wakelock == s.wakelock)
  {
    hide Agrees, MarkedIdle, Surplus, UpAfterDown, Last, NotifyFrom;
    if !s1.fake {
      BroadcastCtx(s1, Down, bad);
    }
  }

  lemma {:induction false} FakeBusyKeeps(s: Ctx, bad: Links)
    requires Calm(s) && s.modem != Busy
    ensures var r := FakeBusy(s, bad);
            && (r.Abort? ==> Admitted(s, r.why))
            && (r.Ok? ==> Calm(r.ctx) && r.ctx.modem == Busy && Carried(s, r.ctx))
  {
    hide Agrees, MarkedIdle, CanExpect, Surplus, UpAfterDown, Last, NotifyFrom;
    QuietBook(s.book, Down);
    BroadcastCtx(s, Down, bad);
  }

  lemma {:induction false} RestartOrWaitKeeps(s: Ctx)
    requires BookOk(s.book) && s.book.numShut == 0 && s.modem == Busy && s.wakelock <= 1
    requires (s.bootArmed ==> s.wakelock == 1) && !s.inProgress && LogOk(s)
    ensures OpOk(s, RestartOrWait(s))
    ensures RestartOrWait(s).Ok? ==> RestartOrWait(s).ctx.1 == Goto(Starting) || RestartOrWait(s).ctx.1 == Goto(AckCold)
  {
    hide Agrees, MarkedIdle, Surplus, UpAfterDown, Last;
  }

  lemma {:induction false} ColdPhase(s: Ctx, bad: Links)
    requires Calm(s) && s.modem == Busy
    ensures var r := NotifyAll(s, ColdReset, bad);
            && (r.Abort? ==> r.why == NegativeAcquired && Surplus(s.book) < 0)
            && (r.Ok? ==> Carried(s, r.ctx) && r.ctx.book.numShut == 0 && LogOk(r.ctx))
  {
    hide Agrees, MarkedIdle, CanExpect, Surplus, UpAfterDown, Last, NotifyFrom;
    QuietBook(s.book, ColdReset);
    BroadcastCtx(s, ColdReset, bad);
  }

  lemma {:induction false} RestartKeeps(s: Ctx, bad: Links)
    requires Calm(s)
    ensures OpOk(s, StartRestart(s, bad))
    ensures StartRestart(s, bad).Ok? ==> StartRestart(s, bad).ctx.1 == Goto(Starting) || StartRestart(s, bad).ctx.1 == Goto(AckCold)
  {
    hide Agrees, MarkedIdle, CanExpect, Surplus, UpAfterDown, Last, NotifyFrom, LogOk, FakeBusy, RestartOrWait;
    if s.modem != Busy {
      FakeBusyKeeps(s, bad);
    }
    var r1 := if s.modem == Busy then Ok(s) else FakeBusy(s, bad);
    if r1.Ok? {
      ColdPhase(r1.ctx, bad);
      var r2 := NotifyAll(r1.ctx, ColdReset, bad);
      if r2.Ok? {
        RestartOrWaitKeeps(r2.ctx);
        hide Core, BookOk, Calm;
        OpTrans(s, r2.ctx, RestartOrWait(r2.ctx));
      }
    }
  }

  // ---------------------------------------------------------------- events

  /** When an event may be delivered outside a modem-state change. */
  predicate MayDeliver(s: Ctx, t: Trigger) {
    && (t == CliAcked ==> !Waiting(s.book) && (s.fsm == AckCold || s.fsm == AckShut))
    && (t == CliAcquire ==> s.fsm != StUp && s.modem != Unresp)
    && t != MdmOff && t != MdmUnresp && t != MdmBusy && t != MdmReady
    && (t == Success || t == Failure ==> !s.inProgress)
  }

  /** A modem-state event right after the change of state it reports. */
  predicate JustChanged(s: Ctx, t: Trigger) {
    && (s.modem == Off || s.modem == Unresp || s.modem == Busy || s.modem == Ready)
    && t == TriggerOf(s.modem)
    && (s.fsm == StUp ==> s.modem != Ready)
    && (s.modem == Unresp ==> s.reject && !s.fake)
    && (s.inProgress ==> s.fsm == Starting || s.fsm == Stopping)
  }

  predicate Delivered(s: Ctx, t: Trigger, r: Handled) {
    && (r.Abort? ==> Admitted(s, r.why))
    && (r.Ok? ==>
          && Core(r.ctx) && Carried(s, r.ctx)
          && (r.ctx.fsm == StUp ==> s.fsm == StUp || r.ctx.book.numAcquired > 0)
          && (t == CliRelease || t == CliAcked || t == CliRestart ==> r.ctx.fsm != StUp)
          && ((s.fsm == AckCold || s.fsm == AckShut) && t != CliAcked ==> r.ctx.fsm == s.fsm))
  }

  lemma {:induction false} CheckUpKeeps(s: Ctx, bad: Links)
    requires Base(s) && (s.modem != Ready ==> Core(s) && s.fsm != Initial) && (s.inProgress ==> Core(s) && s.fsm != Initial)
    requires s.modem == Ready ==> !Waiting(s.book)
    ensures OpOk(s, CheckUp(s, bad))
  {
    hide Agrees, MarkedIdle, Surplus, UpAfterDown, Last, StartShutdown, StartRestart;
    if Calm(s) {
      ShutdownKeeps(s, bad);
      RestartKeeps(s, bad);
    }
  }

  lemma {:induction false} CheckDownKeeps(s: Ctx)
    requires Base(s) && !Waiting(s.book)
    requires s.inProgress || s.modem != Off ==> Core(s) && s.fsm != Initial
    ensures OpOk(s, CheckDown(s))
  {
    hide Agrees, MarkedIdle, Surplus, UpAfterDown, Last, AskThen;
    if Calm(s) {
      AskKeeps(s, Start, Starting);
    }
  }

  lemma {:induction false} ColdAckedKeeps(s: Ctx, bad: Links)
    requires Core(s) && MayDeliver(s, CliAcked) && s.fsm == AckCold
    ensures OpOk(s, ColdAcked(s, bad))
    ensures ColdAcked(s, bad).Ok? ==> ColdAcked(s, bad).ctx.1.Goto? && ColdAcked(s, bad).ctx.1.state != StUp
  {
    hide Agrees, MarkedIdle, Surplus, UpAfterDown, Last, StartShutdown, RestartThen;
    if s.modem != Unresp {
      assert Calm(s);
      ShutdownKeeps(s, bad);
      RestartThenKeeps(s, s.restart, s.dbg);
      RestartThenKeeps(s, ModemRestart, false);
    }
  }

  lemma {:induction false} ShutAckedKeeps(s: Ctx, bad: Links)
    requires Core(s) && MayDeliver(s, CliAcked) && s.fsm == AckShut
    ensures OpOk(s, ShutAcked(s, bad))
    ensures ShutAcked(s, bad).Ok? ==> ShutAcked(s, bad).ctx.1.Goto? && ShutAcked(s, bad).ctx.1.state != StUp
  {
    hide Core, OpOk, Carried, BookOk, MarkedIdle, Surplus, StartRestart, RestartThen, AskThen;
    CalmAcked(s);
    AskKeeps(s, Stop, Stopping);
    RestartKeeps(s, bad);
    if s.book.numAcquired != 0 && s.restart == NoRestart && s.reported != Ready {
      if s.reported == Busy {
        var s1 := s.(fake := false, modem := Busy);
        RestartThenKeeps(s1, ModemRestart, false);
        OpTrans(s, s1, RestartThen(s1, ModemRestart, false));
      } else {
        NotBusyStops(s);
      }
    }
  }

  lemma {:induction false} CalmAcked(s: Ctx)
    requires Core(s) && MayDeliver(s, CliAcked) && s.fsm == AckShut
    ensures Calm(s) && Calm(s.(fake := false, modem := Busy)) && Carried(s, s.(fake := false, modem := Busy))
  {
    hide Agrees, MarkedIdle, Surplus, UpAfterDown, Last;
  }

  lemma {:induction false} NotBusyStops(s: Ctx)
    ensures OpOk(s, Abort(RealNotBusy))
  {
  }

  /** A cell with no forced state ends where its operation says. */
  lemma {:induction false} Settled(s: Ctx, t: Trigger, bad: Links)
    requires Table(t, s.fsm).forced.None?
    requires OpOk(s, Operate(s, Table(t, s.fsm).op, t, bad))
    ensures var r := Notify(s, t, bad);
            && (r.Abort? ==> Admitted(s, r.why))
            && (r.Ok? ==>
                  && Core(r.ctx) && Carried(s, r.ctx)
                  && (r.ctx.fsm == StUp ==> s.fsm == StUp || r.ctx.book.numAcquired > 0)
                  && var ret := Operate(s, Table(t, s.fsm).op, t, bad).ctx.1;
                     r.ctx.fsm == if ret.Goto? then ret.state else s.fsm)
  {
    hide Operate, Core, Kept, Admitted, Table;
  }

  lemma {:induction false} ClientOp(s: Ctx, t: Trigger, bad: Links)
    requires Core(s) && MayDeliver(s, t) && Table(t, s.fsm).forced.None?
    ensures OpOk(s, Operate(s, Table(t, s.fsm).op, t, bad))
    ensures var r := Operate(s, Table(t, s.fsm).op, t, bad);
            r.Ok? && (t == CliAcked || ((t == CliRelease || t == CliRestart) && s.fsm == StUp)) ==>
              r.ctx.1.Goto? && r.ctx.1.state != StUp
  {
    hide Agrees, MarkedIdle, Surplus, LogOk,
         CheckUp, CheckDown, ColdAcked, ShutAcked, StartShutdown, StartRestart, AskThen;
    match Table(t, s.fsm).op
    case CheckPendingUp => CheckUpKeeps(s, bad);
    case CheckPendingDown => CheckDownKeeps(s);
    case ClientAcquire => AskKeeps(s, Start, Starting);
    case ClientRelease => ShutdownKeeps(s, bad);
    case ClientRestart => RestartKeeps(s, bad);
    case AckedCold => ColdAckedKeeps(s, bad);
    case AckedShut => ShutAckedKeeps(s, bad);
    case _ =>
  }

  lemma {:induction false} ClientEventKeeps(s: Ctx, t: Trigger, bad: Links)
    requires Core(s) && MayDeliver(s, t)
    ensures Delivered(s, t, Notify(s, t, bad))
  {
    hide Agrees, MarkedIdle, Surplus, UpAfterDown, Last;
    if Table(t, s.fsm).forced.None? {
      hide Base, Carried, Admitted, Notify, CheckUp, CheckDown, ColdAcked, ShutAcked, StartShutdown, StartRestart, AskThen;
      ClientOp(s, t, bad);
      Settled(s, t, bad);
    }
  }

  lemma {:induction false} ModemOp(s: Ctx, t: Trigger, bad: Links)
    requires Base(s) && JustChanged(s, t) && Table(t, s.fsm).forced.None?
    ensures OpOk(s, Operate(s, Table(t, s.fsm).op, t, bad))
  {
    hide Agrees, MarkedIdle, Surplus, UpAfterDown, Last, CheckUp, CheckDown, StartRestart;
    match Table(t, s.fsm).op
    case CheckPendingUp => CheckUpKeeps(s, bad);
    case CheckPendingDown => CheckDownKeeps(s);
    case OnBusy => RestartKeeps(s.(restart := ModemRestart), bad);
    case _ =>
  }

  lemma {:induction false} ModemEventKeeps(s: Ctx, t: Trigger, bad: Links)
    requires Base(s) && JustChanged(s, t)
    ensures Delivered(s, t, Notify(s, t, bad))
  {
    hide Agrees, MarkedIdle, Surplus, UpAfterDown, Last;
    if Table(t, s.fsm).forced.None? {
      hide Base, Carried, Admitted, Notify, CheckUp, CheckDown, StartRestart;
      ModemOp(s, t, bad);
      Settled(s, t, bad);
    }
  }
}
