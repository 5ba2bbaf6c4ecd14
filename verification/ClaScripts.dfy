/**
 Runs of client abstraction written out: each of the assertions that its own requests can lead to
 is met by a run from its start.
 */
module ClaScripts {
  import opened Common
  import opened Fsm
  import opened Cla
  import opened ClaRuns

  /** Every send succeeds. */
  function Never(): Links {
    (e, i) => false
  }

  lemma {:induction false} Snoc(l0: Loop, script: Script, l: Loop, i: Input, bad: Links)
    requires Reaches(l0, script, l) && Enabled(l, i) && Step(l, i, bad).Ok?
    ensures Reaches(l0, script + [(i, bad)], Step(l, i, bad).ctx)
    decreases |script|
  {
    hide Step, Enabled;
    if script == [] {
      assert ([] + [(i, bad)])[1..] == [];
    } else {
      assert (script + [(i, bad)])[1..] == script[1..] + [(i, bad)];
      Snoc(Step(l0, script[0].0, script[0].1).ctx, script[1..], l, i, bad);
    }
  }

  lemma {:induction false} NoStep(l: Loop)
    ensures Reaches(l, [], l)
  {
  }

  /** Nothing in the script comes from control. */
  ghost predicate NoControl(script: Script) {
    forall j :: 0 <= j < |script| ==> !script[j].0.Control?
  }

  /** The turn of one descriptor begins. */
  function Begun(s: Ctx, source: Source): Phase {
    Iter(s.book.numAcquired != 0, Waiting(s.book), source)
  }

  lemma {:induction false} Begin(l0: Loop, script: Script, s: Ctx, ipc: bool) returns (script': Script)
    requires Reaches(l0, script, Loop(s, Scan))
    ensures Reaches(l0, script', Loop(s, Begun(s, if ipc then Ipc else Other)))
    ensures NoControl(script) ==> NoControl(script')
  {
    Snoc(l0, script, Loop(s, Scan), Turn(ipc), Never());
    script' := script + [(Turn(ipc), Never())];
  }

  /** One whole turn about client 0. */
  lemma {:induction false} ClientTurn(l0: Loop, script: Script, s: Ctx, m: ClientMsg, s1: Ctx, s2: Ctx) returns (script': Script)
    requires Reaches(l0, script, Loop(s, Scan)) && s.book.clients != []
    requires HandleClientMsg(s, 0, m, Never()) == Ok(s1) && FinishTurn(s1, Begun(s, Source.Served), Never()) == Ok(s2)
    ensures Reaches(l0, script', Loop(s2, Scan))
    ensures NoControl(script) ==> NoControl(script')
  {
    hide HandleClientMsg, FinishTurn;
    script' := Begin(l0, script, s, false);
    var l1 := Loop(s, Begun(s, Other));
    Snoc(l0, script', l1, FromClient(0, m), Never());
    script' := script' + [(FromClient(0, m), Never())];
    var l2 := Loop(s1, Begun(s, Source.Served));
    Snoc(l0, script', l2, EndTurn, Never());
    script' := script' + [(EndTurn, Never())];
  }

  /** One whole turn about one message of control. */
  lemma {:induction false} ControlTurn(l0: Loop, script: Script, s: Ctx, m: ControlMsg, s1: Ctx, s2: Ctx) returns (script': Script)
    requires Reaches(l0, script, Loop(s, Scan)) && FromControl(m)
    requires HandleControlMsg(s, m, Never()) == Ok(s1) && FinishTurn(s1, Begun(s, Ipc), Never()) == Ok(s2)
    ensures Reaches(l0, script', Loop(s2, Scan))
  {
    hide HandleControlMsg, FinishTurn;
    script' := Begin(l0, script, s, true);
    var l1 := Loop(s, Begun(s, Ipc));
    Snoc(l0, script', l1, Control(m), Never());
    script' := script' + [(Control(m), Never())];
    var l2 := Loop(s1, Begun(s, Ipc));
    Snoc(l0, script', l2, EndTurn, Never());
    script' := script' + [(EndTurn, Never())];
  }

  // ---------------------------------------------------------------- a registered client

  function Guest(events: set<Event>): Client {
    Client(5, true, events, false, false, false, [])
  }

  /** One client, registered for `events`, and a modem nobody has heard of. */
  function Joined(fmmo: bool, events: set<Event>): Ctx {
    var s := Cla.Boot(false, fmmo).ctx;
    s.(book := s.book.(clients := [Guest(events)]))
  }

  lemma {:induction false} Connected(fmmo: bool) returns (script: Script)
    ensures Reaches(Cla.Boot(false, fmmo), script, Loop(ConnectedCtx(fmmo), Scan)) && NoControl(script)
  {
    var l0 := Cla.Boot(false, fmmo);
    var s := l0.ctx;
    script := [];
    Snoc(l0, script, l0, EnterPoll(0, 9), Never());
    script := script + [(EnterPoll(0, 9), Never())];
    Snoc(l0, script, Loop(s, Polling(9, false, true)), PollReturns, Never());
    script := script + [(PollReturns, Never())];
    script := Begin(l0, script, s, false);
    Snoc(l0, script, Loop(s, Begun(s, Other)), Accept(5), Never());
    script := script + [(Accept(5), Never())];
    var s1 := ConnectedCtx(fmmo);
    assert [] + [Client(5, false, {}, false, false, false, [])] == [Client(5, false, {}, false, false, false, [])];
    Snoc(l0, script, Loop(s1, Begun(s, Source.Served)), EndTurn, Never());
    script := script + [(EndTurn, Never())];
  }

  function ConnectedCtx(fmmo: bool): Ctx {
    var s := Cla.Boot(false, fmmo).ctx;
    s.(book := s.book.(clients := [Client(5, false, {}, false, false, false, [])]))
  }

  lemma {:induction false} NextScan(l0: Loop, script: Script, s: Ctx) returns (script': Script)
    requires Reaches(l0, script, Loop(s, Scan)) && s.book.toClean == {} && s.bootArmed && !Waiting(s.book)
    ensures Reaches(l0, script', Loop(s, Scan))
    ensures NoControl(script) ==> NoControl(script')
  {
    hide HandleControlMsg, HandleClientMsg, HandleTimeout, FinishTurn, Unregister, Reaches;
    Snoc(l0, script, Loop(s, Scan), EndScan, Never());
    script' := script + [(EndScan, Never())];
    NothingRemoved(s.book.clients, 0);
    assert s.book.clients[0..] == s.book.clients;
    Snoc(l0, script', Loop(s, Top), EnterPoll(0, 9), Never());
    script' := script' + [(EnterPoll(0, 9), Never())];
    Snoc(l0, script', Loop(s, Polling(9, false, true)), PollReturns, Never());
    script' := script' + [(PollReturns, Never())];
  }

  lemma {:induction false} NothingRemoved(xs: seq<Client>, i: nat)
    requires i <= |xs|
    ensures Unmarked(xs, {}, i) == xs[i..]
    decreases |xs| - i
  {
    if i < |xs| {
      NothingRemoved(xs, i + 1);
      assert xs[i..] == [xs[i]] + xs[i + 1..];
    }
  }

  lemma {:induction false} Registered(fmmo: bool, events: set<Event>) returns (script: Script)
    ensures Reaches(Cla.Boot(false, fmmo), script, Loop(Joined(fmmo, events), Scan)) && NoControl(script)
  {
    script := Connected(fmmo);
    script := NextScan(Cla.Boot(false, fmmo), script, ConnectedCtx(fmmo));
    var s, s1 := ConnectedCtx(fmmo), Joined(fmmo, events);
    assert s.book.clients[0 := Guest(events)] == [Guest(events)];
    assert HandleClientMsg(s, 0, Register(false, events), Never()) == Ok(s1);
    script := ClientTurn(Cla.Boot(false, fmmo), script, s, Register(false, events), s1, s1);
  }

  // ---------------------------------------------------------------- broadcasts to one client

  /** A broadcast to the only client. */
  lemma {:induction false} ToOne(s: Ctx, e: Event, bad: Links)
    requires |s.book.clients| == 1 && s.book.toClean == {}
    ensures var r := NotifySingle(s.book, 0, e, bad(e, 0));
            NotifyAll(s, e, bad) == if r.Ok? then Ok(s.(book := r.ctx, broadcasts := s.broadcasts + [e])) else Abort(r.why)
  {
    hide NotifySingle;
    var r := NotifySingle(s.book, 0, e, bad(e, 0));
    if r.Ok? {
      assert NotifyFrom(r.ctx, e, bad, 1) == Ok(r.ctx);
    }
  }

  lemma {:induction false} ToNobody(s: Ctx, e: Event, bad: Links)
    requires |s.book.clients| == 1 && s.book.toClean == {} && e !in s.book.clients[0].events
    ensures NotifyAll(s, e, bad) == Ok(s.(broadcasts := s.broadcasts + [e]))
  {
    ToOne(s, e, bad);
  }

  /** The only client, with the modem up for itself alone. */
  function ReadyCtx(events: set<Event>): Ctx {
    Joined(false, events).(fsm := StUp, modem := Ready, reported := Ready, broadcasts := [Up])
  }

  lemma {:induction false} HearsReady(events: set<Event>)
    requires Up !in events
    ensures HandleControlMsg(Joined(false, events), ModemState(Ready), Never()) == Ok(ReadyCtx(events))
  {
    hide NotifyAll;
    ToNobody(Record(Joined(false, events), Ready, false).(fake := false), Up, Never());
    assert [] + [Up] == [Up];
  }

  // ---------------------------------------------------------------- NVM_BACKUP while off

  function OffCtx(): Ctx {
    Joined(true, {}).(fsm := StOff, modem := Off, reported := Off, broadcasts := [Down])
  }

  lemma {:induction false} OffHeard()
    ensures HandleControlMsg(Joined(true, {}), ModemState(Off), Never()) == Ok(OffCtx())
  {
    hide NotifyAll;
    ToNobody(Record(Joined(true, {}), Off, false).(fake := false), Down, Never());
    assert [] + [Down] == [Down];
  }

  lemma {:induction false} TurnsOff() returns (script: Script)
    ensures Reaches(Cla.Boot(false, true), script, Loop(OffCtx(), Scan))
  {
    script := Registered(true, {});
    var s := Joined(true, {});
    OffHeard();
    script := ControlTurn(Cla.Boot(false, true), script, s, ModemState(Off), OffCtx(), OffCtx());
  }

  /** A backup asked while the modem is off stops the process. */
  lemma {:induction false} BackupWhileOff() returns (script: Script, l: Loop)
    ensures Reaches(Cla.Boot(false, true), script, l) && Enabled(l, FromClient(0, AskBackup))
    ensures Step(l, FromClient(0, AskBackup), Never()) == Abort(AtCell(CliRestart, StOff))
  {
    script := TurnsOff();
    script := Begin(Cla.Boot(false, true), script, OffCtx(), false);
    l := Loop(OffCtx(), Begun(OffCtx(), Other));
  }

  // ---------------------------------------------------------------- a holder lost after SHUTDOWN

  function Holding(s: Ctx): Ctx
    requires s.book.clients != []
  {
    s.(book := s.book.(clients := s.book.clients[0 := s.book.clients[0].(acquired := true)], numAcquired := s.book.numAcquired + 1))
  }

  lemma {:induction false} Acquires(s: Ctx)
    requires |s.book.clients| == 1 && s.book.toClean == {} && s.book.clients[0].registered && !s.book.clients[0].acquired && !s.reject
    ensures HandleClientMsg(s, 0, Acquire, Never()) == Ok(Holding(s))
  {
  }

  function ShutCtx(): Ctx {
    var s := Holding(Joined(true, {}));
    s.(reject := true, book := s.book.(numAcquired := 0), shutdownSeen := true)
  }

  lemma {:induction false} AsksShutdown() returns (script: Script)
    ensures Reaches(Cla.Boot(false, true), script, Loop(ShutCtx(), Scan))
  {
    script := Registered(true, {});
    var s := Joined(true, {});
    Acquires(s);
    script := ClientTurn(Cla.Boot(false, true), script, s, Acquire, Holding(s), Holding(s));
    script := ClientTurn(Cla.Boot(false, true), script, Holding(s), AskShutdown, ShutCtx(), ShutCtx());
  }

  /** A client that holds the modem, asks for a shutdown and leaves stops the process. */
  lemma {:induction false} HolderLostAfterShutdown() returns (script: Script, l: Loop)
    ensures Reaches(Cla.Boot(false, true), script, l) && Enabled(l, Lost(0))
    ensures Step(l, Lost(0), Never()) == Abort(NegativeAcquired)
  {
    script := AsksShutdown();
    script := Begin(Cla.Boot(false, true), script, ShutCtx(), false);
    l := Loop(ShutCtx(), Begun(ShutCtx(), Other));
  }

  // ---------------------------------------------------------------- a restart during a shutdown

  /** The modem is up for the only client, which wants to acknowledge shutdowns. */
  function UpCtx(events: set<Event>): Ctx {
    Holding(Joined(true, events)).(fsm := StUp, modem := Ready, reported := Ready, broadcasts := [Up])
  }

  lemma {:induction false} UpHeard(events: set<Event>)
    requires Up !in events
    ensures HandleControlMsg(Holding(Joined(true, events)), ModemState(Ready), Never()) == Ok(UpCtx(events))
  {
    hide NotifyAll;
    ToNobody(Record(Holding(Joined(true, events)), Ready, false).(fake := false), Up, Never());
    assert [] + [Up] == [Up];
  }

  lemma {:induction false} GoesUp(events: set<Event>) returns (script: Script)
    requires Up !in events
    ensures Reaches(Cla.Boot(false, true), script, Loop(UpCtx(events), Scan))
  {
    script := Registered(true, events);
    var s := Joined(true, events);
    Acquires(s);
    script := ClientTurn(Cla.Boot(false, true), script, s, Acquire, Holding(s), Holding(s));
    var h := Holding(s);
    UpHeard(events);
    script := ControlTurn(Cla.Boot(false, true), script, h, ModemState(Ready), UpCtx(events), UpCtx(events));
  }

  /** The only client, told of a shutdown. */
  function Warned(events: set<Event>): Client {
    Guest(events).(told := [Shutdown])
  }

  function ReleasedBook(events: set<Event>): Book {
    Book([Guest(events)], {}, 0, 0, 0)
  }

  /** Released, told of the shutdown, and awaited. */
  function AwaitedCtx(events: set<Event>): Ctx {
    UpCtx(events).(fsm := AckShut, modem := Off, fake := true,
                   book := Book([Warned(events).(waitShut := true)], {}, 0, 0, 1), broadcasts := [Up, Shutdown, Down])
  }

  lemma {:induction false} Releases(events: set<Event>)
    ensures HandleClientMsg(UpCtx(events), 0, Release, Never()) == Ok(UpCtx(events).(book := ReleasedBook(events)))
  {
    hide NotifyAll, Notify;
    assert UpCtx(events).book.clients == [Guest(events).(acquired := true)];
    assert [Guest(events).(acquired := true)][0 := Guest(events)] == [Guest(events)];
  }

  lemma {:induction false} ShutsDown(events: set<Event>)
    requires Shutdown in events && Down !in events
    ensures StartShutdown(UpCtx(events).(book := ReleasedBook(events)), Never()) == Ok((AwaitedCtx(events).(fsm := StUp), Goto(AckShut)))
  {
    hide NotifyAll;
    var s := UpCtx(events).(book := ReleasedBook(events));
    ToOne(s, Shutdown, Never());
    var s1 := s.(book := Book([Warned(events).(waitShut := true)], {}, 0, 0, 1), broadcasts := [Up, Shutdown]);
    var c := Guest(events).(waitShut := true);
    assert [] + [Shutdown] == [Shutdown];
    assert [Guest(events)][0 := c] == [c] && [c][0 := Warned(events).(waitShut := true)] == [Warned(events).(waitShut := true)];
    assert [Up] + [Shutdown] == [Up, Shutdown];
    assert NotifyAll(s, Shutdown, Never()) == Ok(s1);
    ToNobody(s1, Down, Never());
    assert [Up, Shutdown] + [Down] == [Up, Shutdown, Down];
  }

  lemma {:induction false} IsAwaited(events: set<Event>) returns (script: Script)
    requires Up !in events && Shutdown in events && Down !in events
    ensures Reaches(Cla.Boot(false, true), script, Loop(AwaitedCtx(events), Scan))
  {
    hide NotifyAll, StartShutdown, HandleClientMsg;
    script := GoesUp(events);
    Releases(events);
    ShutsDown(events);
    var s := UpCtx(events);
    script := ClientTurn(Cla.Boot(false, true), script, s, Release, s.(book := ReleasedBook(events)), AwaitedCtx(events));
  }

  /** Acquired again, and a restart asked, before the acknowledgement. */
  function RestartCtx(): Ctx {
    Holding(AwaitedCtx({Shutdown})).(restart := ModemRestart)
  }

  lemma {:induction false} RestartNoted()
    ensures HandleClientMsg(Holding(AwaitedCtx({Shutdown})), 0, AskRestart(MdmErr, false), Never()) == Ok(RestartCtx())
  {
    hide NotifyAll, StartRestart;
  }

  lemma {:induction false} AsksRestart() returns (script: Script)
    ensures Reaches(Cla.Boot(false, true), script, Loop(RestartCtx(), Scan))
  {
    hide NotifyAll, StartRestart, HandleClientMsg;
    script := IsAwaited({Shutdown});
    var s := AwaitedCtx({Shutdown});
    Acquires(s);
    script := ClientTurn(Cla.Boot(false, true), script, s, Acquire, Holding(s), Holding(s));
    RestartNoted();
    script := ClientTurn(Cla.Boot(false, true), script, Holding(s), AskRestart(MdmErr, false), RestartCtx(), RestartCtx());
  }

  function AckedCtx(): Ctx {
    RestartCtx().(book := Book([Warned({Shutdown}).(acquired := true)], {}, 1, 0, 0))
  }

  lemma {:induction false} AckNoted()
    ensures HandleClientMsg(RestartCtx(), 0, AckShutdown, Never()) == Ok(AckedCtx())
  {
    hide NotifyAll, Notify;
    var c := Warned({Shutdown}).(acquired := true);
    assert RestartCtx().book.clients == [c.(waitShut := true)];
    assert [c.(waitShut := true)][0 := c] == [c];
  }

  lemma {:induction false} AckStops()
    ensures Notify(AckedCtx(), CliAcked, Never()) == Abort(FakeState)
  {
    hide NotifyAll;
    ToNobody(AckedCtx(), Down, Never());
  }

  /** The acknowledgement then stops the process. */
  lemma {:induction false} RestartMeetsShutdown() returns (script: Script, l: Loop)
    ensures Reaches(Cla.Boot(false, true), script, l) && Enabled(l, EndTurn)
    ensures Step(l, EndTurn, Never()) == Abort(FakeState)
  {
    hide Notify, HandleClientMsg;
    var l0, s := Cla.Boot(false, true), RestartCtx();
    script := AsksRestart();
    script := Begin(l0, script, s, false);
    AckNoted();
    Snoc(l0, script, Loop(s, Begun(s, Other)), FromClient(0, AckShutdown), Never());
    script := script + [(FromClient(0, AckShutdown), Never())];
    l := Loop(AckedCtx(), Begun(s, Source.Served));
    AckStops();
  }

  // ---------------------------------------------------------------- a hold lost in silence

  const COLD: set<Event> := {Shutdown, ColdReset}

  /** OFF is heard during the shutdown, so nothing is faked any more. */
  function OffAwaited(): Ctx {
    AwaitedCtx(COLD).(fake := false, reported := Off)
  }

  /** The only client holds the modem again, has asked for a backup and still owes its
      acknowledgement. */
  function OwingCtx(): Ctx {
    Holding(OffAwaited()).(restart := BackupNvm)
  }

  lemma {:induction false} BackupNoted()
    ensures HandleClientMsg(Holding(OffAwaited()), 0, AskBackup, Never()) == Ok(OwingCtx())
  {
    hide NotifyAll, StartRestart;
  }

  /** Its time is over and the cold reset cannot be sent to it: its hold is given up. */
  function DroppedCtx(): Ctx {
    OwingCtx().(fsm := Starting, modem := Busy, fake := true, inProgress := true, requests := [Restart(BackupNvm)],
                book := Book([Warned(COLD)], {0}, 0, 0, 0), broadcasts := [Up, Shutdown, Down, Down, ColdReset])
  }

  lemma {:induction false} HoldGivenUp(bad: Links)
    requires bad(ColdReset, 0)
    ensures HandleTimeout(OwingCtx(), Polling(0, true, false), 5, bad) == Ok(DroppedCtx())
  {
    hide NotifyAll, Notify;
    var c := Warned(COLD).(acquired := true);
    assert OwingCtx().book.clients == [c.(waitShut := true)];
    var s := OwingCtx().(book := Book([c], {}, 1, 0, 0));
    assert ClearAcks(OwingCtx().book).clients == [c];
    RestartFails(s, c, bad);
  }

  lemma {:induction false} RestartFails(s: Ctx, c: Client, bad: Links)
    requires c == Warned(COLD).(acquired := true) && bad(ColdReset, 0)
    requires s == OwingCtx().(book := Book([c], {}, 1, 0, 0))
    ensures Notify(s, CliAcked, bad) == Ok(DroppedCtx())
  {
    hide NotifyAll;
    ToNobody(s, Down, bad);
    assert [Up, Shutdown, Down] + [Down] == [Up, Shutdown, Down, Down];
    var s1 := s.(modem := Busy, fake := true, broadcasts := [Up, Shutdown, Down, Down]);
    ToOne(s1, ColdReset, bad);
    assert [c][0 := c.(waitCold := true)] == [c.(waitCold := true)];
    assert [c.(waitCold := true)][0 := Warned(COLD)] == [Warned(COLD)];
    assert s1.book.toClean + {0} == {0};
    assert [Up, Shutdown, Down, Down] + [ColdReset] == [Up, Shutdown, Down, Down, ColdReset];
    assert NotifySingle(s1.book, 0, ColdReset, true) == Ok(Book([Warned(COLD)], {0}, 0, 0, 0));
    assert [] + [Restart(BackupNvm)] == [Restart(BackupNvm)];
  }

  // ---------------------------------------------------------------- a start behind a busy modem

  /** The last holder has gone and nobody has to acknowledge: a stop is asked. */
  function StopCtx(): Ctx {
    UpCtx({}).(book := ReleasedBook({}), fsm := Stopping, modem := Off, fake := true, inProgress := true,
               requests := [Stop], broadcasts := [Up, Shutdown, Down])
  }

  lemma {:induction false} StopAsked()
    ensures FinishTurn(UpCtx({}).(book := ReleasedBook({})), Begun(UpCtx({}), Source.Served), Never()) == Ok(StopCtx())
  {
    hide NotifyAll;
    var s := UpCtx({}).(book := ReleasedBook({}));
    ToNobody(s, Shutdown, Never());
    assert [Up] + [Shutdown] == [Up, Shutdown];
    var s1 := s.(broadcasts := [Up, Shutdown]);
    ToNobody(s1, Down, Never());
    assert [Up, Shutdown] + [Down] == [Up, Shutdown, Down];
    assert [] + [Stop] == [Stop];
  }

  /** The stop fails after the modem was reported off and busy again. */
  function OddCtx(): Ctx {
    StopCtx().(fsm := StOff, modem := Busy, reported := Busy, fake := false, inProgress := false)
  }

  lemma {:induction false} StopFails(l0: Loop, script: Script) returns (script': Script)
    requires Reaches(l0, script, Loop(StopCtx(), Scan))
    ensures Reaches(l0, script', Loop(OddCtx(), Scan))
  {
    hide Reaches;
    var s1 := StopCtx().(fake := false, reported := Off);
    script' := ControlTurn(l0, script, StopCtx(), ModemState(Off), s1, s1);
    var s2 := s1.(modem := Busy, reported := Busy);
    BusyHeard(s1);
    script' := ControlTurn(l0, script', s1, ModemState(Busy), s2, s2);
    FailureHeard();
    script' := ControlTurn(l0, script', s2, Result(false), OddCtx(), OddCtx());
  }

  lemma {:induction false} BusyHeard(s: Ctx)
    requires s == StopCtx().(fake := false, reported := Off)
    ensures HandleControlMsg(s, ModemState(Busy), Never()) == Ok(s.(modem := Busy, reported := Busy))
  {
    hide NotifyAll;
  }

  lemma {:induction false} FailureHeard()
    ensures HandleControlMsg(StopCtx().(fake := false, reported := Busy, modem := Busy), Result(false), Never()) == Ok(OddCtx())
  {
    hide NotifyAll;
  }

  /** A start asked for a modem that is shown busy: it takes a stop that fails behind a modem that is
      neither off nor gone, which control never sends. */
  lemma {:induction false} StartsWhileBusy() returns (script: Script, l: Loop)
    ensures Reaches(Cla.Boot(false, true), script, l) && l.phase == Scan
    ensures l.ctx.requests == [Stop, Start] && l.ctx.modem == Busy && l.ctx.fsm == Starting
  {
    hide Reaches, HandleClientMsg, HandleControlMsg;
    var l0 := Cla.Boot(false, true);
    script := GoesUp({});
    Releases({});
    StopAsked();
    script := ClientTurn(l0, script, UpCtx({}), Release, UpCtx({}).(book := ReleasedBook({})), StopCtx());
    script := StopFails(l0, script);
    Acquires(OddCtx());
    var s := Holding(OddCtx()).(fsm := Starting, inProgress := true, requests := [Stop, Start]);
    assert [Stop] + [Start] == [Stop, Start];
    script := ClientTurn(l0, script, OddCtx(), Acquire, Holding(OddCtx()), s);
    l := Loop(s, Scan);
  }
}
