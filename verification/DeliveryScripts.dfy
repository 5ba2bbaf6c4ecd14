/**
 A run of client abstraction in which a live client is passed over: the mark of a client that left
 outlives the compaction, and now names its neighbour.
 */
module DeliveryScripts {
  import opened Common
  import opened Fsm
  import opened Cla
  import opened ClaRuns
  import opened ClaScripts

  const HOLDER: Client := Client(5, true, {}, true, false, false, [])
  const GUEST: Client := Client(6, true, COLD, false, false, false, [])

  /** The modem is up for the first client; the second one only listens. */
  function BothCtx(): Ctx {
    var s := UpCtx({});
    s.(book := Book([HOLDER, GUEST], {}, 1, 0, 0))
  }

  lemma {:induction false} GuestJoins(script: Script) returns (script': Script)
    requires Reaches(Boot(false, true), script, Loop(UpCtx({}), Scan))
    ensures Reaches(Boot(false, true), script', Loop(BothCtx(), Scan))
  {
    hide HandleControlMsg, HandleClientMsg, HandleTimeout, Unregister, Unmarked, Reaches, Notify;
    var l0, s := Boot(false, true), UpCtx({});
    var c := Client(6, false, {}, false, false, false, []);
    assert s.book.clients == [HOLDER];
    script' := Begin(l0, script, s, false);
    Snoc(l0, script', Loop(s, Begun(s, Other)), Accept(6), Never());
    script' := script' + [(Accept(6), Never())];
    var s1 := s.(book := Book([HOLDER, c], {}, 1, 0, 0));
    assert [HOLDER] + [c] == [HOLDER, c];
    Snoc(l0, script', Loop(s1, Begun(s, Source.Served)), EndTurn, Never());
    script' := script' + [(EndTurn, Never())];
    script' := Begin(l0, script', s1, false);
    GuestRegisters(s1, c);
    Snoc(l0, script', Loop(s1, Begun(s1, Other)), FromClient(1, Register(false, COLD)), Never());
    script' := script' + [(FromClient(1, Register(false, COLD)), Never())];
    Snoc(l0, script', Loop(BothCtx(), Begun(s1, Source.Served)), EndTurn, Never());
    script' := script' + [(EndTurn, Never())];
  }

  lemma {:induction false} GuestRegisters(s: Ctx, c: Client)
    requires c == Client(6, false, {}, false, false, false, []) && s == UpCtx({}).(book := Book([HOLDER, c], {}, 1, 0, 0))
    ensures HandleClientMsg(s, 1, Register(false, COLD), Never()) == Ok(BothCtx())
  {
    assert [HOLDER, c][1 := GUEST] == [HOLDER, GUEST];
  }

  /** A broadcast to the second of two clients. */
  lemma {:induction false} ToSecond(s: Ctx, e: Event, bad: Links)
    requires |s.book.clients| == 2 && s.book.toClean == {} && e !in s.book.clients[0].events
    ensures var r := NotifySingle(s.book, 1, e, bad(e, 1));
            NotifyAll(s, e, bad) == if r.Ok? then Ok(s.(book := r.ctx, broadcasts := s.broadcasts + [e])) else Abort(r.why)
  {
    var r := NotifySingle(s.book, 1, e, bad(e, 1));
    assert NotifyFrom(s.book, e, bad, 0) == NotifyFrom(s.book, e, bad, 1);
    if r.Ok? {
      assert NotifyFrom(r.ctx, e, bad, 2) == Ok(r.ctx);
    }
  }

  /** The modem turns busy: the guest is told of the cold reset, and awaited. */
  function AwaitedGuest(): Client {
    GUEST.(waitCold := true, told := [ColdReset])
  }

  function BusyBoth(): Ctx {
    BothCtx().(fsm := AckCold, modem := Busy, reported := Busy, restart := ModemRestart,
               book := Book([HOLDER, AwaitedGuest()], {}, 1, 1, 0), broadcasts := [Up, Down, ColdReset])
  }

  lemma {:induction false} GuestAwaited(s: Ctx)
    requires s.book == BothCtx().book && s.broadcasts == [Up, Down]
    ensures NotifyAll(s, ColdReset, Never()) == Ok(s.(book := BusyBoth().book, broadcasts := [Up, Down, ColdReset]))
  {
    hide NotifyAll;
    ToSecond(s, ColdReset, Never());
    var c := GUEST.(waitCold := true);
    assert [HOLDER, GUEST][1 := c] == [HOLDER, c] && [HOLDER, c][1 := AwaitedGuest()] == [HOLDER, AwaitedGuest()];
    assert [] + [ColdReset] == [ColdReset] && [Up, Down] + [ColdReset] == [Up, Down, ColdReset];
  }

  lemma {:induction false} BusyHeard()
    ensures HandleControlMsg(BothCtx(), ModemState(Busy), Never()) == Ok(BusyBoth())
  {
    hide NotifyAll;
    var s := Record(BothCtx(), Busy, false).(fake := false);
    ToSecond(s, Down, Never());
    assert [Up] + [Down] == [Up, Down];
    var s1 := s.(modem := Busy, restart := ModemRestart, broadcasts := [Up, Down]);
    GuestAwaited(s1);
  }

  /** The holder leaves; its mark stays when it is gone. */
  function LeftCtx(): Ctx {
    BusyBoth().(book := Book([HOLDER.(acquired := false), AwaitedGuest()], {0}, 0, 1, 0))
  }

  function StaleCtx(): Ctx {
    LeftCtx().(book := Book([AwaitedGuest()], {0}, 0, 1, 0))
  }

  lemma {:induction false} HolderLeaves(script: Script) returns (script': Script)
    requires Reaches(Boot(false, true), script, Loop(BusyBoth(), Scan))
    ensures Reaches(Boot(false, true), script', Loop(StaleCtx(), Polling(3, true, false)))
  {
    hide HandleControlMsg, HandleClientMsg, HandleTimeout, FinishTurn, Unmarked, Reaches, Unregister;
    var l0, s := Boot(false, true), BusyBoth();
    script' := Begin(l0, script, s, false);
    HolderGone();
    Snoc(l0, script', Loop(s, Begun(s, Other)), Lost(0), Never());
    script' := script' + [(Lost(0), Never())];
    ReleaseIgnored();
    Snoc(l0, script', Loop(LeftCtx(), Begun(s, Source.Served)), EndTurn, Never());
    script' := script' + [(EndTurn, Never())];
    GuestAlone();
    Snoc(l0, script', Loop(LeftCtx(), Scan), EndScan, Never());
    script' := script' + [(EndScan, Never())];
    Snoc(l0, script', Loop(StaleCtx(), Top), EnterPoll(3, 9), Never());
    script' := script' + [(EnterPoll(3, 9), Never())];
  }

  lemma {:induction false} HolderGone()
    ensures Unregister(BusyBoth().book, 0) == Ok(LeftCtx().book)
  {
    assert [HOLDER, AwaitedGuest()][0 := HOLDER.(acquired := false)] == [HOLDER.(acquired := false), AwaitedGuest()];
    assert {} + {0} == {0};
  }

  lemma {:induction false} ReleaseIgnored()
    ensures FinishTurn(LeftCtx(), Begun(BusyBoth(), Source.Served), Never()) == Ok(LeftCtx())
  {
  }

  lemma {:induction false} GuestAlone()
    ensures Compact(LeftCtx()) == StaleCtx()
  {
    var cs := LeftCtx().book.clients;
    assert Unmarked(cs, {0}, 2) == [] && Unmarked(cs, {0}, 1) == [cs[1]] && Unmarked(cs, {0}, 0) == [cs[1]];
  }

  /** Its time is over: the clients are told of a shutdown, but not the guest, and the modem is
      stopped without its acknowledgement. */
  function SkippedCtx(): Ctx {
    StaleCtx().(fsm := Stopping, modem := Off, fake := true, inProgress := true, requests := [Stop],
                book := Book([GUEST.(told := [ColdReset])], {0}, 0, 0, 0), broadcasts := [Up, Down, ColdReset, Shutdown, Down])
  }

  lemma {:induction false} ToNobodyLeft(s: Ctx, e: Event, bad: Links)
    requires |s.book.clients| == 1 && s.book.toClean == {0}
    ensures NotifyAll(s, e, bad) == Ok(s.(broadcasts := s.broadcasts + [e]))
  {
    assert NotifyFrom(s.book, e, bad, 1) == Ok(s.book);
  }

  lemma {:induction false} GuestSkipped()
    ensures HandleTimeout(StaleCtx(), Polling(3, true, false), 5, Never()) == Ok(SkippedCtx())
  {
    hide NotifyAll;
    var c := GUEST.(told := [ColdReset]);
    assert ClearAcks(StaleCtx().book).clients == [c];
    var s := StaleCtx().(book := Book([c], {0}, 0, 0, 0));
    ToNobodyLeft(s, Shutdown, Never());
    assert [Up, Down, ColdReset] + [Shutdown] == [Up, Down, ColdReset, Shutdown];
    var s1 := s.(broadcasts := [Up, Down, ColdReset, Shutdown]);
    ToNobodyLeft(s1, Down, Never());
    assert [Up, Down, ColdReset, Shutdown] + [Down] == [Up, Down, ColdReset, Shutdown, Down];
    assert [] + [Stop] == [Stop];
    assert StartShutdown(s, Never()) == Ok((SkippedCtx().(fsm := AckCold), Goto(Stopping)));
    assert Notify(s, CliAcked, Never()) == Ok(SkippedCtx());
  }

  /** The run: every send succeeds, yet a registered client that listens to SHUTDOWN is not told of
      one, and the modem is stopped without its acknowledgement. */
  lemma {:induction false} LiveClientSkipped() returns (script: Script, l: Loop)
    ensures Reaches(Boot(false, true), script, l) && l.phase == Scan
    ensures l.ctx.book.clients == [GUEST.(told := [ColdReset])] && l.ctx.book.toClean == {} && Shutdown in GUEST.events
    ensures l.ctx.broadcasts == [Up, Down, ColdReset, Shutdown, Down] && l.ctx.requests == [Stop]
  {
    hide HandleControlMsg, HandleClientMsg, HandleTimeout, FinishTurn, Unmarked, Reaches;
    var l0 := Boot(false, true);
    script := GoesUp({});
    script := GuestJoins(script);
    BusyHeard();
    TurnOver();
    script := ControlTurn(l0, script, BothCtx(), ModemState(Busy), BusyBoth(), BusyBoth());
    script := HolderLeaves(script);
    GuestSkipped();
    Snoc(l0, script, Loop(StaleCtx(), Polling(3, true, false)), PollTimesOut(5), Never());
    script := script + [(PollTimesOut(5), Never())];
    Snoc(l0, script, Loop(SkippedCtx(), Top), EnterPoll(0, 9), Never());
    script := script + [(EnterPoll(0, 9), Never())];
    Snoc(l0, script, Loop(SkippedCtx(), Polling(9, false, true)), PollReturns, Never());
    script := script + [(PollReturns, Never())];
    l := Loop(SkippedCtx().(book := SkippedCtx().book.(toClean := {})), Scan);
  }

  lemma {:induction false} TurnOver()
    ensures FinishTurn(BusyBoth(), Begun(BothCtx(), Ipc), Never()) == Ok(BusyBoth())
  {
  }
}
