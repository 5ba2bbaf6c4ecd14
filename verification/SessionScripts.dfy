/**
 Runs of the client library and client abstraction that leave the flags of a session apart.
 */
module SessionScripts {
  import opened Common
  import opened Fsm
  import opened Cla
  import opened ClaFrame
  import opened ClaSessions
  import opened ClaScripts
  import SessionServer
  import Session

  lemma {:induction false} SnocMove(y0: Sys, moves: seq<Move>, y: Sys, v: Move)
    requires ClaSessions.Reaches(y0, moves, y) && Session.Open(y.lib) && CanMove(y, v) && Moved(y, v).Ok?
    ensures ClaSessions.Reaches(y0, moves + [v], Moved(y, v).ctx)
    decreases |moves|
  {
    hide Moved, CanMove;
    if moves == [] {
      assert ([] + [v])[1..] == [];
    } else {
      assert (moves + [v])[1..] == moves[1..] + [v];
      SnocMove(Moved(y0, moves[0]).ctx, moves[1..], y, v);
    }
  }

  lemma {:induction false} StartMoves(y: Sys)
    ensures ClaSessions.Reaches(y, [], y)
  {
  }

  /** A step of the server that is no message of the session. */
  lemma {:induction false} Go(y0: Sys, moves: seq<Move>, y: Sys, i: Input, bad: Links, l: Loop)
    returns (moves': seq<Move>, y': Sys)
    requires ClaSessions.Reaches(y0, moves, y) && Session.Open(y.lib)
    requires Enabled(y.loop, i) && Step(y.loop, i, bad) == Ok(l) && !i.FromClient? && (i.EndScan? ==> y.loop.ctx.book.toClean == {})
    requires i.EndScan? ==> y.place == At(0)
    ensures ClaSessions.Reaches(y0, moves', y') && y'.lib == y.lib && y'.loop == l && y'.place == y.place
  {
    hide ClaSessions.Reaches, Step, Enabled, Stands;
    var v := Server(i, bad, false);
    SnocMove(y0, moves, y, v);
    moves', y' := moves + [v], Moved(y, v).ctx;
  }

  /** The server accepts the session. */
  lemma {:induction false} Accepted(y0: Sys, moves: seq<Move>, y: Sys, fd: int, l: Loop) returns (moves': seq<Move>, y': Sys)
    requires ClaSessions.Reaches(y0, moves, y) && Session.Open(y.lib) && y.place == Backlog && y.loop.ctx.book.clients == []
    requires Enabled(y.loop, Accept(fd)) && Step(y.loop, Accept(fd), Never()) == Ok(l)
    ensures ClaSessions.Reaches(y0, moves', y') && y'.lib == y.lib && y'.loop == l && y'.place == At(0)
  {
    hide ClaSessions.Reaches, Step, Enabled, Stands;
    var v := Server(Accept(fd), Never(), true);
    SnocMove(y0, moves, y, v);
    moves', y' := moves + [v], Moved(y, v).ctx;
  }

  /** The next message of the session is read. */
  lemma {:induction false} ReadNext(y0: Sys, moves: seq<Move>, y: Sys, m: ClientMsg, l: Loop) returns (moves': seq<Move>, y': Sys)
    requires ClaSessions.Reaches(y0, moves, y) && Session.Open(y.lib) && y.place == At(0)
    requires y.lib.out == Some([SessionServer.AsSession(m)])
    requires Enabled(y.loop, FromClient(0, m)) && Step(y.loop, FromClient(0, m), Never()) == Ok(l)
    ensures ClaSessions.Reaches(y0, moves', y') && y'.lib == y.lib.(out := Some([])) && y'.loop == l && y'.place == At(0)
  {
    hide ClaSessions.Reaches, Step, Enabled, Stands;
    var v := Server(FromClient(0, m), Never(), false);
    assert [SessionServer.AsSession(m)][1..] == [];
    SnocMove(y0, moves, y, v);
    moves', y' := moves + [v], Moved(y, v).ctx;
  }

  function Wants(m: ClientMsg, before: bool): bool {
    if m.Acquire? then true else if m.Release? then false else before
  }

  /** The library sends something. */
  lemma {:induction false} Sends(y0: Sys, moves: seq<Move>, y: Sys, m: ClientMsg) returns (moves': seq<Move>, y': Sys)
    requires ClaSessions.Reaches(y0, moves, y) && y.lib == Session.Library(false, y.lib.acquired, Some([])) && !m.Register?
    ensures ClaSessions.Reaches(y0, moves', y')
    ensures y' == y.(lib := Session.Library(false, Wants(m, y.lib.acquired), Some([SessionServer.AsSession(m)])))
  {
    hide ClaSessions.Reaches;
    var v := Library(if m.Acquire? then Session.ApiAcquire(false) else if m.Release? then Session.ApiRelease(false) else Session.ApiOther(false));
    SnocMove(y0, moves, y, v);
    moves', y' := moves + [v], Moved(y, v).ctx;
    assert [] + [SessionServer.AsSession(m)] == [SessionServer.AsSession(m)];
  }

  /** The session is in the array, drained, between two turns. */
  predicate Settled(y: Sys, s: Ctx, acquired: bool) {
    y.lib == Session.Library(false, acquired, Some([])) && y.place == At(0) && y.loop == Loop(s, Scan)
  }

  /** One message, sent and handled in a turn of its own. */
  lemma {:induction false} OwnTurn(y0: Sys, moves: seq<Move>, y: Sys, s: Ctx, acquired: bool, m: ClientMsg, s1: Ctx, s2: Ctx)
    returns (moves': seq<Move>, y': Sys)
    requires ClaSessions.Reaches(y0, moves, y) && Settled(y, s, acquired) && !m.Register? && s.book.clients != []
    requires HandleClientMsg(s, 0, m, Never()) == Ok(s1) && FinishTurn(s1, Begun(s, Source.Served), Never()) == Ok(s2)
    ensures ClaSessions.Reaches(y0, moves', y') && Settled(y', s2, Wants(m, acquired))
  {
    hide HandleClientMsg, FinishTurn, ClaSessions.Reaches, HandleControlMsg, HandleTimeout, Unmarked;
    moves', y' := Sends(y0, moves, y, m);
    moves', y' := Go(y0, moves', y', Turn(false), Never(), Loop(s, Begun(s, Other)));
    moves', y' := ReadNext(y0, moves', y', m, Loop(s1, Begun(s, Source.Served)));
    moves', y' := Go(y0, moves', y', EndTurn, Never(), Loop(s2, Scan));
  }

  /** One message of control in a turn of its own. */
  lemma {:induction false} HeardTurn(y0: Sys, moves: seq<Move>, y: Sys, s: Ctx, acquired: bool, m: ControlMsg, s1: Ctx, s2: Ctx)
    returns (moves': seq<Move>, y': Sys)
    requires ClaSessions.Reaches(y0, moves, y) && Settled(y, s, acquired) && FromControl(m)
    requires HandleControlMsg(s, m, Never()) == Ok(s1) && FinishTurn(s1, Begun(s, Ipc), Never()) == Ok(s2)
    ensures ClaSessions.Reaches(y0, moves', y') && Settled(y', s2, acquired)
  {
    hide HandleClientMsg, FinishTurn, ClaSessions.Reaches, HandleControlMsg, HandleTimeout, Unmarked;
    moves', y' := Go(y0, moves, y, Turn(true), Never(), Loop(s, Begun(s, Ipc)));
    moves', y' := Go(y0, moves', y', Control(m), Never(), Loop(s1, Begun(s, Ipc)));
    moves', y' := Go(y0, moves', y', EndTurn, Never(), Loop(s2, Scan));
  }

  // ---------------------------------------------------------------- the session begins

  /** The library connects and is accepted. */
  lemma {:induction false} Arrives() returns (moves: seq<Move>, y: Sys)
    ensures ClaSessions.Reaches(ClaSessions.Boot(false, true), moves, y)
    ensures y.lib == Session.CONNECTED && y.place == At(0) && y.loop == Loop(ConnectedCtx(true), Scan)
  {
    hide HandleClientMsg, HandleControlMsg, HandleTimeout, Unmarked, ClaSessions.Reaches;
    var y0 := ClaSessions.Boot(false, true);
    var s, s1 := y0.loop.ctx, ConnectedCtx(true);
    StartMoves(y0);
    moves, y := Go(y0, [], y0, EnterPoll(0, 9), Never(), Loop(s, Polling(9, false, true)));
    moves, y := Go(y0, moves, y, PollReturns, Never(), Loop(s, Scan));
    moves, y := Go(y0, moves, y, Turn(false), Never(), Loop(s, Begun(s, Other)));
    assert [] + [Client(5, false, {}, false, false, false, [])] == [Client(5, false, {}, false, false, false, [])];
    moves, y := Accepted(y0, moves, y, 5, Loop(s1, Begun(s, Source.Served)));
    moves, y := Go(y0, moves, y, EndTurn, Never(), Loop(s1, Scan));
  }

  /** A scan ends and the next one begins. */
  lemma {:induction false} Rescan(y0: Sys, moves: seq<Move>, y: Sys, s: Ctx) returns (moves': seq<Move>, y': Sys)
    requires ClaSessions.Reaches(y0, moves, y) && Session.Open(y.lib) && y.place == At(0) && y.loop == Loop(s, Scan)
    requires s.book.toClean == {} && s.bootArmed && !Waiting(s.book)
    ensures ClaSessions.Reaches(y0, moves', y') && y'.lib == y.lib && y'.place == At(0) && y'.loop == Loop(s, Scan)
  {
    hide HandleClientMsg, HandleControlMsg, HandleTimeout, FinishTurn, ClaSessions.Reaches;
    NothingRemoved(s.book.clients, 0);
    assert s.book.clients[0..] == s.book.clients;
    moves', y' := Go(y0, moves, y, EndScan, Never(), Loop(s, Top));
    moves', y' := Go(y0, moves', y', EnterPoll(0, 9), Never(), Loop(s, Polling(9, false, true)));
    moves', y' := Go(y0, moves', y', PollReturns, Never(), Loop(s, Scan));
  }

  /** And it registers. */
  lemma {:induction false} Begins(events: set<Event>) returns (moves: seq<Move>, y: Sys)
    ensures ClaSessions.Reaches(ClaSessions.Boot(false, true), moves, y) && Settled(y, Joined(true, events), false)
  {
    hide HandleControlMsg, HandleTimeout, Unmarked, ClaSessions.Reaches;
    var y0 := ClaSessions.Boot(false, true);
    var s, s1 := ConnectedCtx(true), Joined(true, events);
    moves, y := Arrives();
    moves, y := Rescan(y0, moves, y, s);
    moves, y := Go(y0, moves, y, Turn(false), Never(), Loop(s, Begun(s, Other)));
    assert s.book.clients[0 := Guest(events)] == [Guest(events)];
    assert HandleClientMsg(s, 0, Register(false, events), Never()) == Ok(s1);
    moves, y := ReadNext(y0, moves, y, Register(false, events), Loop(s1, Begun(s, Source.Served)));
    moves, y := Go(y0, moves, y, EndTurn, Never(), Loop(s1, Scan));
  }

  // ---------------------------------------------------------------- a request that is rejected

  /** After a SHUTDOWN request an acquisition is not taken: the client thinks it holds the modem. */
  lemma {:induction false} AcquireRejected() returns (moves: seq<Move>, y: Sys)
    ensures ClaSessions.Reaches(ClaSessions.Boot(false, true), moves, y)
    ensures y.place == At(0) && y.lib.out == Some([]) && !Ending(y) && !y.stands
    ensures |y.loop.ctx.book.clients| == 1 && !y.loop.ctx.book.clients[0].acquired && y.lib.acquired
  {
    hide ClaSessions.Reaches;
    var y0, s := ClaSessions.Boot(false, true), Joined(true, {});
    var s1 := s.(reject := true, shutdownSeen := true);
    moves, y := Begins({});
    moves, y := OwnTurn(y0, moves, y, s, false, AskShutdown, s1, s1);
    moves, y := OwnTurn(y0, moves, y, s1, false, Acquire, s1, s1);
    ReplayOnServer(false, true, moves, y);
  }

  // ---------------------------------------------------------------- a hold that a time-out ends

  /** The session holds the modem, has asked for a backup, and owes the acknowledgement of a
      shutdown during which control has reported OFF. */
  lemma {:induction false} Owes() returns (moves: seq<Move>, y: Sys)
    ensures ClaSessions.Reaches(ClaSessions.Boot(false, true), moves, y) && Settled(y, OwingCtx(), true)
  {
    hide ClaSessions.Reaches, NotifyAll, HandleClientMsg, StartShutdown;
    var y0, s := ClaSessions.Boot(false, true), Joined(true, COLD);
    moves, y := Begins(COLD);
    Acquires(s);
    moves, y := OwnTurn(y0, moves, y, s, false, Acquire, Holding(s), Holding(s));
    hide HandleControlMsg;
    UpHeard(COLD);
    moves, y := HeardTurn(y0, moves, y, Holding(s), true, ModemState(Ready), UpCtx(COLD), UpCtx(COLD));
    moves, y := Releasing(y0, moves, y);
    moves, y := Acquiring(y0, moves, y);
  }

  lemma {:induction false} Releasing(y0: Sys, moves: seq<Move>, y: Sys) returns (moves': seq<Move>, y': Sys)
    requires ClaSessions.Reaches(y0, moves, y) && Settled(y, UpCtx(COLD), true)
    ensures ClaSessions.Reaches(y0, moves', y') && Settled(y', OffAwaited(), false)
  {
    hide ClaSessions.Reaches, NotifyAll, HandleClientMsg, StartShutdown;
    var s, s1 := UpCtx(COLD), UpCtx(COLD).(book := ReleasedBook(COLD));
    Releases(COLD);
    ShutsDown(COLD);
    moves', y' := OwnTurn(y0, moves, y, s, true, Release, s1, AwaitedCtx(COLD));
    moves', y' := HeardTurn(y0, moves', y', AwaitedCtx(COLD), false, ModemState(Off), OffAwaited(), OffAwaited());
  }

  lemma {:induction false} Acquiring(y0: Sys, moves: seq<Move>, y: Sys) returns (moves': seq<Move>, y': Sys)
    requires ClaSessions.Reaches(y0, moves, y) && Settled(y, OffAwaited(), false)
    ensures ClaSessions.Reaches(y0, moves', y') && Settled(y', OwingCtx(), true)
  {
    hide ClaSessions.Reaches, NotifyAll, HandleClientMsg;
    var s := OffAwaited();
    Acquires(s);
    moves', y' := OwnTurn(y0, moves, y, s, false, Acquire, Holding(s), Holding(s));
    BackupNoted();
    moves', y' := OwnTurn(y0, moves', y', Holding(s), true, AskBackup, OwingCtx(), OwingCtx());
  }

  /** Its time is over and the cold reset cannot be sent to it: its hold is given up, and its mark
      is forgotten before the next scan. The session is open and drained, and the flags differ. */
  lemma {:induction false} HoldLostInSilence() returns (moves: seq<Move>, y: Sys)
    ensures ClaSessions.Reaches(ClaSessions.Boot(false, true), moves, y)
    ensures y.place == At(0) && y.lib.out == Some([]) && y.loop.phase == Scan && y.loop.ctx.book.toClean == {} && !y.stands
    ensures |y.loop.ctx.book.clients| == 1 && y.loop.ctx.book.clients[0].registered
    ensures !y.loop.ctx.book.clients[0].acquired && y.lib.acquired && !y.loop.ctx.reject
  {
    hide ClaSessions.Reaches, HandleTimeout, HandleControlMsg, HandleClientMsg, FinishTurn, Unregister;
    var y0, s, d := ClaSessions.Boot(false, true), OwingCtx(), DroppedCtx();
    moves, y := Owes();
    NothingRemoved(s.book.clients, 0);
    assert s.book.clients[0..] == s.book.clients;
    moves, y := Go(y0, moves, y, EndScan, Never(), Loop(s, Top));
    moves, y := Go(y0, moves, y, EnterPoll(0, 5), Never(), Loop(s, Polling(0, true, false)));
    var bad: Links := (e, i) => true;
    HoldGivenUp(bad);
    moves, y := Go(y0, moves, y, PollTimesOut(5), bad, Loop(d, Top));
    moves, y := Go(y0, moves, y, EnterPoll(0, 5), Never(), Loop(d, Polling(5, false, true)));
    moves, y := Go(y0, moves, y, PollReturns, Never(), Loop(d.(book := Book([Warned(COLD)], {}, 0, 0, 0)), Scan));
    ReplayOnServer(false, true, moves, y);
  }
}
