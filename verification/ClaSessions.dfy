/**
 The client library against runs of client abstraction: whatever the other clients, control, the
 timers and the removal of clients do, exactly when the slot of a live session ends up with the
 hold that its client asked for.
 */
module ClaSessions {
  import opened Common
  import opened Cla
  import opened ClaFrame
  import opened SessionServer
  import Session

  /** Where the server has the live session: still to be accepted, at an index of the array, or
      nowhere (closed, or removed). */
  datatype Place = Backlog | At(index: nat) | Nowhere

  /** `stands`: what the session last asked for still stands. A request that is not taken stands
      only if the slot was so already; a mark that ends a hold turns the answer round. */
  datatype Sys = Sys(lib: Session.Library, loop: Loop, place: Place, stands: bool)

  /** A move of the library, or a step of the server; `mine` says that a new connection is the one
      of the library. */
  datatype Move =
    | Library(lmove: Session.Move)
    | Server(input: Input, bad: Links, mine: bool)

  /** The step reads a message of the live session. */
  predicate Own(y: Sys, i: Input) {
    i.FromClient? && y.place == At(i.client)
  }

  predicate CanMove(y: Sys, v: Move) {
    match v
    case Library(m) => !m.ServerReads? && !m.ServerDrops? && Session.CanMove(Session.Sys(y.lib, Session.FRESH), m)
    case Server(i, _, mine) =>
      && Enabled(y.loop, i)
      && (Own(y, i) ==> y.lib.out.Some? && y.lib.out.value != [] && AsSession(i.cmsg) == y.lib.out.value[0])
      && (mine ==> i.Accept? && y.place == Backlog)
  }

  function LibraryMoved(y: Sys, m: Session.Move): Sys
    requires Session.Open(y.lib) && CanMove(y, Library(m))
  {
    var lib := Session.Moved(Session.Sys(y.lib, Session.FRESH), m).lib;
    if m.ConnectionLost? then y.(lib := lib, place := Nowhere)
    else if m.Retry? then Sys(lib, y.loop, if lib.out.Some? then Backlog else Nowhere, true)
    else y.(lib := lib)
  }

  /** The place of the session after a step. */
  function Moves(y: Sys, i: Input, mine: bool): Place {
    if mine then At(|y.loop.ctx.book.clients|)
    else if i.EndScan? && y.place.At? then
      if y.place.index in y.loop.ctx.book.toClean then Nowhere
      else At(Rank(y.loop.ctx.book.toClean, 0, y.place.index))
    else y.place
  }

  /** The server does what an own ACQUIRE or RELEASE asks for. */
  predicate Taken(b: Book, k: nat, reject: bool)
    requires k < |b.clients|
  {
    k !in b.toClean && b.clients[k].registered && !reject
  }

  predicate Marked(b: Book, b': Book, k: nat) {
    k in b'.toClean && k !in b.toClean
  }

  /** Whether the last request stands after a step that leads to `l`. */
  predicate Stands(y: Sys, i: Input, l: Loop) {
    var b := y.loop.ctx.book;
    if !y.place.At? || y.place.index >= |b.clients| then y.stands
    else
      var held := b.clients[y.place.index].acquired;
      if Own(y, i) && (i.cmsg.Acquire? || i.cmsg.Release?) then
        Taken(b, y.place.index, y.loop.ctx.reject) || held == i.cmsg.Acquire?
      else if Marked(b, l.ctx.book, y.place.index) then y.stands != held
      else y.stands
  }

  function ServerMoved(y: Sys, i: Input, mine: bool, l: Loop): Sys
    requires CanMove(y, Server(i, (_, _) => false, mine))
  {
    Sys(if Own(y, i) then y.lib.(out := Some(y.lib.out.value[1..])) else y.lib, l, Moves(y, i, mine), Stands(y, i, l))
  }

  function Moved(y: Sys, v: Move): Outcome<Sys, Assertion>
    requires Session.Open(y.lib) && CanMove(y, v)
  {
    match v
    case Library(m) => Ok(LibraryMoved(y, m))
    case Server(i, bad, mine) =>
      match Step(y.loop, i, bad)
      case Abort(why) => Abort(why)
      case Ok(l) => Ok(ServerMoved(y, i, mine, l))
  }

  // ---------------------------------------------------------------- the session model

  predicate Scanning(l: Loop) {
    l.phase.Scan? || l.phase.Iter?
  }

  /** The session is marked in the scan under way, which will end it. */
  predicate Ending(y: Sys) {
    y.place.At? && Scanning(y.loop) && y.place.index in y.loop.ctx.book.toClean
  }

  /** The hold that the session last asked for. */
  predicate Asked(y: Sys)
    requires y.place.At? && y.place.index < |y.loop.ctx.book.clients|
  {
    y.loop.ctx.book.clients[y.place.index].acquired == y.stands
  }

  /** The slot of a server that takes every request. */
  function SlotAt(y: Sys): Session.Slot
    requires y.place.At? ==> y.place.index < |y.loop.ctx.book.clients|
  {
    match y.place
    case Backlog => Session.FRESH
    case At(k) => Session.Slot(y.loop.ctx.book.clients[k].registered, Asked(y), Ending(y), false)
    case Nowhere => Session.Slot(false, false, true, false)
  }

  /** What is on its way leads from what was asked to the client's flag. */
  predicate Settling(y: Sys)
    requires y.place.At? ==> y.place.index < |y.loop.ctx.book.clients|
  {
    y.place.At? && y.lib.out.Some? ==> Session.Settles(Asked(y), y.lib.out.value) == y.lib.acquired
  }

  predicate Placed(y: Sys) {
    && (y.place.At? ==> y.place.index < |y.loop.ctx.book.clients|)
    && (y.place.At? ==> var c := y.loop.ctx.book.clients[y.place.index]; c.registered || !c.acquired)
    && (y.place == Backlog ==> y.stands)
    && (Scanning(y.loop) ==> forall j :: j in y.loop.ctx.book.toClean ==> j < |y.loop.ctx.book.clients|)
  }

  predicate Inv(y: Sys) {
    Placed(y) && Settling(y) && Session.Inv(Session.Sys(y.lib, SlotAt(y)))
  }

  lemma {:induction false} LibraryKeeps(y: Sys, m: Session.Move)
    requires Inv(y) && CanMove(y, Library(m))
    ensures Session.Open(y.lib) && Inv(LibraryMoved(y, m))
  {
    hide Session.Inv, Session.Moved, Session.Settles;
    var z := Session.Sys(y.lib, SlotAt(y));
    OpenAt(z);
    Session.MoveKeeps(z, m);
    SameLibrary(z, Session.Sys(y.lib, Session.FRESH), m);
    LostInv(Session.Moved(z, m));
    if y.place.At? && y.lib.out.Some? {
      Resettled(y.lib, Asked(y), m);
    }
  }

  lemma {:induction false} Resettled(lib: Session.Library, asked: bool, m: Session.Move)
    requires Session.Open(lib) && lib.out.Some? && Session.Settles(asked, lib.out.value) == lib.acquired
    requires Session.CanMove(Session.Sys(lib, Session.FRESH), m) && !m.ServerReads? && !m.ServerDrops? && !m.Retry?
    ensures var lib' := Session.Moved(Session.Sys(lib, Session.FRESH), m).lib;
            lib'.out.Some? ==> Session.Settles(asked, lib'.out.value) == lib'.acquired
  {
    Session.SettlesSnoc(asked, lib.out.value, Session.Acquire);
    Session.SettlesSnoc(asked, lib.out.value, Session.Release);
    Session.SettlesSnoc(asked, lib.out.value, Session.Other);
  }

  lemma {:induction false} OpenAt(z: Session.Sys)
    requires Session.Inv(z)
    ensures Session.Open(z.lib)
  {
  }

  /** A move of the library does not look at the slot. */
  lemma {:induction false} SameLibrary(z: Session.Sys, w: Session.Sys, m: Session.Move)
    requires z.lib == w.lib && Session.Open(z.lib) && Session.CanMove(z, m) && !m.ServerReads? && !m.ServerDrops?
    ensures Session.CanMove(w, m)
    ensures Session.Moved(z, m).lib == Session.Moved(w, m).lib
    ensures Session.Moved(z, m).slot == if m.Retry? then Session.FRESH else z.slot
    ensures m.ConnectionLost? || (z.lib.out == None && !m.Retry?) ==> Session.Moved(z, m).lib.out == None
  {
  }

  lemma {:induction false} LostInv(z: Session.Sys)
    requires Session.Inv(z)
    ensures z.lib.out == None ==> forall slot :: Session.Inv(Session.Sys(z.lib, slot))
  {
  }

  // ---------------------------------------------------------------- steps of the server

  lemma {:induction false} ScanMarks(l: Loop, i: Input, bad: Links)
    requires Enabled(l, i) && Step(l, i, bad).Ok?
    requires Scanning(l) ==> forall j :: j in l.ctx.book.toClean ==> j < |l.ctx.book.clients|
    ensures var l' := Step(l, i, bad).ctx;
            Scanning(l') ==> (forall j :: j in l'.ctx.book.toClean ==> j < |l'.ctx.book.clients|) && (Scanning(l) || i.PollReturns?)
  {
    hide HandleControlMsg, HandleClientMsg, HandleTimeout, FinishTurn, Unregister, KeptAt;
    match i
    case Control(m) => ControlMild(l.ctx, m, bad);
    case EndTurn => TurnMild(l.ctx, l.phase, bad);
    case FromClient(c, m) => ClientServed(l.ctx, c, m, bad);
    case Lost(c) => LeaveServed(l.ctx.book, c);
    case _ =>
  }

  lemma {:induction false} AcceptKeeps(y: Sys, i: Input, bad: Links)
    requires Inv(y) && CanMove(y, Server(i, bad, true)) && Step(y.loop, i, bad).Ok?
    ensures Inv(ServerMoved(y, i, true, Step(y.loop, i, bad).ctx))
  {
    hide Session.Settles;
    FreshSettles(y.lib);
    hide Session.Inv;
  }

  lemma {:induction false} FreshSettles(lib: Session.Library)
    requires Session.Inv(Session.Sys(lib, Session.FRESH))
    ensures lib.out.Some? ==> Session.Settles(false, lib.out.value) == lib.acquired
  {
  }

  /** A slot with the same flags, or one that is ending. */
  lemma {:induction false} SlotInv(lib: Session.Library, a: Session.Slot, b: Session.Slot)
    requires Session.Inv(Session.Sys(lib, a))
    requires b.dropped || b == a
    ensures Session.Inv(Session.Sys(lib, b))
  {
  }

  /** A slot that `KeptAt` speaks of: what was asked stays what was asked. */
  lemma {:induction false} KeptAsked(y: Sys, i: Input, l: Loop)
    requires Placed(y) && y.place.At? && !Own(y, i) && !i.EndScan?
    requires |y.loop.ctx.book.clients| <= |l.ctx.book.clients| && KeptAt(y.loop.ctx.book, l.ctx.book, y.place.index)
    ensures var c, c' := y.loop.ctx.book.clients[y.place.index], l.ctx.book.clients[y.place.index];
            && (c'.acquired == Stands(y, i, l)) == Asked(y)
            && c'.registered == c.registered && (c'.registered || !c'.acquired)
  {
  }

  /** A step about somebody else. */
  lemma {:induction false} OtherKeeps(y: Sys, i: Input, bad: Links)
    requires Inv(y) && CanMove(y, Server(i, bad, false)) && Step(y.loop, i, bad).Ok?
    requires y.place.At? ==> !About(i, y.place.index)
    requires !i.EndScan?
    ensures Inv(ServerMoved(y, i, false, Step(y.loop, i, bad).ctx))
  {
    hide Session.Inv, Session.Settles, Step, Enabled, KeptAt;
    ScanMarks(y.loop, i, bad);
    var l := Step(y.loop, i, bad).ctx;
    if y.place.At? {
      StepKeepsSlot(y.loop, i, bad, y.place.index);
      StillEnding(y, i, bad);
      KeptAsked(y, i, l);
      SlotInv(y.lib, SlotAt(y), SlotAt(ServerMoved(y, i, false, l)));
    }
  }

  /** A session that is ending goes on ending. */
  lemma {:induction false} StillEnding(y: Sys, i: Input, bad: Links)
    requires y.place.At? && Enabled(y.loop, i) && Step(y.loop, i, bad).Ok? && !i.EndScan?
    requires i.PollReturns? || Marks(y.loop.ctx.book, Step(y.loop, i, bad).ctx.ctx.book)
    ensures Ending(y) ==> Scanning(Step(y.loop, i, bad).ctx) && y.place.index in Step(y.loop, i, bad).ctx.ctx.book.toClean
  {
    hide HandleControlMsg, HandleClientMsg, HandleTimeout, FinishTurn, Unregister, WithBook;
  }

  lemma {:induction false} ScanEndKeeps(y: Sys, i: Input, bad: Links)
    requires Inv(y) && i.EndScan? && CanMove(y, Server(i, bad, false)) && Step(y.loop, i, bad).Ok?
    ensures Inv(ServerMoved(y, i, false, Step(y.loop, i, bad).ctx))
  {
    hide Session.Inv, Session.Settles, Unmarked;
    var b := y.loop.ctx.book;
    if y.place.At? && y.place.index !in b.toClean {
      RankFinds(b.clients, b.toClean, 0, y.place.index);
    }
    SlotInv(y.lib, SlotAt(y), SlotAt(ServerMoved(y, i, false, Step(y.loop, i, bad).ctx)));
  }

  lemma {:induction false} DroppedInv(lib: Session.Library, slot: Session.Slot)
    requires Session.Open(lib) && slot.dropped
    ensures Session.Inv(Session.Sys(lib, slot))
  {
  }

  lemma {:induction false} LossOutcome(s: Ctx, c: nat, s': Ctx)
    requires c < |s.book.clients|
    requires Ok(s') == if c in s.book.toClean then Ok(s) else WithBook(s, Unregister(s.book, c))
    ensures c in s'.book.toClean && |s'.book.clients| == |s.book.clients| && KeptAt(s.book, s'.book, c)
  {
  }

  /** The session's own connection is lost on the server's side. */
  lemma {:induction false} LossKeeps(y: Sys, i: Input, bad: Links)
    requires Inv(y) && i.Lost? && y.place == At(i.client) && CanMove(y, Server(i, bad, false)) && Step(y.loop, i, bad).Ok?
    ensures Inv(ServerMoved(y, i, false, Step(y.loop, i, bad).ctx))
  {
    hide Session.Inv, Session.Settles, Unregister, WithBook, KeptAt;
    ScanMarks(y.loop, i, bad);
    OpenAt(Session.Sys(y.lib, SlotAt(y)));
    var l := Step(y.loop, i, bad).ctx;
    LossOutcome(y.loop.ctx, i.client, l.ctx);
    KeptAsked(y, i, l);
    DroppedInv(y.lib, SlotAt(ServerMoved(y, i, false, l)));
  }

  lemma {:induction false} OwnOutcome(l: Loop, i: Input, bad: Links)
    requires i.FromClient? && Enabled(l, i) && Step(l, i, bad).Ok?
    ensures HandleClientMsg(l.ctx, i.client, i.cmsg, bad) == Ok(Step(l, i, bad).ctx.ctx) && Scanning(l) && Scanning(Step(l, i, bad).ctx)
    ensures i.client < |l.ctx.book.clients|
  {
    hide HandleClientMsg;
  }

  /** What the session asked for, after one more message of it. */
  lemma {:induction false} OwnAsked(y: Sys, i: Input, l: Loop)
    requires Placed(y) && Own(y, i) && HoldExact(y.loop.ctx, i.client, i.cmsg, l.ctx)
    ensures (l.ctx.book.clients[i.client].acquired == Stands(y, i, l))
            == if i.cmsg.Acquire? then true else if i.cmsg.Release? then false else Asked(y)
  {
  }

  /** A message of the session is handled as the session model says. */
  lemma {:induction false} OwnKeeps(y: Sys, i: Input, bad: Links)
    requires Inv(y) && Own(y, i) && CanMove(y, Server(i, bad, false)) && Step(y.loop, i, bad).Ok?
    ensures Inv(ServerMoved(y, i, false, Step(y.loop, i, bad).ctx))
  {
    hide Session.Inv, HandleClientMsg, Step, Enabled, Session.Moved, Stands;
    ScanMarks(y.loop, i, bad);
    OwnOutcome(y.loop, i, bad);
    HandlerFollows(y.loop.ctx, i.client, i.cmsg, false, bad);
    OwnHold(y.loop.ctx, i.client, i.cmsg, bad);
    var l := Step(y.loop, i, bad).ctx;
    OwnAsked(y, i, l);
    var y' := ServerMoved(y, i, false, l);
    var z := Session.Sys(y.lib, SlotAt(y));
    OpenAt(z);
    if Ending(y') {
      DroppedInv(y'.lib, SlotAt(y'));
    } else {
      Session.ServeKeeps(z, false);
      Reads(z, false);
    }
  }

  lemma {:induction false} Reads(z: Session.Sys, reject: bool)
    requires Session.Open(z.lib) && Session.CanMove(z, Session.ServerReads(reject))
    ensures Session.Moved(z, Session.ServerReads(reject))
            == Session.Sys(z.lib.(out := Some(z.lib.out.value[1..])), Session.Serve(z.slot, z.lib.out.value[0], reject))
  {
  }

  lemma {:induction false} ServerKeeps(y: Sys, i: Input, bad: Links, mine: bool)
    requires Inv(y) && CanMove(y, Server(i, bad, mine)) && Step(y.loop, i, bad).Ok?
    ensures Inv(ServerMoved(y, i, mine, Step(y.loop, i, bad).ctx))
  {
    hide Inv, Step, Enabled, ServerMoved;
    if mine {
      AcceptKeeps(y, i, bad);
    } else if i.EndScan? {
      ScanEndKeeps(y, i, bad);
    } else if Own(y, i) {
      OwnKeeps(y, i, bad);
    } else if i.Lost? && y.place == At(i.client) {
      LossKeeps(y, i, bad);
    } else {
      OtherKeeps(y, i, bad);
    }
  }

  // ---------------------------------------------------------------- runs

  ghost predicate Reaches(y: Sys, moves: seq<Move>, y': Sys)
    decreases |moves|
  {
    if moves == [] then y == y'
    else
      && Session.Open(y.lib) && CanMove(y, moves[0]) && Moved(y, moves[0]).Ok?
      && Reaches(Moved(y, moves[0]).ctx, moves[1..], y')
  }

  lemma {:induction false} RunKeeps(y: Sys, moves: seq<Move>, y': Sys)
    requires Inv(y) && Reaches(y, moves, y')
    ensures Inv(y')
    decreases |moves|
  {
    hide Inv, Step, CanMove, LibraryMoved, ServerMoved;
    if moves != [] {
      match moves[0] {
        case Library(m) => LibraryKeeps(y, m);
        case Server(i, bad, mine) => ServerKeeps(y, i, bad, mine);
      }
      RunKeeps(Moved(y, moves[0]).ctx, moves[1..], y');
    }
  }

  /** The server as it starts, and the library just after its first connection. */
  function Boot(sanity: bool, fmmo: bool): Sys {
    Sys(Session.CONNECTED, Cla.Boot(sanity, fmmo), Backlog, true)
  }

  lemma {:induction false} BootKeeps(sanity: bool, fmmo: bool)
    ensures Inv(Boot(sanity, fmmo))
  {
    assert [Session.Register][1..] == [];
  }

  /** What the client asked for last, in a run of both sides. */
  ghost predicate Wished(y: Sys, moves: seq<Move>, before: bool)
    decreases |moves|
  {
    if moves == [] then before
    else if !Session.Open(y.lib) || !CanMove(y, moves[0]) || Moved(y, moves[0]).Abort? then before
    else
      Wished(Moved(y, moves[0]).ctx, moves[1..],
             if moves[0].Library? then Session.Wish(y.lib, moves[0].lmove, before) else before)
  }

  lemma {:induction false} MoveWished(y: Sys, v: Move)
    requires Session.Open(y.lib) && CanMove(y, v) && Moved(y, v).Ok?
    ensures Moved(y, v).ctx.lib.acquired == if v.Library? then Session.Wish(y.lib, v.lmove, y.lib.acquired) else y.lib.acquired
  {
    hide Session.Moved, Step, Enabled, Stands, Session.Wish;
    if v.Library? {
      Session.WishKept(Session.Sys(y.lib, Session.FRESH), v.lmove);
    }
  }

  lemma {:induction false} RunWished(y: Sys, moves: seq<Move>, y': Sys)
    requires Reaches(y, moves, y')
    ensures y'.lib.acquired == Wished(y, moves, y.lib.acquired)
    decreases |moves|
  {
    hide Moved, CanMove, Session.Wish;
    if moves != [] {
      MoveWished(y, moves[0]);
      RunWished(Moved(y, moves[0]).ctx, moves[1..], y');
    }
  }

  /** Session replay against client abstraction itself: in every run, once a session in the array
      is drained, the flag of its slot is the client's (which is what it asked for last) if and only
      if the last request of the session stands, wherever the removal of other clients has moved it; and it is registered
      unless it is about to be removed. */
  lemma {:induction false} ReplayOnServer(sanity: bool, fmmo: bool, moves: seq<Move>, y: Sys)
    requires Reaches(Boot(sanity, fmmo), moves, y)
    requires y.place.At? && y.lib.out == Some([])
    ensures y.place.index < |y.loop.ctx.book.clients|
    ensures var c := y.loop.ctx.book.clients[y.place.index];
            && (c.acquired == y.lib.acquired <==> y.stands)
            && (Ending(y) || c.registered)
    ensures y.lib.acquired == Wished(Boot(sanity, fmmo), moves, false)
  {
    BootKeeps(sanity, fmmo);
    RunKeeps(Boot(sanity, fmmo), moves, y);
    RunWished(Boot(sanity, fmmo), moves, y);
  }
}
