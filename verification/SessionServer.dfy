/**
 The sessions of the client library on the server's side: what client abstraction does to the
 slot of a socket when it handles a message of that socket.
 */
module SessionServer {
  import opened Common
  import opened Fsm
  import opened Cla
  import opened ClaFrame
  import Session

  // ---------------------------------------------------------------- a session's own messages

  function AsSession(m: ClientMsg): Session.Msg {
    if m.Register? then Session.Register
    else if m.Acquire? then Session.Acquire
    else if m.Release? then Session.Release
    else Session.Other
  }

  /** The slot of socket `i`; `ignored` is not part of the array. */
  function SlotOf(s: Ctx, i: nat, ignored: bool): Session.Slot
    requires i < |s.book.clients|
  {
    Session.Slot(s.book.clients[i].registered, s.book.clients[i].acquired, i in s.book.toClean, ignored)
  }

  /** Handling a message of the session leaves its slot where `Session.Serve` says, unless the
      server gives the session up for a reason of its own. */
  predicate Follows(s: Ctx, i: nat, m: ClientMsg, ignored: bool, r: Handled)
    requires i < |s.book.clients|
  {
    r.Ok? ==>
      && |r.ctx.book.clients| == |s.book.clients|
      && var served := Session.Serve(SlotOf(s, i, ignored), AsSession(m), s.reject);
         || (i in r.ctx.book.toClean && !SlotOf(s, i, ignored).dropped)
         || SlotOf(r.ctx, i, served.ignored) == served
  }

  predicate KeptThere(s: Ctx, i: nat, s': Ctx) {
    i < |s.book.clients| == |s'.book.clients| && KeptAt(s.book, s'.book, i)
  }

  lemma {:induction false} OtherFollows(s: Ctx, i: nat, m: ClientMsg, ignored: bool, r: Handled)
    requires i < |s.book.clients| && i !in s.book.toClean && s.book.clients[i].registered && AsSession(m) == Session.Other
    requires r.Ok? ==> KeptThere(s, i, r.ctx)
    ensures Follows(s, i, m, ignored, r)
  {
  }

  /** What a message does to the slot: given up, or updated to `registered` and `acquired`. */
  predicate Becomes(b: Book, i: nat, r: Outcome<Book, Assertion>, registered: bool, acquired: bool)
    requires i < |b.clients|
  {
    r.Ok? ==>
      && |r.ctx.clients| == |b.clients|
      && (i in r.ctx.toClean || (r.ctx.clients[i].registered == registered && r.ctx.clients[i].acquired == acquired))
  }

  lemma {:induction false} LeaveBecomes(b: Book, i: nat)
    requires i < |b.clients| && i !in b.toClean
    ensures Unregister(b, i).Ok? ==> i in Unregister(b, i).ctx.toClean && |Unregister(b, i).ctx.clients| == |b.clients|
  {
  }

  lemma {:induction false} RegisterBecomes(b: Book, i: nat, events: set<Event>, modem: Mdm, bad: Links)
    requires i < |b.clients| && i !in b.toClean && !b.clients[i].registered
    ensures Becomes(b, i, HandleRegister(b, i, events, modem, bad), true, b.clients[i].acquired)
  {
    hide NotifySingle;
    var b1 := b.(clients := b.clients[i := b.clients[i].(registered := true, events := events)]);
    SingleUntouched(b1, i, ToEvent(modem), bad(ToEvent(modem), i));
    var r := NotifySingle(b1, i, ToEvent(modem), bad(ToEvent(modem), i));
    if r.Ok? {
      assert KeptAt(b1, r.ctx, i);
    }
  }

  lemma {:induction false} HoldBecomes(b: Book, i: nat, m: ClientMsg, reject: bool)
    requires i < |b.clients| && i !in b.toClean && (m.Acquire? || m.Release?)
    ensures var r := HandleSlotMsg(b, i, m, reject);
            && Becomes(b, i, r, b.clients[i].registered, if reject then b.clients[i].acquired else m.Acquire?)
            && (r.Ok? ==> r.ctx.toClean == b.toClean)
  {
  }

  /** Where the handler sends each kind of message. */
  lemma {:induction false} Dispatch(s: Ctx, i: nat, m: ClientMsg, bad: Links)
    requires i < |s.book.clients| && i !in s.book.toClean && (m.Register? || m.Acquire? || m.Release?)
    ensures HandleClientMsg(s, i, m, bad) ==
            if m.Register? then
              WithBook(s, if m.debug != s.sanity then Unregister(s.book, i)
                          else HandleRegister(s.book, i, m.events, s.modem, bad))
            else
              WithBook(s, if s.book.clients[i].registered then HandleSlotMsg(s.book, i, m, s.reject)
                          else Unregister(s.book, i))
  {
    hide HandleRegister, HandleSlotMsg, Unregister, Notify, NotifyAll, HandleRestart, WithBook;
  }

  lemma {:induction false} BookFollows(s: Ctx, i: nat, m: ClientMsg, ignored: bool, r: Outcome<Book, Assertion>)
    requires i < |s.book.clients| && i !in s.book.toClean
    requires r.Ok? ==> |r.ctx.clients| == |s.book.clients|
    requires var served := Session.Serve(SlotOf(s, i, ignored), AsSession(m), s.reject);
             r.Ok? ==> i in r.ctx.toClean || (!served.dropped && r.ctx.clients[i].registered == served.registered
                                              && r.ctx.clients[i].acquired == served.acquired)
    ensures Follows(s, i, m, ignored, WithBook(s, r))
  {
  }

  lemma {:induction false} SlotFollows(s: Ctx, i: nat, m: ClientMsg, ignored: bool, bad: Links)
    requires i < |s.book.clients| && i !in s.book.toClean
    requires m.Register? || m.Acquire? || m.Release?
    ensures Follows(s, i, m, ignored, HandleClientMsg(s, i, m, bad))
  {
    hide HandleRegister, HandleSlotMsg, Unregister, HandleClientMsg, Follows, WithBook;
    Dispatch(s, i, m, bad);
    LeaveBecomes(s.book, i);
    BookFollows(s, i, m, ignored, Unregister(s.book, i));
    if m.Register? {
      if s.book.clients[i].registered {
        AgainLeaves(s.book, i, m.events, s.modem, bad);
      } else {
        RegisterBecomes(s.book, i, m.events, s.modem, bad);
        BookFollows(s, i, m, ignored, HandleRegister(s.book, i, m.events, s.modem, bad));
      }
    } else if s.book.clients[i].registered {
      HoldBecomes(s.book, i, m, s.reject);
      BookFollows(s, i, m, ignored, HandleSlotMsg(s.book, i, m, s.reject));
    }
  }

  lemma {:induction false} AgainLeaves(b: Book, i: nat, events: set<Event>, modem: Mdm, bad: Links)
    requires i < |b.clients| && b.clients[i].registered
    ensures HandleRegister(b, i, events, modem, bad) == Unregister(b, i)
  {
  }

  lemma {:induction false} AckSlot(b: Book, i: nat, m: ClientMsg, reject: bool)
    requires i < |b.clients| && (m.AckColdReset? || m.AckShutdown?)
    ensures var r := HandleSlotMsg(b, i, m, reject);
            r.Ok? ==> |r.ctx.clients| == |b.clients| && KeptAt(b, r.ctx, i)
  {
  }

  lemma {:induction false} AckKept(s: Ctx, i: nat, m: ClientMsg)
    requires i < |s.book.clients| && (m.AckColdReset? || m.AckShutdown?)
    ensures WithBook(s, HandleSlotMsg(s.book, i, m, s.reject)).Ok? ==>
              KeptThere(s, i, WithBook(s, HandleSlotMsg(s.book, i, m, s.reject)).ctx)
  {
    hide HandleSlotMsg, KeptAt;
    AckSlot(s.book, i, m, s.reject);
  }

  lemma {:induction false} StrangerFollows(s: Ctx, i: nat, m: ClientMsg, ignored: bool)
    requires i < |s.book.clients| && i !in s.book.toClean && !s.book.clients[i].registered && !m.Register?
    ensures Follows(s, i, m, ignored, WithBook(s, Unregister(s.book, i)))
  {
  }

  lemma {:induction false} MildKept(s: Ctx, i: nat, r: Handled)
    requires i < |s.book.clients| && HandledMild(s, r)
    ensures r.Ok? ==> KeptThere(s, i, r.ctx)
  {
    hide KeptAt, Marks;
  }

  lemma {:induction false} OthersKept(s: Ctx, i: nat, m: ClientMsg, bad: Links)
    requires i < |s.book.clients| && i !in s.book.toClean && s.book.clients[i].registered && AsSession(m) == Session.Other
    ensures HandleClientMsg(s, i, m, bad).Ok? ==> KeptThere(s, i, HandleClientMsg(s, i, m, bad).ctx)
  {
    hide HandledMild, Notify, NotifyAll, HandleSlotMsg, WithBook, HandleRegister, Unregister;
    match m
    case AskRestart(cause, dbg) =>
      var s1 := s.(restart := if cause == MdmErr then ModemRestart else ModemUpdate, dbg := dbg);
      EventMild(s1, CliRestart, bad);
      MildKept(s1, i, Notify(s1, CliRestart, bad));
    case AskBackup =>
      var s1 := s.(restart := BackupNvm);
      EventMild(s1, CliRestart, bad);
      MildKept(s1, i, Notify(s1, CliRestart, bad));
    case NotifyDbg =>
      AllMild(s, DbgInfo, bad);
      MildKept(s, i, NotifyAll(s, DbgInfo, bad));
    case AskShutdown =>
    case UnknownId =>
    case _ => AckKept(s, i, m);
  }

  lemma {:induction false} MarkedFollows(s: Ctx, i: nat, m: ClientMsg, ignored: bool, bad: Links)
    requires i < |s.book.clients| && i in s.book.toClean
    ensures HandleClientMsg(s, i, m, bad) == Ok(s) && Follows(s, i, m, ignored, Ok(s))
  {
    hide Notify, NotifyAll, HandleSlotMsg, WithBook, HandleRegister, HandleRestart, Unregister;
  }

  lemma {:induction false} StrangerLeaves(s: Ctx, i: nat, m: ClientMsg, bad: Links)
    requires i < |s.book.clients| && i !in s.book.toClean && !s.book.clients[i].registered && !m.Register?
    ensures HandleClientMsg(s, i, m, bad) == WithBook(s, Unregister(s.book, i))
  {
    hide Notify, NotifyAll, HandleSlotMsg, WithBook, HandleRegister, HandleRestart, Unregister;
  }

  /** Client abstraction is such a server: for every context, every socket and every message. */
  lemma {:induction false} HandlerFollows(s: Ctx, i: nat, m: ClientMsg, ignored: bool, bad: Links)
    requires i < |s.book.clients|
    ensures Follows(s, i, m, ignored, HandleClientMsg(s, i, m, bad))
  {
    hide HandleClientMsg, Follows, KeptThere, WithBook, Unregister;
    if i in s.book.toClean {
      MarkedFollows(s, i, m, ignored, bad);
    } else if m.Register? || m.Acquire? || m.Release? {
      SlotFollows(s, i, m, ignored, bad);
    } else if !s.book.clients[i].registered {
      StrangerLeaves(s, i, m, bad);
      StrangerFollows(s, i, m, ignored);
    } else {
      OthersKept(s, i, m, bad);
      OtherFollows(s, i, m, ignored, HandleClientMsg(s, i, m, bad));
    }
  }

  // ---------------------------------------------------------------- the hold, exactly

  /** The hold of a slot after a message of its own. A request to acquire or release is done
      unless the client is marked, not registered, or requests are rejected; any other message
      ends the hold exactly if it marks the client. */
  predicate HoldExact(s: Ctx, i: nat, m: ClientMsg, s': Ctx) {
    && i < |s.book.clients| == |s'.book.clients|
    && var c, c' := s.book.clients[i], s'.book.clients[i];
       && (!c'.registered ==> !c'.acquired)
       && c'.acquired == if m.Acquire? || m.Release? then
                           if i !in s.book.toClean && c.registered && !s.reject then m.Acquire? else c.acquired
                         else c.acquired && !(i in s'.book.toClean && i !in s.book.toClean)
  }

  lemma {:induction false} LeaveHold(b: Book, i: nat)
    requires i < |b.clients| && i !in b.toClean
    ensures Unregister(b, i).Ok? ==>
              && |Unregister(b, i).ctx.clients| == |b.clients|
              && Unregister(b, i).ctx.clients[i].registered == b.clients[i].registered
              && Unregister(b, i).ctx.clients[i].acquired == (b.clients[i].acquired && !b.clients[i].registered)
              && i in Unregister(b, i).ctx.toClean
  {
  }

  lemma {:induction false} JoinHold(b: Book, i: nat, events: set<Event>, modem: Mdm, bad: Links)
    requires i < |b.clients| && i !in b.toClean && !b.clients[i].registered && !b.clients[i].acquired
    ensures var r := HandleRegister(b, i, events, modem, bad);
            r.Ok? ==> |r.ctx.clients| == |b.clients| && r.ctx.clients[i].registered && !r.ctx.clients[i].acquired
  {
    hide NotifySingle;
    var b1 := b.(clients := b.clients[i := b.clients[i].(registered := true, events := events)]);
    SingleUntouched(b1, i, ToEvent(modem), bad(ToEvent(modem), i));
    var r := NotifySingle(b1, i, ToEvent(modem), bad(ToEvent(modem), i));
    if r.Ok? {
      assert KeptAt(b1, r.ctx, i);
    }
  }

  lemma {:induction false} RequestHold(b: Book, i: nat, m: ClientMsg, reject: bool)
    requires i < |b.clients| && (m.Acquire? || m.Release?)
    ensures var r := HandleSlotMsg(b, i, m, reject);
            r.Ok? ==>
              && |r.ctx.clients| == |b.clients| && r.ctx.clients[i].registered == b.clients[i].registered
              && r.ctx.clients[i].acquired == if reject then b.clients[i].acquired else m.Acquire?
  {
  }

  lemma {:induction false} SlotHold(s: Ctx, i: nat, m: ClientMsg, bad: Links)
    requires i < |s.book.clients| && i !in s.book.toClean && (s.book.clients[i].registered || !s.book.clients[i].acquired)
    requires (m.Register? || m.Acquire? || m.Release?) && HandleClientMsg(s, i, m, bad).Ok?
    ensures HoldExact(s, i, m, HandleClientMsg(s, i, m, bad).ctx)
  {
    hide HandleClientMsg, Unregister, HandleRegister, HandleSlotMsg;
    Dispatch(s, i, m, bad);
    LeaveHold(s.book, i);
    if m.Register? {
      if s.book.clients[i].registered {
        AgainLeaves(s.book, i, m.events, s.modem, bad);
      } else {
        JoinHold(s.book, i, m.events, s.modem, bad);
      }
    } else {
      RequestHold(s.book, i, m, s.reject);
    }
  }

  lemma {:induction false} StrangerHold(s: Ctx, i: nat, m: ClientMsg)
    requires i < |s.book.clients| && i !in s.book.toClean && !s.book.clients[i].registered && !s.book.clients[i].acquired
    requires !m.Acquire? && !m.Release? && WithBook(s, Unregister(s.book, i)).Ok?
    ensures HoldExact(s, i, m, WithBook(s, Unregister(s.book, i)).ctx)
  {
    hide Unregister;
    LeaveHold(s.book, i);
  }

  /** The hold of a session changes by its own messages exactly so. */
  lemma {:induction false} OwnHold(s: Ctx, i: nat, m: ClientMsg, bad: Links)
    requires i < |s.book.clients| && (s.book.clients[i].registered || !s.book.clients[i].acquired)
    requires HandleClientMsg(s, i, m, bad).Ok?
    ensures HoldExact(s, i, m, HandleClientMsg(s, i, m, bad).ctx)
  {
    hide HandleClientMsg, Follows, WithBook, Unregister;
    if i in s.book.toClean {
      MarkedFollows(s, i, m, false, bad);
    } else if m.Register? || m.Acquire? || m.Release? {
      SlotHold(s, i, m, bad);
    } else if !s.book.clients[i].registered {
      StrangerLeaves(s, i, m, bad);
      StrangerHold(s, i, m);
    } else {
      OthersKept(s, i, m, bad);
    }
  }
}
