/**
 The client array and its counters: what registration, broadcasts, acknowledgements and
 the removal of clients keep.
 */
module ClaBook {
  import opened Common
  import opened Cla

  predicate IsAcquired(c: Client) { c.acquired }
  predicate IsCold(c: Client) { c.waitCold }
  predicate IsShut(c: Client) { c.waitShut }

  /** Number of clients with a given flag. */
  function Num(cs: seq<Client>, f: Client -> bool): nat {
    if cs == [] then 0 else Bit(f(cs[0])) + Num(cs[1..], f)
  }

  predicate Idle(c: Client) {
    !c.acquired && !c.waitCold && !c.waitShut
  }

  /** Counter/flag agreement for both acknowledgements; an unregistered slot is blank. */
  predicate Agrees(b: Book) {
    && b.numCold == Num(b.clients, IsCold)
    && b.numShut == Num(b.clients, IsShut)
    && forall i :: 0 <= i < |b.clients| && !b.clients[i].registered ==>
         Idle(b.clients[i]) && b.clients[i].events == {}
  }

  predicate BookOk(b: Book) {
    Agrees(b) && b.numAcquired >= 0 && b.numCold >= 0 && b.numShut >= 0
  }

  /** Clients marked for removal hold nothing. */
  predicate MarkedIdle(b: Book) {
    forall i :: 0 <= i < |b.clients| && i in b.toClean ==> Idle(b.clients[i])
  }

  /** How far the acquisition counter is above the number of holders. */
  function Surplus(b: Book): int {
    b.numAcquired - Num(b.clients, IsAcquired)
  }

  /** What a book keeps through any broadcast or removal. */
  predicate Kept(b: Book, b': Book) {
    && BookOk(b')
    && |b'.clients| == |b.clients|
    && Surplus(b') == Surplus(b)
    && b'.numAcquired <= b.numAcquired
    && (MarkedIdle(b) ==> MarkedIdle(b'))
  }

  lemma {:induction false} NumUpdate(cs: seq<Client>, i: nat, c: Client, f: Client -> bool)
    requires i < |cs|
    ensures Num(cs[i := c], f) == Num(cs, f) - Bit(f(cs[i])) + Bit(f(c))
  {
    if i == 0 {
      assert cs[0 := c][1..] == cs[1..];
    } else {
      NumUpdate(cs[1..], i - 1, c, f);
      assert cs[i := c][1..] == cs[1..][i - 1 := c];
    }
  }

  lemma {:induction false} NumIn(cs: seq<Client>, i: nat, f: Client -> bool)
    requires i < |cs| && f(cs[i])
    ensures Num(cs, f) >= 1
  {
    if i > 0 {
      NumIn(cs[1..], i - 1, f);
    }
  }

  lemma {:induction false} NumNone(cs: seq<Client>, f: Client -> bool)
    requires forall i :: 0 <= i < |cs| ==> !f(cs[i])
    ensures Num(cs, f) == 0
  {
    if cs != [] {
      NumNone(cs[1..], f);
    }
  }

  lemma {:induction false} NumSnoc(cs: seq<Client>, c: Client, f: Client -> bool)
    ensures Num(cs + [c], f) == Num(cs, f) + Bit(f(c))
  {
    if cs != [] {
      assert (cs + [c])[1..] == cs[1..] + [c];
      NumSnoc(cs[1..], c, f);
    }
  }

  /** A slot update moves each count by the change of its flag. */
  lemma SlotUpdate(cs: seq<Client>, i: nat, c: Client)
    requires i < |cs|
    ensures Num(cs[i := c], IsAcquired) == Num(cs, IsAcquired) - Bit(cs[i].acquired) + Bit(c.acquired)
    ensures Num(cs[i := c], IsCold) == Num(cs, IsCold) - Bit(cs[i].waitCold) + Bit(c.waitCold)
    ensures Num(cs[i := c], IsShut) == Num(cs, IsShut) - Bit(cs[i].waitShut) + Bit(c.waitShut)
  {
    NumUpdate(cs, i, c, IsAcquired);
    NumUpdate(cs, i, c, IsCold);
    NumUpdate(cs, i, c, IsShut);
  }

  lemma UnregisterKeeps(b: Book, i: nat)
    requires i < |b.clients| && BookOk(b) && i !in b.toClean
    ensures Unregister(b, i).Abort? ==> Unregister(b, i).why == NegativeAcquired && Surplus(b) < 0
    ensures Unregister(b, i).Ok? ==>
              var b' := Unregister(b, i).ctx;
              && Kept(b, b')
              && b'.numCold <= b.numCold && b'.numShut <= b.numShut
              && (forall j :: 0 <= j < |b.clients| && j != i ==> b'.clients[j] == b.clients[j])
  {
    var c := b.clients[i];
    SlotUpdate(b.clients, i, c.(acquired := false, waitCold := false, waitShut := false));
    if c.acquired { NumIn(b.clients, i, IsAcquired); }
    if c.waitCold { NumIn(b.clients, i, IsCold); }
    if c.waitShut { NumIn(b.clients, i, IsShut); }
  }

  /** No acknowledgement of the same kind is pending from slot `i` on, nor any of the other kind. */
  predicate CanExpect(b: Book, e: Event, i: nat) {
    && (e == ColdReset ==> b.numShut == 0 && forall j :: i <= j < |b.clients| ==> !b.clients[j].waitCold)
    && (e == Shutdown ==> b.numCold == 0 && forall j :: i <= j < |b.clients| ==> !b.clients[j].waitShut)
  }

  lemma SingleKeeps(b: Book, i: nat, e: Event, failed: bool)
    requires i < |b.clients| && BookOk(b) && i !in b.toClean && CanExpect(b, e, i)
    ensures var r := NotifySingle(b, i, e, failed);
            && (r.Abort? ==> r.why == NegativeAcquired && Surplus(b) < 0)
            && (r.Ok? ==>
                  && Kept(b, r.ctx)
                  && (e != ColdReset ==> r.ctx.numCold <= b.numCold)
                  && (e != Shutdown ==> r.ctx.numShut <= b.numShut)
                  && (forall j :: 0 <= j < |b.clients| && j != i ==> r.ctx.clients[j] == b.clients[j]))
  {
    hide Deliver, Expect, Unregister;
    if e in b.clients[i].events {
      var b1 := Expect(b, i, e);
      ExpectKeeps(b, i, e);
      UnregisterKeeps(b1, i);
      DeliverKeeps(b1, i, e);
    }
  }

  lemma {:induction false} ExpectKeeps(b: Book, i: nat, e: Event)
    requires i < |b.clients| && BookOk(b) && i !in b.toClean && CanExpect(b, e, i) && e in b.clients[i].events
    ensures var b1 := Expect(b, i, e);
            && Kept(b, b1) && b1.toClean == b.toClean
            && (e != ColdReset ==> b1.numCold == b.numCold) && (e != Shutdown ==> b1.numShut == b.numShut)
            && (forall j :: 0 <= j < |b.clients| && j != i ==> b1.clients[j] == b.clients[j])
  {
    SlotUpdate(b.clients, i, b.clients[i].(waitCold := true));
    SlotUpdate(b.clients, i, b.clients[i].(waitShut := true));
  }

  lemma {:induction false} DeliverKeeps(b: Book, i: nat, e: Event)
    requires i < |b.clients| && BookOk(b) && i !in b.toClean
    ensures Kept(b, Deliver(b, i, e)) && Deliver(b, i, e) == b.(clients := Deliver(b, i, e).clients)
    ensures forall j :: 0 <= j < |b.clients| && j != i ==> Deliver(b, i, e).clients[j] == b.clients[j]
  {
    SlotUpdate(b.clients, i, b.clients[i].(told := b.clients[i].told + [e]));
  }

  /** A broadcast keeps the book. Only a COLD_RESET or SHUTDOWN broadcast raises a counter,
      and only an acquisition counter below the number of holders can stop it. */
  lemma {:induction false} BroadcastKeeps(b: Book, e: Event, bad: Links, i: nat)
    requires i <= |b.clients| && BookOk(b) && CanExpect(b, e, i)
    ensures var r := NotifyFrom(b, e, bad, i);
            && (r.Abort? ==> r.why == NegativeAcquired && Surplus(b) < 0)
            && (r.Ok? ==>
                  && Kept(b, r.ctx)
                  && (e != ColdReset ==> r.ctx.numCold <= b.numCold)
                  && (e != Shutdown ==> r.ctx.numShut <= b.numShut))
    decreases |b.clients| - i
  {
    hide NotifySingle, Agrees, MarkedIdle, Num;
    if i < |b.clients| {
      if i in b.toClean {
        BroadcastKeeps(b, e, bad, i + 1);
      } else {
        SingleKeeps(b, i, e, bad(e, i));
        var r := NotifySingle(b, i, e, bad(e, i));
        if r.Ok? {
          BroadcastKeeps(r.ctx, e, bad, i + 1);
        }
      }
    }
  }

  /** With no acknowledgement pending, any event may be broadcast. */
  lemma {:induction false} QuietBook(b: Book, e: Event)
    requires BookOk(b) && !Waiting(b)
    ensures CanExpect(b, e, 0)
  {
    forall j | 0 <= j < |b.clients|
      ensures !b.clients[j].waitCold && !b.clients[j].waitShut
    {
      if b.clients[j].waitCold { NumIn(b.clients, j, IsCold); }
      if b.clients[j].waitShut { NumIn(b.clients, j, IsShut); }
    }
  }

  lemma SlotMsgKeeps(b: Book, i: nat, m: ClientMsg, reject: bool)
    requires i < |b.clients| && BookOk(b) && i !in b.toClean && b.clients[i].registered
    requires m.Acquire? || m.Release? || m.AckColdReset? || m.AckShutdown?
    ensures var r := HandleSlotMsg(b, i, m, reject);
            && (r.Abort? ==> r.why == NegativeAcquired && Surplus(b) < 0)
            && (r.Ok? ==>
                  && BookOk(r.ctx)
                  && Surplus(r.ctx) == Surplus(b)
                  && r.ctx.numCold <= b.numCold && r.ctx.numShut <= b.numShut
                  && (m.Acquire? ==> r.ctx.numCold == b.numCold && r.ctx.numShut == b.numShut
                                     && (reject ==> r.ctx == b))
                  && (!m.Acquire? ==> r.ctx.numAcquired <= b.numAcquired)
                  && (MarkedIdle(b) ==> MarkedIdle(r.ctx)))
  {
    hide Num;
    var c := b.clients[i];
    match m
    case Acquire => SlotUpdate(b.clients, i, c.(acquired := true));
    case Release =>
      SlotUpdate(b.clients, i, c.(acquired := false));
      if c.acquired { NumIn(b.clients, i, IsAcquired); }
    case AckColdReset =>
      SlotUpdate(b.clients, i, c.(waitCold := false));
      if c.waitCold { NumIn(b.clients, i, IsCold); }
    case AckShutdown =>
      SlotUpdate(b.clients, i, c.(waitShut := false));
      if c.waitShut { NumIn(b.clients, i, IsShut); }
  }

  lemma RegisterKeeps(b: Book, i: nat, events: set<Event>, modem: Mdm, bad: Links)
    requires i < |b.clients| && BookOk(b) && i !in b.toClean
    ensures var r := HandleRegister(b, i, events, modem, bad);
            && (r.Abort? ==> r.why == NegativeAcquired && Surplus(b) < 0)
            && (r.Ok? ==> Kept(b, r.ctx) && r.ctx.numCold <= b.numCold && r.ctx.numShut <= b.numShut)
  {
    if b.clients[i].registered {
      UnregisterKeeps(b, i);
    } else {
      var c := b.clients[i].(registered := true, events := events);
      SlotUpdate(b.clients, i, c);
      var b1 := b.(clients := b.clients[i := c]);
      assert BookOk(b1);
      SingleKeeps(b1, i, ToEvent(modem), bad(ToEvent(modem), i));
    }
  }

  /** The time-out of the acknowledgements clears every flag and both counters. */
  lemma ClearKeeps(b: Book)
    requires BookOk(b)
    ensures var b' := ClearAcks(b);
            && BookOk(b') && !Waiting(b') && Surplus(b') == Surplus(b)
            && |b'.clients| == |b.clients| && b'.numAcquired == b.numAcquired
  {
    var b' := ClearAcks(b);
    NumNone(b'.clients, IsCold);
    NumNone(b'.clients, IsShut);
    NumSame(b.clients, b'.clients);
  }

  lemma {:induction false} NumSame(cs: seq<Client>, ds: seq<Client>)
    requires |cs| == |ds| && forall i :: 0 <= i < |cs| ==> cs[i].acquired == ds[i].acquired
    ensures Num(cs, IsAcquired) == Num(ds, IsAcquired)
  {
    if cs != [] {
      NumSame(cs[1..], ds[1..]);
    }
  }

  // ---------------------------------------------------------------- removal

  lemma {:induction false} UnmarkedNum(cs: seq<Client>, marked: set<nat>, i: nat, f: Client -> bool)
    requires i <= |cs|
    requires forall j :: 0 <= j < |cs| && j in marked ==> !f(cs[j])
    ensures Num(Unmarked(cs, marked, i), f) == Num(cs[i..], f)
    decreases |cs| - i
  {
    if i < |cs| {
      UnmarkedNum(cs, marked, i + 1, f);
      assert cs[i..][1..] == cs[i + 1..];
      if i !in marked {
        assert Unmarked(cs, marked, i)[1..] == Unmarked(cs, marked, i + 1);
      }
    }
  }

  lemma {:induction false} UnmarkedBlank(cs: seq<Client>, marked: set<nat>, i: nat)
    requires i <= |cs|
    requires forall j :: 0 <= j < |cs| && !cs[j].registered ==> Idle(cs[j]) && cs[j].events == {}
    ensures forall c :: c in Unmarked(cs, marked, i) && !c.registered ==> Idle(c) && c.events == {}
    decreases |cs| - i
  {
    if i < |cs| {
      UnmarkedBlank(cs, marked, i + 1);
    }
  }

  /** Removing the marked clients preserves all three counter/flag agreements. */
  lemma CompactKeeps(b: Book)
    requires BookOk(b) && MarkedIdle(b)
    ensures var b' := b.(clients := Unmarked(b.clients, b.toClean, 0));
            BookOk(b') && Surplus(b') == Surplus(b)
  {
    UnmarkedNum(b.clients, b.toClean, 0, IsAcquired);
    UnmarkedNum(b.clients, b.toClean, 0, IsCold);
    UnmarkedNum(b.clients, b.toClean, 0, IsShut);
    UnmarkedBlank(b.clients, b.toClean, 0);
    assert b.clients[0..] == b.clients;
  }
}
