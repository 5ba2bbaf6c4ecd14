/**
 The Java bridge daemon, client side: frames put together from whatever the sockets deliver,
 and the wakelock shared by all clients.
 */
module BridgeInput {
  import opened Common
  import Wire

  type Byte = Wire.Byte

  const MAX_CLIENTS := 3
  const MAX_MSG_SIZE := 2048
  const HDR := 8

  const WAKELOCK_ACQUIRE := 0
  const WAKELOCK_RELEASE := 1
  const COMMAND_NUM := 4

  datatype Phase = Idle | InHdr | InMsg

  /** One client; `hdr` and `body` are what has been read of the current frame. */
  datatype Client = Client(open: bool, phase: Phase, hdr: seq<Byte>, body: seq<Byte>, cnt: int)

  const CLOSED := Client(false, Idle, [], [], 0)

  datatype Action = Wake(acquire: bool) | Queue(frame: seq<Byte>) | Disconnect

  predicate Valid(c: Client) {
    && (c.phase == InHdr ==> |c.hdr| < HDR)
    && (c.phase == InMsg ==> |c.hdr| == HDR && |c.body| <= SizeOf(c.hdr))
  }

  function SizeOf(hdr: seq<Byte>): nat
    requires |hdr| == HDR
  {
    Wire.WordOf(hdr)
  }

  function KindOf(hdr: seq<Byte>): nat
    requires |hdr| == HDR
  {
    Wire.WordOf(hdr[4..])
  }

  /** Bytes still asked from the socket. */
  function Needed(c: Client): nat
    requires Valid(c)
  {
    match c.phase
    case Idle => HDR
    case InHdr => HDR - |c.hdr|
    case InMsg => SizeOf(c.hdr) - |c.body|
  }

  function Close(c: Client): Client {
    c.(open := false)
  }

  type Result = (Client, seq<Action>)

  /** A complete header: a wakelock command is done at once, a frame of a known kind and a
      reasonable size is waited for, anything else loses the client. */
  function Header(c: Client): Result
    requires |c.hdr| == HDR
  {
    var size, kind := SizeOf(c.hdr), KindOf(c.hdr);
    if kind == WAKELOCK_ACQUIRE || kind == WAKELOCK_RELEASE then
      if size != 0 then (Close(c), [Disconnect])
      else
        var c1 := c.(cnt := if kind == WAKELOCK_ACQUIRE then c.cnt + 1 else c.cnt - 1);
        if c1.cnt < 0 then (Close(c1), [Disconnect])
        else (c1.(phase := Idle), [Wake(kind == WAKELOCK_ACQUIRE)])
    else if kind >= COMMAND_NUM || size >= MAX_MSG_SIZE then (Close(c), [Disconnect])
    else (c.(phase := InMsg, body := []), [])
  }

  /** One read of `chunk`: at most what was asked for, at least a byte. A frame of size 0 leaves
      nothing to ask for, and the read that follows returns 0, which loses the client. */
  function Read(c: Client, chunk: seq<Byte>): Result
    requires Valid(c) && (Needed(c) > 0 ==> 0 < |chunk| <= Needed(c))
  {
    if !c.open then (c, [])
    else if Needed(c) == 0 then (Close(c), [Disconnect])
    else if c.phase == InMsg then
      var c1 := c.(body := c.body + chunk);
      if |chunk| == Needed(c) then (c1.(phase := Idle), [Queue(c1.hdr + c1.body)]) else (c1, [])
    else
      var c1 := c.(phase := InHdr, hdr := if c.phase == Idle then chunk else c.hdr + chunk);
      if |chunk| == Needed(c) then Header(c1) else (c1, [])
  }

  lemma {:induction false} ReadValid(c: Client, chunk: seq<Byte>)
    requires Valid(c) && (Needed(c) > 0 ==> 0 < |chunk| <= Needed(c))
    ensures Read(c, chunk).0.open ==> Valid(Read(c, chunk).0)
  {
    hide Wire.WordOf;
  }

  // ---------------------------------------------------------------- byte by byte

  /** A client that is gone ignores what is left. */
  function Step(c: Client, b: Byte): Result
    requires c.open ==> Valid(c)
  {
    if c.open then Read(c, [b]) else (c, [])
  }

  function Steps(c: Client, bs: seq<Byte>): (r: Result)
    requires c.open ==> Valid(c)
    ensures r.0.open ==> Valid(r.0)
    decreases |bs|
  {
    if bs == [] then (c, [])
    else
      ReadOk(c, bs[0]);
      var (c1, a1) := Step(c, bs[0]);
      var (c2, a2) := Steps(c1, bs[1..]);
      (c2, a1 + a2)
  }

  lemma {:induction false} ReadOk(c: Client, b: Byte)
    requires c.open ==> Valid(c)
    ensures Step(c, b).0.open ==> Valid(Step(c, b).0)
  {
    if c.open {
      ReadValid(c, [b]);
    }
  }

  lemma {:induction false} StepsAppend(c: Client, xs: seq<Byte>, ys: seq<Byte>)
    requires c.open ==> Valid(c)
    ensures var (c1, a1) := Steps(c, xs);
            var (c2, a2) := Steps(c1, ys);
            Steps(c, xs + ys) == (c2, a1 + a2)
    decreases |xs|
  {
    hide Step;
    if xs == [] {
      assert xs + ys == ys;
      assert [] + Steps(c, ys).1 == Steps(c, ys).1;
    } else {
      assert (xs + ys)[1..] == xs[1..] + ys;
      ReadOk(c, xs[0]);
      var (c1, a1) := Step(c, xs[0]);
      StepsAppend(c1, xs[1..], ys);
      var (c2, a2) := Steps(c1, xs[1..]);
      var (c3, a3) := Steps(c2, ys);
      assert a1 + (a2 + a3) == (a1 + a2) + a3;
      assert Steps(c, xs) == (c2, a1 + a2);
      assert Steps(c, xs + ys) == (c3, a1 + (a2 + a3));
    }
  }

  lemma {:induction false} ClosedSteps(c: Client, bs: seq<Byte>)
    requires !c.open
    ensures Steps(c, bs) == (c, [])
    decreases |bs|
  {
    if bs != [] {
      ClosedSteps(c, bs[1..]);
      var none: seq<Action> := [];
      assert none + none == none;
    }
  }

  /** A short read, then the rest: the same as one read. */
  lemma {:induction false} ReadSplit(c: Client, b: Byte, rest: seq<Byte>)
    requires Valid(c) && c.open && rest != [] && 1 + |rest| <= Needed(c)
    ensures var c1 := Read(c, [b]).0;
            && Read(c, [b]).1 == [] && c1.open && Valid(c1) && Needed(c1) == Needed(c) - 1
            && Read(c1, rest) == Read(c, [b] + rest)
  {
    hide Wire.WordOf;
    var c1 := Read(c, [b]).0;
    if c.phase == InMsg {
      assert c1.body + rest == c.body + ([b] + rest);
    } else {
      assert c1.hdr + rest == (if c.phase == Idle then [b] + rest else c.hdr + ([b] + rest));
    }
  }

  /** One read of several bytes does what its bytes do one at a time. */
  lemma {:induction false} ReadIsSteps(c: Client, chunk: seq<Byte>)
    requires c.open && Valid(c) && chunk != [] && (Needed(c) > 0 ==> |chunk| <= Needed(c))
    ensures Read(c, chunk) == Steps(c, chunk)
    decreases |chunk|
  {
    hide Header;
    if Needed(c) == 0 {
      ClosedSteps(Close(c), chunk[1..]);
      assert Step(c, chunk[0]) == (Close(c), [Disconnect]);
      assert [Disconnect] + [] == [Disconnect];
    } else if |chunk| == 1 {
      assert chunk == [chunk[0]] && chunk[1..] == [];
      ReadOk(c, chunk[0]);
      assert Steps(Read(c, chunk).0, []) == (Read(c, chunk).0, []);
      assert Read(c, chunk).1 + [] == Read(c, chunk).1;
    } else {
      var rest := chunk[1..];
      assert chunk == [chunk[0]] + rest;
      ReadSplit(c, chunk[0], rest);
      ReadIsSteps(Read(c, [chunk[0]]).0, rest);
      assert [] + Read(c, chunk).1 == Read(c, chunk).1;
    }
  }

  // ---------------------------------------------------------------- reads

  /** The reads poll can lead to: each takes what is there, up to what is needed; nothing is
      read from a client that is gone. */
  predicate Possible(c: Client, rs: seq<seq<Byte>>)
    requires c.open ==> Valid(c)
    decreases |rs|
  {
    if rs == [] then true
    else if rs[0] == [] then false
    else if !c.open then Possible(c, rs[1..])
    else if Needed(c) > 0 && |rs[0]| > Needed(c) then false
    else
      ReadValid(c, rs[0]);
      Possible(Read(c, rs[0]).0, rs[1..])
  }

  function Reads(c: Client, rs: seq<seq<Byte>>): Result
    requires (c.open ==> Valid(c)) && Possible(c, rs)
    decreases |rs|
  {
    if rs == [] then (c, [])
    else if !c.open then (c, [])
    else
      ReadValid(c, rs[0]);
      var (c1, a1) := Read(c, rs[0]);
      var (c2, a2) := Reads(c1, rs[1..]);
      (c2, a1 + a2)
  }

  function Flat(rs: seq<seq<Byte>>): seq<Byte> {
    if rs == [] then [] else rs[0] + Flat(rs[1..])
  }

  lemma {:induction false} ReadsAreSteps(c: Client, rs: seq<seq<Byte>>)
    requires (c.open ==> Valid(c)) && Possible(c, rs)
    ensures Reads(c, rs) == Steps(c, Flat(rs))
    decreases |rs|
  {
    hide Read, Step;
    if rs != [] {
      if c.open {
        ReadValid(c, rs[0]);
        ReadIsSteps(c, rs[0]);
        ReadsAreSteps(Read(c, rs[0]).0, rs[1..]);
        StepsAppend(c, rs[0], Flat(rs[1..]));
      } else {
        ClosedSteps(c, Flat(rs));
      }
    }
  }

  /** However the bytes are cut into reads, the wakelock operations, the frames queued and the
      decision to disconnect are the same. */
  lemma {:induction false} ChunkingIrrelevant(c: Client, rs: seq<seq<Byte>>, rs': seq<seq<Byte>>)
    requires (c.open ==> Valid(c)) && Possible(c, rs) && Possible(c, rs') && Flat(rs) == Flat(rs')
    ensures Reads(c, rs) == Reads(c, rs')
  {
    ReadsAreSteps(c, rs);
    ReadsAreSteps(c, rs');
  }

  // ---------------------------------------------------------------- frames one at a time

  /** What a well-formed client sends. */
  predicate GoodFrame(f: seq<Byte>) {
    && |f| > HDR
    && SizeOf(f[..HDR]) == |f| - HDR < MAX_MSG_SIZE
    && WAKELOCK_RELEASE < KindOf(f[..HDR]) < COMMAND_NUM
  }

  /** A frame that arrives while nothing is pending is queued whole, and nothing else happens. */
  lemma {:induction false} FrameQueued(c: Client, f: seq<Byte>)
    requires c.open && c.phase == Idle && GoodFrame(f)
    ensures Steps(c, f).1 == [Queue(f)] && Steps(c, f).0 == c.(hdr := f[..HDR], body := f[HDR..])
  {
    hide Wire.WordOf, Steps;
    var c1 := c.(phase := InMsg, hdr := f[..HDR], body := []);
    ReadIsSteps(c, f[..HDR]);
    ReadIsSteps(c1, f[HDR..]);
    StepsAppend(c, f[..HDR], f[HDR..]);
    assert f[..HDR] + f[HDR..] == f;
    assert [] + f[HDR..] == f[HDR..];
  }

  // ---------------------------------------------------------------- the daemon's clients

  predicate Holds(c: Client) {
    c.open && c.cnt > 0
  }

  predicate SomeHolds(cs: seq<Client>) {
    exists i :: 0 <= i < |cs| && Holds(cs[i])
  }

  class Clients {
    const ctx: array<Client>
    var held: bool

    ghost predicate Ok()
      reads this, ctx
    {
      && ctx.Length == MAX_CLIENTS
      && (forall i :: 0 <= i < MAX_CLIENTS && ctx[i].open ==> Valid(ctx[i]))
      && held == SomeHolds(ctx[..])
    }

    constructor ()
      ensures Ok() && fresh(ctx)
    {
      ctx := new Client[MAX_CLIENTS](_ => CLOSED);
      held := false;
    }

    /** handle_wakelock_change: the loop stops at the first holder. */
    method WakelockChange()
      requires ctx.Length == MAX_CLIENTS
      modifies `held
      ensures held == SomeHolds(ctx[..])
    {
      var isHeld := false;
      var i := 0;
      while i < MAX_CLIENTS && !isHeld
        invariant 0 <= i <= MAX_CLIENTS
        invariant isHeld <==> exists k :: 0 <= k < i && Holds(ctx[k])
      {
        isHeld := Holds(ctx[i]);
        i := i + 1;
      }
      held := isHeld;
      if isHeld {
        var k :| 0 <= k < i && Holds(ctx[k]);
        assert Holds(ctx[..][k]);
      }
    }

    /** handle_c_client_remove: only a client that holds the wakelock can change it. */
    method Remove(i: nat)
      requires i < MAX_CLIENTS && ctx.Length == MAX_CLIENTS && ctx[i].open
      requires forall k :: 0 <= k < MAX_CLIENTS && k != i && ctx[k].open ==> Valid(ctx[k])
      requires ctx[i].cnt <= 0 ==> held == SomeHolds(ctx[..])
      modifies this, ctx
      ensures Ok() && ctx[..] == old(ctx[..])[i := Close(old(ctx[i]))]
    {
      ghost var before := ctx[..];
      ctx[i] := Close(ctx[i]);
      if ctx[i].cnt > 0 {
        WakelockChange();
      } else {
        SameHolders(before, ctx[..], i);
      }
    }

    /** handle_c_client_conn: the first free slot, if there is one. */
    method Connect() returns (slot: Option<nat>)
      requires Ok()
      modifies ctx
      ensures Ok()
      ensures slot == None <==> forall k :: 0 <= k < MAX_CLIENTS ==> old(ctx[k]).open
      ensures slot == None ==> ctx[..] == old(ctx[..])
      ensures slot.Some? ==> slot.value < MAX_CLIENTS && !old(ctx[slot.value]).open
                             && ctx[..] == old(ctx[..])[slot.value := Client(true, Idle, [], [], 0)]
    {
      var i := 0;
      while i < MAX_CLIENTS
        invariant 0 <= i <= MAX_CLIENTS && Ok() && ctx[..] == old(ctx[..])
        invariant forall k :: 0 <= k < i ==> ctx[k].open
      {
        if !ctx[i].open {
          ghost var before := ctx[..];
          ctx[i] := Client(true, Idle, [], [], 0);
          SameHolders(before, ctx[..], i);
          return Some(i);
        }
        i := i + 1;
      }
      return None;
    }

    /** handle_c_client_event with `chunk` read from the socket; an empty one is an error. */
    method Event(i: nat, chunk: seq<Byte>) returns (actions: seq<Action>)
      requires Ok() && i < MAX_CLIENTS && ctx[i].open
      requires Needed(ctx[i]) > 0 ==> |chunk| <= Needed(ctx[i])
      modifies this, ctx
      ensures Ok()
      ensures forall k :: 0 <= k < MAX_CLIENTS && k != i ==> ctx[k] == old(ctx[k])
      ensures chunk == [] ==> ctx[i] == Close(old(ctx[i])) && actions == [Disconnect]
      ensures chunk != [] ==> (ctx[i], actions) == Read(old(ctx[i]), chunk)
    {
      hide Wire.WordOf;
      if chunk == [] || Needed(ctx[i]) == 0 {
        Remove(i);
        return [Disconnect];
      }
      ReadValid(ctx[i], chunk);
      var done := |chunk| == Needed(ctx[i]);
      if ctx[i].phase == InMsg {
        ctx[i] := ctx[i].(body := ctx[i].body + chunk);
        if done {
          ctx[i] := ctx[i].(phase := Idle);
          actions := [Queue(ctx[i].hdr + ctx[i].body)];
        } else {
          actions := [];
        }
        SameHolders(old(ctx[..]), ctx[..], i);
      } else {
        ctx[i] := ctx[i].(phase := InHdr, hdr := if ctx[i].phase == Idle then chunk else ctx[i].hdr + chunk);
        SameHolders(old(ctx[..]), ctx[..], i);
        if done {
          actions := HeaderDone(i);
        } else {
          actions := [];
        }
      }
    }

    method HeaderDone(i: nat) returns (actions: seq<Action>)
      requires i < MAX_CLIENTS == ctx.Length && ctx[i].open && |ctx[i].hdr| == HDR
      requires forall k :: 0 <= k < MAX_CLIENTS && k != i && ctx[k].open ==> Valid(ctx[k])
      requires held == SomeHolds(ctx[..])
      modifies this, ctx
      ensures Ok()
      ensures forall k :: 0 <= k < MAX_CLIENTS && k != i ==> ctx[k] == old(ctx[k])
      ensures (ctx[i], actions) == Header(old(ctx[i]))
    {
      hide Wire.WordOf;
      var size, kind := SizeOf(ctx[i].hdr), KindOf(ctx[i].hdr);
      if kind == WAKELOCK_ACQUIRE || kind == WAKELOCK_RELEASE {
        if size != 0 {
          Remove(i);
          return [Disconnect];
        }
        ctx[i] := ctx[i].(cnt := if kind == WAKELOCK_ACQUIRE then ctx[i].cnt + 1 else ctx[i].cnt - 1);
        if ctx[i].cnt < 0 {
          SameHolders(old(ctx[..]), ctx[..], i);
          Remove(i);
          return [Disconnect];
        }
        ctx[i] := ctx[i].(phase := Idle);
        WakelockChange();
        return [Wake(kind == WAKELOCK_ACQUIRE)];
      } else if kind >= COMMAND_NUM || size >= MAX_MSG_SIZE {
        Remove(i);
        return [Disconnect];
      } else {
        ctx[i] := ctx[i].(phase := InMsg, body := []);
        SameHolders(old(ctx[..]), ctx[..], i);
        return [];
      }
    }

    /** The client part of handle_timeout: clients whose frame is late are removed. */
    method Expire(late: nat -> bool)
      requires Ok()
      modifies this, ctx
      ensures Ok()
      ensures forall k :: 0 <= k < MAX_CLIENTS ==>
                ctx[k] == if old(ctx[k]).open && old(ctx[k]).phase != Idle && late(k) then Close(old(ctx[k])) else old(ctx[k])
    {
      var i := 0;
      while i < MAX_CLIENTS
        invariant 0 <= i <= MAX_CLIENTS && Ok()
        invariant forall k :: i <= k < MAX_CLIENTS ==> ctx[k] == old(ctx[k])
        invariant forall k :: 0 <= k < i ==>
                    ctx[k] == if old(ctx[k]).open && old(ctx[k]).phase != Idle && late(k) then Close(old(ctx[k])) else old(ctx[k])
      {
        if ctx[i].open && ctx[i].phase != Idle && late(i) {
          Remove(i);
        }
        i := i + 1;
      }
    }
  }

  lemma {:induction false} SameHolders(cs: seq<Client>, ds: seq<Client>, i: nat)
    requires |cs| == |ds| && i < |cs| && Holds(cs[i]) == Holds(ds[i])
    requires forall k :: 0 <= k < |cs| && k != i ==> cs[k] == ds[k]
    ensures SomeHolds(cs) == SomeHolds(ds)
  {
    if SomeHolds(cs) {
      var k :| 0 <= k < |cs| && Holds(cs[k]);
      assert Holds(ds[k]);
    }
    if SomeHolds(ds) {
      var k :| 0 <= k < |ds| && Holds(ds[k]);
      assert Holds(cs[k]);
    }
  }
}
