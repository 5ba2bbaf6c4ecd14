/**
 What a client of the Java bridge daemon sends, command by command: wakelock operations are
 counted, frames are queued, and the client is lost at the first release of nothing.
 */
module BridgeCommands {
  import opened Common
  import opened BridgeInput
  import Format = Wire

  datatype Command = Acquire | Release | Send(frame: seq<Byte>)

  predicate Good(m: Command) {
    m.Send? ==> GoodFrame(m.frame)
  }

  predicate AllGood(ms: seq<Command>) {
    forall i :: 0 <= i < |ms| ==> Good(ms[i])
  }

  /** A wakelock command is a size of 0, then 0 to acquire and 1 to release. */
  function Coded(m: Command): seq<Byte> {
    match m
    case Acquire => [0, 0, 0, 0, 0, 0, 0, 0]
    case Release => [0, 0, 0, 0, 0, 0, 0, 1]
    case Send(frame) => frame
  }

  function CodedAll(ms: seq<Command>): seq<Byte> {
    if ms == [] then [] else CodedAll(ms[..|ms| - 1]) + Coded(ms[|ms| - 1])
  }

  function Acquires(ms: seq<Command>): nat {
    if ms == [] then 0 else Acquires(ms[..|ms| - 1]) + Bit(ms[|ms| - 1].Acquire?)
  }

  function Releases(ms: seq<Command>): nat {
    if ms == [] then 0 else Releases(ms[..|ms| - 1]) + Bit(ms[|ms| - 1].Release?)
  }

  function Done(m: Command): Action {
    match m
    case Acquire => Wake(true)
    case Release => Wake(false)
    case Send(frame) => Queue(frame)
  }

  function DoneAll(ms: seq<Command>): seq<Action> {
    seq(|ms|, i requires 0 <= i < |ms| => Done(ms[i]))
  }

  /** Nothing is released that was not acquired, from a count of `cnt`. */
  predicate Covered(cnt: int, ms: seq<Command>) {
    forall k :: 0 <= k <= |ms| ==> cnt + Acquires(ms[..k]) >= Releases(ms[..k])
  }

  predicate IdleClient(c: Client) {
    c.open && c.phase == Idle
  }

  // ---------------------------------------------------------------- one command

  lemma {:induction false} WakelockHeader(m: Command)
    requires !m.Send?
    ensures SizeOf(Coded(m)) == 0 && KindOf(Coded(m)) == if m.Acquire? then 0 else 1
  {
    if m.Acquire? {
      assert Coded(m)[4..] == [0, 0, 0, 0];
    } else {
      assert Coded(m)[4..] == [0, 0, 0, 1];
    }
  }

  /** A wakelock command, from an idle client. */
  lemma {:induction false} WakelockServed(c: Client, m: Command)
    requires IdleClient(c) && !m.Send?
    ensures var (c', acts) := Steps(c, Coded(m));
            var cnt := if m.Acquire? then c.cnt + 1 else c.cnt - 1;
            if cnt >= 0 then IdleClient(c') && c'.cnt == cnt && acts == [Done(m)]
            else !c'.open && acts == [Disconnect]
  {
    hide Steps, Format.WordOf;
    WakelockHeader(m);
    ReadIsSteps(c, Coded(m));
    WholeHeader(c, Coded(m));
  }

  lemma {:induction false} WholeHeader(c: Client, h: seq<Byte>)
    requires IdleClient(c) && |h| == HDR
    ensures Read(c, h) == Header(c.(phase := InHdr, hdr := h))
  {
    hide Format.WordOf, Header;
  }

  lemma {:induction false} CommandServed(c: Client, m: Command)
    requires IdleClient(c) && Good(m) && c.cnt + Bit(m.Acquire?) >= Bit(m.Release?)
    ensures var (c', acts) := Steps(c, Coded(m));
            IdleClient(c') && c'.cnt == c.cnt + Bit(m.Acquire?) - Bit(m.Release?) && acts == [Done(m)]
  {
    hide Steps;
    if m.Send? {
      FrameQueued(c, m.frame);
    } else {
      WakelockServed(c, m);
    }
  }

  // ---------------------------------------------------------------- streams

  /** Any commands in a row: the count is the acquisitions minus the releases, and each command
      does its own thing, in order. */
  lemma {:induction false} CommandsServed(c: Client, ms: seq<Command>)
    requires IdleClient(c) && AllGood(ms) && Covered(c.cnt, ms)
    ensures var (c', acts) := Steps(c, CodedAll(ms));
            IdleClient(c') && c'.cnt == c.cnt + Acquires(ms) - Releases(ms) && acts == DoneAll(ms)
    decreases |ms|
  {
    hide Steps, Good;
    if ms == [] {
      NothingRead(c);
    } else {
      var before, m := ms[..|ms| - 1], ms[|ms| - 1];
      Shorter(c.cnt, ms, |ms| - 1);
      CommandsServed(c, before);
      var (c1, acts) := Steps(c, CodedAll(before));
      assert Covered(c.cnt, ms) && ms[..|ms|] == ms;
      CommandServed(c1, m);
      StepsAppend(c, CodedAll(before), Coded(m));
      assert DoneAll(ms) == DoneAll(before) + [Done(m)];
    }
  }

  lemma {:induction false} NothingRead(c: Client)
    requires IdleClient(c)
    ensures Steps(c, []) == (c, [])
  {
  }

  lemma {:induction false} Shorter(cnt: int, ms: seq<Command>, k: nat)
    requires k <= |ms| && Covered(cnt, ms)
    ensures Covered(cnt, ms[..k])
  {
    forall i | 0 <= i <= k ensures cnt + Acquires(ms[..k][..i]) >= Releases(ms[..k][..i]) {
      assert ms[..k][..i] == ms[..i];
    }
  }

  function CodedFrom(ms: seq<Command>, k: nat): seq<Byte>
    requires k <= |ms|
    decreases |ms| - k
  {
    if k == |ms| then [] else Coded(ms[k]) + CodedFrom(ms, k + 1)
  }

  lemma {:induction false} CodedSplit(ms: seq<Command>, k: nat)
    requires k <= |ms|
    ensures CodedAll(ms) == CodedAll(ms[..k]) + CodedFrom(ms, k)
    decreases |ms| - k
  {
    if k == |ms| {
      assert ms[..k] == ms;
    } else {
      CodedSplit(ms, k + 1);
      assert ms[..k + 1][..k] == ms[..k];
      assert (CodedAll(ms[..k]) + Coded(ms[k])) + CodedFrom(ms, k + 1) == CodedAll(ms[..k]) + (Coded(ms[k]) + CodedFrom(ms, k + 1));
    }
  }

  /** The first release of nothing loses the client: what came before is done, what follows is
      not read. */
  lemma {:induction false} FirstBadRelease(c: Client, ms: seq<Command>, k: nat)
    requires IdleClient(c) && AllGood(ms) && k < |ms| && Covered(c.cnt, ms[..k])
    requires ms[k].Release? && c.cnt + Acquires(ms[..k]) == Releases(ms[..k])
    ensures var (c', acts) := Steps(c, CodedAll(ms));
            !c'.open && acts == DoneAll(ms[..k]) + [Disconnect]
  {
    hide Steps;
    CommandsServed(c, ms[..k]);
    var (c1, acts) := Steps(c, CodedAll(ms[..k]));
    WakelockServed(c1, ms[k]);
    var (c2, lost) := Steps(c1, Coded(ms[k]));
    StepsAppend(c1, Coded(ms[k]), CodedFrom(ms, k + 1));
    ClosedSteps(c2, CodedFrom(ms, k + 1));
    StepsAppend(c, CodedAll(ms[..k]), CodedFrom(ms, k));
    CodedSplit(ms, k);
    assert lost + [] == lost;
  }

  lemma {:induction false} FindBadRelease(cnt: int, ms: seq<Command>) returns (k: nat)
    requires cnt >= 0 && !Covered(cnt, ms)
    ensures k < |ms| && Covered(cnt, ms[..k]) && ms[k].Release? && cnt + Acquires(ms[..k]) == Releases(ms[..k])
  {
    k := 0;
    assert Covered(cnt, ms[..0]) by {
      assert ms[..0] == [];
    }
    while k < |ms| && Covered(cnt, ms[..k + 1])
      invariant k <= |ms| && Covered(cnt, ms[..k])
    {
      k := k + 1;
    }
    assert ms[..|ms|] == ms;
    var p := ms[..k + 1];
    assert p[..k] == ms[..k] && p[..k + 1] == p && p[k] == ms[k];
    assert Covered(cnt, ms[..k]) && ms[..k][..k] == ms[..k];
    forall i | 0 <= i <= k ensures cnt + Acquires(p[..i]) >= Releases(p[..i]) {
      assert p[..i] == ms[..k][..i];
    }
  }

  /** The client survives exactly if nothing is released that was not acquired. */
  lemma {:induction false} LostExact(c: Client, ms: seq<Command>)
    requires IdleClient(c) && AllGood(ms) && c.cnt >= 0
    ensures Steps(c, CodedAll(ms)).0.open <==> Covered(c.cnt, ms)
  {
    hide Steps, Covered;
    if Covered(c.cnt, ms) {
      CommandsServed(c, ms);
    } else {
      var k := FindBadRelease(c.cnt, ms);
      FirstBadRelease(c, ms, k);
    }
  }

  /** Any eight bytes: the header loses an idle client exactly if a wakelock command has content or
      releases nothing, or another command is unknown or has 2048 bytes of content or more. */
  lemma {:induction false} HeaderLoses(c: Client, h: seq<Byte>)
    requires IdleClient(c) && |h| == 8 && c.cnt >= 0
    ensures var size, kind := Format.WordOf(h), Format.WordOf(h[4..]);
            var (c', acts) := Steps(c, h);
            && (!c'.open <==> (kind <= 1 && size != 0) || (kind == 1 && c.cnt == 0) || kind >= 4 || (kind >= 2 && size >= 2048))
            && (!c'.open ==> acts == [Disconnect])
  {
    hide Steps, Format.WordOf;
    ReadIsSteps(c, h);
    WholeHeader(c, h);
  }
}
