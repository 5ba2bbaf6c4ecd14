/**
 The reading loop of the Java end of the bridge: header, content, acknowledgement, over and over,
 from a stream that delivers its bytes as it pleases.
 */
module JavaLoop {
  import opened Common
  import opened Wire
  import opened Intent
  import opened JavaReader
  import WireProofs

  const HEADER_SIZE := 12

  const ACQUIRE := 0
  const RELEASE := 1

  /** Where the loop is: in a header, in the content of a message (with the four bytes to send
      back), or out of it. */
  datatype Reader =
    | InHdr(hdr: seq<Byte>)
    | InMsg(ack: seq<Byte>, size: nat, kind: Word, content: seq<Byte>)
    | Closed

  datatype Act = Wakelock(acquire: bool) | Deliver(event: Intent.Event) | Ack(bytes: seq<Byte>) | Quit

  const START := InHdr([])

  predicate Valid(r: Reader) {
    && (r.InHdr? ==> |r.hdr| < HEADER_SIZE)
    && (r.InMsg? ==> |r.content| < r.size)
  }

  /** Bytes that the loop asks the stream for. */
  function Needed(r: Reader): nat
    requires Valid(r)
  {
    match r
    case InHdr(hdr) => HEADER_SIZE - |hdr|
    case InMsg(_, size, _, content) => size - |content|
    case Closed => 0
  }

  function Absorb(r: Reader, chunk: seq<Byte>): Reader {
    match r
    case InHdr(hdr) => r.(hdr := hdr + chunk)
    case InMsg(_, _, _, content) => r.(content := content + chunk)
    case Closed => r
  }

  /** A message or its header is complete. The size is a signed number: what is not positive
      counts as no content. */
  function Complete(r: Reader): (Reader, seq<Act>)
    requires r.InHdr? ==> |r.hdr| == HEADER_SIZE
  {
    match r
    case InHdr(hdr) =>
      var size, kind := WordOf(hdr[4..]), WordOf(hdr[8..]);
      if 0 < size < 0x8000_0000 then (InMsg(hdr[..4], size, kind, []), [])
      else if kind == ACQUIRE || kind == RELEASE then (START, [Wakelock(kind == ACQUIRE), Ack(hdr[..4])])
      else (Closed, [Quit])
    case InMsg(ack, _, kind, content) =>
      (match Dispatch(kind, content)
       case None => (Closed, [Quit])
       case Some(e) => (START, [Deliver(e), Ack(ack)]))
    case Closed => (Closed, [])
  }

  lemma {:induction false} CompleteValid(r: Reader)
    requires r.InHdr? ==> |r.hdr| == HEADER_SIZE
    ensures Valid(Complete(r).0)
  {
    hide WordOf, Dispatch;
  }

  /** One turn of the loop, with `chunk` read. */
  function Read(r: Reader, chunk: seq<Byte>): (Reader, seq<Act>)
    requires Valid(r) && |chunk| <= Needed(r)
  {
    if |chunk| < Needed(r) then (Absorb(r, chunk), []) else Complete(Absorb(r, chunk))
  }

  /** The stream as a whole. */
  function Stream(r: Reader, s: seq<Byte>): (Reader, seq<Act>)
    requires Valid(r)
    decreases |s|
  {
    if r.Closed? then (r, [])
    else if |s| < Needed(r) then (Absorb(r, s), [])
    else
      var r1 := Absorb(r, s[..Needed(r)]);
      CompleteValid(r1);
      var (r2, a2) := Stream(Complete(r1).0, s[Needed(r)..]);
      (r2, Complete(r1).1 + a2)
  }

  // ---------------------------------------------------------------- chunks

  /** After a short read, the rest is what is still asked for. */
  lemma {:induction false} Shorter(r: Reader, chunk: seq<Byte>, more: seq<Byte>)
    requires Valid(r) && |chunk| < Needed(r)
    ensures Valid(Absorb(r, chunk)) && Needed(Absorb(r, chunk)) == Needed(r) - |chunk|
    ensures Absorb(Absorb(r, chunk), more) == Absorb(r, chunk + more)
  {
    match r
    case InHdr(hdr) => assert (hdr + chunk) + more == hdr + (chunk + more);
    case InMsg(_, _, _, content) => assert (content + chunk) + more == content + (chunk + more);
    case Closed =>
  }

  lemma {:induction false} ReadValid(r: Reader, chunk: seq<Byte>)
    requires Valid(r) && |chunk| <= Needed(r)
    ensures Valid(Read(r, chunk).0)
  {
    hide Complete;
    if |chunk| < Needed(r) {
      Shorter(r, chunk, []);
    } else {
      CompleteValid(Absorb(r, chunk));
    }
  }

  /** One read, then the rest of the stream: the same as the stream at once. */
  lemma {:induction false} ReadThen(r: Reader, chunk: seq<Byte>, rest: seq<Byte>)
    requires Valid(r) && !r.Closed? && |chunk| <= Needed(r)
    ensures Valid(Read(r, chunk).0)
    ensures var (r1, a1) := Read(r, chunk);
            var (r2, a2) := Stream(r1, rest);
            Stream(r, chunk + rest) == (r2, a1 + a2)
  {
    hide Complete;
    ReadValid(r, chunk);
    var n, s := Needed(r), chunk + rest;
    if |chunk| == n {
      assert s[..n] == chunk && s[n..] == rest;
    } else {
      Shorter(r, chunk, rest);
      var r1 := Absorb(r, chunk);
      var a2 := Stream(r1, rest).1;
      assert [] + a2 == a2;
      if |s| >= n {
        var m := Needed(r1);
        assert s[..n] == chunk + rest[..m] && s[n..] == rest[m..];
        Shorter(r, chunk, rest[..m]);
      }
    }
  }

  lemma {:induction false} StreamValid(r: Reader, s: seq<Byte>)
    requires Valid(r)
    ensures Valid(Stream(r, s).0)
    decreases |s|
  {
    hide Complete;
    if !r.Closed? {
      if |s| < Needed(r) {
        Shorter(r, s, []);
      } else {
        var r1 := Absorb(r, s[..Needed(r)]);
        CompleteValid(r1);
        StreamValid(Complete(r1).0, s[Needed(r)..]);
      }
    }
  }

  /** A message whole, then the rest. */
  lemma {:induction false} StreamAppend(r: Reader, s: seq<Byte>, t: seq<Byte>)
    requires Valid(r)
    ensures Valid(Stream(r, s).0)
    ensures var (r1, a1) := Stream(r, s);
            var (r2, a2) := Stream(r1, t);
            Stream(r, s + t) == (r2, a1 + a2)
    decreases |s|
  {
    hide Complete;
    StreamValid(r, s);
    if r.Closed? {
      assert [] + Stream(r, t).1 == Stream(r, t).1;
    } else if |s| < Needed(r) {
      ReadThen(r, s, t);
    } else {
      var n := Needed(r);
      var r1 := Absorb(r, s[..n]);
      CompleteValid(r1);
      StreamAppend(Complete(r1).0, s[n..], t);
      assert (s + t)[..n] == s[..n] && (s + t)[n..] == s[n..] + t;
      var (r2, a2) := Stream(Complete(r1).0, s[n..]);
      var a1, a3 := Complete(r1).1, Stream(r2, t).1;
      assert a1 + (a2 + a3) == (a1 + a2) + a3;
    }
  }

  // ---------------------------------------------------------------- messages

  /** What the daemon sends: the wakelock taken or released, or a frame of the library, each with
      an identifier in front. */
  datatype Sent = SentWakelock(id: Word, acquire: bool) | SentCall(id: Word, call: Call)

  predicate Sendable(m: Sent) {
    m.SentCall? ==> CallFits(m.call) && Meaning(m.call).Some? && ContentSize(m.call) < 0x8000_0000 - 8
  }

  function SentBytes(m: Sent): seq<Byte>
    requires Sendable(m)
  {
    match m
    case SentWakelock(id, acquire) => Bytes(id) + (Bytes(0) + Bytes(if acquire then ACQUIRE else RELEASE))
    case SentCall(id, c) => Bytes(id) + Frame(c)
  }

  function Meant(m: Sent): seq<Act>
    requires Sendable(m)
  {
    match m
    case SentWakelock(id, acquire) => [Wakelock(acquire), Ack(Bytes(id))]
    case SentCall(id, c) => [Deliver(Meaning(c).value), Ack(Bytes(id))]
  }

  /** The three words of a header. */
  lemma {:induction false} HeaderWords(a: seq<Byte>, b: seq<Byte>, c: seq<Byte>)
    requires |a| == 4 && |b| == 4 && |c| == 4
    ensures var h := a + (b + c);
            |h| == HEADER_SIZE && h[..4] == a && WordOf(h[4..]) == WordOf(b) && WordOf(h[8..]) == WordOf(c)
  {
    hide WordOf;
    var h := a + (b + c);
    assert h[4..] == b + c && h[8..] == c;
    WireProofs.WordPrefix(b, c);
  }

  lemma {:induction false} WakelockRead(id: Word, acquire: bool)
    ensures Stream(START, SentBytes(SentWakelock(id, acquire))) == (START, Meant(SentWakelock(id, acquire)))
  {
    hide Bytes, WordOf, Dispatch;
    var kind := if acquire then ACQUIRE else RELEASE;
    var h := SentBytes(SentWakelock(id, acquire));
    HeaderWords(Bytes(id), Bytes(0), Bytes(kind));
    WordRoundTrip(0);
    WordRoundTrip(kind);
    assert h[..12] == h && h[12..] == [] && [] + h == h;
    EmptyStream();
    assert Meant(SentWakelock(id, acquire)) + [] == Meant(SentWakelock(id, acquire));
  }

  lemma {:induction false} CallRead(id: Word, c: Call)
    requires Sendable(SentCall(id, c))
    ensures Stream(START, SentBytes(SentCall(id, c))) == (START, Meant(SentCall(id, c)))
  {
    hide Bytes, WordOf, Dispatch, Content, Stream, Complete;
    ContentCounted(c);
    SomeContent(c);
    var n := ContentSize(c);
    var h := Bytes(id) + (Bytes(n) + Bytes(c.cmd));
    assert SentBytes(SentCall(id, c)) == h + Content(c);
    var r1 := InMsg(Bytes(id), n, c.cmd, []);
    assert Complete(InHdr(h)) == (r1, []) by {
      CallHeader(id, c);
    }
    assert Complete(InMsg(Bytes(id), n, c.cmd, Content(c))) == (START, Meant(SentCall(id, c))) by {
      CallContent(id, c);
    }
    assert [] + h == h && [] + Content(c) == Content(c) && Content(c) + [] == Content(c);
    ReadThen(START, h, Content(c));
    ReadThen(r1, Content(c), []);
    EmptyStream();
    var acts := Meant(SentCall(id, c));
    assert acts + [] == acts && [] + acts == acts;
  }

  lemma {:induction false} CallHeader(id: Word, c: Call)
    requires Sendable(SentCall(id, c))
    ensures var h := Bytes(id) + (Bytes(ContentSize(c)) + Bytes(c.cmd));
            |h| == HEADER_SIZE && Complete(InHdr(h)) == (InMsg(Bytes(id), ContentSize(c), c.cmd, []), [])
  {
    hide Bytes, WordOf, Dispatch;
    SomeContent(c);
    HeaderWords(Bytes(id), Bytes(ContentSize(c)), Bytes(c.cmd));
    WordRoundTrip(ContentSize(c));
    WordRoundTrip(c.cmd);
  }

  lemma {:induction false} CallContent(id: Word, c: Call)
    requires Sendable(SentCall(id, c))
    ensures Complete(InMsg(Bytes(id), ContentSize(c), c.cmd, Content(c))) == (START, Meant(SentCall(id, c)))
  {
    hide Bytes, WordOf, Dispatch, Content;
    ContentRead(c);
  }

  lemma {:induction false} EmptyStream()
    ensures Stream(START, []) == (START, [])
  {
    RunEnds(START, []);
  }

  /** One message with content, read as a whole, is what the loop makes of it. */
  lemma {:induction false} OneMessage(s: seq<Byte>)
    requires |s| >= HEADER_SIZE && 0 < WordOf(s[4..]) < 0x8000_0000 && |s| - HEADER_SIZE >= WordOf(s[4..])
    ensures Stream(START, s[..HEADER_SIZE + WordOf(s[4..])])
         == match JavaRead(s)
            case None => (Closed, [Quit])
            case Some((id, e)) => (START, [Deliver(e), Ack(s[..4])])
  {
    hide WordOf, Dispatch, Stream, Complete;
    var size, kind := WordOf(s[4..]), WordOf(s[8..]);
    var h, content := s[..12], s[12..12 + size];
    var r1 := InMsg(s[..4], size, kind, []);
    assert s[..12 + size] == h + content;
    assert [] + h == h && [] + content == content && content + [] == content;
    HeaderCut(s);
    ReadThen(START, h, content);
    ReadThen(r1, content, []);
    Ended(InMsg(s[..4], size, kind, content));
    var acts := Complete(InMsg(s[..4], size, kind, content)).1;
    assert acts + [] == acts && [] + acts == acts;
  }

  lemma {:induction false} HeaderCut(s: seq<Byte>)
    requires |s| >= HEADER_SIZE && 0 < WordOf(s[4..]) < 0x8000_0000
    ensures Complete(InHdr(s[..12])) == (InMsg(s[..4], WordOf(s[4..]), WordOf(s[8..]), []), [])
  {
    hide WordOf, Dispatch;
    var h := s[..12];
    assert h[..4] == s[..4];
    assert h[4..] == s[4..8] + s[8..12] && h[8..] == s[8..12];
    assert s[4..] == s[4..8] + s[8..] && s[8..] == s[8..12] + s[12..];
    WireProofs.WordPrefix(s[4..8], s[8..12]);
    WireProofs.WordPrefix(s[4..8], s[8..]);
    WireProofs.WordPrefix(s[8..12], s[12..]);
  }

  lemma {:induction false} Ended(r: Reader)
    requires r.InMsg?
    ensures Stream(Complete(r).0, []) == (Complete(r).0, [])
    ensures Complete(r) == match Dispatch(r.kind, r.content)
                           case None => (Closed, [Quit])
                           case Some(e) => (START, [Deliver(e), Ack(r.ack)])
  {
    hide Dispatch;
    EmptyStream();
  }

  function AllBytes(ms: seq<Sent>): seq<Byte>
    requires forall j :: 0 <= j < |ms| ==> Sendable(ms[j])
  {
    if ms == [] then [] else SentBytes(ms[0]) + AllBytes(ms[1..])
  }

  function AllMeant(ms: seq<Sent>): seq<Act>
    requires forall j :: 0 <= j < |ms| ==> Sendable(ms[j])
  {
    if ms == [] then [] else Meant(ms[0]) + AllMeant(ms[1..])
  }

  /** Any messages in a row are acted on one by one, each followed by its own acknowledgement. */
  lemma {:induction false} StreamDelivered(ms: seq<Sent>)
    requires forall j :: 0 <= j < |ms| ==> Sendable(ms[j])
    ensures Stream(START, AllBytes(ms)) == (START, AllMeant(ms))
    decreases |ms|
  {
    hide SentBytes, Meant, Stream, Sendable;
    if ms == [] {
      EmptyStream();
    } else {
      match ms[0] {
        case SentWakelock(id, acquire) => WakelockRead(id, acquire);
        case SentCall(id, c) => CallRead(id, c);
      }
      StreamDelivered(ms[1..]);
      StreamAppend(START, SentBytes(ms[0]), AllBytes(ms[1..]));
    }
  }

  // ---------------------------------------------------------------- in place

  /** The two buffers of the loop and its variables. */
  class DaemonSocket {
    const msgHdr: WireMsg
    var msgContent: WireMsg
    var inHdr: bool
    var closed: bool
    var msgType: Word

    ghost predicate Ok()
      reads this, msgHdr, msgContent
    {
      && msgHdr != msgContent && msgHdr.buf != msgContent.buf && msgHdr.buf.Length == HEADER_SIZE
      && msgHdr.Valid() && msgContent.Valid()
      && (!closed && inHdr ==> msgHdr.pos < HEADER_SIZE)
      && (!closed && !inHdr ==> msgContent.pos < msgContent.buf.Length)
    }

    ghost function View(): Reader
      requires Ok()
      reads this, msgHdr, msgContent, msgHdr.buf, msgContent.buf
    {
      if closed then Closed
      else if inHdr then InHdr(msgHdr.buf[..msgHdr.pos])
      else InMsg(msgHdr.buf[..4], msgContent.buf.Length, msgType, msgContent.buf[..msgContent.pos])
    }

    constructor ()
      ensures Ok() && View() == START
      ensures fresh(msgHdr) && fresh(msgHdr.buf) && fresh(msgContent) && fresh(msgContent.buf)
    {
      msgHdr := new WireMsg(HEADER_SIZE);
      msgContent := new WireMsg(0);
      inHdr, closed, msgType := true, false, 0;
    }

    /** The header is complete and rewound. */
    method HeaderDone() returns (acts: seq<Act>)
      requires Ok() && !closed && inHdr && msgHdr.pos == 0
      modifies this, msgHdr
      ensures Ok() && (msgContent == old(msgContent) || (fresh(msgContent) && fresh(msgContent.buf)))
      ensures msgHdr.buf[..] == old(msgHdr.buf[..])
      ensures (View(), acts) == Complete(InHdr(old(msgHdr.buf[..])))
    {
      hide WordOf, Dispatch;
      ghost var h := msgHdr.buf[..];
      var ack := msgHdr.buf[..4];
      assert h[0..] == h && h[4..][4..] == h[8..];
      var id := msgHdr.ReadInt();
      var size := msgHdr.ReadInt();
      var kind := msgHdr.ReadInt();
      msgType := kind.value;
      if 0 < size.value < 0x8000_0000 {
        msgContent := new WireMsg(size.value);
        inHdr := false;
        acts := [];
        assert msgContent.buf[..0] == [];
      } else if msgType == ACQUIRE || msgType == RELEASE {
        msgHdr.Reset();
        acts := [Wakelock(msgType == ACQUIRE), Ack(ack)];
        assert msgHdr.buf[..0] == [];
      } else {
        closed := true;
        acts := [Quit];
      }
    }

    /** The content is complete and rewound. */
    method ContentDone() returns (acts: seq<Act>)
      requires Ok() && !closed && !inHdr && msgContent.pos == 0
      modifies this, msgHdr, msgContent
      ensures Ok() && msgContent == old(msgContent)
      ensures (View(), acts) == Complete(InMsg(old(msgHdr.buf[..4]), msgContent.buf.Length, old(msgType), old(msgContent.buf[..])))
    {
      hide WordOf, Dispatch;
      assert msgContent.buf[0..] == msgContent.buf[..];
      var e := msgContent.Handle(msgType);
      if e == None {
        closed := true;
        return [Quit];
      }
      acts := [Deliver(e.value), Ack(msgHdr.buf[..4])];
      msgHdr.Reset();
      inHdr := true;
      assert msgHdr.buf[..0] == [];
    }

    /** One turn of the loop. */
    method Turn(chunk: seq<Byte>) returns (acts: seq<Act>)
      requires Ok() && !closed && 0 < |chunk| <= Needed(View())
      modifies this, msgHdr, msgHdr.buf, msgContent, msgContent.buf
      ensures Ok() && (msgContent == old(msgContent) || (fresh(msgContent) && fresh(msgContent.buf)))
      ensures (View(), acts) == Read(old(View()), chunk)
    {
      hide Complete;
      if inHdr {
        var done := msgHdr.AppendData(chunk);
        if done {
          assert msgHdr.buf[..] == msgHdr.buf[..HEADER_SIZE];
          acts := HeaderDone();
        } else {
          acts := [];
        }
      } else {
        var done := msgContent.AppendData(chunk);
        if done {
          assert msgContent.buf[..] == msgContent.buf[..msgContent.buf.Length];
          acts := ContentDone();
        } else {
          acts := [];
        }
      }
    }

    /** The loop over a stream whose k-th read delivers `take(k)` bytes, as far as it has them and
        they are asked for: what is done does not depend on it. */
    method Run(stream: seq<Byte>, take: nat -> nat) returns (acts: seq<Act>)
      requires Ok() && !closed
      modifies this, msgHdr, msgHdr.buf, msgContent, msgContent.buf
      ensures Ok() && (View(), acts) == Stream(old(View()), stream)
    {
      hide Read, Stream, Complete;
      acts := [];
      var at, k := 0, 0;
      ghost var r := Stream(View(), stream);
      assert stream[0..] == stream;
      assert [] + r.1 == r.1;
      while at < |stream| && !closed
        invariant 0 <= at <= |stream| && k >= 0 && Ok()
        invariant msgContent == old(msgContent) || (fresh(msgContent) && fresh(msgContent.buf))
        invariant Valid(View()) && r == (Stream(View(), stream[at..]).0, acts + Stream(View(), stream[at..]).1)
        decreases |stream| - at
      {
        var asked := if inHdr then HEADER_SIZE - msgHdr.pos else msgContent.buf.Length - msgContent.pos;
        var n := if take(k) < 1 then 1 else take(k);
        n := if asked < n then asked else n;
        n := if |stream| - at < n then |stream| - at else n;
        var chunk := stream[at..at + n];
        ghost var before, rest := View(), stream[at + n..];
        assert stream[at..] == chunk + rest;
        assert |chunk| <= Needed(before);
        var more := Turn(chunk);
        ReadThen(before, chunk, rest);
        ghost var a3 := Stream(View(), rest).1;
        assert acts + (more + a3) == (acts + more) + a3;
        acts := acts + more;
        at, k := at + n, k + 1;
      }
      RunEnds(View(), stream[at..]);
      assert acts + [] == acts;
    }
  }

  lemma {:induction false} RunEnds(r: Reader, rest: seq<Byte>)
    requires Valid(r) && (rest == [] || r.Closed?)
    ensures Stream(r, rest) == (r, [])
  {
    match r
    case InHdr(hdr) => assert hdr + [] == hdr;
    case InMsg(_, _, _, content) => assert content + [] == content;
    case Closed =>
  }
}
