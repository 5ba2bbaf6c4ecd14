/**
 The ten requests of a client, one by one: their numbers, the bytes they are made of, and the
 message of client abstraction that each becomes.
 */
module WireRequests {
  import opened Common
  import opened Wire
  import opened WireProofs
  import Cla

  // ---------------------------------------------------------------- event bitmaps

  function Pow2(k: nat): nat {
    if k == 0 then 1 else 2 * Pow2(k - 1)
  }

  predicate TestBit(b: nat, k: nat) {
    if k == 0 then b % 2 == 1 else TestBit(b / 2, k - 1)
  }

  /** Setting a bit that is clear changes that bit alone. */
  lemma {:induction false} SetBit(b: nat, k: nat, j: nat)
    requires !TestBit(b, k)
    ensures TestBit(b + Pow2(k), j) <==> j == k || TestBit(b, j)
    decreases k
  {
    if k == 0 {
      if j > 0 {
        assert (b + 1) / 2 == b / 2;
      }
    } else {
      assert (b + 2 * Pow2(k - 1)) / 2 == b / 2 + Pow2(k - 1);
      assert (b + 2 * Pow2(k - 1)) % 2 == b % 2;
      if j > 0 {
        SetBit(b / 2, k - 1, j - 1);
      }
    }
  }

  lemma {:induction false} NoBits(k: nat)
    ensures !TestBit(0, k)
  {
    if k > 0 {
      NoBits(k - 1);
    }
  }

  predicate Distinct(ids: seq<nat>) {
    forall i, j :: 0 <= i < j < |ids| ==> ids[i] != ids[j]
  }

  lemma {:induction false} DistinctSnoc(ids: seq<nat>, k: nat)
    ensures Distinct([])
    ensures Distinct(ids) && k !in ids ==> Distinct(ids + [k])
  {
  }

  lemma {:induction false} Repeated(ids: seq<nat>, i: nat)
    requires i < |ids| && ids[i] in ids[..i]
    ensures !Distinct(ids)
  {
    var j :| 0 <= j < i && ids[..i][j] == ids[i];
    assert ids[j] == ids[i];
  }

  /** The loop of crm_connect: an event asked for twice meets the assertion. */
  method BuildBitmap(ids: seq<nat>) returns (ok: bool, bitmap: nat)
    ensures ok <==> Distinct(ids)
    ensures ok ==> forall k :: TestBit(bitmap, k) <==> k in ids
  {
    hide TestBit, Pow2, Distinct;
    bitmap := 0;
    var i := 0;
    DistinctSnoc([], 0);
    forall k ensures !TestBit(0, k) {
      NoBits(k);
    }
    while i < |ids|
      invariant 0 <= i <= |ids| && Distinct(ids[..i])
      invariant forall k :: TestBit(bitmap, k) <==> k in ids[..i]
    {
      DistinctSnoc(ids[..i], ids[i]);
      assert ids[..i + 1] == ids[..i] + [ids[i]];
      if TestBit(bitmap, ids[i]) {
        Repeated(ids, i);
        return false, bitmap;
      }
      forall k ensures TestBit(bitmap + Pow2(ids[i]), k) <==> k == ids[i] || TestBit(bitmap, k) {
        SetBit(bitmap, ids[i], k);
      }
      bitmap := bitmap + Pow2(ids[i]);
      i := i + 1;
    }
    assert ids[..i] == ids;
    ok := true;
  }

  // ---------------------------------------------------------------- requests

  /** The numbers of the public client header that client abstraction looks at. */
  datatype Names = Names(event: Cla.Event -> nat, err: Word, update: Word)

  datatype Request =
    | Register(debug: bool, bitmap: Word, name: Text)
    | Acquire
    | Release
    | Restart(cause: Word, restartDbg: Option<Dbg>)
    | Shutdown
    | NvmBackup
    | AckColdReset
    | AckShutdown
    | NotifyDbg(dbg: Option<Dbg>)

  /** The place of a request in the protocol's list. */
  function Number(r: Request): nat {
    match r
    case Register(debug, _, _) => if debug then 1 else 0
    case Acquire => 2
    case Release => 3
    case Restart(_, _) => 4
    case Shutdown => 5
    case NvmBackup => 6
    case AckColdReset => 7
    case AckShutdown => 8
    case NotifyDbg(_) => 9
  }

  function ContentOf(r: Request): Body {
    match r
    case Register(_, bitmap, name) => Body.Register(bitmap, name)
    case Restart(cause, d) => Body.Restart(cause, d)
    case NotifyDbg(d) => Debug(d)
    case _ => Plain
  }

  function Sent(lim: Limits, r: Request): Msg
    requires Sane(lim)
  {
    Msg(lim.numEvents + Number(r), ContentOf(r))
  }

  predicate Legal(lim: Limits, r: Request) {
    match r
    case Register(_, _, name) => |name| < lim.nameLen && NulFree(name)
    case Restart(_, d) => OptWithin(lim, d) && DbgNulFree(d)
    case NotifyDbg(d) => OptWithin(lim, d) && DbgNulFree(d)
    case _ => true
  }

  /** Every request goes from client to server, and is received as it was sent, whatever follows. */
  lemma {:induction false} RequestReceived(lim: Limits, r: Request, rest: seq<Byte>)
    requires Sane(lim) && NameFits(lim) && Legal(lim, r)
    ensures Writable(Sent(lim, r)) && Size(Sent(lim, r)) <= SizeMax(lim) && Directed(lim, false, Sent(lim, r).id)
    ensures Recv(lim, Encode(Sent(lim, r)) + rest) == Some((Sent(lim, r), rest))
  {
    hide Recv, Encode, Size, Bytes;
    MessageRoundTrip(lim, Sent(lim, r), rest);
  }

  /** Events go the other way; debug information is the only one with content. */
  lemma {:induction false} EventReceived(lim: Limits, event: Word, d: Option<Dbg>, rest: seq<Byte>)
    requires Sane(lim) && NameFits(lim) && event < lim.numEvents && OptWithin(lim, d) && DbgNulFree(d)
    ensures var m := Msg(event, if event == lim.dbgInfo then Debug(d) else Plain);
            && Writable(m) && Size(m) <= SizeMax(lim) && Directed(lim, true, event)
            && Recv(lim, Encode(m) + rest) == Some((m, rest))
  {
    hide Recv, Encode, Size, Bytes;
    MessageRoundTrip(lim, Msg(event, if event == lim.dbgInfo then Debug(d) else Plain), rest);
  }

  // ---------------------------------------------------------------- the bytes

  /** The word at offset `k`. */
  predicate WordAt(s: seq<Byte>, k: nat, w: Word) {
    |s| >= k + 4 && WordOf(s[k..]) == w
  }

  /** Number and total size come first; a simple request is nothing else. */
  lemma {:induction false} HeaderBytes(lim: Limits, r: Request)
    requires Sane(lim) && NameFits(lim) && Legal(lim, r)
    ensures Writable(Sent(lim, r)) && Size(Sent(lim, r)) <= SizeMax(lim)
    ensures var s := Encode(Sent(lim, r));
            && WordAt(s, 0, lim.numEvents + Number(r)) && WordAt(s, 4, |s|)
            && (ContentOf(r) == Plain ==> |s| == 8)
  {
    hide Bytes, WordOf;
    var m := Sent(lim, r);
    MessageFits(lim, m);
    HeaderRead(m, []);
    assert Encode(m) + [] == Encode(m) && Encode(m)[0..] == Encode(m);
  }

  lemma {:induction false} WordThere(s: seq<Byte>, before: seq<Byte>, w: Word, after: seq<Byte>)
    requires s == before + Bytes(w) + after
    ensures WordAt(s, |before|, w)
  {
    hide Bytes, WordOf;
    assert s[|before|..] == Bytes(w) + after;
    WordPrefix(Bytes(w), after);
    WordRoundTrip(w);
  }

  /** A registration: the events, then the length of the name and the name. */
  lemma {:induction false} RegisterBytes(lim: Limits, r: Request)
    requires Sane(lim) && NameFits(lim) && Legal(lim, r) && r.Register?
    ensures Writable(Sent(lim, r)) && Size(Sent(lim, r)) <= SizeMax(lim)
    ensures var s := Encode(Sent(lim, r));
            WordAt(s, 8, r.bitmap) && |r.name| < 0x1_0000_0000 && WordAt(s, 12, |r.name|) && s[16..] == r.name
  {
    hide Bytes, WordOf;
    var m := Sent(lim, r);
    MessageFits(lim, m);
    TextSize(r.name);
    assert Cut(r.name) == r.name;
    var head := Bytes(m.id) + Bytes(Size(m));
    var s := Encode(m);
    assert s == head + Bytes(r.bitmap) + TextBytes(r.name);
    WordThere(s, head, r.bitmap, TextBytes(r.name));
    assert s == (head + Bytes(r.bitmap)) + Bytes(|r.name|) + r.name;
    WordThere(s, head + Bytes(r.bitmap), |r.name|, r.name);
  }

  /** A restart: the cause, then the debug data if there is any. */
  lemma {:induction false} RestartBytes(lim: Limits, r: Request)
    requires Sane(lim) && NameFits(lim) && Legal(lim, r) && r.Restart?
    ensures Writable(Sent(lim, r)) && Size(Sent(lim, r)) <= SizeMax(lim)
    ensures var s := Encode(Sent(lim, r));
            && WordAt(s, 8, r.cause) && (r.restartDbg == None <==> |s| == 12)
            && (r.restartDbg.Some? ==> DbgAt(s, 12, r.restartDbg.value))
  {
    hide Bytes, WordOf, TextsBytes;
    var m := Sent(lim, r);
    MessageFits(lim, m);
    var head := Bytes(m.id) + Bytes(Size(m));
    var s := Encode(m);
    assert s == head + Bytes(r.cause) + DbgBytes(r.restartDbg);
    WordThere(s, head, r.cause, DbgBytes(r.restartDbg));
    if r.restartDbg.Some? {
      DbgThere(s, head + Bytes(r.cause), r.restartDbg.value);
    }
  }

  /** A notification: the debug data, if there is any. */
  lemma {:induction false} NotifyBytes(lim: Limits, r: Request)
    requires Sane(lim) && NameFits(lim) && Legal(lim, r) && r.NotifyDbg?
    ensures Writable(Sent(lim, r)) && Size(Sent(lim, r)) <= SizeMax(lim)
    ensures var s := Encode(Sent(lim, r));
            && (r.dbg == None <==> |s| == 8)
            && (r.dbg.Some? ==> DbgAt(s, 8, r.dbg.value))
  {
    hide Bytes, WordOf, TextsBytes;
    var m := Sent(lim, r);
    MessageFits(lim, m);
    var head := Bytes(m.id) + Bytes(Size(m));
    if r.dbg.Some? {
      DbgThere(Encode(m), head, r.dbg.value);
    }
  }

  /** Debug data at offset `k`: type, sizes, time, then the number of texts. */
  predicate DbgAt(s: seq<Byte>, k: nat, d: Dbg) {
    && |d.data| < 0x1_0000_0000
    && WordAt(s, k, d.kind) && WordAt(s, k + 4, d.apSize) && WordAt(s, k + 8, d.bpSize)
    && WordAt(s, k + 12, d.bpTime) && WordAt(s, k + 16, |d.data|)
  }

  lemma {:induction false} DbgThere(s: seq<Byte>, before: seq<Byte>, d: Dbg)
    requires Short(d.data) && s == before + DbgBytes(Some(d))
    ensures DbgAt(s, |before|, d)
  {
    hide Bytes, WordOf, TextsBytes, WordAt;
    var ts := TextsBytes(d.data);
    var b1 := before + Bytes(d.kind);
    var b2 := b1 + Bytes(d.apSize);
    var b3 := b2 + Bytes(d.bpSize);
    var b4 := b3 + Bytes(d.bpTime);
    assert s == b4 + Bytes(|d.data|) + ts;
    WordThere(s, b4, |d.data|, ts);
    WordThere(s, b3, d.bpTime, Bytes(|d.data|) + ts);
    assert s == b2 + Bytes(d.bpSize) + s[|b3|..];
    WordThere(s, b2, d.bpSize, s[|b3|..]);
    assert s == b1 + Bytes(d.apSize) + s[|b2|..];
    WordThere(s, b1, d.apSize, s[|b2|..]);
    assert s == before + Bytes(d.kind) + s[|b1|..];
    WordThere(s, before, d.kind, s[|b1|..]);
  }

  // ---------------------------------------------------------------- what client abstraction handles

  function CauseOf(names: Names, cause: Word): Cla.Cause {
    if cause == names.err then Cla.MdmErr else if cause == names.update then Cla.ApplyUpdate else Cla.BadCause
  }

  function EventsOf(names: Names, bitmap: Word): set<Cla.Event> {
    set e: Cla.Event | TestBit(bitmap, names.event(e))
  }

  /** The switch of handle_client_msg, on the identifier received. */
  function Switch(lim: Limits, names: Names, m: Msg): Cla.ClientMsg {
    var n := m.id - lim.numEvents;
    if (n == 0 || n == 1) && m.body.Register? then Cla.Register(n == 1, EventsOf(names, m.body.events))
    else if n == 2 then Cla.Acquire
    else if n == 3 then Cla.Release
    else if n == 4 && m.body.Restart? then Cla.AskRestart(CauseOf(names, m.body.cause), m.body.restartDbg.Some?)
    else if n == 5 then Cla.AskShutdown
    else if n == 6 then Cla.AskBackup
    else if n == 7 then Cla.AckColdReset
    else if n == 8 then Cla.AckShutdown
    else if n == 9 then Cla.NotifyDbg
    else Cla.UnknownId
  }

  /** What the client meant. */
  function Meant(names: Names, r: Request): Cla.ClientMsg {
    match r
    case Register(debug, bitmap, _) => Cla.Register(debug, EventsOf(names, bitmap))
    case Acquire => Cla.Acquire
    case Release => Cla.Release
    case Restart(cause, d) => Cla.AskRestart(CauseOf(names, cause), d.Some?)
    case Shutdown => Cla.AskShutdown
    case NvmBackup => Cla.AskBackup
    case AckColdReset => Cla.AckColdReset
    case AckShutdown => Cla.AckShutdown
    case NotifyDbg(_) => Cla.NotifyDbg
  }

  function SentAll(lim: Limits, rs: seq<Request>): seq<Msg>
    requires Sane(lim)
  {
    seq(|rs|, i requires 0 <= i < |rs| => Sent(lim, rs[i]))
  }

  /** What client abstraction handles is what the library sent: any requests in a row. */
  lemma {:induction false} RequestsHandled(lim: Limits, names: Names, rs: seq<Request>)
    requires Sane(lim) && NameFits(lim) && forall i :: 0 <= i < |rs| ==> Legal(lim, rs[i])
    ensures AllSendable(lim, SentAll(lim, rs))
    ensures RecvAll(lim, EncodeAll(lim, SentAll(lim, rs))) == Some(SentAll(lim, rs))
    ensures forall i :: 0 <= i < |rs| ==> Switch(lim, names, SentAll(lim, rs)[i]) == Meant(names, rs[i])
  {
    hide RecvAll, EncodeAll, Size, Writable;
    var ms := SentAll(lim, rs);
    forall i | 0 <= i < |rs| ensures Sendable(lim, ms[i]) {
      MessageFits(lim, ms[i]);
    }
    StreamRoundTrip(lim, ms);
  }

  /** The events a client asked for are the events it is registered for. */
  method Subscribe(names: Names, wanted: seq<Cla.Event>) returns (ok: bool, bitmap: nat)
    requires forall e, f :: names.event(e) == names.event(f) ==> e == f
    ensures ok <==> forall i, j :: 0 <= i < j < |wanted| ==> wanted[i] != wanted[j]
    ensures ok && bitmap < 0x1_0000_0000 ==> EventsOf(names, bitmap) == set e | e in wanted
  {
    var ids: seq<nat> := seq(|wanted|, i requires 0 <= i < |wanted| => names.event(wanted[i]));
    ok, bitmap := BuildBitmap(ids);
    if ok {
      forall i, j | 0 <= i < j < |wanted| ensures wanted[i] != wanted[j] {
        assert ids[i] != ids[j];
      }
      forall e ensures names.event(e) in ids <==> e in wanted {
        if e in wanted {
          var i :| 0 <= i < |wanted| && wanted[i] == e;
          assert ids[i] == names.event(e);
        }
      }
    } else {
      var i, j :| 0 <= i < j < |ids| && ids[i] == ids[j];
      assert wanted[i] == wanted[j];
    }
  }
}
