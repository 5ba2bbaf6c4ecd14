/**
 The wire protocol on its preallocated buffers: a cursor and a count of bytes left, advanced
 by every field.
 */
module WireBuffer {
  import opened Common
  import opened Wire
  import opened WireProofs

  lemma {:induction false} TextsAppend(ts: seq<Text>, us: seq<Text>)
    requires forall i :: 0 <= i < |ts| ==> |ts[i]| < 0x1_0000_0000
    requires forall i :: 0 <= i < |us| ==> |us[i]| < 0x1_0000_0000
    ensures TextsBytes(ts + us) == TextsBytes(ts) + TextsBytes(us)
    decreases |ts|
  {
    hide TextBytes;
    if ts == [] {
      assert ts + us == us;
    } else {
      assert (ts + us)[1..] == ts[1..] + us;
      TextsAppend(ts[1..], us);
    }
  }

  lemma {:induction false} TextsStep(ts: seq<Text>, i: nat)
    requires i < |ts| && forall j :: 0 <= j < |ts| ==> |ts[j]| < 0x1_0000_0000
    ensures TextsBytes(ts[..i + 1]) == TextsBytes(ts[..i]) + TextBytes(ts[i])
    ensures |TextsBytes(ts[..i + 1])| <= |TextsBytes(ts)|
  {
    hide TextBytes;
    var one: seq<Text> := [ts[i]];
    assert ts[..i + 1] == ts[..i] + one;
    TextsAppend(ts[..i], one);
    assert one[1..] == [];
    assert TextBytes(ts[i]) + [] == TextBytes(ts[i]);
    assert ts == ts[..i + 1] + ts[i + 1..];
    TextsAppend(ts[..i + 1], ts[i + 1..]);
  }

  // ---------------------------------------------------------------- writing

  class Writer {
    const buf: array<Byte>
    var pos: nat
    var remaining: nat

    ghost predicate Valid()
      reads this
    {
      pos + remaining == buf.Length
    }

    ghost function Written(): seq<Byte>
      requires Valid()
      reads this, buf
    {
      buf[..pos]
    }

    constructor (lim: Limits)
      ensures Valid() && fresh(buf) && pos == 0 && buf.Length == SizeMax(lim)
    {
      buf := new Byte[SizeMax(lim)];
      pos, remaining := 0, SizeMax(lim);
    }

    /** `grown`: the call added `bytes`, or it met the assertion on the space left. */
    twostate predicate Grown(ok: bool, bytes: seq<Byte>)
      requires old(Valid())
      reads this, buf
    {
      && (ok <==> old(remaining) >= |bytes|)
      && (ok ==> Valid() && pos == old(pos) + |bytes| && Written() == old(Written()) + bytes)
    }

    method PutWord(w: Word) returns (ok: bool)
      requires Valid()
      modifies this, buf
      ensures Grown(ok, Bytes(w))
    {
      if remaining < 4 { return false; }
      var b := Bytes(w);
      buf[pos], buf[pos + 1], buf[pos + 2], buf[pos + 3] := b[0], b[1], b[2], b[3];
      pos, remaining := pos + 4, remaining - 4;
      ok := true;
      assert Written() == old(Written()) + b;
    }

    method PutText(t: Text) returns (ok: bool)
      requires Valid() && |t| < 0x1_0000_0000
      modifies this, buf
      ensures Grown(ok, TextBytes(t))
    {
      hide Bytes;
      var len := |Cut(t)|;
      ok := PutWord(len);
      if !ok || remaining < len { return false; }
      ghost var before := Written();
      var i := 0;
      while i < len
        invariant 0 <= i <= len && Valid() && pos + len <= buf.Length
        invariant pos == old(pos) + 4 && remaining == old(remaining) - 4
        invariant buf[..pos + i] == before + Cut(t)[..i]
      {
        buf[pos + i] := t[i];
        i := i + 1;
      }
      pos, remaining := pos + len, remaining - len;
      assert Cut(t)[..len] == Cut(t);
    }

    method PutTexts(ts: seq<Text>) returns (ok: bool)
      requires Valid() && Short(ts)
      modifies this, buf
      ensures Grown(ok, TextsBytes(ts))
    {
      hide TextBytes;
      ok := true;
      assert ts[..0] == [];
      var i := 0;
      while i < |ts|
        invariant 0 <= i <= |ts| && Valid()
        invariant old(remaining) - remaining == pos - old(pos) == |TextsBytes(ts[..i])|
        invariant Written() == old(Written()) + TextsBytes(ts[..i])
      {
        TextsStep(ts, i);
        ok := PutText(ts[i]);
        if !ok { return; }
        i := i + 1;
      }
      assert ts[..|ts|] == ts;
    }

    method PutFive(d: Dbg) returns (ok: bool)
      requires Valid() && Short(d.data)
      modifies this, buf
      ensures Grown(ok, Bytes(d.kind) + Bytes(d.apSize) + Bytes(d.bpSize) + Bytes(d.bpTime) + Bytes(|d.data|))
    {
      hide Bytes;
      ok := PutWord(d.kind);
      if !ok { return; }
      ok := PutWord(d.apSize);
      if !ok { return; }
      ok := PutWord(d.bpSize);
      if !ok { return; }
      ok := PutWord(d.bpTime);
      if !ok { return; }
      ok := PutWord(|d.data|);
    }

    method PutDbg(d: Option<Dbg>) returns (ok: bool)
      requires Valid() && (d.Some? ==> Short(d.value.data))
      modifies this, buf
      ensures Grown(ok, DbgBytes(d))
    {
      hide Bytes, TextsBytes;
      ok := true;
      if d.Some? {
        ok := PutFive(d.value);
        if !ok { return; }
        ok := PutTexts(d.value.data);
      }
    }

    method PutBody(m: Msg) returns (ok: bool)
      requires Valid() && Writable(m)
      modifies this, buf
      ensures Grown(ok, BodyBytes(m))
    {
      hide Bytes, TextBytes, DbgBytes;
      ok := true;
      match m.body
      case Plain =>
      case Register(events, name) =>
        ok := PutWord(events);
        if !ok { return; }
        ok := PutText(name);
      case Restart(cause, d) =>
        ok := PutWord(cause);
        if !ok { return; }
        ok := PutDbg(d);
      case Debug(d) =>
        ok := PutDbg(d);
    }

    /** Overwrites the word at `at`, leaving the cursor where it is. */
    method Patch(at: nat, w: Word)
      requires at + 4 <= buf.Length
      modifies buf
      ensures buf[..] == old(buf[..at]) + Bytes(w) + old(buf[at + 4..])
    {
      var b := Bytes(w);
      buf[at], buf[at + 1], buf[at + 2], buf[at + 3] := b[0], b[1], b[2], b[3];
    }

    /** The whole message with a null size. */
    method PutFrame(m: Msg) returns (ok: bool)
      requires Valid() && pos == 0 && Writable(m)
      modifies this, buf
      ensures ok <==> Size(m) <= old(remaining)
      ensures ok ==> Valid() && pos == Size(m) && Written() == Bytes(m.id) + Bytes(0) + BodyBytes(m)
    {
      hide Bytes, BodyBytes, Writable;
      ok := PutWord(m.id);
      if !ok { return; }
      ok := PutWord(0);
      if !ok { return; }
      ok := PutBody(m);
    }

    /** A message is serialized with a null size first, which is overwritten once it is known.
        An assertion fails exactly on a message of the other direction or bigger than the
        buffer. */
    method Serialize(lim: Limits, toClient: bool, m: Msg) returns (ok: bool)
      requires Valid() && pos == 0 && buf.Length == SizeMax(lim) && Sane(lim) && Writable(m)
      modifies this, buf
      ensures ok <==> Directed(lim, toClient, m.id) && Size(m) <= SizeMax(lim)
      ensures ok ==> Valid() && Written() == Encode(m)
    {
      hide Bytes, BodyBytes, Writable;
      if !Directed(lim, toClient, m.id) { return false; }
      ok := PutFrame(m);
      if !ok { return; }
      ghost var frame := Written();
      Patch(4, pos);
      assert frame[..4] == Bytes(m.id) && frame[8..] == BodyBytes(m);
      assert Written() == frame[..4] + Bytes(pos) + frame[8..];
    }
  }

  // ---------------------------------------------------------------- reading

  class Reader {
    const buf: array<Byte>
    var pos: nat
    var remaining: nat

    ghost predicate Valid()
      reads this
    {
      pos + remaining <= buf.Length
    }

    ghost function Left(): seq<Byte>
      requires Valid()
      reads this, buf
    {
      buf[pos..pos + remaining]
    }

    constructor (lim: Limits)
      ensures Valid() && fresh(buf) && buf.Length == SizeMax(lim)
    {
      buf := new Byte[SizeMax(lim)];
      pos, remaining := 0, 0;
    }

    /** 0 and an error when the word is not complete; the cursor does not move then. */
    method GetWord() returns (w: Word, error: bool)
      requires Valid()
      modifies this
      ensures Valid()
      ensures error == (|old(Left())| < 4)
      ensures error ==> w == 0 && Left() == old(Left())
      ensures !error ==> w == WordOf(old(Left())) && Left() == old(Left())[4..]
      ensures !error ==> pos == old(pos) + 4 && remaining == old(remaining) - 4
    {
      if remaining < 4 { return 0, true; }
      w := WordOf(buf[pos..pos + remaining]);
      pos, remaining := pos + 4, remaining - 4;
      error := false;
    }

    method GetText(bufSize: nat) returns (t: Option<Text>)
      requires Valid()
      modifies this
      ensures Valid()
      ensures match ReadText(old(Left()), bufSize)
              case None => t == None
              case Some((u, rest)) => t == Some(u) && Left() == rest
    {
      hide WordOf;
      ghost var s := Left();
      var len, error := GetWord();
      if error || remaining < len || bufSize <= len { return None; }
      assert s[4..][..len] == s[4..4 + len] && s[4..][len..] == s[4 + len..];
      assert buf[pos..pos + len] == Left()[..len] && buf[pos + len..pos + remaining] == Left()[len..];
      t := Some(buf[pos..pos + len]);
      pos, remaining := pos + len, remaining - len;
    }

    method GetTexts(n: nat, bufSize: nat) returns (ts: Option<seq<Text>>)
      requires Valid()
      modifies this
      ensures Valid()
      ensures match ReadTexts(old(Left()), n, bufSize)
              case None => ts == None
              case Some((us, rest)) => ts == Some(us) && Left() == rest
    {
      hide ReadText;
      var got: seq<Text> := [];
      ghost var all := ReadTexts(Left(), n, bufSize);
      if all.Some? {
        assert got + all.value.0 == all.value.0;
      }
      var i := 0;
      while i < n
        invariant 0 <= i <= n && Valid()
        invariant match ReadTexts(Left(), n - i, bufSize)
                  case None => ReadTexts(old(Left()), n, bufSize) == None
                  case Some((us, rest)) => ReadTexts(old(Left()), n, bufSize) == Some((got + us, rest))
      {
        var t := GetText(bufSize);
        if t == None { return None; }
        ghost var more := ReadTexts(Left(), n - i - 1, bufSize);
        if more.Some? {
          assert got + ([t.value] + more.value.0) == (got + [t.value]) + more.value.0;
        }
        got := got + [t.value];
        i := i + 1;
      }
      assert got + [] == got;
      ts := Some(got);
    }

    /** The five words, each read setting the error anew; as the cursor stays on a failure,
        the last one tells about all. */
    method GetFive() returns (kind: Word, ap: Word, bp: Word, time: Word, nb: Word, error: bool)
      requires Valid()
      modifies this
      ensures Valid()
      ensures error <==> |old(Left())| < 20
      ensures !error ==>
                && kind == WordOf(old(Left())) && ap == WordOf(old(Left())[4..]) && bp == WordOf(old(Left())[8..])
                && time == WordOf(old(Left())[12..]) && nb == WordOf(old(Left())[16..])
                && Left() == old(Left())[20..]
    {
      hide WordOf;
      ghost var s := Left();
      kind, error := GetWord();
      ap, error := GetWord();
      bp, error := GetWord();
      time, error := GetWord();
      nb, error := GetWord();
      if |s| >= 20 {
        assert s[4..][4..] == s[8..] && s[8..][4..] == s[12..] && s[12..][4..] == s[16..] && s[16..][4..] == s[20..];
      }
    }

    method GetDbg(lim: Limits) returns (ok: bool, d: Option<Dbg>)
      requires Valid()
      modifies this
      ensures Valid()
      ensures match ReadDbg(lim, old(Left()))
              case None => !ok
              case Some((e, rest)) => ok && d == e && Left() == rest
    {
      hide WordOf, ReadTexts;
      if remaining == 0 {
        return true, None;
      }
      var kind, ap, bp, time, nb, error := GetFive();
      if error || nb > lim.maxNb { return false, None; }
      var ts := GetTexts(nb, lim.maxLen);
      if ts == None { return false, None; }
      return true, Some(Dbg(kind, ap, bp, time, ts.value));
    }

    method GetBody(lim: Limits, id: Word) returns (body: Option<Body>)
      requires Valid()
      modifies this
      ensures Valid()
      ensures match ReadBody(lim, id, old(Left()))
              case None => body == None
              case Some((b, rest)) => body == Some(b) && Left() == rest
    {
      hide WordOf, ReadText, ReadDbg;
      ghost var s := Left();
      match KindOf(lim, id)
      case PlainKind => body := Some(Plain);
      case RegisterKind =>
        var events, error := GetWord();
        ghost var left := Left();
        var name := GetText(lim.nameLen);
        if error || name == None {
          ShortText(left, lim.nameLen);
          return None;
        }
        body := Some(Register(events, name.value));
      case RestartKind =>
        var cause, error := GetWord();
        ghost var left := Left();
        var ok, d := GetDbg(lim);
        ShortDbg(lim, left);
        body := if ok then Some(Restart(cause, d)) else None;
      case DebugKind =>
        var ok, d := GetDbg(lim);
        body := if ok then Some(Debug(d)) else None;
    }

    /** Copies bytes of the socket into the buffer, if they arrive in time. */
    method Fill(stream: seq<Byte>, at: nat, n: nat) returns (error: bool)
      requires at + n <= buf.Length
      modifies buf
      ensures error <==> n > 0 && |stream| < n
      ensures !error ==> buf[..at + n] == old(buf[..at]) + stream[..n]
    {
      if n == 0 {
        assert buf[..at] + stream[..0] == buf[..at];
        return false;
      }
      if |stream| < n { return true; }
      var i := 0;
      while i < n
        invariant 0 <= i <= n && buf[..at + i] == old(buf[..at]) + stream[..i]
      {
        buf[at + i] := stream[i];
        i := i + 1;
      }
      return false;
    }

    /** The two words of the header. */
    method GetHeader(lim: Limits, stream: seq<Byte>) returns (id: Word, size: Word, error: bool)
      requires buf.Length == SizeMax(lim)
      modifies this, buf
      ensures error <==> |stream| < HEADER
      ensures !error ==> id == WordOf(stream) && size == WordOf(stream[4..]) && pos == HEADER
                         && HEADER <= buf.Length && buf[..HEADER] == stream[..HEADER]
    {
      hide WordOf;
      SizeAtLeast(lim);
      id, size := 0, 0;
      error := Fill(stream, 0, HEADER);
      if error { return; }
      pos, remaining := 0, HEADER;
      assert Left() == stream[..8];
      HeaderWords(stream);
      id, error := GetWord();
      size, error := GetWord();
    }

    /** One message from the socket, and what is left on it. */
    method Receive(lim: Limits, stream: seq<Byte>) returns (m: Option<Msg>, rest: seq<Byte>)
      requires buf.Length == SizeMax(lim)
      modifies this, buf
      ensures match Recv(lim, stream)
              case None => m == None
              case Some((n, more)) => m == Some(n) && rest == more
    {
      hide WordOf, ReadBody, SizeMax;
      m, rest := None, stream;
      var id, size, error := GetHeader(lim, stream);
      if error || size < HEADER || size > SizeMax(lim) { return; }
      error := Fill(stream[HEADER..], HEADER, size - HEADER);
      if error { return; }
      remaining := size - HEADER;
      assert stream[HEADER..][..size - HEADER] == stream[HEADER..size];
      assert buf[..size] == stream[..HEADER] + stream[HEADER..size];
      assert Left() == buf[..size][HEADER..];
      var body := GetBody(lim, id);
      if body == None || remaining != 0 { return; }
      m, rest := Some(Msg(id, body.value)), stream[size..];
    }
  }

  lemma {:induction false} SizeAtLeast(lim: Limits)
    ensures SizeMax(lim) >= 32
  {
    OneMore(lim.maxNb, 4 + lim.maxLen);
  }

  lemma {:induction false} HeaderWords(stream: seq<Byte>)
    requires |stream| >= 8
    ensures WordOf(stream[..8]) == WordOf(stream) && WordOf(stream[..8][4..]) == WordOf(stream[4..])
  {
  }

  lemma {:induction false} ShortText(s: seq<Byte>, bufSize: nat)
    ensures |s| < 4 ==> ReadText(s, bufSize) == None
  {
  }

  lemma {:induction false} ShortDbg(lim: Limits, s: seq<Byte>)
    ensures s == [] ==> ReadDbg(lim, s) == Some((None, []))
    ensures 0 < |s| < 4 ==> ReadDbg(lim, s) == None
  {
  }
}
