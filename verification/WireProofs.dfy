/**
 The wire protocol loses nothing: serialization and reception undo each other.
 */
module WireProofs {
  import opened Common
  import opened Wire

  // ---------------------------------------------------------------- sizes

  lemma {:induction false} TextSize(t: Text)
    requires |t| < 0x1_0000_0000
    ensures |TextBytes(t)| == 4 + |Cut(t)| && |TextBytes(t)| <= 4 + |t|
    ensures NulFree(t) ==> TextBytes(t) == Bytes(|t|) + t
    ensures !NulFree(t) ==> |TextBytes(t)| < 4 + |t|
  {
  }

  lemma {:induction false} TextsSize(ts: seq<Text>, n: nat, maxLen: nat)
    requires |ts| <= n && forall i :: 0 <= i < |ts| ==> |ts[i]| < maxLen && |ts[i]| < 0x1_0000_0000
    ensures |TextsBytes(ts)| <= n * (4 + maxLen)
    decreases |ts|
  {
    hide TextBytes;
    if ts == [] {
      OneMore(n, 4 + maxLen);
    } else {
      TextSize(ts[0]);
      TextsSize(ts[1..], n - 1, maxLen);
      OneMore(n, 4 + maxLen);
    }
  }

  lemma {:induction false} OneMore(n: nat, k: nat)
    ensures n * k >= 0 && n * k == (n - 1) * k + k
  {
  }

  lemma {:induction false} LengthBound(lim: Limits)
    requires Sane(lim)
    ensures lim.maxNb < 0x1_0000_0000 && (lim.maxNb > 0 ==> lim.maxLen < 0x1_0000_0000)
  {
    if lim.maxNb > 0 {
      AtLeastFactor(lim.maxNb, 4 + lim.maxLen);
      AtLeastFactor(4 + lim.maxLen, lim.maxNb);
    }
  }

  lemma {:induction false} DbgSize(lim: Limits, d: Option<Dbg>)
    requires Sane(lim) && OptWithin(lim, d)
    ensures d.Some? ==> Short(d.value.data)
    ensures |DbgBytes(d)| <= SizeMax(lim) - 12
  {
    hide Bytes, TextsBytes;
    LengthBound(lim);
    OneMore(lim.maxNb, 4 + lim.maxLen);
    if d.Some? {
      TextsSize(d.value.data, lim.maxNb, lim.maxLen);
    }
  }

  /** A name of the largest size still makes a message that fits. */
  predicate NameFits(lim: Limits) {
    lim.nameLen <= SizeMax(lim) - 15
  }

  /** Every message within the limits fits the buffers, provided a name does. */
  lemma {:induction false} MessageFits(lim: Limits, m: Msg)
    requires Sane(lim) && NameFits(lim) && Within(lim, m)
    ensures Writable(m) && Size(m) <= SizeMax(lim)
  {
    match m.body
    case Plain =>
      OneMore(lim.maxNb, 4 + lim.maxLen);
    case Register(_, name) => TextSize(name);
    case Restart(_, d) => DbgSize(lim, d);
    case Debug(d) => DbgSize(lim, d);
  }

  /** And only then: with a larger name buffer a registration within the limits is too big. */
  lemma {:induction false} NameFitsExact(lim: Limits)
    requires Sane(lim) && lim.nameLen < 0x1_0000_0000
    ensures NameFits(lim) <==>
            forall m :: WellTyped(lim, m) && Within(lim, m) ==> Writable(m) && Size(m) <= SizeMax(lim)
  {
    if NameFits(lim) {
      forall m | WellTyped(lim, m) && Within(lim, m) ensures Writable(m) && Size(m) <= SizeMax(lim) {
        MessageFits(lim, m);
      }
    } else {
      var name: Text := seq(lim.nameLen - 1, _ => 1);
      var m := Msg(lim.numEvents, Register(0, name));
      TextSize(name);
      assert WellTyped(lim, m) && Within(lim, m) && Writable(m) && Size(m) > SizeMax(lim);
    }
  }

  // ---------------------------------------------------------------- reading what was written

  lemma {:induction false} WordPrefix(a: seq<Byte>, b: seq<Byte>)
    requires |a| == 4
    ensures WordOf(a + b) == WordOf(a)
  {
  }

  lemma {:induction false} TextRead(t: Text, bufSize: nat, rest: seq<Byte>)
    requires NulFree(t) && |t| < bufSize && |t| < 0x1_0000_0000
    ensures ReadText(TextBytes(t) + rest, bufSize) == Some((t, rest))
  {
    hide Bytes, WordOf;
    TextSize(t);
    var s := TextBytes(t) + rest;
    assert s == Bytes(|t|) + (t + rest);
    WordPrefix(Bytes(|t|), t + rest);
    WordRoundTrip(|t|);
    assert s[4..4 + |t|] == t && s[4 + |t|..] == rest;
  }

  lemma {:induction false} TextsRead(ts: seq<Text>, bufSize: nat, rest: seq<Byte>)
    requires forall i :: 0 <= i < |ts| ==> NulFree(ts[i]) && |ts[i]| < bufSize && |ts[i]| < 0x1_0000_0000
    ensures ReadTexts(TextsBytes(ts) + rest, |ts|, bufSize) == Some((ts, rest))
    decreases |ts|
  {
    hide TextBytes, ReadText;
    if ts == [] {
      assert TextsBytes(ts) + rest == rest;
    } else {
      var more := TextsBytes(ts[1..]) + rest;
      assert TextsBytes(ts) + rest == TextBytes(ts[0]) + more;
      TextRead(ts[0], bufSize, more);
      TextsRead(ts[1..], bufSize, rest);
      assert [ts[0]] + ts[1..] == ts;
    }
  }

  /** Five words in a row, read at their offsets. */
  lemma {:induction false} FiveWords(a: Word, b: Word, c: Word, d: Word, e: Word, rest: seq<Byte>)
    ensures var s := Bytes(a) + Bytes(b) + Bytes(c) + Bytes(d) + Bytes(e) + rest;
            && WordOf(s) == a && WordOf(s[4..]) == b && WordOf(s[8..]) == c && WordOf(s[12..]) == d
            && WordOf(s[16..]) == e && s[20..] == rest
  {
    hide Bytes, WordOf;
    var s := Bytes(a) + Bytes(b) + Bytes(c) + Bytes(d) + Bytes(e) + rest;
    assert s == Bytes(a) + s[4..];
    assert s[4..] == Bytes(b) + s[8..];
    assert s[8..] == Bytes(c) + s[12..];
    assert s[12..] == Bytes(d) + s[16..];
    assert s[16..] == Bytes(e) + rest;
    WordPrefix(Bytes(a), s[4..]);
    WordPrefix(Bytes(b), s[8..]);
    WordPrefix(Bytes(c), s[12..]);
    WordPrefix(Bytes(d), s[16..]);
    WordPrefix(Bytes(e), rest);
    WordRoundTrip(a);
    WordRoundTrip(b);
    WordRoundTrip(c);
    WordRoundTrip(d);
    WordRoundTrip(e);
  }

  lemma {:induction false} DbgRead(lim: Limits, d: Option<Dbg>)
    requires Sane(lim) && OptWithin(lim, d) && DbgNulFree(d) && (d.Some? ==> Short(d.value.data))
    ensures ReadDbg(lim, DbgBytes(d)) == Some((d, []))
  {
    hide Bytes, WordOf, ReadTexts, TextsBytes;
    if d.Some? {
      var v := d.value;
      FiveWords(v.kind, v.apSize, v.bpSize, v.bpTime, |v.data|, TextsBytes(v.data));
      TextsRead(v.data, lim.maxLen, []);
      assert TextsBytes(v.data) + [] == TextsBytes(v.data);
    }
  }

  lemma {:induction false} BodyRead(lim: Limits, m: Msg)
    requires Sane(lim) && WellTyped(lim, m) && Within(lim, m) && MsgNulFree(m) && Writable(m)
    ensures ReadBody(lim, m.id, BodyBytes(m)) == Some((m.body, []))
  {
    hide Bytes, WordOf, ReadDbg, DbgBytes, ReadText, TextBytes;
    match m.body
    case Plain =>
    case Register(events, name) =>
      WordPrefix(Bytes(events), TextBytes(name));
      WordRoundTrip(events);
      assert (Bytes(events) + TextBytes(name))[4..] == TextBytes(name);
      TextRead(name, lim.nameLen, []);
      assert TextBytes(name) + [] == TextBytes(name);
    case Restart(cause, d) =>
      WordPrefix(Bytes(cause), DbgBytes(d));
      WordRoundTrip(cause);
      assert (Bytes(cause) + DbgBytes(d))[4..] == DbgBytes(d);
      DbgRead(lim, d);
    case Debug(d) => DbgRead(lim, d);
  }

  /** The header says how many bytes the message takes. */
  lemma {:induction false} HeaderRead(m: Msg, rest: seq<Byte>)
    requires Writable(m) && Size(m) < 0x1_0000_0000
    ensures var s := Encode(m) + rest;
            && |s| == Size(m) + |rest| && WordOf(s) == m.id && WordOf(s[4..]) == Size(m)
            && s[HEADER..Size(m)] == BodyBytes(m) && s[Size(m)..] == rest
  {
    hide Bytes, WordOf, BodyBytes;
    var s := Encode(m) + rest;
    assert s == Bytes(m.id) + s[4..];
    assert s[4..] == Bytes(Size(m)) + s[8..];
    WordPrefix(Bytes(m.id), s[4..]);
    WordPrefix(Bytes(Size(m)), s[8..]);
    WordRoundTrip(m.id);
    WordRoundTrip(Size(m));
  }

  /** A message within the limits fits the buffers and is received as it was sent, whatever
      follows it on the socket. */
  lemma {:induction false} MessageRoundTrip(lim: Limits, m: Msg, rest: seq<Byte>)
    requires Sane(lim) && NameFits(lim) && WellTyped(lim, m) && Within(lim, m) && MsgNulFree(m)
    ensures Writable(m) && Size(m) <= SizeMax(lim)
    ensures Recv(lim, Encode(m) + rest) == Some((m, rest))
  {
    hide Bytes, WordOf, BodyBytes, ReadBody, Encode, WellTyped, Within, MsgNulFree, Writable;
    MessageFits(lim, m);
    HeaderRead(m, rest);
    BodyRead(lim, m);
  }

  predicate Sendable(lim: Limits, m: Msg) {
    WellTyped(lim, m) && Within(lim, m) && MsgNulFree(m) && Writable(m) && Size(m) <= SizeMax(lim)
  }

  predicate AllSendable(lim: Limits, ms: seq<Msg>) {
    forall i :: 0 <= i < |ms| ==> Sendable(lim, ms[i])
  }

  function EncodeAll(lim: Limits, ms: seq<Msg>): seq<Byte>
    requires Sane(lim) && AllSendable(lim, ms)
  {
    if ms == [] then [] else Encode(ms[0]) + EncodeAll(lim, ms[1..])
  }

  lemma {:induction false} EncodeLength(m: Msg)
    requires Writable(m) && Size(m) < 0x1_0000_0000
    ensures |Encode(m)| == Size(m) >= HEADER
  {
    hide Bytes, BodyBytes;
  }

  /** Any sequence of messages, received from the bytes put end to end. */
  lemma {:induction false} StreamRoundTrip(lim: Limits, ms: seq<Msg>)
    requires Sane(lim) && NameFits(lim) && AllSendable(lim, ms)
    ensures RecvAll(lim, EncodeAll(lim, ms)) == Some(ms)
    decreases |ms|
  {
    hide Recv, Encode, BodyBytes;
    if ms != [] {
      var rest := EncodeAll(lim, ms[1..]);
      EncodeLength(ms[0]);
      MessageRoundTrip(lim, ms[0], rest);
      StreamRoundTrip(lim, ms[1..]);
      assert [ms[0]] + ms[1..] == ms;
    }
  }

  // ---------------------------------------------------------------- writing what was read

  lemma {:induction false} WordWritten(s: seq<Byte>)
    requires |s| >= 4
    ensures s == Bytes(WordOf(s)) + s[4..]
  {
    hide Bytes;
    BytesRoundTrip(s[..4]);
    assert WordOf(s) == WordOf(s[..4]);
    assert s == s[..4] + s[4..];
  }

  /** A text that was read is written back as it was, or shorter if it holds a NUL. */
  lemma {:induction false} TextWritten(s: seq<Byte>, bufSize: nat)
    requires ReadText(s, bufSize).Some?
    ensures var (t, rest) := ReadText(s, bufSize).value;
            && |t| < bufSize && |t| < 0x1_0000_0000 && |s| == 4 + |t| + |rest|
            && |TextBytes(t)| + |rest| <= |s|
            && (if NulFree(t) then s == TextBytes(t) + rest else |TextBytes(t)| + |rest| < |s|)
  {
    hide Bytes, WordOf;
    var (t, rest) := ReadText(s, bufSize).value;
    TextSize(t);
    WordWritten(s);
    assert s[4..] == t + rest;
  }

  lemma {:induction false} TextsWritten(s: seq<Byte>, n: nat, bufSize: nat)
    requires ReadTexts(s, n, bufSize).Some?
    ensures var (ts, rest) := ReadTexts(s, n, bufSize).value;
            && |ts| == n && (forall i :: 0 <= i < n ==> |ts[i]| < bufSize && |ts[i]| < 0x1_0000_0000)
            && |TextsBytes(ts)| + |rest| <= |s|
            && (if forall i :: 0 <= i < n ==> NulFree(ts[i]) then s == TextsBytes(ts) + rest
                else |TextsBytes(ts)| + |rest| < |s|)
    decreases n
  {
    hide TextBytes, ReadText, NulFree;
    if n > 0 {
      var (t, s1) := ReadText(s, bufSize).value;
      var (ts1, rest) := ReadTexts(s1, n - 1, bufSize).value;
      TextWritten(s, bufSize);
      TextsWritten(s1, n - 1, bufSize);
      var ts := [t] + ts1;
      assert ts[1..] == ts1;
      assert forall i :: 0 < i < n ==> ts[i] == ts1[i - 1];
      assert (forall i :: 0 <= i < n ==> NulFree(ts[i])) <==> NulFree(t) && (forall i :: 0 <= i < n - 1 ==> NulFree(ts1[i])) by {
        if forall i :: 0 <= i < n ==> NulFree(ts[i]) {
          assert NulFree(ts[0]);
          forall i | 0 <= i < n - 1 ensures NulFree(ts1[i]) {
            assert NulFree(ts[i + 1]);
          }
        }
      }
      assert TextsBytes(ts) == TextBytes(t) + TextsBytes(ts1);
    } else {
      assert TextsBytes([]) + s == s;
    }
  }

  lemma {:induction false} FiveWordsWritten(s: seq<Byte>)
    requires |s| >= 20
    ensures s == Bytes(WordOf(s)) + Bytes(WordOf(s[4..])) + Bytes(WordOf(s[8..])) + Bytes(WordOf(s[12..]))
                 + Bytes(WordOf(s[16..])) + s[20..]
  {
    hide Bytes, WordOf;
    WordWritten(s);
    WordWritten(s[4..]);
    WordWritten(s[8..]);
    WordWritten(s[12..]);
    WordWritten(s[16..]);
    assert s[4..][4..] == s[8..] && s[8..][4..] == s[12..] && s[12..][4..] == s[16..] && s[16..][4..] == s[20..];
  }

  /** Written back as it was, or shorter. */
  predicate Back(s: seq<Byte>, written: seq<Byte>, rest: seq<Byte>, nulFree: bool) {
    && |written| + |rest| <= |s|
    && (if nulFree then s == written + rest else |written| + |rest| < |s|)
  }

  lemma {:induction false} DbgWritten(lim: Limits, s: seq<Byte>)
    requires Sane(lim) && ReadDbg(lim, s).Some?
    ensures var (d, rest) := ReadDbg(lim, s).value;
            && OptWithin(lim, d) && (d.Some? ==> Short(d.value.data))
            && Back(s, DbgBytes(d), rest, DbgNulFree(d))
  {
    hide Bytes, WordOf, ReadTexts, TextsBytes, NulFree;
    if s != [] {
      LengthBound(lim);
      FiveWordsWritten(s);
      TextsWritten(s[20..], WordOf(s[16..]), lim.maxLen);
      var v := ReadDbg(lim, s).value.0.value;
      var rest := ReadDbg(lim, s).value.1;
      if DbgNulFree(Some(v)) {
        assert s[20..] == TextsBytes(v.data) + rest;
        assert s == DbgBytes(Some(v)) + rest;
      }
    }
  }

  lemma {:induction false} BodyWritten(lim: Limits, id: Word, s: seq<Byte>)
    requires Sane(lim) && ReadBody(lim, id, s).Some? && (KindOf(lim, id) == PlainKind ==> s == [])
    requires KindOf(lim, id) == RestartKind ==> s != []
    ensures var (body, rest) := ReadBody(lim, id, s).value;
            var m := Msg(id, body);
            WellTyped(lim, m) && Within(lim, m) && Writable(m) && Back(s, BodyBytes(m), rest, MsgNulFree(m))
  {
    hide Bytes, WordOf, ReadDbg, DbgBytes, ReadText, TextBytes, NulFree, DbgNulFree;
    match KindOf(lim, id)
    case PlainKind =>
    case RegisterKind =>
      WordWritten(s);
      TextWritten(s[4..], lim.nameLen);
      var (name, rest) := ReadText(s[4..], lim.nameLen).value;
      if NulFree(name) {
        assert s == Bytes(WordOf(s)) + TextBytes(name) + rest;
      }
    case RestartKind =>
      WordWritten(s);
      DbgWritten(lim, s[4..]);
      var (d, rest) := ReadDbg(lim, s[4..]).value;
      if DbgNulFree(d) {
        assert s == Bytes(WordOf(s)) + DbgBytes(d) + rest;
      }
    case DebugKind => DbgWritten(lim, s);
  }

  /** A RESTART request with no content. */
  predicate EmptyRestart(lim: Limits, s: seq<Byte>) {
    |s| >= HEADER && KindOf(lim, WordOf(s)) == RestartKind && WordOf(s[4..]) == HEADER
  }

  lemma {:induction false} EmptyRestartGrows(lim: Limits, s: seq<Byte>)
    requires Sane(lim) && Recv(lim, s).Some? && EmptyRestart(lim, s)
    ensures var (m, rest) := Recv(lim, s).value;
            m.body == Restart(0, None) && Encode(m) + rest != s
  {
    hide Bytes, WordOf;
    assert s[HEADER..HEADER] == [];
    var (m, rest) := Recv(lim, s).value;
    assert |Encode(m)| == 12 && |rest| == |s| - 8;
  }

  /** Exactly which accepted messages serialize to the bytes they came from: all but those with
      a NUL inside a text, and a RESTART with no content. */
  lemma {:induction false} AcceptedRoundTrip(lim: Limits, s: seq<Byte>)
    requires Sane(lim) && Recv(lim, s).Some?
    ensures var (m, rest) := Recv(lim, s).value;
            && WellTyped(lim, m) && Within(lim, m) && Writable(m) && Size(m) < 0x1_0000_0000
            && (Encode(m) + rest == s <==> MsgNulFree(m) && !EmptyRestart(lim, s))
  {
    hide Bytes, WordOf, ReadBody, BodyBytes, MsgNulFree, WellTyped, Within;
    var (m, rest) := Recv(lim, s).value;
    var size := WordOf(s[4..]);
    if EmptyRestart(lim, s) {
      EmptyRestartFacts(lim, s);
      EmptyRestartGrows(lim, s);
    } else {
      PlainIsEmpty(lim, m.id, s[HEADER..size]);
      BodyWritten(lim, m.id, s[HEADER..size]);
      EncodeLength(m);
      if MsgNulFree(m) {
        WordWritten(s);
        WordWritten(s[4..]);
        assert s[4..][4..] == s[8..];
        assert s[8..] == s[8..size] + rest;
        assert s[HEADER..size] == BodyBytes(m);
        assert Encode(m) + rest == s;
      } else {
        assert |Encode(m) + rest| < |s|;
      }
    }
  }

  lemma {:induction false} EmptyRestartFacts(lim: Limits, s: seq<Byte>)
    requires Sane(lim) && Recv(lim, s).Some? && EmptyRestart(lim, s)
    ensures var m := Recv(lim, s).value.0;
            WellTyped(lim, m) && Within(lim, m) && Writable(m) && Size(m) < 0x1_0000_0000
  {
    hide Bytes, WordOf;
    assert s[HEADER..HEADER] == [];
  }

  lemma {:induction false} PlainIsEmpty(lim: Limits, id: Word, s: seq<Byte>)
    requires ReadBody(lim, id, s).Some? && ReadBody(lim, id, s).value.1 == []
    ensures KindOf(lim, id) == PlainKind ==> s == []
  {
    hide ReadDbg, ReadText, WordOf;
  }
}
