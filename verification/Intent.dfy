/**
 Intents: the message built by the bridge library from a format and its arguments, and the
 Java reader at the other end.
 */
module Intent {
  import opened Common
  import opened Wire
  import WireProofs
  import BridgeInput

  const PERCENT: Byte := 37
  const LETTER_D: Byte := 100
  const LETTER_S: Byte := 115

  const TYPE_INT := 0
  const TYPE_STRING := 1

  const START_SERVICE := 2
  const BROADCAST_INTENT := 3

  datatype Value = IntValue(word: Word) | StrValue(text: Text)
  datatype Param = Param(name: Text, value: Value)

  // ---------------------------------------------------------------- format

  /** strchr: the next percent sign from `i` on, the end if there is none. */
  function Sep(fmt: Text, i: nat): (p: nat)
    requires i <= |fmt|
    ensures i <= p <= |fmt| && (p < |fmt| ==> fmt[p] == PERCENT)
    ensures forall k :: i <= k < p ==> fmt[k] != PERCENT
    decreases |fmt| - i
  {
    if i == |fmt| || fmt[i] == PERCENT then i else Sep(fmt, i + 1)
  }

  /** The parameters a format and its arguments stand for: each is a name, a percent sign and a
      letter. None for a format that the library refuses, and for arguments that do not go with
      it (a variable argument list gives no way to check them). */
  function Parse(fmt: Text, i: nat, args: seq<Value>): Option<seq<Param>>
    requires i <= |fmt|
    decreases |fmt| - i
  {
    if i == |fmt| then Some([])
    else
      var p := Sep(fmt, i);
      if p == i || p + 1 >= |fmt| || args == [] then None
      else if !(fmt[p + 1] == LETTER_D && args[0].IntValue?) && !(fmt[p + 1] == LETTER_S && args[0].StrValue?) then None
      else
        match Parse(fmt, p + 2, args[1..])
        case None => None
        case Some(ps) => Some([Param(fmt[i..p], args[0])] + ps)
  }

  // ---------------------------------------------------------------- bytes

  predicate Fits(t: Text) {
    |t| < 0x8000_0000
  }

  function StringBytes(t: Text): seq<Byte>
    requires Fits(t)
  {
    Bytes(|t|) + Bytes(TYPE_STRING) + t
  }

  function ValueBytes(v: Value): seq<Byte>
    requires v.StrValue? ==> Fits(v.text)
  {
    match v
    case IntValue(w) => Bytes(4) + Bytes(TYPE_INT) + Bytes(w)
    case StrValue(t) => StringBytes(t)
  }

  predicate ParamFits(p: Param) {
    Fits(p.name) && (p.value.StrValue? ==> Fits(p.value.text))
  }

  predicate AllFit(ps: seq<Param>) {
    forall i :: 0 <= i < |ps| ==> ParamFits(ps[i])
  }

  function ParamBytes(p: Param): seq<Byte>
    requires ParamFits(p)
  {
    StringBytes(p.name) + ValueBytes(p.value)
  }

  function ParamsBytes(ps: seq<Param>): seq<Byte>
    requires AllFit(ps)
  {
    if ps == [] then [] else ParamBytes(ps[0]) + ParamsBytes(ps[1..])
  }

  function ValueSize(v: Value): nat {
    8 + if v.IntValue? then 4 else |v.text|
  }

  /** What the size pass adds up. */
  function ParamsSize(ps: seq<Param>): nat {
    if ps == [] then 0 else 8 + |ps[0].name| + ValueSize(ps[0].value) + ParamsSize(ps[1..])
  }

  function OptBytes(t: Option<Text>): seq<Byte>
    requires t.Some? ==> Fits(t.value)
  {
    if t.Some? then StringBytes(t.value) else []
  }

  function OptSize(t: Option<Text>): nat {
    if t.Some? then 8 + |t.value| else 0
  }

  /** A call: the command, two optional strings and the parameters. */
  datatype Call = Call(cmd: Word, first: Option<Text>, second: Option<Text>, params: seq<Param>)

  predicate CallFits(c: Call) {
    && (c.first.Some? ==> Fits(c.first.value)) && (c.second.Some? ==> Fits(c.second.value)) && AllFit(c.params)
  }

  function Content(c: Call): seq<Byte>
    requires CallFits(c)
  {
    OptBytes(c.first) + OptBytes(c.second) + ParamsBytes(c.params)
  }

  function ContentSize(c: Call): nat {
    OptSize(c.first) + OptSize(c.second) + ParamsSize(c.params)
  }

  /** The size pass counts the bytes that the write pass produces. */
  lemma {:induction false} ParamsCounted(ps: seq<Param>)
    requires AllFit(ps)
    ensures |ParamsBytes(ps)| == ParamsSize(ps)
    decreases |ps|
  {
    hide Bytes;
    if ps != [] {
      ParamsCounted(ps[1..]);
    }
  }

  lemma {:induction false} ContentCounted(c: Call)
    requires CallFits(c)
    ensures |Content(c)| == ContentSize(c)
  {
    hide Bytes, ParamsBytes;
    ParamsCounted(c.params);
  }

  /** The frame put on the socket. */
  function Frame(c: Call): seq<Byte>
    requires CallFits(c) && ContentSize(c) < 0x8000_0000 - 8
  {
    Bytes(ContentSize(c)) + Bytes(c.cmd) + Content(c)
  }

  // ---------------------------------------------------------------- Java reader

  /** The reader's buffer and position, one char per byte. None stands for an exception. */
  function GetInt(s: seq<Byte>): Option<(Word, seq<Byte>)> {
    if |s| < 4 then None else Some((WordOf(s), s[4..]))
  }

  function GetTyped(s: seq<Byte>): Option<(Value, seq<Byte>)> {
    if |s| < 8 then None
    else
      var size, kind := WordOf(s), WordOf(s[4..]);
      var rest := s[8..];
      if kind == TYPE_INT then
        if size != 4 || |rest| < 4 then None else Some((IntValue(WordOf(rest)), rest[4..]))
      else if kind == TYPE_STRING then
        if size >= 0x8000_0000 || |rest| < size then None else Some((StrValue(rest[..size]), rest[size..]))
      else None
  }

  /** Name and value pairs up to the end of the buffer. */
  function GetParams(s: seq<Byte>): Option<seq<Param>>
    decreases |s|
  {
    if s == [] then Some([])
    else
      match GetTyped(s)
      case None => None
      case Some((name, s1)) =>
        if !name.StrValue? then None
        else
          match GetTyped(s1)
          case None => None
          case Some((value, s2)) =>
            if |s2| >= |s| then None
            else
              match GetParams(s2)
              case None => None
              case Some(ps) => Some([Param(name.text, value)] + ps)
  }

  datatype Event = Service(pkg: Text, cls: Text) | Broadcast(name: Text, params: seq<Param>)

  function Dispatch(cmd: Word, content: seq<Byte>): Option<Event> {
    if cmd == START_SERVICE then
      match GetTyped(content)
      case None => None
      case Some((pkg, s1)) =>
        match GetTyped(s1)
        case None => None
        case Some((cls, _)) => if pkg.StrValue? && cls.StrValue? then Some(Service(pkg.text, cls.text)) else None
    else if cmd == BROADCAST_INTENT then
      match GetTyped(content)
      case None => None
      case Some((name, s1)) =>
        if !name.StrValue? then None
        else
          match GetParams(s1)
          case None => None
          case Some(ps) => Some(Broadcast(name.text, ps))
    else None
  }

  /** One message from the daemon: identifier, size, command, content; the identifier is sent
      back. */
  function JavaRead(s: seq<Byte>): Option<(Word, Event)> {
    if |s| < 12 then None
    else
      var size := WordOf(s[4..]);
      if size == 0 || size >= 0x8000_0000 || |s| - 12 < size then None
      else
        match Dispatch(WordOf(s[8..]), s[12..12 + size])
        case None => None
        case Some(e) => Some((WordOf(s), e))
  }

  // ---------------------------------------------------------------- round trip

  lemma {:induction false} TwoWords(a: Word, b: Word, rest: seq<Byte>)
    ensures var s := Bytes(a) + Bytes(b) + rest;
            |s| == 8 + |rest| && WordOf(s) == a && WordOf(s[4..]) == b && s[8..] == rest
  {
    hide Bytes, WordOf;
    var s := Bytes(a) + Bytes(b) + rest;
    assert s == Bytes(a) + (Bytes(b) + rest);
    assert s[4..] == Bytes(b) + rest;
    WireProofs.WordPrefix(Bytes(a), Bytes(b) + rest);
    WireProofs.WordPrefix(Bytes(b), rest);
    WordRoundTrip(a);
    WordRoundTrip(b);
  }

  lemma {:induction false} StringRead(t: Text, rest: seq<Byte>)
    requires Fits(t)
    ensures GetTyped(StringBytes(t) + rest) == Some((StrValue(t), rest))
  {
    hide Bytes, WordOf;
    TwoWords(|t|, TYPE_STRING, t + rest);
    assert StringBytes(t) + rest == Bytes(|t|) + Bytes(TYPE_STRING) + (t + rest);
    assert (t + rest)[..|t|] == t && (t + rest)[|t|..] == rest;
  }

  lemma {:induction false} ValueRead(v: Value, rest: seq<Byte>)
    requires v.StrValue? ==> Fits(v.text)
    ensures GetTyped(ValueBytes(v) + rest) == Some((v, rest))
  {
    hide Bytes, WordOf, StringBytes;
    if v.IntValue? {
      TwoWords(4, TYPE_INT, Bytes(v.word) + rest);
      assert ValueBytes(v) + rest == Bytes(4) + Bytes(TYPE_INT) + (Bytes(v.word) + rest);
      WireProofs.WordPrefix(Bytes(v.word), rest);
      WordRoundTrip(v.word);
      assert (Bytes(v.word) + rest)[4..] == rest;
    } else {
      StringRead(v.text, rest);
    }
  }

  /** The layout of a value: size, type (0 for a number, 1 for a text), content. */
  lemma {:induction false} Layout(v: Value)
    requires v.StrValue? ==> Fits(v.text)
    ensures var s := ValueBytes(v);
            match v
            case IntValue(w) => |s| == 12 && WordOf(s) == 4 && WordOf(s[4..]) == 0 && WordOf(s[8..]) == w
            case StrValue(t) => |s| == 8 + |t| && WordOf(s) == |t| && WordOf(s[4..]) == 1 && s[8..] == t
  {
    hide Bytes, WordOf;
    match v
    case IntValue(w) =>
      TwoWords(4, 0, Bytes(w));
      WordRoundTrip(w);
    case StrValue(t) => TwoWords(|t|, 1, t);
  }

  lemma {:induction false} ParamsRead(ps: seq<Param>)
    requires AllFit(ps)
    ensures GetParams(ParamsBytes(ps)) == Some(ps)
    decreases |ps|
  {
    hide Bytes, WordOf, GetTyped, StringBytes, ValueBytes;
    if ps != [] {
      var p, more := ps[0], ParamsBytes(ps[1..]);
      assert ParamsBytes(ps) == StringBytes(p.name) + (ValueBytes(p.value) + more);
      StringRead(p.name, ValueBytes(p.value) + more);
      ValueRead(p.value, more);
      NotEmpty(p.name);
      ParamsRead(ps[1..]);
      assert [p] + ps[1..] == ps;
    }
  }

  lemma {:induction false} NotEmpty(t: Text)
    requires Fits(t)
    ensures |StringBytes(t)| >= 8
  {
    hide Bytes;
  }

  /** What each public entry of the library sends, as the Java side should see it. */
  function Meaning(c: Call): Option<Event> {
    if c.cmd == START_SERVICE && c.first.Some? && c.second.Some? then Some(Service(c.first.value, c.second.value))
    else if c.cmd == BROADCAST_INTENT && c.first.Some? && c.second.None? then Some(Broadcast(c.first.value, c.params))
    else None
  }

  lemma {:induction false} ContentRead(c: Call)
    requires CallFits(c) && Meaning(c).Some?
    ensures Dispatch(c.cmd, Content(c)) == Meaning(c)
  {
    hide Bytes, WordOf, GetTyped, StringBytes, GetParams, ParamsBytes;
    var params := ParamsBytes(c.params);
    if c.cmd == START_SERVICE {
      var second := StringBytes(c.second.value) + params;
      assert Content(c) == StringBytes(c.first.value) + second;
      StringRead(c.first.value, second);
      StringRead(c.second.value, params);
    } else {
      assert Content(c) == StringBytes(c.first.value) + params;
      StringRead(c.first.value, params);
      ParamsRead(c.params);
    }
  }

  /** The daemon queues the library's frame as it is, and the Java side recovers the command,
      the names and every parameter in order, whatever the identifier put in front. */
  lemma {:induction false} IntentRoundTrip(c: Call, id: Word)
    requires CallFits(c) && Meaning(c).Some? && ContentSize(c) < BridgeInput.MAX_MSG_SIZE
    ensures BridgeInput.GoodFrame(Frame(c))
    ensures JavaRead(Bytes(id) + Frame(c)) == Some((id, Meaning(c).value))
  {
    hide Bytes, WordOf, Dispatch, Content;
    ContentCounted(c);
    SomeContent(c);
    FrameHeader(c);
    var s := Bytes(id) + Frame(c);
    WireProofs.WordPrefix(Bytes(id), Frame(c));
    WordRoundTrip(id);
    assert s[4..] == Frame(c);
    assert s[8..] == Frame(c)[4..];
    assert s[12..12 + ContentSize(c)] == Content(c);
    ContentRead(c);
  }

  /** Content of 2048 bytes or more loses the client at its header: nothing is queued, and the
      rest of the frame is not read. */
  lemma {:induction false} FrameServed(client: BridgeInput.Client, c: Call)
    requires client.open && client.phase == BridgeInput.Idle
    requires CallFits(c) && Meaning(c).Some? && ContentSize(c) < 0x8000_0000 - 8
    ensures var r := BridgeInput.Steps(client, Frame(c));
            if ContentSize(c) < BridgeInput.MAX_MSG_SIZE then r.0.open && r.1 == [BridgeInput.Queue(Frame(c))]
            else !r.0.open && r.1 == [BridgeInput.Disconnect]
  {
    hide Bytes, WordOf, Content, BridgeInput.Steps;
    ContentCounted(c);
    FrameHeader(c);
    if ContentSize(c) < BridgeInput.MAX_MSG_SIZE {
      SomeContent(c);
      BridgeInput.FrameQueued(client, Frame(c));
    } else {
      var f := Frame(c);
      BridgeInput.ReadIsSteps(client, f[..8]);
      BridgeInput.StepsAppend(client, f[..8], f[8..]);
      BridgeInput.ClosedSteps(BridgeInput.Steps(client, f[..8]).0, f[8..]);
      assert f[..8] + f[8..] == f;
    }
  }

  lemma {:induction false} SomeContent(c: Call)
    requires c.first.Some?
    ensures ContentSize(c) > 0
  {
  }

  lemma {:induction false} FrameHeader(c: Call)
    requires CallFits(c) && ContentSize(c) < 0x8000_0000 - 8
    ensures var f := Frame(c);
            && |f| == 8 + ContentSize(c) && f[8..] == Content(c)
            && WordOf(f) == ContentSize(c) && WordOf(f[4..]) == c.cmd
            && WordOf(f[..8]) == ContentSize(c) && WordOf(f[..8][4..]) == c.cmd
  {
    hide Bytes, WordOf, Content;
    ContentCounted(c);
    TwoWords(ContentSize(c), c.cmd, Content(c));
    TwoWords(ContentSize(c), c.cmd, []);
    var f := Frame(c);
    assert f[..8] == Bytes(ContentSize(c)) + Bytes(c.cmd) + [];
  }

  // ---------------------------------------------------------------- the two passes

  /** One turn of the loop over the format. */
  lemma {:induction false} ParseStep(fmt: Text, i: nat, args: seq<Value>, k: nat)
    requires i < |fmt| && k <= |args| && Parse(fmt, i, args[k..]).Some? && AllFit(Parse(fmt, i, args[k..]).value)
    ensures var p := Sep(fmt, i);
            && k < |args| && p + 2 <= |fmt| && Fits(fmt[i..p]) && (args[k].StrValue? ==> Fits(args[k].text))
            && Parse(fmt, p + 2, args[k + 1..]).Some? && AllFit(Parse(fmt, p + 2, args[k + 1..]).value)
            && ParamsBytes(Parse(fmt, i, args[k..]).value)
               == StringBytes(fmt[i..p]) + ValueBytes(args[k]) + ParamsBytes(Parse(fmt, p + 2, args[k + 1..]).value)
  {
    hide StringBytes, ValueBytes;
    var ps := Parse(fmt, i, args[k..]).value;
    var p := Sep(fmt, i);
    assert args[k..][0] == args[k] && args[k..][1..] == args[k + 1..];
    var rest := Parse(fmt, p + 2, args[k + 1..]).value;
    assert ps == [Param(fmt[i..p], args[k])] + rest;
    assert ps[1..] == rest;
    assert ParamFits(ps[0]);
    forall j | 0 <= j < |rest| ensures ParamFits(rest[j]) {
      assert ParamFits(ps[j + 1]);
    }
  }

  /** The conditions the size pass checks at each turn. */
  predicate Accepted(fmt: Text, i: nat, args: seq<Value>, k: nat)
    requires i <= |fmt| && k <= |args|
  {
    var p := Sep(fmt, i);
    && p > i && p + 1 < |fmt| && k < |args|
    && ((fmt[p + 1] == LETTER_D && args[k].IntValue?) || (fmt[p + 1] == LETTER_S && args[k].StrValue?))
  }

  lemma {:induction false} SizeStep(fmt: Text, i: nat, args: seq<Value>, k: nat)
    requires i < |fmt| && k <= |args|
    ensures var now := Parse(fmt, i, args[k..]);
            if !Accepted(fmt, i, args, k) then now == None
            else
              var p := Sep(fmt, i);
              var later := Parse(fmt, p + 2, args[k + 1..]);
              (now.Some? <==> later.Some?)
              && (now.Some? ==> ParamsSize(now.value) == 8 + (p - i) + ValueSize(args[k]) + ParamsSize(later.value))
  {
    if k < |args| {
      assert args[k..][0] == args[k] && args[k..][1..] == args[k + 1..];
      var p := Sep(fmt, i);
      if Accepted(fmt, i, args, k) && Parse(fmt, p + 2, args[k + 1..]).Some? {
        var rest := Parse(fmt, p + 2, args[k + 1..]).value;
        assert ([Param(fmt[i..p], args[k])] + rest)[1..] == rest;
      }
    }
  }

  lemma {:induction false} ParseEnd(fmt: Text, args: seq<Value>)
    ensures Parse(fmt, |fmt|, args) == Some([]) && ParamsBytes([]) == []
  {
  }

  /** The message being written; `pos` is the cursor. */
  class Buffer {
    const msg: array<Byte>
    var pos: nat

    constructor (size: nat)
      ensures pos == 0 && msg.Length == size && fresh(msg)
    {
      msg := new Byte[size];
      pos := 0;
    }

    /** The call wrote `bytes`, or met the assertion on the space left. */
    twostate predicate Grown(ok: bool, bytes: seq<Byte>)
      requires old(pos) <= msg.Length
      reads this, msg
    {
      && (ok <==> old(pos) + |bytes| <= msg.Length)
      && (ok ==> pos == old(pos) + |bytes| && msg[..pos] == old(msg[..pos]) + bytes)
    }

    method PutWord(w: Word) returns (ok: bool)
      requires pos <= msg.Length
      modifies this, msg
      ensures Grown(ok, Bytes(w))
    {
      if pos + 4 > msg.Length { return false; }
      var b := Bytes(w);
      msg[pos], msg[pos + 1], msg[pos + 2], msg[pos + 3] := b[0], b[1], b[2], b[3];
      pos := pos + 4;
      ok := true;
      assert msg[..pos] == old(msg[..pos]) + b;
    }

    /** The text from `from` to `to` of `t`, with its length and type. */
    method PutString(t: Text, from: nat, to: nat) returns (ok: bool)
      requires pos <= msg.Length && from <= to <= |t| && Fits(t[from..to])
      modifies this, msg
      ensures Grown(ok, StringBytes(t[from..to]))
    {
      hide Bytes;
      var len := to - from;
      if pos + 8 + len > msg.Length { return false; }
      ok := PutWord(len);
      ok := PutWord(TYPE_STRING);
      ghost var before := msg[..pos];
      var i := 0;
      while i < len
        invariant 0 <= i <= len && pos == old(pos) + 8 && pos + len <= msg.Length
        invariant msg[..pos + i] == before + t[from..from + i]
      {
        msg[pos + i] := t[from + i];
        i := i + 1;
      }
      pos := pos + len;
      ok := true;
    }

    method PutValue(v: Value) returns (ok: bool)
      requires pos <= msg.Length && (v.StrValue? ==> Fits(v.text))
      modifies this, msg
      ensures Grown(ok, ValueBytes(v))
    {
      hide Bytes, StringBytes;
      match v
      case IntValue(w) =>
        ok := PutWord(4);
        if !ok { return; }
        ok := PutWord(TYPE_INT);
        if !ok { return; }
        ok := PutWord(w);
      case StrValue(t) =>
        assert t[0..|t|] == t;
        ok := PutString(t, 0, |t|);
    }

    method PutOptional(t: Option<Text>) returns (ok: bool)
      requires pos <= msg.Length && (t.Some? ==> Fits(t.value))
      modifies this, msg
      ensures Grown(ok, OptBytes(t))
    {
      hide StringBytes;
      ok := true;
      if t.Some? {
        assert t.value[0..|t.value|] == t.value;
        ok := PutString(t.value, 0, |t.value|);
      }
    }

    /** What comes before the parameters. */
    method PutHead(size: Word, cmd: Word, first: Option<Text>, second: Option<Text>) returns (ok: bool)
      requires pos == 0 && (first.Some? ==> Fits(first.value)) && (second.Some? ==> Fits(second.value))
      modifies this, msg
      ensures Grown(ok, Bytes(size) + Bytes(cmd) + OptBytes(first) + OptBytes(second))
    {
      hide Bytes, OptBytes;
      ok := PutWord(size);
      if !ok { return; }
      ok := PutWord(cmd);
      if !ok { return; }
      ok := PutOptional(first);
      if !ok { return; }
      ok := PutOptional(second);
    }

    method PutParam(fmt: Text, from: nat, to: nat, v: Value) returns (ok: bool)
      requires pos <= msg.Length && from <= to <= |fmt| && Fits(fmt[from..to]) && (v.StrValue? ==> Fits(v.text))
      modifies this, msg
      ensures Grown(ok, StringBytes(fmt[from..to]) + ValueBytes(v))
    {
      hide StringBytes, ValueBytes;
      ok := PutString(fmt, from, to);
      if !ok { return; }
      ok := PutValue(v);
    }

    /** The write pass over the format. */
    method PutFormat(fmt: Text, args: seq<Value>) returns (ok: bool)
      requires pos <= msg.Length && Parse(fmt, 0, args).Some? && AllFit(Parse(fmt, 0, args).value)
      modifies this, msg
      ensures Grown(ok, ParamsBytes(Parse(fmt, 0, args).value))
    {
      hide StringBytes, ValueBytes, Parse, ParamsBytes, AllFit;
      ok := true;
      var i, k := 0, 0;
      ghost var all := ParamsBytes(Parse(fmt, 0, args).value);
      assert args[0..] == args;
      ghost var done: seq<Byte> := [];
      while i < |fmt|
        invariant 0 <= i <= |fmt| && 0 <= k <= |args|
        invariant Parse(fmt, i, args[k..]).Some? && AllFit(Parse(fmt, i, args[k..]).value)
        invariant all == done + ParamsBytes(Parse(fmt, i, args[k..]).value)
        invariant pos == old(pos) + |done| <= msg.Length && msg[..pos] == old(msg[..pos]) + done
        decreases |fmt| - i
      {
        ParseStep(fmt, i, args, k);
        var p := Sep(fmt, i);
        ok := PutParam(fmt, i, p, args[k]);
        if !ok { return; }
        done := done + (StringBytes(fmt[i..p]) + ValueBytes(args[k]));
        i, k := p + 2, k + 1;
      }
      ParseEnd(fmt, args[k..]);
      assert done + [] == done;
    }
  }

  lemma {:induction false} EmptySize()
    ensures ParamsSize([]) == 0
  {
  }

  /** The size pass over the format: `ok` exactly when the format and its arguments are well
      formed. */
  method FormatSize(fmt: Text, args: seq<Value>) returns (ok: bool, size: nat)
    ensures ok <==> Parse(fmt, 0, args).Some?
    ensures ok ==> size == ParamsSize(Parse(fmt, 0, args).value)
  {
    hide Parse, ParamsSize;
    size := 0;
    var i, k := 0, 0;
    assert args[0..] == args;
    while i < |fmt|
      invariant 0 <= i <= |fmt| && 0 <= k <= |args|
      invariant Parse(fmt, 0, args).Some? <==> Parse(fmt, i, args[k..]).Some?
      invariant Parse(fmt, i, args[k..]).Some? ==>
                  ParamsSize(Parse(fmt, 0, args).value) == size + ParamsSize(Parse(fmt, i, args[k..]).value)
      decreases |fmt| - i
    {
      SizeStep(fmt, i, args, k);
      var p := Sep(fmt, i);
      if p == i || p + 1 >= |fmt| || k == |args| { return false, 0; }
      var c := fmt[p + 1];
      if !(c == LETTER_D && args[k].IntValue?) && !(c == LETTER_S && args[k].StrValue?) { return false, 0; }
      size := size + 8 + (p - i) + 8;
      if c == LETTER_D {
        size := size + 4;
      } else {
        size := size + |args[k].text|;
      }
      i, k := p + 2, k + 1;
    }
    ParseEnd(fmt, args[k..]);
    EmptySize();
    ok := true;
  }

  /** send_msg up to the socket: a well-formed call never meets an assertion, and fills the
      buffer it sized exactly. */
  method BuildMessage(cmd: Word, first: Option<Text>, second: Option<Text>, fmt: Text, args: seq<Value>)
    returns (ok: bool, frame: seq<Byte>)
    requires Parse(fmt, 0, args).Some? ==> CallFits(Call(cmd, first, second, Parse(fmt, 0, args).value))
                                           && ContentSize(Call(cmd, first, second, Parse(fmt, 0, args).value)) < 0x8000_0000 - 8
    ensures ok <==> Parse(fmt, 0, args).Some?
    ensures ok ==> frame == Frame(Call(cmd, first, second, Parse(fmt, 0, args).value))
  {
    hide Parse, Bytes, ParamsBytes, OptBytes, ParamsSize, AllFit;
    frame := [];
    var size := OptSize(first) + OptSize(second);
    var more;
    ok, more := FormatSize(fmt, args);
    if !ok { return; }
    size := size + more;
    ghost var c := Call(cmd, first, second, Parse(fmt, 0, args).value);
    ContentCounted(c);
    var buffer := new Buffer(8 + size);
    ok := buffer.PutHead(size, cmd, first, second);
    ok := buffer.PutFormat(fmt, args);
    frame := buffer.msg[..buffer.pos];
  }
}
