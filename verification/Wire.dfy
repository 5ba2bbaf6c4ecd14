/**
 The wire protocol between the client library and client abstraction: a header of two
 32-bit words (identifier and total size), then the content of the message.
 */
module Wire {
  import opened Common

  type Byte = b: int | 0 <= b < 256

  /** A 32-bit word; a signed field stands for its bit pattern. */
  type Word = w: int | 0 <= w < 0x1_0000_0000

  /** The limits of the public client header: number of events, identifier of the debug event,
      size of the name buffer, number of debug strings and size of each string buffer. */
  datatype Limits = Limits(numEvents: nat, dbgInfo: nat, nameLen: nat, maxNb: nat, maxLen: nat)

  const HEADER := 8

  function SizeMax(lim: Limits): nat {
    32 + lim.maxNb * (4 + lim.maxLen)
  }

  predicate Sane(lim: Limits) {
    lim.dbgInfo < lim.numEvents && lim.numEvents + 10 < 0x8000_0000 && SizeMax(lim) < 0x1_0000_0000
  }

  // ---------------------------------------------------------------- messages

  /** A text is the content of a character array, up to its terminator. */
  type Text = seq<Byte>

  datatype Dbg = Dbg(kind: Word, apSize: Word, bpSize: Word, bpTime: Word, data: seq<Text>)

  datatype Body =
    | Plain
    | Register(events: Word, name: Text)
    | Restart(cause: Word, restartDbg: Option<Dbg>)
    | Debug(dbg: Option<Dbg>)

  datatype Msg = Msg(id: Word, body: Body)

  datatype Kind = PlainKind | RegisterKind | RestartKind | DebugKind

  /** REGISTER and REGISTER_DBG follow the events, then RESTART is fifth and NOTIFY_DBG tenth. */
  function KindOf(lim: Limits, id: Word): Kind {
    if id == lim.numEvents || id == lim.numEvents + 1 then RegisterKind
    else if id == lim.numEvents + 4 then RestartKind
    else if id == lim.numEvents + 9 || id == lim.dbgInfo then DebugKind
    else PlainKind
  }

  /** Events go to clients and requests to the server; the identifier is a signed integer. */
  predicate Directed(lim: Limits, toClient: bool, id: Word) {
    toClient == (id < lim.numEvents || id >= 0x8000_0000)
  }

  predicate WellTyped(lim: Limits, m: Msg) {
    match m.body
    case Plain => KindOf(lim, m.id) == PlainKind
    case Register(_, _) => KindOf(lim, m.id) == RegisterKind
    case Restart(_, _) => KindOf(lim, m.id) == RestartKind
    case Debug(_) => KindOf(lim, m.id) == DebugKind
  }

  predicate NulFree(t: Text) {
    forall i :: 0 <= i < |t| ==> t[i] != 0
  }

  predicate DbgWithin(lim: Limits, d: Dbg) {
    |d.data| <= lim.maxNb && forall i :: 0 <= i < |d.data| ==> |d.data[i]| < lim.maxLen
  }

  predicate OptWithin(lim: Limits, d: Option<Dbg>) {
    d.Some? ==> DbgWithin(lim, d.value)
  }

  predicate Within(lim: Limits, m: Msg) {
    match m.body
    case Plain => true
    case Register(_, name) => |name| < lim.nameLen
    case Restart(_, d) => OptWithin(lim, d)
    case Debug(d) => OptWithin(lim, d)
  }

  predicate DbgNulFree(d: Option<Dbg>) {
    d.Some? ==> forall i :: 0 <= i < |d.value.data| ==> NulFree(d.value.data[i])
  }

  predicate MsgNulFree(m: Msg) {
    match m.body
    case Plain => true
    case Register(_, name) => NulFree(name)
    case Restart(_, d) => DbgNulFree(d)
    case Debug(d) => DbgNulFree(d)
  }

  // ---------------------------------------------------------------- serialization

  /** Network byte order. */
  function Bytes(w: Word): (s: seq<Byte>)
    ensures |s| == 4
  {
    [w / 0x100_0000, (w / 0x1_0000) % 0x100, (w / 0x100) % 0x100, w % 0x100]
  }

  function WordOf(s: seq<Byte>): (w: Word)
    requires |s| >= 4
  {
    Join(s[0], s[1], s[2], s[3])
  }

  function Join(a: int, b: int, c: int, d: int): int {
    a * 0x100_0000 + b * 0x1_0000 + c * 0x100 + d
  }

  lemma {:induction false} WordRoundTrip(w: Word)
    ensures WordOf(Bytes(w)) == w
  {
    var x: int := w;
    var high, top := x / 0x100, x / 0x1_0000;
    Split(top / 0x100 * 0x100 + top % 0x100, high % 0x100, 0x100);
    Nested(x, 0x100);
    Nested(high, 0x100);
    assert x == high * 0x100 + x % 0x100;
    assert top == high / 0x100 by {
      Split(high / 0x100, (high % 0x100) * 0x100 + x % 0x100, 0x1_0000);
    }
    assert x / 0x100_0000 == top / 0x100 by {
      Split(top / 0x100, (top % 0x100) * 0x1_0000 + x % 0x1_0000, 0x100_0000);
    }
  }

  lemma {:induction false} Nested(x: int, n: int)
    requires n > 0
    ensures x == (x / n) * n + x % n
  {
  }

  lemma {:induction false} BytesRoundTrip(s: seq<Byte>)
    requires |s| == 4
    ensures Bytes(WordOf(s)) == s
  {
    var a: int, b: int, c: int, d: int := s[0], s[1], s[2], s[3];
    Split(a, b * 0x1_0000 + c * 0x100 + d, 0x100_0000);
    Split(a * 0x100 + b, c * 0x100 + d, 0x1_0000);
    Split(a, b, 0x100);
    Split(a * 0x1_0000 + b * 0x100 + c, d, 0x100);
    Split(a * 0x100 + b, c, 0x100);
  }

  /** What strlen sees. */
  function Cut(t: Text): (r: Text)
    ensures |r| <= |t| && r == t[..|r|] && NulFree(r)
    ensures (|r| == |t|) <==> NulFree(t)
  {
    if t == [] || t[0] == 0 then [] else [t[0]] + Cut(t[1..])
  }

  function TextBytes(t: Text): seq<Byte>
    requires |t| < 0x1_0000_0000
  {
    Bytes(|Cut(t)|) + Cut(t)
  }

  predicate Short(ts: seq<Text>) {
    |ts| < 0x1_0000_0000 && forall i :: 0 <= i < |ts| ==> |ts[i]| < 0x1_0000_0000
  }

  function TextsBytes(ts: seq<Text>): seq<Byte>
    requires forall i :: 0 <= i < |ts| ==> |ts[i]| < 0x1_0000_0000
  {
    if ts == [] then [] else TextBytes(ts[0]) + TextsBytes(ts[1..])
  }

  function DbgBytes(d: Option<Dbg>): seq<Byte>
    requires d.Some? ==> Short(d.value.data)
  {
    if d == None then []
    else
      Bytes(d.value.kind) + Bytes(d.value.apSize) + Bytes(d.value.bpSize) + Bytes(d.value.bpTime)
      + Bytes(|d.value.data|) + TextsBytes(d.value.data)
  }

  /** Lengths that fit their field, whatever the limits. */
  predicate Writable(m: Msg) {
    match m.body
    case Plain => true
    case Register(_, name) => |name| < 0x1_0000_0000
    case Restart(_, d) => d.Some? ==> Short(d.value.data)
    case Debug(d) => d.Some? ==> Short(d.value.data)
  }

  function BodyBytes(m: Msg): seq<Byte>
    requires Writable(m)
  {
    match m.body
    case Plain => []
    case Register(events, name) => Bytes(events) + TextBytes(name)
    case Restart(cause, d) => Bytes(cause) + DbgBytes(d)
    case Debug(d) => DbgBytes(d)
  }

  function Size(m: Msg): nat
    requires Writable(m)
  {
    HEADER + |BodyBytes(m)|
  }

  function Encode(m: Msg): seq<Byte>
    requires Writable(m) && Size(m) < 0x1_0000_0000
  {
    Bytes(m.id) + Bytes(Size(m)) + BodyBytes(m)
  }

  // ---------------------------------------------------------------- reception

  type Rest<T> = Option<(T, seq<Byte>)>

  /** The text must fit its buffer with the terminator. */
  function ReadText(s: seq<Byte>, bufSize: nat): Rest<Text> {
    if |s| < 4 then None
    else
      var len := WordOf(s);
      if |s| - 4 < len || bufSize <= len then None else Some((s[4..4 + len], s[4 + len..]))
  }

  function ReadTexts(s: seq<Byte>, n: nat, bufSize: nat): Rest<seq<Text>> {
    if n == 0 then Some(([], s))
    else
      match ReadText(s, bufSize)
      case None => None
      case Some((t, s1)) =>
        match ReadTexts(s1, n - 1, bufSize)
        case None => None
        case Some((ts, s2)) => Some(([t] + ts, s2))
  }

  function ReadDbg(lim: Limits, s: seq<Byte>): Rest<Option<Dbg>> {
    if s == [] then Some((None, []))
    else if |s| < 20 then None
    else
      var nb := WordOf(s[16..]);
      if nb > lim.maxNb then None
      else
        match ReadTexts(s[20..], nb, lim.maxLen)
        case None => None
        case Some((ts, rest)) =>
          Some((Some(Dbg(WordOf(s), WordOf(s[4..]), WordOf(s[8..]), WordOf(s[12..]), ts)), rest))
  }

  function ReadBody(lim: Limits, id: Word, s: seq<Byte>): Rest<Body> {
    match KindOf(lim, id)
    case PlainKind => Some((Plain, s))
    case RegisterKind =>
      if |s| < 4 then None
      else
        (match ReadText(s[4..], lim.nameLen)
         case None => None
         case Some((name, rest)) => Some((Register(WordOf(s), name), rest)))
    case RestartKind =>
      // with no content at all the cause reads as 0 and the failed read goes unnoticed
      if s == [] then Some((Restart(0, None), []))
      else if |s| < 4 then None
      else
        (match ReadDbg(lim, s[4..])
         case None => None
         case Some((d, rest)) => Some((Restart(WordOf(s), d), rest)))
    case DebugKind =>
      (match ReadDbg(lim, s)
       case None => None
       case Some((d, rest)) => Some((Debug(d), rest)))
  }

  /** One message taken from the bytes that arrive on the socket. A message that is too short,
      badly sized or has bytes left over is refused. */
  function Recv(lim: Limits, stream: seq<Byte>): Rest<Msg> {
    if |stream| < HEADER then None
    else
      var id, size := WordOf(stream), WordOf(stream[4..]);
      if size < HEADER || size > SizeMax(lim) || |stream| < size then None
      else
        match ReadBody(lim, id, stream[HEADER..size])
        case None => None
        case Some((body, extra)) => if extra != [] then None else Some((Msg(id, body), stream[size..]))
  }

  function RecvAll(lim: Limits, stream: seq<Byte>): Option<seq<Msg>>
    decreases |stream|
  {
    if stream == [] then Some([])
    else
      match Recv(lim, stream)
      case None => None
      case Some((m, rest)) =>
        if |rest| >= |stream| then None
        else
          match RecvAll(lim, rest)
          case None => None
          case Some(ms) => Some([m] + ms)
  }
}
