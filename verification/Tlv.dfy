/**
 Customization files sent to the modem as AT commands: chunks of 256 bytes, each byte
 written in decimal.
 */
module Tlv {
  import opened Common

  const TLV_CHUNK := 256
  const TLV_ENCODED_CHUNK := TLV_CHUNK * 4 + 100

  type Byte = b: int | 0 <= b < 256

  // ---------------------------------------------------------------- decimal numbers

  predicate IsDigit(c: char) {
    '0' <= c <= '9'
  }

  function DigitChar(d: nat): (c: char)
    requires d < 10
    ensures IsDigit(c)
  {
    '0' + d as char
  }

  function DigitValue(c: char): (d: nat)
    requires IsDigit(c)
    ensures d < 10
  {
    (c - '0') as nat
  }

  function Dec(n: nat): (s: string)
    ensures |s| > 0 && forall i :: 0 <= i < |s| ==> IsDigit(s[i])
  {
    if n < 10 then [DigitChar(n)] else Dec(n / 10) + [DigitChar(n % 10)]
  }

  function Value(s: string): nat
    requires forall i :: 0 <= i < |s| ==> IsDigit(s[i])
  {
    if s == "" then 0 else Value(s[..|s| - 1]) * 10 + DigitValue(s[|s| - 1])
  }

  lemma {:induction false} DecValue(n: nat)
    ensures Value(Dec(n)) == n
    decreases n
  {
    var s := Dec(n);
    if n < 10 {
      assert s[..|s| - 1] == "";
    } else {
      DecValue(n / 10);
      assert s[..|s| - 1] == Dec(n / 10);
    }
  }

  function Pow10(k: nat): nat {
    if k == 0 then 1 else 10 * Pow10(k - 1)
  }

  lemma {:induction false} DecLength(n: nat, k: nat)
    requires k > 0 && n < Pow10(k)
    ensures |Dec(n)| <= k
    decreases k
  {
    if k > 1 && n >= 10 {
      assert n / 10 < Pow10(k - 1);
      DecLength(n / 10, k - 1);
    } else if k == 1 {
      assert Pow10(1) == 10 * Pow10(0);
    }
  }

  /** The leading digits of a text. */
  function Digits(s: string): (n: nat)
    ensures n <= |s| && (forall i :: 0 <= i < n ==> IsDigit(s[i])) && (n < |s| ==> !IsDigit(s[n]))
  {
    if s == "" || !IsDigit(s[0]) then 0 else 1 + Digits(s[1..])
  }

  lemma {:induction false} DigitsOf(ds: string, rest: string)
    requires (forall i :: 0 <= i < |ds| ==> IsDigit(ds[i])) && rest != "" && !IsDigit(rest[0])
    ensures Digits(ds + rest) == |ds|
    decreases |ds|
  {
    if ds == "" {
      assert ds + rest == rest;
    } else {
      assert (ds + rest)[1..] == ds[1..] + rest;
      DigitsOf(ds[1..], rest);
    }
  }

  // ---------------------------------------------------------------- commands

  function Head(): string { "AT@gticom:config_script[" }
  function Open(): string { "]={" }
  function Run(): string { "AT@gticom:run_configuration()" }

  function Header(offset: nat): string {
    Head() + Dec(offset) + Open()
  }

  /** Each byte followed by a comma, as the encoding loop writes them. */
  function Commas(bs: seq<Byte>): string {
    if bs == [] then "" else Commas(bs[..|bs| - 1]) + Dec(bs[|bs| - 1]) + ","
  }

  lemma {:induction false} CommasLast(bs: seq<Byte>)
    requires bs != []
    ensures Commas(bs) != "" && Commas(bs)[|Commas(bs)| - 1] == ','
  {
  }

  /** One command: the last comma gives way to the closing brace. */
  function Command(offset: nat, bs: seq<Byte>): string
    requires bs != []
  {
    CommasLast(bs);
    var body := Commas(bs);
    Header(offset) + body[..|body| - 1] + "}"
  }

  /** The bytes in decimal, with commas between them. */
  function Listed(bs: seq<Byte>): string {
    if bs == [] then "" else if |bs| == 1 then Dec(bs[0]) else Listed(bs[..|bs| - 1]) + "," + Dec(bs[|bs| - 1])
  }

  lemma {:induction false} CommasListed(bs: seq<Byte>)
    requires bs != []
    ensures Commas(bs) == Listed(bs) + ","
    decreases |bs|
  {
    hide Dec;
    var before := bs[..|bs| - 1];
    if |bs| > 1 {
      CommasListed(before);
    } else {
      assert "" + Dec(bs[0]) == Dec(bs[0]);
    }
  }

  /** The text of a command, and of the request to run them. */
  lemma {:induction false} CommandText(offset: nat, bs: seq<Byte>)
    requires bs != []
    ensures Command(offset, bs) == "AT@gticom:config_script[" + Dec(offset) + "]={" + Listed(bs) + "}"
    ensures Run() == "AT@gticom:run_configuration()"
  {
    hide Dec, Commas, Listed;
    CommasLast(bs);
    CommasListed(bs);
    var body := Commas(bs);
    assert body[..|body| - 1] == Listed(bs);
  }

  function ChunkCount(len: nat): nat {
    (len + TLV_CHUNK - 1) / TLV_CHUNK
  }

  lemma {:induction false} ChunkFits(len: nat, k: nat)
    requires k < ChunkCount(len)
    ensures k * TLV_CHUNK < len
  {
  }

  function Min(a: nat, b: nat): nat {
    if a < b then a else b
  }

  function Chunk(file: seq<Byte>, k: nat): (c: seq<Byte>)
    requires k < ChunkCount(|file|)
    ensures c != []
  {
    ChunkFits(|file|, k);
    file[k * TLV_CHUNK..][..Min(TLV_CHUNK, |file| - k * TLV_CHUNK)]
  }

  /** The commands of the chunks from `k` on. */
  function CommandsFrom(file: seq<Byte>, k: nat): seq<string>
    requires k <= ChunkCount(|file|)
    decreases ChunkCount(|file|) - k
  {
    if k == ChunkCount(|file|) then []
    else [Command(k * TLV_CHUNK, Chunk(file, k))] + CommandsFrom(file, k + 1)
  }

  /** What is sent for one file, then for several. */
  function Script(file: seq<Byte>): seq<string> {
    CommandsFrom(file, 0) + [Run()]
  }

  function Scripts(files: seq<seq<Byte>>): seq<string> {
    if files == [] then [] else Scripts(files[..|files| - 1]) + Script(files[|files| - 1])
  }

  // ---------------------------------------------------------------- decoding

  /** A number and the text after it. */
  function ReadNumber(s: string): Option<(nat, string)> {
    var n := Digits(s);
    if n == 0 then None else Some((Value(s[..n]), s[n..]))
  }

  lemma {:induction false} ReadDec(n: nat, rest: string)
    requires rest != "" && !IsDigit(rest[0])
    ensures ReadNumber(Dec(n) + rest) == Some((n, rest))
  {
    DigitsOf(Dec(n), rest);
    assert (Dec(n) + rest)[..|Dec(n)|] == Dec(n);
    assert (Dec(n) + rest)[|Dec(n)|..] == rest;
    DecValue(n);
  }

  /** Numbers below 256 separated by commas and closed by a brace. */
  function ReadBytes(s: string): Option<seq<Byte>>
    decreases |s|
  {
    match ReadNumber(s)
    case None => None
    case Some((n, rest)) =>
      if n >= 256 || rest == "" then None
      else if rest == "}" then Some([n])
      else if rest[0] != ',' then None
      else
        match ReadBytes(rest[1..])
        case None => None
        case Some(bs) => Some([n] + bs)
  }

  /** The offset and the bytes of a command. */
  function ReadCommand(s: string): Option<(nat, seq<Byte>)> {
    if !(Head() <= s) then None
    else
      match ReadNumber(s[|Head()|..])
      case None => None
      case Some((offset, rest)) =>
        if !(Open() <= rest) then None
        else
          match ReadBytes(rest[|Open()|..])
          case None => None
          case Some(bs) => Some((offset, bs))
  }

  /** The modem's view: each command stores its bytes at its offset, the end of what it has
      already received. */
  function Receive(sofar: seq<Byte>, cmds: seq<string>): Option<seq<Byte>>
    decreases |cmds|
  {
    if cmds == [] then Some(sofar)
    else
      match ReadCommand(cmds[0])
      case None => None
      case Some((offset, bs)) => if offset != |sofar| then None else Receive(sofar + bs, cmds[1..])
  }

  // ---------------------------------------------------------------- nothing is lost

  lemma {:induction false} CommasCons(b: Byte, bs: seq<Byte>)
    ensures Commas([b] + bs) == Dec(b) + "," + Commas(bs)
    decreases |bs|
  {
    hide Dec;
    var all := [b] + bs;
    if bs == [] {
      assert all[..|all| - 1] == [];
    } else {
      assert all[..|all| - 1] == [b] + bs[..|bs| - 1];
      CommasCons(b, bs[..|bs| - 1]);
    }
  }

  lemma {:induction false} EmptyCommas()
    ensures Commas([]) == ""
  {
  }

  lemma {:induction false} BytesRead(bs: seq<Byte>)
    requires bs != []
    ensures var body := Commas(bs);
            body != "" && ReadBytes(body[..|body| - 1] + "}") == Some(bs)
    decreases |bs|
  {
    hide Dec, ReadNumber, Commas;
    var b, tail := bs[0], bs[1..];
    assert bs == [b] + tail;
    EmptyCommas();
    CommasCons(b, tail);
    var body := Commas(bs);
    var text := body[..|body| - 1] + "}";
    if tail == [] {
      assert bs == [b];
      assert text == Dec(b) + "}";
      ReadDec(b, "}");
    } else {
      BytesRead(tail);
      var rest := Commas(tail)[..|Commas(tail)| - 1] + "}";
      assert text == Dec(b) + ("," + rest);
      ReadDec(b, "," + rest);
      assert ("," + rest)[1..] == rest;
    }
  }

  lemma {:induction false} CommandRead(offset: nat, bs: seq<Byte>)
    requires bs != []
    ensures ReadCommand(Command(offset, bs)) == Some((offset, bs))
  {
    hide Dec, ReadNumber, Commas, ReadBytes, Head;
    CommasLast(bs);
    var body := Commas(bs)[..|Commas(bs)| - 1] + "}";
    var s := Command(offset, bs);
    assert s == Head() + (Dec(offset) + (Open() + body));
    assert s[|Head()|..] == Dec(offset) + (Open() + body);
    ReadDec(offset, Open() + body);
    assert (Open() + body)[|Open()|..] == body;
    BytesRead(bs);
  }

  lemma {:induction false} ReceiveFrom(file: seq<Byte>, k: nat)
    requires k <= ChunkCount(|file|)
    ensures Receive(file[..Min(k * TLV_CHUNK, |file|)], CommandsFrom(file, k)) == Some(file)
    decreases ChunkCount(|file|) - k
  {
    hide ReadCommand, Command;
    var sofar := file[..Min(k * TLV_CHUNK, |file|)];
    if k == ChunkCount(|file|) {
      assert k * TLV_CHUNK >= |file|;
      assert sofar == file;
    } else {
      ChunkFits(|file|, k);
      CommandRead(k * TLV_CHUNK, Chunk(file, k));
      assert sofar + Chunk(file, k) == file[..Min((k + 1) * TLV_CHUNK, |file|)];
      assert CommandsFrom(file, k)[1..] == CommandsFrom(file, k + 1);
      ReceiveFrom(file, k + 1);
    }
  }

  /** Reading the offsets and the decimal bytes of the commands gives the file back. */
  lemma {:induction false} ChunkingLossless(file: seq<Byte>)
    ensures Receive([], CommandsFrom(file, 0)) == Some(file)
  {
    ReceiveFrom(file, 0);
    assert file[..Min(0, |file|)] == [];
  }

  // ---------------------------------------------------------------- the buffer

  lemma {:induction false} TwentyDigits()
    ensures Pow10(20) == 100_000_000_000_000_000_000
  {
    assert Pow10(5) == 100_000;
    assert Pow10(10) == 10_000_000_000;
    assert Pow10(15) == 1_000_000_000_000_000;
  }

  /** Sizes on 64 bits leave room in the 100 bytes set aside for the header. */
  lemma {:induction false} HeaderLength(offset: nat)
    requires offset < 0x1_0000_0000_0000_0000
    ensures |Header(offset)| <= 47
  {
    TwentyDigits();
    DecLength(offset, 20);
  }

  lemma {:induction false} ByteLength(b: Byte)
    ensures |Dec(b)| <= 3
  {
    assert Pow10(3) == 1000;
    DecLength(b, 3);
  }

  lemma {:induction false} CommasLength(bs: seq<Byte>)
    ensures |Commas(bs)| <= 4 * |bs|
    decreases |bs|
  {
    if bs != [] {
      CommasLength(bs[..|bs| - 1]);
      ByteLength(bs[|bs| - 1]);
    }
  }

  lemma {:induction false} CommasStep(bs: seq<Byte>, i: nat)
    requires i < |bs|
    ensures Commas(bs[..i + 1]) == Commas(bs[..i]) + (Dec(bs[i]) + ",")
  {
    assert bs[..i + 1][..i] == bs[..i];
  }

  lemma {:induction false} ChunkAt(file: seq<Byte>, k: nat)
    requires k < ChunkCount(|file|)
    ensures k * TLV_CHUNK < |file| && |Chunk(file, k)| == Min(TLV_CHUNK, |file| - k * TLV_CHUNK)
    ensures forall i :: 0 <= i < |Chunk(file, k)| ==> Chunk(file, k)[i] == file[k * TLV_CHUNK + i]
  {
    ChunkFits(|file|, k);
  }

  /** snprintf at index `at`: what fits is written, one byte being kept for the terminator,
      and the full length is returned. */
  method Print(buf: array<char>, at: nat, text: string) returns (len: nat)
    requires at < buf.Length
    modifies buf
    ensures len == |text|
    ensures buf[..at] == old(buf[..at])
    ensures at + len < buf.Length ==> buf[..at + len] == old(buf[..at]) + text
  {
    var n := Min(|text|, buf.Length - at - 1);
    var i := 0;
    while i < n
      invariant 0 <= i <= n
      invariant buf[..at] == old(buf[..at]) && buf[..at + i] == old(buf[..at]) + text[..i]
    {
      buf[at + i] := text[i];
      i := i + 1;
    }
    ghost var written := buf[..at + n];
    buf[at + n] := '\0';
    assert buf[..at + n] == written;
    if n == |text| {
      assert text[..n] == text;
    }
    return |text|;
  }

  /** The body of the chunk loop: no assertion on the index can fail, and the buffer holds
      the command. */
  method Encode(file: array<Byte>, k: nat) returns (cmd: string)
    requires k < ChunkCount(file.Length) && file.Length < 0x8000_0000_0000_0000
    ensures cmd == Command(k * TLV_CHUNK, Chunk(file[..], k))
  {
    hide Dec, Header, Pow10, Commas, Chunk, ChunkCount;
    ChunkAt(file[..], k);
    EmptyCommas();
    ghost var chunk := Chunk(file[..], k);
    ghost var head := Header(k * TLV_CHUNK);
    var buf := new char[TLV_ENCODED_CHUNK];
    HeaderLength(k * TLV_CHUNK);
    var at := Print(buf, 0, Header(k * TLV_CHUNK));
    var count := Min(TLV_CHUNK, file.Length - k * TLV_CHUNK);
    var i := 0;
    while i < count
      invariant 0 <= i <= count == |chunk|
      invariant at == |head| + |Commas(chunk[..i])|
      invariant at <= 47 + 4 * i && at < buf.Length
      invariant buf[..at] == head + Commas(chunk[..i])
    {
      CommasStep(chunk, i);
      ByteLength(file[k * TLV_CHUNK + i]);
      var n := Print(buf, at, Dec(file[k * TLV_CHUNK + i]) + ",");
      at := at + n;
      i := i + 1;
    }
    assert chunk[..count] == chunk;
    CommasLast(chunk);
    at := at - 1;
    assert buf[..at] == head + Commas(chunk)[..|Commas(chunk)| - 1];
    var n := Print(buf, at, "}");
    at := at + n;
    assert at < buf.Length;
    cmd := buf[..at];
  }

  lemma {:induction false} FromStep(file: seq<Byte>, k: nat)
    requires k < ChunkCount(|file|)
    ensures CommandsFrom(file, k) == [Command(k * TLV_CHUNK, Chunk(file, k))] + CommandsFrom(file, k + 1)
  {
    hide Command, ChunkCount, Chunk;
  }

  lemma {:induction false} FromEnd(file: seq<Byte>)
    ensures CommandsFrom(file, ChunkCount(|file|)) == []
  {
    hide Command, ChunkCount, Chunk;
  }

  /** One file: every command is sent, then the request to run them, unless a send fails;
      `fails(j)` tells whether the j-th send does. */
  method WriteTlv(file: array<Byte>, fails: nat -> bool) returns (sent: seq<string>, err: bool)
    requires file.Length < 0x8000_0000_0000_0000
    ensures sent <= Script(file[..])
    ensures !err ==> sent == Script(file[..])
    ensures err ==> sent != [] && fails(|sent| - 1)
    ensures forall j: nat :: j + 1 < |sent| || (j < |sent| && !err) ==> !fails(j)
  {
    hide Command, ChunkCount, Chunk, CommandsFrom;
    sent, err := [], false;
    ghost var all := CommandsFrom(file[..], 0);
    var k := 0;
    while k < ChunkCount(file.Length) && !err
      invariant 0 <= k <= ChunkCount(file.Length)
      invariant all == sent + CommandsFrom(file[..], k) && |sent| == k
      invariant err ==> sent != [] && fails(|sent| - 1)
      invariant forall j: nat :: j + 1 < |sent| || (j < |sent| && !err) ==> !fails(j)
    {
      FromStep(file[..], k);
      var cmd := Encode(file, k);
      err := fails(|sent|);
      sent := sent + [cmd];
      k := k + 1;
    }
    FromEnd(file[..]);
    if !err {
      err := fails(|sent|);
      sent := sent + [Run()];
    }
  }

  /** All the files, up to the first failure; `fails(j)` tells whether the j-th send of all does. */
  method WriteTlvs(files: seq<seq<Byte>>, fails: nat -> bool) returns (sent: seq<string>, err: bool)
    requires forall f :: 0 <= f < |files| ==> |files[f]| < 0x8000_0000_0000_0000
    ensures sent <= Scripts(files)
    ensures !err ==> sent == Scripts(files)
    ensures err ==> sent != [] && fails(|sent| - 1)
    ensures forall j: nat :: j + 1 < |sent| || (j < |sent| && !err) ==> !fails(j)
  {
    hide Script;
    sent, err := [], false;
    var f := 0;
    while f < |files| && !err
      invariant 0 <= f <= |files|
      invariant !err ==> sent == Scripts(files[..f])
      invariant sent <= Scripts(files[..f])
      invariant err ==> sent != [] && fails(|sent| - 1)
      invariant forall j: nat :: j + 1 < |sent| || (j < |sent| && !err) ==> !fails(j)
    {
      assert files[..f + 1][..f] == files[..f];
      var data := Load(files[f]);
      var part;
      var done := |sent|;
      part, err := WriteTlv(data, (j: nat) => fails(done + j));
      forall j: nat | done <= j && (j + 1 < done + |part| || (j < done + |part| && !err)) ensures !fails(j) {
        var i: nat := j - done;
        assert !((j: nat) => fails(done + j))(i);
      }
      sent := sent + part;
      f := f + 1;
    }
    ScriptsPrefix(files, f);
    assert files[..|files|] == files;
  }

  /** load_tlv_file: the file in a buffer of its size. */
  method Load(file: seq<Byte>) returns (data: array<Byte>)
    ensures fresh(data) && data[..] == file
  {
    data := new Byte[|file|](i requires 0 <= i < |file| => file[i]);
  }

  lemma {:induction false} ScriptsPrefix(files: seq<seq<Byte>>, f: nat)
    requires f <= |files|
    ensures Scripts(files[..f]) <= Scripts(files)
    decreases |files|
  {
    if f < |files| {
      var shorter := files[..|files| - 1];
      ScriptsPrefix(shorter, f);
      assert shorter[..f] == files[..f];
    } else {
      assert files[..f] == files;
    }
  }
}
