/**
 The Java end of the bridge: a message buffer whose position advances with every read.
 */
module JavaReader {
  import opened Common
  import opened Wire
  import opened Intent

  /** A string where one is expected; a number makes the cast throw. */
  function AsText(v: Option<Value>): Option<Text> {
    if v.Some? && v.value.StrValue? then Some(v.value.text) else None
  }

  /** One char per byte. None stands for the exception a read throws. */
  class WireMsg {
    const buf: array<Byte>
    var pos: nat

    ghost predicate Valid()
      reads this
    {
      pos <= buf.Length
    }

    ghost function Left(): seq<Byte>
      requires Valid()
      reads this, buf
    {
      buf[pos..]
    }

    constructor (size: nat)
      ensures Valid() && fresh(buf) && buf.Length == size && pos == 0
    {
      buf := new Byte[size];
      pos := 0;
    }

    /** What the stream delivers goes in at the position; a full buffer is rewound. */
    method AppendData(chunk: seq<Byte>) returns (done: bool)
      requires Valid() && 0 < |chunk| <= buf.Length - pos
      modifies this, buf
      ensures Valid()
      ensures done <==> old(pos) + |chunk| == buf.Length
      ensures pos == if done then 0 else old(pos) + |chunk|
      ensures buf[..old(pos) + |chunk|] == old(buf[..pos]) + chunk
      ensures done ==> Left() == old(buf[..pos]) + chunk
    {
      var i := 0;
      while i < |chunk|
        invariant 0 <= i <= |chunk| && pos == old(pos)
        invariant buf[..pos + i] == old(buf[..pos]) + chunk[..i]
      {
        buf[pos + i] := chunk[i];
        i := i + 1;
      }
      assert chunk[..|chunk|] == chunk;
      pos := pos + |chunk|;
      done := pos == buf.Length;
      if done {
        pos := 0;
      }
    }

    method Reset()
      modifies `pos
      ensures pos == 0
    {
      pos := 0;
    }

    method ReadInt() returns (w: Option<Word>)
      requires Valid()
      modifies `pos
      ensures Valid()
      ensures match GetInt(old(Left()))
              case None => w == None
              case Some((x, rest)) => w == Some(x) && Left() == rest && pos == old(pos) + 4
    {
      hide WordOf;
      if pos + 4 > buf.Length { return None; }
      w := Some(WordOf(buf[pos..]));
      pos := pos + 4;
    }

    method ReadTyped() returns (v: Option<Value>)
      requires Valid()
      modifies `pos
      ensures Valid()
      ensures match GetTyped(old(Left()))
              case None => v == None
              case Some((x, rest)) => v == Some(x) && Left() == rest
    {
      hide WordOf;
      ghost var s := Left();
      var size := ReadInt();
      if size == None { return None; }
      var kind := ReadInt();
      if kind == None { return None; }
      assert s[4..][4..] == s[8..];
      if kind.value == TYPE_INT {
        if size.value != 4 { return None; }
        var w := ReadInt();
        if w == None { return None; }
        return Some(IntValue(w.value));
      } else if kind.value == TYPE_STRING {
        if size.value >= 0x8000_0000 || pos + size.value > buf.Length { return None; }
        ghost var rest := Left();
        v := Some(StrValue(buf[pos..pos + size.value]));
        assert buf[pos..pos + size.value] == rest[..size.value];
        pos := pos + size.value;
        assert Left() == rest[size.value..];
        return;
      }
      return None;
    }

    /** The loop over the parameters, up to the end of the buffer. */
    method ReadParams() returns (ps: Option<seq<Param>>)
      requires Valid()
      modifies `pos
      ensures Valid() && ps == GetParams(old(Left()))
    {
      hide GetTyped;
      var got: seq<Param> := [];
      ghost var all := GetParams(Left());
      if all.Some? {
        assert [] + all.value == all.value;
      }
      while pos != buf.Length
        invariant Valid()
        invariant match GetParams(Left())
                  case None => all == None
                  case Some(more) => all == Some(got + more)
        decreases buf.Length - pos
      {
        ghost var s := Left();
        var name := ReadTyped();
        if AsText(name) == None { return None; }
        ghost var s1 := Left();
        var value := ReadTyped();
        if value == None { return None; }
        TypedShrinks(s);
        TypedShrinks(s1);
        ghost var more := GetParams(Left());
        var p := Param(AsText(name).value, value.value);
        if more.Some? {
          assert got + ([p] + more.value) == (got + [p]) + more.value;
        }
        got := got + [p];
      }
      assert got + [] == got;
      ps := Some(got);
    }

    /** The content of a message of kind `cmd`. */
    method Handle(cmd: Word) returns (e: Option<Intent.Event>)
      requires Valid()
      modifies `pos
      ensures Valid() && e == Dispatch(cmd, old(Left()))
    {
      hide GetTyped, GetParams;
      if cmd == START_SERVICE {
        var pkg := ReadTyped();
        if pkg == None { return None; }
        var cls := ReadTyped();
        if AsText(pkg) == None || AsText(cls) == None { return None; }
        return Some(Service(AsText(pkg).value, AsText(cls).value));
      } else if cmd == BROADCAST_INTENT {
        var name := ReadTyped();
        if AsText(name) == None { return None; }
        var ps := ReadParams();
        if ps == None { return None; }
        return Some(Broadcast(AsText(name).value, ps.value));
      }
      return None;
    }
  }

  lemma {:induction false} TypedShrinks(s: seq<Byte>)
    ensures GetTyped(s).Some? ==> |GetTyped(s).value.1| < |s|
  {
    hide WordOf;
  }
}
