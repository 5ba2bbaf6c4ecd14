/**
 The message queue between threads: a ring of eight messages and a pipe that carries one
 byte per message, so that the reader can poll.
 */
module Ipc {
  import opened Common

  const MSG_QUEUE_SIZE := 8

  /** Index of the i-th message after position `r`. */
  function Slot(r: nat, i: nat): (k: nat)
    requires r < MSG_QUEUE_SIZE && i <= MSG_QUEUE_SIZE
    ensures k < MSG_QUEUE_SIZE
  {
    if r + i < MSG_QUEUE_SIZE then r + i else r + i - MSG_QUEUE_SIZE
  }

  // ---------------------------------------------------------------- what the ring stands for

  /** One locked call, from any thread. */
  datatype Call<T> = Send(msg: T) | Get

  /** A bounded FIFO with the history of its calls. */
  datatype Fifo<T> = Fifo(queue: seq<T>, accepted: seq<T>, delivered: seq<T>)

  function Apply<T>(f: Fifo<T>, c: Call<T>): Fifo<T> {
    match c
    case Send(m) =>
      if |f.queue| < MSG_QUEUE_SIZE then Fifo(f.queue + [m], f.accepted + [m], f.delivered) else f
    case Get =>
      if f.queue == [] then f else Fifo(f.queue[1..], f.accepted, f.delivered + [f.queue[0]])
  }

  function ApplyAll<T>(f: Fifo<T>, calls: seq<Call<T>>): Fifo<T>
    decreases |calls|
  {
    if calls == [] then f else ApplyAll(Apply(f, calls[0]), calls[1..])
  }

  /** Every message accepted after `base` is delivered once, in order, or still queued. */
  lemma {:induction false} FifoConserves<T>(base: seq<T>, f: Fifo<T>, calls: seq<Call<T>>)
    requires base + f.accepted == f.delivered + f.queue && |f.queue| <= MSG_QUEUE_SIZE
    ensures var f' := ApplyAll(f, calls);
            base + f'.accepted == f'.delivered + f'.queue && |f'.queue| <= MSG_QUEUE_SIZE
    decreases |calls|
  {
    if calls != [] {
      var f' := Apply(f, calls[0]);
      if calls[0].Send? {
        assert base + (f.accepted + [calls[0].msg]) == (base + f.accepted) + [calls[0].msg];
        assert f.delivered + (f.queue + [calls[0].msg]) == (f.delivered + f.queue) + [calls[0].msg];
      } else if f.queue != [] {
        assert f.queue == [f.queue[0]] + f.queue[1..];
        assert f'.delivered + f'.queue == f.delivered + f.queue;
      }
      FifoConserves(base, f', calls[1..]);
    }
  }

  lemma {:induction false} ApplyAllSnoc<T>(f: Fifo<T>, calls: seq<Call<T>>, c: Call<T>)
    ensures ApplyAll(f, calls + [c]) == Apply(ApplyAll(f, calls), c)
    decreases |calls|
  {
    if calls == [] {
      assert (calls + [c])[1..] == [];
    } else {
      assert (calls + [c])[1..] == calls[1..] + [c];
      ApplyAllSnoc(Apply(f, calls[0]), calls[1..], c);
    }
  }

  // ---------------------------------------------------------------- the ring

  class Ring<T(0)> {
    const msgs: array<T>
    var num: nat
    var rIdx: nat
    var wIdx: nat
    var pipe: nat
    var isOpen: bool

    /** The pipe holds one byte per queued message. */
    ghost predicate Valid()
      reads this
    {
      && msgs.Length == MSG_QUEUE_SIZE
      && num <= MSG_QUEUE_SIZE && rIdx < MSG_QUEUE_SIZE && wIdx == Slot(rIdx, num)
      && pipe == num
    }

    ghost function Contents(): seq<T>
      requires Valid()
      reads this, msgs
    {
      seq(num, i requires 0 <= i < num && Valid() reads this, msgs => msgs[Slot(rIdx, i)])
    }

    constructor ()
      ensures Valid() && isOpen && fresh(msgs) && Contents() == []
    {
      msgs := new T[MSG_QUEUE_SIZE];
      num, rIdx, wIdx, pipe, isOpen := 0, 0, 0, 0, true;
    }

    method SendMsg(m: T) returns (ret: bool)
      requires Valid()
      modifies this, msgs
      ensures Valid() && isOpen == old(isOpen)
      ensures ret <==> isOpen && |old(Contents())| < MSG_QUEUE_SIZE
      ensures Contents() == if ret then old(Contents()) + [m] else old(Contents())
    {
      ret := false;
      if num < MSG_QUEUE_SIZE && isOpen {
        ret := true;
        msgs[wIdx] := m;
        pipe := pipe + 1;
        num := num + 1;
        wIdx := wIdx + 1;
        if wIdx == MSG_QUEUE_SIZE {
          wIdx := 0;
        }
        assert Contents() == old(Contents()) + [m];
      }
    }

    /** The byte is there whenever a message is, so the read does not block. */
    method GetMsg() returns (ret: bool, msg: Option<T>)
      requires Valid()
      modifies this
      ensures Valid() && isOpen == old(isOpen)
      ensures ret <==> isOpen && old(Contents()) != []
      ensures ret ==> msg == Some(old(Contents())[0]) && Contents() == old(Contents())[1..]
      ensures !ret ==> msg == None && Contents() == old(Contents())
    {
      ret, msg := false, None;
      if num > 0 && isOpen {
        ret := true;
        msg := Some(msgs[rIdx]);
        assert pipe > 0;
        pipe := pipe - 1;
        num := num - 1;
        rIdx := rIdx + 1;
        if rIdx == MSG_QUEUE_SIZE {
          rIdx := 0;
        }
        assert Contents() == old(Contents())[1..];
      }
    }

    /** Closes the pipe; with a free routine, each pending message is freed once, in order. */
    method Dispose(withRoutine: bool) returns (freed: seq<T>)
      requires Valid()
      modifies this
      ensures !isOpen && freed == if withRoutine then old(Contents()) else []
    {
      isOpen := false;
      freed := [];
      if withRoutine {
        while num > 0
          invariant msgs.Length == MSG_QUEUE_SIZE && num <= old(num) <= MSG_QUEUE_SIZE
          invariant rIdx == Slot(old(rIdx), old(num) - num) && !isOpen
          invariant freed == old(Contents())[..old(num) - num]
        {
          freed := freed + [msgs[rIdx]];
          rIdx := rIdx + 1;
          if rIdx == MSG_QUEUE_SIZE {
            rIdx := 0;
          }
          num := num - 1;
        }
        assert old(Contents())[..old(num)] == old(Contents());
      }
    }

    /** One locked call, with the message accepted or delivered. */
    method ServeOne(c: Call<T>) returns (accepted: seq<T>, delivered: seq<T>)
      requires Valid() && isOpen
      modifies this, msgs
      ensures Valid() && isOpen
      ensures Fifo(Contents(), accepted, delivered) == Apply(Fifo(old(Contents()), [], []), c)
    {
      accepted, delivered := [], [];
      match c
      case Send(m) =>
        var ret := SendMsg(m);
        if ret {
          accepted := [m];
        }
      case Get =>
        var ret, msg := GetMsg();
        if ret {
          delivered := [msg.value];
        }
    }

    /** Any interleaving of locked calls: the ring behaves as the bounded FIFO does. */
    method Serve(calls: seq<Call<T>>) returns (accepted: seq<T>, delivered: seq<T>)
      requires Valid() && isOpen
      modifies this, msgs
      ensures Valid() && isOpen
      ensures Fifo(Contents(), accepted, delivered) == ApplyAll(Fifo(old(Contents()), [], []), calls)
      ensures old(Contents()) + accepted == delivered + Contents()
    {
      accepted, delivered := [], [];
      ghost var start := Fifo(Contents(), [], []);
      var i := 0;
      while i < |calls|
        invariant 0 <= i <= |calls| && Valid() && isOpen
        invariant Fifo(Contents(), accepted, delivered) == ApplyAll(start, calls[..i])
      {
        ApplyAllSnoc(start, calls[..i], calls[i]);
        assert calls[..i + 1] == calls[..i] + [calls[i]];
        var a, d := ServeOne(calls[i]);
        accepted, delivered := accepted + a, delivered + d;
        i := i + 1;
      }
      assert calls[..|calls|] == calls;
      assert |Contents()| <= MSG_QUEUE_SIZE && |start.queue| <= MSG_QUEUE_SIZE;
      assert start.queue + [] == [] + start.queue;
      FifoConserves(start.queue, start, calls);
    }
  }
}
