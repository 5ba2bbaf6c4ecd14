/**
 The Java bridge daemon, Java side: frames are delivered in order, one at a time, each until
 it is acknowledged or has cost too many connections.
 */
module BridgeOutput {
  import opened Common

  const MAX_RETRIES := 3
  const WAKELOCK_SIZE := 12
  const ACK_SIZE := 4
  const IDS := 0x1_0000_0000

  /** A frame as queued: its identifier and its total size. */
  datatype Frame = Frame(id: nat, size: nat, content: seq<int>)

  /** A queued frame. `starts` and `losses` are history: how often its transmission was begun,
      and how many connections were lost while it was first. */
  datatype Entry = Entry(frame: Frame, retries: nat, starts: nat, losses: nat)

  /** What `msg` points to: the wakelock message, or a frame (the first one, or one that is
      already gone). */
  datatype Target = Wakelock | Queued

  datatype Fate = Acked(ack: nat) | Dropped

  /** The transmission under way. */
  datatype Link = Link(open: bool, inProgress: bool, waitAck: bool, target: Target,
                       toSend: nat, sent: nat, waitCount: nat, ackPos: nat)

  datatype Java = Java(
    link: Link,
    queue: seq<Entry>,
    msgCount: nat,
    wlId: nat,
    wlAcquire: bool,
    javaHeld: bool,
    held: bool,
    enqueued: seq<Frame>,
    removed: seq<(Entry, Fate)>)

  datatype Assertion = LossWithEmptyQueue | AckWithEmptyQueue | Dangling

  type Handled = Outcome<Java, Assertion>

  /** No bridge yet; `msg` is not set. */
  const INIT := Java(Link(false, false, false, Queued, 0, 0, 0, 0), [], 0, 0, false, false, false, [], [])

  // ---------------------------------------------------------------- operations

  predicate Busy(l: Link) {
    l.open && (l.inProgress || l.waitAck)
  }

  predicate Startable(j: Java) {
    j.link.open && !j.link.waitAck && !j.link.inProgress && (j.queue != [] || j.javaHeld != j.held)
  }

  /** fill_pollfd picks the next message: a wakelock change goes first. */
  function Start(j: Java): Java {
    if !Startable(j) then j
    else if j.javaHeld != j.held then
      j.(link := j.link.(inProgress := true, target := Wakelock, toSend := WAKELOCK_SIZE, sent := 0),
         wlId := j.msgCount, msgCount := (j.msgCount + 1) % IDS, wlAcquire := j.held)
    else
      j.(link := j.link.(inProgress := true, target := Queued, toSend := j.queue[0].frame.size, sent := 0),
         queue := [j.queue[0].(starts := j.queue[0].starts + 1)] + j.queue[1..])
  }

  /** The identifier at the start of the message under way. */
  function CurrentId(j: Java): Option<nat> {
    if j.link.target == Wakelock then Some(j.wlId)
    else if j.queue == [] then None
    else Some(j.queue[0].frame.id)
  }

  function Pop(j: Java, fate: Fate): Java
    requires j.queue != []
  {
    j.(queue := j.queue[1..], removed := j.removed + [(j.queue[0], fate)])
  }

  /** The bridge is gone. Unless the wakelock message was the last one chosen, the first frame
      pays for it, whether or not it was under way. */
  function Lose(j: Java): Handled {
    var j1 := j.(link := j.link.(open := false));
    if j.link.target == Wakelock then Ok(j1)
    else if j.queue == [] then Abort(LossWithEmptyQueue)
    else
      var e := j.queue[0].(retries := j.queue[0].retries + 1, losses := j.queue[0].losses + 1);
      var j2 := j1.(queue := [e] + j.queue[1..]);
      Ok(if e.retries >= MAX_RETRIES then Pop(j2, Dropped) else j2)
  }

  /** `len` bytes were written. */
  function Write(j: Java, len: nat): Handled {
    var sent := j.link.sent + len;
    if sent < j.link.toSend then Ok(j.(link := j.link.(sent := sent)))
    else
      match CurrentId(j)
      case None => Abort(Dangling)
      case Some(id) =>
        Ok(j.(link := j.link.(sent := sent, waitAck := true, waitCount := id, ackPos := 0, inProgress := false)))
  }

  /** `len` bytes of the answer were read; the last one completes `ack`. */
  function ReadAck(j: Java, len: nat, ack: nat): Handled {
    var pos := j.link.ackPos + len;
    if pos < ACK_SIZE then Ok(j.(link := j.link.(ackPos := pos)))
    else if ack != j.link.waitCount then Lose(j.(link := j.link.(ackPos := pos)))
    else
      var j1 := j.(link := j.link.(ackPos := pos, waitAck := false));
      if j.link.target == Wakelock then Ok(j1.(javaHeld := j.wlAcquire))
      else if j.queue == [] then Abort(AckWithEmptyQueue)
      else Ok(Pop(j1, Acked(ack)))
  }

  function Connect(j: Java): Java {
    if j.link.open then j
    else j.(link := j.link.(open := true, inProgress := false, waitAck := false, sent := 0), javaHeld := false)
  }

  function Enqueue(j: Java, f: Frame): Java {
    j.(queue := j.queue + [Entry(f, 0, 0, 0)], enqueued := j.enqueued + [f])
  }

  // ---------------------------------------------------------------- runs

  datatype Move =
    | Fill
    | Written(len: nat)
    | AckRead(len: nat, ack: nat)
    | Lost
    | Connected
    | NewFrame(frame: Frame)
    | HeldChanges(held: bool)

  predicate CanMove(j: Java, v: Move) {
    match v
    case Written(len) => j.link.open && j.link.inProgress && !j.link.waitAck && 0 < len <= j.link.toSend - j.link.sent
    case AckRead(len, _) => j.link.open && j.link.waitAck && 0 < len <= ACK_SIZE - j.link.ackPos
    case Lost => j.link.open
    case NewFrame(f) => f.size > 0
    case _ => true
  }

  function Moved(j: Java, v: Move): Handled {
    match v
    case Fill => Ok(Start(j))
    case Written(len) => Write(j, len)
    case AckRead(len, ack) => ReadAck(j, len, ack)
    case Lost => Lose(j)
    case Connected => Ok(Connect(j))
    case NewFrame(f) => Ok(Enqueue(j, f))
    case HeldChanges(b) => Ok(j.(held := b))
  }

  // ---------------------------------------------------------------- invariant

  function Frames(q: seq<Entry>): seq<Frame> {
    if q == [] then [] else [q[0].frame] + Frames(q[1..])
  }

  function Gone(rs: seq<(Entry, Fate)>): seq<Frame> {
    if rs == [] then [] else Gone(rs[..|rs| - 1]) + [rs[|rs| - 1].0.frame]
  }

  /** An acknowledged frame was begun, under the identifier acknowledged; a dropped one was
      first when MAX_RETRIES connections were lost; none was begun more often. */
  predicate FairlyTreated(e: Entry, fate: Fate) {
    && e.starts <= MAX_RETRIES
    && match fate
       case Acked(ack) => ack == e.frame.id && e.starts >= 1 && e.losses < MAX_RETRIES
       case Dropped => e.losses == MAX_RETRIES
  }

  predicate AllFair(rs: seq<(Entry, Fate)>) {
    forall i :: 0 <= i < |rs| ==> FairlyTreated(rs[i].0, rs[i].1)
  }

  predicate Untouched(e: Entry) {
    e.retries == 0 && e.starts == 0 && e.losses == 0
  }

  /** The first entry: its losses are its retries, and it was begun once per loss at most, once
      more if it is under way. */
  predicate HeadOk(e: Entry, underWay: bool) {
    e.retries == e.losses < MAX_RETRIES && e.starts <= e.losses + Bit(underWay) && (underWay ==> e.starts >= 1)
  }

  predicate QueueOk(q: seq<Entry>, underWay: bool) {
    && (q != [] ==> HeadOk(q[0], underWay))
    && (forall i :: 0 < i < |q| ==> Untouched(q[i]))
    && (forall i :: 0 <= i < |q| ==> q[i].frame.size > 0)
  }

  predicate UnderWay(l: Link) {
    Busy(l) && l.target == Queued
  }

  predicate LinkOk(j: Java) {
    && (UnderWay(j.link) ==> j.queue != [])
    && (Busy(j.link) && j.link.waitAck ==> !j.link.inProgress && CurrentId(j) == Some(j.link.waitCount) && j.link.ackPos < ACK_SIZE)
    && (Busy(j.link) && j.link.inProgress ==> j.link.sent < j.link.toSend && Some(j.link.toSend) == CurrentSize(j))
  }

  /** The size of the message under way. */
  function CurrentSize(j: Java): Option<nat> {
    if j.link.target == Wakelock then Some(12)
    else if j.queue == [] then None
    else Some(j.queue[0].frame.size)
  }

  predicate Inv(j: Java) {
    && LinkOk(j)
    && QueueOk(j.queue, UnderWay(j.link))
    && AllFair(j.removed)
    && j.enqueued == Gone(j.removed) + Frames(j.queue)
  }

  lemma {:induction false} FramesSnoc(q: seq<Entry>, e: Entry)
    ensures Frames(q + [e]) == Frames(q) + [e.frame]
    decreases |q|
  {
    if q == [] {
      assert (q + [e])[1..] == [];
    } else {
      assert (q + [e])[1..] == q[1..] + [e];
      FramesSnoc(q[1..], e);
    }
  }

  lemma {:induction false} FramesHead(q: seq<Entry>, e: Entry)
    requires q != [] && e.frame == q[0].frame
    ensures Frames([e] + q[1..]) == Frames(q)
  {
    assert ([e] + q[1..])[1..] == q[1..];
  }

  lemma {:induction false} PopKeeps(j: Java, fate: Fate)
    requires j.queue != [] && AllFair(j.removed) && FairlyTreated(j.queue[0], fate)
    requires j.enqueued == Gone(j.removed) + Frames(j.queue)
    ensures var j' := Pop(j, fate);
            AllFair(j'.removed) && j'.enqueued == Gone(j'.removed) + Frames(j'.queue)
  {
    var rs := j.removed + [(j.queue[0], fate)];
    assert rs[..|rs| - 1] == j.removed;
    var first := [j.queue[0].frame];
    assert Gone(j.removed) + (first + Frames(j.queue[1..])) == (Gone(j.removed) + first) + Frames(j.queue[1..]);
  }

  lemma {:induction false} StartKeeps(j: Java)
    requires Inv(j)
    ensures Inv(Start(j))
  {
    hide AllFair;
    if Startable(j) && j.javaHeld == j.held {
      FramesHead(j.queue, j.queue[0].(starts := j.queue[0].starts + 1));
    }
  }

  /** The first entry pays, or has paid enough. */
  lemma {:induction false} HeadPays(q: seq<Entry>, underWay: bool)
    requires q != [] && QueueOk(q, underWay)
    ensures var e := q[0].(retries := q[0].retries + 1, losses := q[0].losses + 1);
            if e.retries >= MAX_RETRIES then FairlyTreated(e, Dropped) && QueueOk(q[1..], false)
            else QueueOk([e] + q[1..], false)
  {
    if |q| > 1 {
      assert Untouched(q[1]);
    }
  }

  /** A loss either meets the assertion or keeps the invariant. */
  lemma {:induction false} LoseKeeps(j: Java)
    requires j.link.open && (UnderWay(j.link) ==> j.queue != []) && QueueOk(j.queue, UnderWay(j.link))
    requires AllFair(j.removed) && j.enqueued == Gone(j.removed) + Frames(j.queue)
    ensures Lose(j).Abort? <==> j.link.target == Queued && j.queue == []
    ensures Lose(j).Abort? ==> Lose(j).why == LossWithEmptyQueue && !Busy(j.link)
    ensures Lose(j).Ok? ==> Inv(Lose(j).ctx)
  {
    hide AllFair, Frames, Gone, QueueOk, FairlyTreated;
    if j.link.target == Queued && j.queue != [] {
      HeadPays(j.queue, UnderWay(j.link));
      var e := j.queue[0].(retries := j.queue[0].retries + 1, losses := j.queue[0].losses + 1);
      var j2 := j.(link := j.link.(open := false), queue := [e] + j.queue[1..]);
      FramesHead(j.queue, e);
      if e.retries >= MAX_RETRIES {
        PopKeeps(j2, Dropped);
        assert j2.queue[1..] == j.queue[1..];
      }
    }
  }

  lemma {:induction false} WriteKeeps(j: Java, len: nat)
    requires Inv(j) && CanMove(j, Written(len))
    ensures Write(j, len).Ok? && Inv(Write(j, len).ctx)
  {
    hide AllFair, Frames, Gone;
  }

  lemma {:induction false} AckKeeps(j: Java, len: nat, ack: nat)
    requires Inv(j) && CanMove(j, AckRead(len, ack))
    ensures ReadAck(j, len, ack).Ok? && Inv(ReadAck(j, len, ack).ctx)
  {
    hide AllFair, Frames, Gone, Lose;
    var pos := j.link.ackPos + len;
    if pos == ACK_SIZE {
      if ack != j.link.waitCount {
        LoseKeeps(j.(link := j.link.(ackPos := pos)));
      } else if j.link.target == Queued {
        PopKeeps(j.(link := j.link.(ackPos := pos, waitAck := false)), Acked(ack));
      }
    }
  }

  /** A move keeps the invariant; the only assertion it can meet is a loss with nothing queued
      and no wakelock message chosen last. */
  lemma {:induction false} MoveKeeps(j: Java, v: Move)
    requires Inv(j) && CanMove(j, v)
    ensures Moved(j, v).Ok? ==> Inv(Moved(j, v).ctx)
    ensures Moved(j, v).Abort? <==> v.Lost? && j.link.target == Queued && j.queue == []
    ensures Moved(j, v).Abort? ==> Moved(j, v).why == LossWithEmptyQueue
  {
    hide Inv, Start, Write, ReadAck, Lose, Connect, Enqueue;
    match v
    case Fill => StartKeeps(j);
    case Written(len) => WriteKeeps(j, len);
    case AckRead(len, ack) => AckKeeps(j, len, ack);
    case Lost => LossKeeps(j);
    case Connected => ConnectKeeps(j);
    case NewFrame(f) => EnqueueKeeps(j, f);
    case HeldChanges(b) => HeldKeeps(j, b);
  }

  lemma {:induction false} LossKeeps(j: Java)
    requires Inv(j) && j.link.open
    ensures Lose(j).Abort? <==> j.link.target == Queued && j.queue == []
    ensures Lose(j).Abort? ==> Lose(j).why == LossWithEmptyQueue
    ensures Lose(j).Ok? ==> Inv(Lose(j).ctx)
  {
    hide AllFair, Frames, Gone, QueueOk, Lose;
    LoseKeeps(j);
  }

  lemma {:induction false} ConnectKeeps(j: Java)
    requires Inv(j)
    ensures Inv(Connect(j))
  {
    hide AllFair, Frames, Gone;
  }

  lemma {:induction false} EnqueueKeeps(j: Java, f: Frame)
    requires Inv(j) && f.size > 0
    ensures Inv(Enqueue(j, f))
  {
    hide AllFair, Gone, Frames;
    FramesSnoc(j.queue, Entry(f, 0, 0, 0));
    assert Gone(j.removed) + (Frames(j.queue) + [f]) == (Gone(j.removed) + Frames(j.queue)) + [f];
  }

  lemma {:induction false} HeldKeeps(j: Java, b: bool)
    requires Inv(j)
    ensures Inv(j.(held := b))
  {
    hide AllFair, Frames, Gone, QueueOk;
  }

  ghost predicate Reaches(j: Java, moves: seq<Move>, j': Java)
    decreases |moves|
  {
    if moves == [] then j == j'
    else CanMove(j, moves[0]) && Moved(j, moves[0]).Ok? && Reaches(Moved(j, moves[0]).ctx, moves[1..], j')
  }

  lemma {:induction false} RunKeeps(j: Java, moves: seq<Move>, j': Java)
    requires Inv(j) && Reaches(j, moves, j')
    ensures Inv(j')
    decreases |moves|
  {
    hide Inv, Moved, CanMove;
    if moves != [] {
      MoveKeeps(j, moves[0]);
      RunKeeps(Moved(j, moves[0]).ctx, moves[1..], j');
    }
  }

  /** Delivery, in every run: the frames queued are those removed, in order, then those still
      queued; a frame is removed on the acknowledgement of its own identifier, or dropped once
      MAX_RETRIES connections were lost while it was first; none is begun more than MAX_RETRIES
      times; and the daemon stops exactly on a loss with an empty queue and no wakelock message
      chosen last. */
  lemma {:induction false} BridgeDelivery(moves: seq<Move>, j: Java)
    requires Reaches(INIT, moves, j)
    ensures j.enqueued == Gone(j.removed) + Frames(j.queue)
    ensures forall i :: 0 <= i < |j.removed| ==> FairlyTreated(j.removed[i].0, j.removed[i].1)
    ensures forall i :: 0 <= i < |j.queue| ==> j.queue[i].starts <= MAX_RETRIES && j.queue[i].losses < MAX_RETRIES
    ensures forall v :: CanMove(j, v) ==>
              (Moved(j, v).Abort? <==> v.Lost? && j.link.target == Queued && j.queue == [])
  {
    RunKeeps(INIT, moves, j);
    forall v | CanMove(j, v)
      ensures Moved(j, v).Abort? <==> v.Lost? && j.link.target == Queued && j.queue == []
    {
      hide Moved, CanMove;
      MoveKeeps(j, v);
    }
    forall i | 0 <= i < |j.queue| ensures j.queue[i].starts <= MAX_RETRIES && j.queue[i].losses < MAX_RETRIES {
      if i > 0 {
        assert Untouched(j.queue[i]);
      }
    }
  }

  // ---------------------------------------------------------------- the wakelock

  /** A move that picks a message. */
  predicate Picks(j: Java, v: Move) {
    v.Fill? && Startable(j)
  }

  /** `held` has kept its value since the last message was picked. */
  ghost predicate Steady(j: Java, moves: seq<Move>, steady: bool)
    decreases |moves|
  {
    if moves == [] then steady
    else if !CanMove(j, moves[0]) || Moved(j, moves[0]).Abort? then steady
    else
      Steady(Moved(j, moves[0]).ctx, moves[1..],
             Picks(j, moves[0]) || (steady && (moves[0].HeldChanges? ==> moves[0].held == j.held)))
  }

  /** A wakelock message under way, `held` unchanged since, says what is held. */
  predicate Told(j: Java, steady: bool) {
    Busy(j.link) && j.link.target == Wakelock && steady ==> j.wlAcquire == j.held
  }

  /** The wakelock goes first, and is picked exactly if Java has another idea of it. */
  lemma {:induction false} WakelockFirst(j: Java)
    requires Startable(j)
    ensures var j' := Moved(j, Fill).ctx;
            && Moved(j, Fill).Ok? && Busy(j'.link)
            && (j'.link.target == Wakelock <==> j.javaHeld != j.held)
            && (j'.link.target == Wakelock ==> j'.wlAcquire == j.held && j'.wlId == j.msgCount && j'.msgCount == (j.msgCount + 1) % 0x1_0000_0000)
            && (j'.link.target == Queued ==> j'.msgCount == j.msgCount && CurrentId(j') == Some(j.queue[0].frame.id))
  {
  }

  /** What the bridge that is connected has acknowledged last of the wakelock; a new one holds
      nothing. */
  predicate Acknowledges(j: Java, v: Move, before: bool) {
    if v.Connected? && !j.link.open then false
    else if v.AckRead? && j.link.ackPos + v.len == 4 && v.ack == j.link.waitCount && j.link.target == Wakelock then j.wlAcquire
    else before
  }

  ghost predicate Acknowledged(j: Java, moves: seq<Move>, before: bool)
    decreases |moves|
  {
    if moves == [] then before
    else if !CanMove(j, moves[0]) || Moved(j, moves[0]).Abort? then before
    else Acknowledged(Moved(j, moves[0]).ctx, moves[1..], Acknowledges(j, moves[0], before))
  }

  lemma {:induction false} AckKept(j: Java, v: Move)
    requires CanMove(j, v) && Moved(j, v).Ok?
    ensures Moved(j, v).ctx.javaHeld == Acknowledges(j, v, j.javaHeld)
  {
  }

  /** In every run the daemon's idea of what Java holds is what the bridge acknowledged last. */
  lemma {:induction false} JavaKnown(j: Java, moves: seq<Move>, j': Java)
    requires Reaches(j, moves, j')
    ensures j'.javaHeld == Acknowledged(j, moves, j.javaHeld)
    decreases |moves|
  {
    hide Moved, CanMove, Acknowledges;
    if moves != [] {
      AckKept(j, moves[0]);
      JavaKnown(Moved(j, moves[0]).ctx, moves[1..], j');
    }
  }

  lemma {:induction false} ToldKeeps(j: Java, v: Move, steady: bool)
    requires Told(j, steady) && CanMove(j, v) && Moved(j, v).Ok?
    ensures Told(Moved(j, v).ctx, Picks(j, v) || (steady && (v.HeldChanges? ==> v.held == j.held)))
  {
  }

  lemma {:induction false} RunTold(j: Java, moves: seq<Move>, j': Java, steady: bool)
    requires Told(j, steady) && Reaches(j, moves, j')
    ensures Told(j', Steady(j, moves, steady))
    decreases |moves|
  {
    hide Moved, CanMove, Told, Picks;
    if moves != [] {
      ToldKeeps(j, moves[0], steady);
      RunTold(Moved(j, moves[0]).ctx, moves[1..], j',
              Picks(j, moves[0]) || (steady && (moves[0].HeldChanges? ==> moves[0].held == j.held)));
    }
  }

  /** In every run, when Java acknowledges a wakelock message and nothing has changed since it was
      picked, Java's idea of the wakelock is the daemon's; so the next message is a frame, if
      there is one. */
  lemma {:induction false} WakelockAgrees(moves: seq<Move>, j: Java, len: nat)
    requires Reaches(INIT, moves, j) && Steady(INIT, moves, false)
    requires j.link.open && j.link.waitAck && j.link.target == Wakelock && 0 < len == ACK_SIZE - j.link.ackPos
    ensures var r := Moved(j, AckRead(len, j.link.waitCount));
            && r.Ok? && r.ctx.javaHeld == j.held && r.ctx.held == j.held
            && (j.queue != [] ==> Moved(r.ctx, Fill).Ok? && Moved(r.ctx, Fill).ctx.link.target == Queued)
  {
    RunTold(INIT, moves, j, false);
    RunKeeps(INIT, moves, j);
  }

  /** The assertion can be met: a bridge that connects and leaves before anything is queued
      stops the daemon. */
  lemma {:induction false} IdleLossStops()
    ensures exists j :: Reaches(INIT, [Connected], j) && CanMove(j, Lost) && Moved(j, Lost) == Abort(LossWithEmptyQueue)
  {
    var j := Connect(INIT);
    assert [Connected][1..] == [];
    assert Reaches(INIT, [Connected], j);
  }

  // ---------------------------------------------------------------- the daemon's context

  class Bridge {
    var link: Link
    var queue: seq<Entry>
    var msgCount: nat
    var wlId: nat
    var wlAcquire: bool
    var javaHeld: bool
    var held: bool
    ghost var enqueued: seq<Frame>
    ghost var removed: seq<(Entry, Fate)>

    ghost function View(): Java
      reads this
    {
      Java(link, queue, msgCount, wlId, wlAcquire, javaHeld, held, enqueued, removed)
    }

    constructor ()
      ensures View() == INIT
    {
      link, queue, msgCount := Link(false, false, false, Queued, 0, 0, 0, 0), [], 0;
      wlId, wlAcquire, javaHeld, held := 0, false, false, false;
      enqueued, removed := [], [];
    }

    /** The Java part of fill_pollfd. */
    method FillPollfd()
      modifies this
      ensures View() == Start(old(View()))
    {
      if link.open && !link.waitAck && (queue != [] || javaHeld != held || link.inProgress) {
        if !link.inProgress {
          link := link.(inProgress := true, sent := 0);
          if javaHeld != held {
            link := link.(toSend := WAKELOCK_SIZE, target := Wakelock);
            wlId := msgCount;
            msgCount := (msgCount + 1) % IDS;
            wlAcquire := held;
          } else {
            link := link.(toSend := queue[0].frame.size, target := Queued);
            queue := [queue[0].(starts := queue[0].starts + 1)] + queue[1..];
          }
        }
      }
    }

    method Remove() returns (why: Option<Assertion>)
      modifies this
      ensures Matches(Lose(old(View())), why, View())
    {
      link := link.(open := false);
      if link.target != Wakelock {
        if queue == [] { return Some(LossWithEmptyQueue); }
        var e := queue[0].(retries := queue[0].retries + 1, losses := queue[0].losses + 1);
        queue := [e] + queue[1..];
        if e.retries >= MAX_RETRIES {
          removed := removed + [(e, Dropped)];
          queue := queue[1..];
        }
      }
      return None;
    }

    method Writable(len: nat) returns (why: Option<Assertion>)
      requires CanMove(View(), Written(len))
      modifies this
      ensures Matches(Write(old(View()), len), why, View())
    {
      link := link.(sent := link.sent + len);
      if link.sent == link.toSend {
        if link.target == Queued && queue == [] { return Some(Dangling); }
        var id := if link.target == Wakelock then wlId else queue[0].frame.id;
        link := link.(waitAck := true, waitCount := id, ackPos := 0, inProgress := false);
      }
      return None;
    }

    method Readable(len: nat, ack: nat) returns (why: Option<Assertion>)
      requires CanMove(View(), AckRead(len, ack))
      modifies this
      ensures Matches(ReadAck(old(View()), len, ack), why, View())
    {
      link := link.(ackPos := link.ackPos + len);
      if link.ackPos == ACK_SIZE {
        if ack != link.waitCount {
          why := Remove();
          return;
        }
        link := link.(waitAck := false);
        if link.target == Wakelock {
          javaHeld := wlAcquire;
        } else {
          if queue == [] { return Some(AckWithEmptyQueue); }
          removed := removed + [(queue[0], Acked(ack))];
          queue := queue[1..];
        }
      }
      return None;
    }

    method Accept()
      modifies this
      ensures View() == Connect(old(View()))
    {
      if !link.open {
        link := link.(open := true, inProgress := false, waitAck := false, sent := 0);
        javaHeld := false;
      }
    }

    method QueueMsg(f: Frame)
      modifies this
      ensures View() == Enqueue(old(View()), f)
    {
      queue := queue + [Entry(f, 0, 0, 0)];
      enqueued := enqueued + [f];
    }
  }
}
