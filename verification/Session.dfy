/**
 The client library and its sessions: acquisitions are replayed after a lost connection.
 */
module Session {
  import opened Common

  /** What travels on a socket, as far as acquisitions are concerned. */
  datatype Msg = Register | Acquire | Release | Other

  /** The library's context; `out` holds the messages on their way to the server, None when no
      socket is open. */
  datatype Library = Library(reconnect: bool, acquired: bool, out: Option<seq<Msg>>)

  /** After a successful mdm_cli_connect. */
  const CONNECTED := Library(false, false, Some([Register]))

  function Put(l: Library, m: Msg): Library
    requires l.out.Some?
  {
    l.(out := Some(l.out.value + [m]))
  }

  /** mdm_cli_acquire and mdm_cli_release: remembered while disconnected, else as the send
      goes. */
  function SetAcquired(l: Library, want: bool, fails: bool): Library
    requires !l.reconnect ==> l.out.Some?
  {
    if l.reconnect then l.(acquired := want)
    else if fails then l
    else Put(l, if want then Acquire else Release).(acquired := want)
  }

  function SendSimple(l: Library, fails: bool): Library
    requires !l.reconnect ==> l.out.Some?
  {
    if l.reconnect || fails then l else Put(l, Other)
  }

  /** Which steps of a reconnection fail. */
  datatype Faults = Faults(connect: bool, register: bool, acquire: bool)

  /** A new socket: the client registers and acquires again, or the socket is closed. */
  function Reconnect(l: Library, f: Faults): Library {
    if f.connect then l.(out := None)
    else if f.register || (l.acquired && f.acquire) then l.(out := None)
    else l.(reconnect := false, out := Some(if l.acquired then [Register, Acquire] else [Register]))
  }

  /** The connection is lost. */
  function Lose(l: Library): Library {
    l.(reconnect := true, out := None)
  }

  // ---------------------------------------------------------------- the server's side

  /** The slot of one session. `dropped`: the server has given the session up; `ignored`: an
      acquisition or a release was handled while the server rejected requests. */
  datatype Slot = Slot(registered: bool, acquired: bool, dropped: bool, ignored: bool)

  const FRESH := Slot(false, false, false, false)

  function Serve(c: Slot, m: Msg, reject: bool): Slot {
    if c.dropped then c
    else if c.registered == (m == Register) then c.(dropped := true)
    else
      match m
      case Register => c.(registered := true)
      case Acquire => if reject then c.(ignored := true) else c.(acquired := true)
      case Release => if reject then c.(ignored := true) else c.(acquired := false)
      case Other => c
  }

  // ---------------------------------------------------------------- both sides

  datatype Sys = Sys(lib: Library, slot: Slot)

  datatype Move =
    | ApiAcquire(fails: bool)
    | ApiRelease(fails: bool)
    | ApiOther(fails: bool)
    | ConnectionLost
    | Retry(faults: Faults)
    | ServerReads(reject: bool)
    | ServerDrops

  predicate CanMove(y: Sys, v: Move) {
    match v
    case ConnectionLost => !y.lib.reconnect
    case Retry(_) => y.lib.reconnect
    case ServerReads(_) => y.lib.out.Some? && y.lib.out.value != []
    case _ => true
  }

  /** The library is connected exactly when a socket is open. */
  predicate Open(l: Library) {
    l.reconnect <==> l.out.None?
  }

  function Moved(y: Sys, v: Move): Sys
    requires Open(y.lib) && CanMove(y, v)
  {
    match v
    case ApiAcquire(fails) => y.(lib := SetAcquired(y.lib, true, fails))
    case ApiRelease(fails) => y.(lib := SetAcquired(y.lib, false, fails))
    case ApiOther(fails) => y.(lib := SendSimple(y.lib, fails))
    case ConnectionLost => y.(lib := Lose(y.lib))
    case Retry(f) => Sys(Reconnect(y.lib, f), FRESH)
    case ServerReads(reject) =>
      Sys(y.lib.(out := Some(y.lib.out.value[1..])), Serve(y.slot, y.lib.out.value[0], reject))
    case ServerDrops => y.(slot := y.slot.(dropped := true))
  }

  /** The flag the server ends up with once it has read `q`. */
  predicate Settles(acquired: bool, q: seq<Msg>)
    decreases |q|
  {
    if q == [] then acquired
    else Settles(if q[0] == Acquire then true else if q[0] == Release then false else acquired, q[1..])
  }

  predicate NoRegister(q: seq<Msg>) {
    forall i :: 0 <= i < |q| ==> q[i] != Register
  }

  /** REGISTER comes first and once; what is on its way makes the flags agree. */
  predicate Inv(y: Sys) {
    && Open(y.lib)
    && (y.lib.out.Some? && !y.slot.dropped ==>
          var q := y.lib.out.value;
          && (if y.slot.registered then NoRegister(q) else q != [] && q[0] == Register && NoRegister(q[1..]))
          && (!y.slot.ignored ==> Settles(y.slot.acquired, q) == y.lib.acquired))
  }

  lemma {:induction false} SettlesSnoc(acquired: bool, q: seq<Msg>, m: Msg)
    ensures Settles(acquired, q + [m]) == (if m == Acquire then true else if m == Release then false else Settles(acquired, q))
    decreases |q|
  {
    if q == [] {
      assert (q + [m])[1..] == [];
    } else {
      assert (q + [m])[1..] == q[1..] + [m];
      SettlesSnoc(if q[0] == Acquire then true else if q[0] == Release then false else acquired, q[1..], m);
    }
  }

  lemma {:induction false} PutKeeps(y: Sys, m: Msg, want: bool)
    requires Inv(y) && !y.lib.reconnect && m != Register
    requires want == (if m == Acquire then true else if m == Release then false else y.lib.acquired)
    ensures Inv(y.(lib := Put(y.lib, m).(acquired := want)))
  {
    var q := y.lib.out.value;
    SettlesSnoc(y.slot.acquired, q, m);
    if q != [] {
      assert (q + [m])[1..] == q[1..] + [m];
    }
  }

  lemma {:induction false} RetryKeeps(y: Sys, f: Faults)
    requires Inv(y) && y.lib.reconnect
    ensures Inv(Moved(y, Retry(f)))
  {
    assert [Register, Acquire][1..] == [Acquire];
    assert [Register][1..] == [];
    assert [Acquire][1..] == [];
  }

  lemma {:induction false} ServeKeeps(y: Sys, reject: bool)
    requires Inv(y) && CanMove(y, ServerReads(reject))
    ensures Inv(Moved(y, ServerReads(reject)))
    ensures !y.slot.dropped ==> !Moved(y, ServerReads(reject)).slot.dropped
  {
  }

  lemma {:induction false} MoveKeeps(y: Sys, v: Move)
    requires Inv(y) && CanMove(y, v)
    ensures Inv(Moved(y, v))
  {
    match v
    case ApiAcquire(fails) =>
      if !y.lib.reconnect {
        PutKeeps(y, Acquire, true);
      }
    case ApiRelease(fails) =>
      if !y.lib.reconnect {
        PutKeeps(y, Release, false);
      }
    case ApiOther(fails) =>
      if !y.lib.reconnect {
        PutKeeps(y, Other, y.lib.acquired);
      }
    case Retry(f) => RetryKeeps(y, f);
    case ServerReads(reject) => ServeKeeps(y, reject);
    case _ =>
  }

  ghost predicate Reaches(y: Sys, moves: seq<Move>, y': Sys)
    decreases |moves|
  {
    if moves == [] then y == y'
    else Open(y.lib) && CanMove(y, moves[0]) && Reaches(Moved(y, moves[0]), moves[1..], y')
  }

  lemma {:induction false} RunKeeps(y: Sys, moves: seq<Move>, y': Sys)
    requires Inv(y) && Reaches(y, moves, y')
    ensures Inv(y')
    decreases |moves|
  {
    hide Inv, Moved, CanMove;
    if moves != [] {
      MoveKeeps(y, moves[0]);
      RunKeeps(Moved(y, moves[0]), moves[1..], y');
    }
  }

  /** What the client asked for last: a call that succeeds, or is made without a connection. */
  predicate Wish(l: Library, v: Move, before: bool) {
    match v
    case ApiAcquire(fails) => before || l.reconnect || !fails
    case ApiRelease(fails) => before && !l.reconnect && fails
    case _ => before
  }

  ghost predicate Wished(y: Sys, moves: seq<Move>, before: bool)
    decreases |moves|
  {
    if moves == [] then before
    else if !Open(y.lib) || !CanMove(y, moves[0]) then before
    else Wished(Moved(y, moves[0]), moves[1..], Wish(y.lib, moves[0], before))
  }

  /** The library remembers what its client asked for. */
  lemma {:induction false} WishKept(y: Sys, v: Move)
    requires Open(y.lib) && CanMove(y, v)
    ensures Moved(y, v).lib.acquired == Wish(y.lib, v, y.lib.acquired)
  {
  }

  lemma {:induction false} RunWished(y: Sys, moves: seq<Move>, y': Sys)
    requires Reaches(y, moves, y')
    ensures y'.lib.acquired == Wished(y, moves, y.lib.acquired)
    decreases |moves|
  {
    hide Moved, CanMove, Wish;
    if moves != [] {
      WishKept(y, moves[0]);
      RunWished(Moved(y, moves[0]), moves[1..], y');
    }
  }

  /** Whatever was acquired, released, lost and reconnected: once a session that the server has
      neither dropped nor ignored is drained, the server's flag is the client's, which is what the
      client asked for last; and the library never gives the server a reason to drop a session. */
  lemma {:induction false} SessionReplay(moves: seq<Move>, y: Sys)
    requires Reaches(Sys(CONNECTED, FRESH), moves, y)
    ensures y.lib.out == Some([]) && !y.slot.dropped && !y.slot.ignored ==>
              y.slot.registered && y.slot.acquired == y.lib.acquired
    ensures y.lib.acquired == Wished(Sys(CONNECTED, FRESH), moves, false)
    ensures forall reject :: CanMove(y, ServerReads(reject)) && Open(y.lib) && !y.slot.dropped ==>
              !Moved(y, ServerReads(reject)).slot.dropped
  {
    assert Inv(Sys(CONNECTED, FRESH)) by {
      assert [Register][1..] == [];
    }
    RunKeeps(Sys(CONNECTED, FRESH), moves, y);
    RunWished(Sys(CONNECTED, FRESH), moves, y);
    forall reject | CanMove(y, ServerReads(reject)) && !y.slot.dropped
      ensures !Moved(y, ServerReads(reject)).slot.dropped
    {
      ServeKeeps(y, reject);
    }
  }

  /** Ignored requests are a real exception: a server that rejects leaves the flags apart. */
  lemma {:induction false} RejectedAcquire()
    ensures exists moves, y :: Reaches(Sys(CONNECTED, FRESH), moves, y) && y.lib.out == Some([])
                               && !y.slot.dropped && y.slot.acquired != y.lib.acquired
  {
    var y0 := Sys(CONNECTED, FRESH);
    var y1 := Moved(y0, ApiAcquire(false));
    var y2 := Moved(y1, ServerReads(true));
    var y3 := Moved(y2, ServerReads(true));
    assert y1.lib.out.value == [Register, Acquire];
    assert y2.lib.out.value == [Acquire];
    assert y3.lib.out.value == [];
    var moves := [ApiAcquire(false), ServerReads(true), ServerReads(true)];
    assert moves[1..][1..] == [ServerReads(true)] && moves[1..][1..][1..] == [];
    assert Reaches(y2, moves[1..][1..], y3);
    assert Reaches(y1, moves[1..], y3);
    assert Reaches(y0, moves, y3);
  }

  // ---------------------------------------------------------------- the library's context

  class MdmCli {
    var reconnect: bool
    var acquired: bool
    var sock: Option<seq<Msg>>

    ghost function View(): Library
      reads this
    {
      Library(reconnect, acquired, sock)
    }

    constructor ()
      ensures View() == CONNECTED
    {
      reconnect, acquired, sock := false, false, Some([Register]);
    }

    /** send_msg, all or nothing. */
    method SendMsg(m: Msg, fails: bool) returns (ret: int)
      requires sock.Some?
      modifies `sock
      ensures ret == if fails then -1 else 0
      ensures sock == if fails then old(sock) else Some(old(sock).value + [m])
    {
      if fails { return -1; }
      sock := Some(sock.value + [m]);
      return 0;
    }

    method AcquireModem(fails: bool) returns (ret: int)
      requires Open(View())
      modifies this
      ensures View() == SetAcquired(old(View()), true, fails)
      ensures ret == 0 <==> old(reconnect) || !fails
    {
      if reconnect {
        ret := 0;
      } else {
        ret := SendMsg(Acquire, fails);
      }
      if ret == 0 {
        acquired := true;
      }
    }

    method ReleaseModem(fails: bool) returns (ret: int)
      requires Open(View())
      modifies this
      ensures View() == SetAcquired(old(View()), false, fails)
      ensures ret == 0 <==> old(reconnect) || !fails
    {
      if reconnect {
        ret := 0;
      } else {
        ret := SendMsg(Release, fails);
      }
      if ret == 0 {
        acquired := false;
      }
    }

    method TryReconnect(f: Faults)
      requires reconnect
      modifies this
      ensures View() == Reconnect(old(View()), f)
    {
      sock := if f.connect then None else Some([]);
      if sock.Some? {
        var ret := SendMsg(Register, f.register);
        if ret == 0 && acquired {
          ret := SendMsg(Acquire, f.acquire);
        }
        assert [] + [Register] == [Register] && [Register] + [Acquire] == [Register, Acquire];
        if ret == 0 {
          reconnect := false;
        } else {
          sock := None;
        }
      }
    }

    /** Closes the socket; outside the sanity tests a first reconnection follows at once. */
    method HandleError(retry: bool, f: Faults)
      modifies this
      ensures View() == if retry then Reconnect(Lose(old(View())), f) else Lose(old(View()))
    {
      sock := None;
      reconnect := true;
      if retry {
        TryReconnect(f);
      }
    }
  }
}
