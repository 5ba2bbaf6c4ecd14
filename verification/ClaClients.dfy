/**
 The client array of client abstraction, updated in place.
 */
module ClaClients {
  import opened Common
  import opened Cla

  /** The descriptors of the marked clients from index `i` on. */
  function MarkedFds(xs: seq<Client>, marked: set<nat>, i: nat): seq<int>
    requires i <= |xs|
    decreases |xs| - i
  {
    if i == |xs| then []
    else if i in marked then [xs[i].fd] + MarkedFds(xs, marked, i + 1)
    else MarkedFds(xs, marked, i + 1)
  }

  lemma {:induction false} StaysOrGoes(xs: seq<Client>, marked: set<nat>, i: nat, k: nat)
    requires i <= k < |xs|
    ensures if k in marked then xs[k].fd in MarkedFds(xs, marked, i) else xs[k] in Unmarked(xs, marked, i)
    decreases k - i
  {
    if i < k {
      StaysOrGoes(xs, marked, i + 1, k);
    }
  }

  lemma {:induction false} CountsAddUp(xs: seq<Client>, marked: set<nat>, i: nat)
    requires i <= |xs|
    ensures |Unmarked(xs, marked, i)| + |MarkedFds(xs, marked, i)| == |xs| - i
    decreases |xs| - i
  {
    if i < |xs| {
      CountsAddUp(xs, marked, i + 1);
    }
  }

  /** The clients that stay and those that are closed make up the array. */
  lemma {:induction false} CompactionPartitions(xs: seq<Client>, marked: set<nat>)
    ensures |Unmarked(xs, marked, 0)| + |MarkedFds(xs, marked, 0)| == |xs|
    ensures forall k :: 0 <= k < |xs| ==>
              if k in marked then xs[k].fd in MarkedFds(xs, marked, 0) else xs[k] in Unmarked(xs, marked, 0)
  {
    hide Unmarked, MarkedFds;
    CountsAddUp(xs, marked, 0);
    forall k | 0 <= k < |xs|
      ensures if k in marked then xs[k].fd in MarkedFds(xs, marked, 0) else xs[k] in Unmarked(xs, marked, 0)
    {
      StaysOrGoes(xs, marked, 0, k);
    }
  }

  /** The fields of the context that describe the clients. A client's descriptor, kept by the
      source in a parallel array, is part of its record. */
  class ClientList {
    const clients: array<Client>
    var num: nat
    var toClean: set<nat>
    var numAcquired: int
    var numCold: int
    var numShut: int

    ghost predicate Valid()
      reads this
    {
      num <= clients.Length == MAX_CLIENTS
    }

    ghost function View(): Book
      requires Valid()
      reads this, clients
    {
      Book(clients[..num], toClean, numAcquired, numCold, numShut)
    }

    constructor (fmmo: bool)
      ensures Valid() && fresh(clients) && View() == Init(false, fmmo).book
    {
      clients := new Client[MAX_CLIENTS](_ => Client(-1, false, {}, false, false, false, []));
      num, toClean, numAcquired, numCold, numShut := 0, {}, if fmmo then 0 else 1, 0, 0;
    }

    /** handle_client_unregister */
    method HandleUnregister(i: nat) returns (why: Option<Assertion>)
      requires Valid() && i < num
      modifies this`toClean, this`numAcquired, this`numCold, this`numShut, clients
      ensures Valid() && Matches(Unregister(old(View()), i), why, View())
    {
      if i in toClean { return Some(CleanTwice); }
      if clients[i].registered {
        ghost var c := clients[i];
        if clients[i].acquired {
          clients[i] := clients[i].(acquired := false);
          numAcquired := numAcquired - 1;
          if numAcquired < 0 { return Some(NegativeAcquired); }
        }
        if clients[i].waitCold {
          clients[i] := clients[i].(waitCold := false);
          numCold := numCold - 1;
          if numCold < 0 { return Some(NegativeAck); }
        }
        if clients[i].waitShut {
          clients[i] := clients[i].(waitShut := false);
          numShut := numShut - 1;
          if numShut < 0 { return Some(NegativeAck); }
        }
        assert clients[..num] == old(clients[..num])[i := c.(acquired := false, waitCold := false, waitShut := false)];
      }
      toClean := toClean + {i};
      return None;
    }

    /** notify_cli_event_single */
    method SendEvent(i: nat, e: Event, failed: bool) returns (why: Option<Assertion>)
      requires Valid() && i < num
      modifies this`toClean, this`numAcquired, this`numCold, this`numShut, clients
      ensures Valid() && Matches(NotifySingle(old(View()), i, e, failed), why, View())
    {
      hide Unregister;
      if i in toClean { return Some(CleanTwice); }
      if e in clients[i].events {
        if e == ColdReset {
          if numShut != 0 { return Some(AckExclusion); }
          clients[i] := clients[i].(waitCold := true);
          numCold := numCold + 1;
        } else if e == Shutdown {
          if numCold != 0 { return Some(AckExclusion); }
          clients[i] := clients[i].(waitShut := true);
          numShut := numShut + 1;
        }
        assert View() == Expect(old(View()), i, e);
        if failed {
          why := HandleUnregister(i);
          return;
        }
        ghost var b := View();
        clients[i] := clients[i].(told := clients[i].told + [e]);
        assert View() == Deliver(b, i, e);
      }
      return None;
    }

    /** notify_cli_event_all: the clients already given up are skipped. */
    method SendEventToAll(e: Event, bad: Links) returns (why: Option<Assertion>)
      requires Valid()
      modifies this`toClean, this`numAcquired, this`numCold, this`numShut, clients
      ensures Valid() && Matches(NotifyFrom(old(View()), e, bad, 0), why, View())
    {
      hide NotifySingle;
      var i := 0;
      while i < num
        invariant 0 <= i <= num && Valid()
        invariant NotifyFrom(View(), e, bad, i) == NotifyFrom(old(View()), e, bad, 0)
      {
        if i !in toClean {
          why := SendEvent(i, e, bad(e, i));
          if why.Some? { return; }
        }
        i := i + 1;
      }
      return None;
    }

    /** A new connection, in the first slot after the last client. */
    method Accept(fd: int) returns (why: Option<Assertion>)
      requires Valid()
      modifies this`num, clients
      ensures Valid()
      ensures why == if |old(View()).clients| < MAX_CLIENTS then None else Some(TooManyClients)
      ensures why.None? ==>
                View() == old(View()).(clients := old(View()).clients + [Client(fd, false, {}, false, false, false, [])])
    {
      if num >= MAX_CLIENTS { return Some(TooManyClients); }
      clients[num] := Client(fd, false, {}, false, false, false, []);
      num := num + 1;
      return None;
    }

    method Register(i: nat, events: set<Event>, modem: Mdm, bad: Links) returns (why: Option<Assertion>)
      requires Valid() && i < num
      modifies this`toClean, this`numAcquired, this`numCold, this`numShut, clients
      ensures Valid() && Matches(HandleRegister(old(View()), i, events, modem, bad), why, View())
    {
      hide Unregister, NotifySingle;
      if clients[i].registered {
        why := HandleUnregister(i);
        return;
      }
      clients[i] := clients[i].(registered := true, events := events);
      assert clients[..num] == old(clients[..num])[i := clients[i]];
      if modem != Unknown {
        why := SendEvent(i, ToEvent(modem), bad(ToEvent(modem), i));
        return;
      }
      return None;
    }

    /** ACQUIRE, RELEASE and the two acknowledgements. */
    method SlotMessage(i: nat, m: ClientMsg, reject: bool) returns (why: Option<Assertion>)
      requires Valid() && i < num && (m.Acquire? || m.Release? || m.AckColdReset? || m.AckShutdown?)
      modifies this`numAcquired, this`numCold, this`numShut, clients
      ensures Valid() && Matches(HandleSlotMsg(old(View()), i, m, reject), why, View())
    {
      match m
      case Acquire =>
        if !reject && !clients[i].acquired {
          clients[i] := clients[i].(acquired := true);
          numAcquired := numAcquired + 1;
        }
        return None;
      case Release =>
        if !reject && clients[i].acquired {
          clients[i] := clients[i].(acquired := false);
          numAcquired := numAcquired - 1;
          if numAcquired < 0 { return Some(NegativeAcquired); }
        }
        return None;
      case AckColdReset =>
        if clients[i].waitCold {
          clients[i] := clients[i].(waitCold := false);
          numCold := numCold - 1;
          if numCold < 0 { return Some(NegativeAck); }
        }
        return None;
      case AckShutdown =>
        if clients[i].waitShut {
          clients[i] := clients[i].(waitShut := false);
          numShut := numShut - 1;
          if numShut < 0 { return Some(NegativeAck); }
        }
        return None;
    }

    /** The acknowledgements are given up, in the time-out branch of the main loop. */
    method GiveUpAcks()
      requires Valid()
      modifies this`numCold, this`numShut, clients
      ensures Valid() && View() == ClearAcks(old(View()))
    {
      var i := 0;
      while i < num
        invariant 0 <= i <= num
        invariant forall k :: 0 <= k < i ==> clients[k] == old(clients[k]).(waitCold := false, waitShut := false)
        invariant forall k :: i <= k < num ==> clients[k] == old(clients[k])
      {
        if clients[i].waitCold {
          clients[i] := clients[i].(waitCold := false);
        }
        if clients[i].waitShut {
          clients[i] := clients[i].(waitShut := false);
        }
        i := i + 1;
      }
      numCold, numShut := 0, 0;
    }

    /** memmove of the clients after `j` onto `j`. */
    method ShiftDown(j: nat, count: nat)
      requires j < count <= clients.Length
      modifies clients
      ensures clients[..j] == old(clients[..j])
      ensures clients[j..count - 1] == old(clients[j + 1..count])
    {
      var k := j;
      while k + 1 < count
        invariant j <= k < count
        invariant forall x {:trigger clients[x]} :: 0 <= x < j || k < x < count ==> clients[x] == old(clients[x])
        invariant clients[j..k] == old(clients[j + 1..k + 1])
      {
        ghost var moved := clients[j..k];
        clients[k] := clients[k + 1];
        assert clients[j..k] == moved;
        assert clients[j..k + 1] == clients[j..k] + [clients[k]];
        k := k + 1;
      }
    }

    /** One turn of the loop below: the client at `j`, which was at `i`, is kept or its descriptor is
        closed and the tail moved over it. */
    method Visit(i: nat, j: nat, left: nat, closed: seq<int>, ghost all: seq<Client>)
      returns (j': nat, left': nat, closed': seq<int>)
      requires j <= i < |all| && j < left <= clients.Length && clients[j..left] == all[i..]
      modifies clients
      ensures clients[..j] == old(clients[..j])
      ensures if i in toClean then j' == j && left' == left - 1 && closed' == closed + [all[i].fd]
              else j' == j + 1 && left' == left && closed' == closed && clients[..j + 1] == old(clients[..j]) + [all[i]]
      ensures clients[j'..left'] == all[i + 1..]
    {
      j', left', closed' := j, left, closed;
      assert clients[j] == clients[j..left][0] == all[i];
      assert all[i..][1..] == all[i + 1..] && clients[j + 1..left] == clients[j..left][1..];
      if i in toClean {
        closed' := closed + [clients[j].fd];
        if j != left - 1 {
          ShiftDown(j, left);
        }
        left' := left - 1;
      } else {
        j' := j + 1;
      }
    }

    /** update_client_list: the in-place loop keeps the unmarked clients in order and closes the
        descriptors of the others, each once. */
    method UpdateClientList() returns (closed: seq<int>)
      requires Valid()
      modifies this`num, clients
      ensures Valid()
      ensures View() == old(View()).(clients := Unmarked(old(View()).clients, toClean, 0))
      ensures closed == MarkedFds(old(View()).clients, toClean, 0)
    {
      closed := [];
      ghost var all := clients[..num];
      if toClean == {} {
        AllUnmarked(all, 0);
        assert all[0..] == all;
        return;
      }
      hide Unmarked, MarkedFds;
      var j, left := 0, num;
      var i := 0;
      while i < num
        invariant 0 <= j <= i <= num == |all| <= clients.Length && num == old(num)
        invariant left - j == num - i
        invariant clients[..j] + Unmarked(all, toClean, i) == Unmarked(all, toClean, 0)
        invariant clients[j..left] == all[i..]
        invariant closed + MarkedFds(all, toClean, i) == MarkedFds(all, toClean, 0)
      {
        OneMore(all, toClean, i, clients[..j], closed);
        j, left, closed := Visit(i, j, left, closed, all);
        i := i + 1;
      }
      num := left;
      NoMore(all, toClean, clients[..j], closed);
    }
  }

  lemma {:induction false} OneMore(all: seq<Client>, marked: set<nat>, i: nat, kept: seq<Client>, closed: seq<int>)
    requires i < |all|
    ensures kept + Unmarked(all, marked, i) == (if i in marked then kept else kept + [all[i]]) + Unmarked(all, marked, i + 1)
    ensures closed + MarkedFds(all, marked, i) == (if i in marked then closed + [all[i].fd] else closed) + MarkedFds(all, marked, i + 1)
  {
  }

  lemma {:induction false} NoMore(all: seq<Client>, marked: set<nat>, kept: seq<Client>, closed: seq<int>)
    ensures kept + Unmarked(all, marked, |all|) == kept && closed + MarkedFds(all, marked, |all|) == closed
  {
  }

  lemma {:induction false} AllUnmarked(xs: seq<Client>, i: nat)
    requires i <= |xs|
    ensures Unmarked(xs, {}, i) == xs[i..] && MarkedFds(xs, {}, i) == []
    decreases |xs| - i
  {
    if i < |xs| {
      AllUnmarked(xs, i + 1);
      assert xs[i..] == [xs[i]] + xs[i + 1..];
    }
  }
}
