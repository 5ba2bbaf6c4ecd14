/**
 The objects driven from their start through any inputs: what the run theorems say of the
 specifications, said of the fields the handlers update in place.
 */
module ObjectRuns {
  import opened Common
  import Cla
  import ClaBook
  import ClaInvariant
  import ClaMachine
  import ClaRequests
  import ClaRuns
  import ClaScripts
  import Control
  import ControlFrame
  import ControlMachine
  import ControlOrders
  import ControlOutcomes
  import Hal
  import HalRuns
  import System
  import Watchdog
  import WatchdogRuns

  // ---------------------------------------------------------------- client abstraction

  /** The assertions that no run of client abstraction meets. */
  predicate NeverMet(why: Cla.Assertion) {
    why == Cla.AckExclusion || why == Cla.NegativeAck || why == Cla.AcquireWhileAcked || why == Cla.CleanTwice
    || why == Cla.TimeoutIdx || why == Cla.TimeoutWakelock || why == Cla.InProgress
    || why == Cla.AtCell(Cla.CliAcquire, Cla.StUp) || (why.AtCell? && why.trigger == Cla.CliAcked)
  }

  /** The thread of client abstraction over `inputs`, those it cannot take at its point of the loop
      left aside, up to the first assertion. */
  method ClientAbstraction(sanity: bool, fmmo: bool, inputs: ClaRuns.Script)
    returns (m: ClaMachine.Machine, at: Cla.Phase, why: Option<Cla.Assertion>, ghost taken: ClaRuns.Script)
    ensures m.Valid() && fresh(m) && fresh(m.list) && fresh(m.list.clients)
    ensures why == None ==> ClaRuns.Reaches(Cla.Boot(sanity, fmmo), taken, Cla.Loop(m.View(), at))
    ensures why == None ==> m.list.numCold == ClaBook.Num(m.list.clients[..m.list.num], ClaBook.IsCold)
    ensures why == None ==> m.list.numShut == ClaBook.Num(m.list.clients[..m.list.num], ClaBook.IsShut)
    ensures why == None && m.list.numCold > 0 ==> m.fsm == Cla.AckCold
    ensures why == None && m.list.numShut > 0 ==> m.fsm == Cla.AckShut
    ensures why == None && !m.shutdownSeen ==>
              m.list.numAcquired == ClaBook.Num(m.list.clients[..m.list.num], ClaBook.IsAcquired) + (if fmmo then 0 else 1)
    ensures why == None && !at.Iter? && m.fsm == Cla.StUp ==> m.list.numAcquired > 0
    ensures why == None ==> m.wakelock <= 1 && (m.list.numCold != 0 || m.list.numShut != 0 || m.bootArmed ==> m.wakelock == 1)
    ensures why == None && !m.rebootSeen ==>
              ClaInvariant.Last(m.broadcasts) == match m.modem
                                                 case Unknown => None
                                                 case Ready => Some(Cla.Up)
                                                 case Unresp => Some(Cla.Oos)
                                                 case _ => Some(Cla.Down)
    ensures why == None && m.inProgress && m.fsm == Cla.Stopping ==> m.requests != [] && m.requests[|m.requests| - 1] == Cla.Stop
    ensures why == None && m.inProgress && m.fsm == Cla.Starting ==> m.requests != [] && m.requests[|m.requests| - 1] != Cla.Stop
    ensures why.Some? ==> !NeverMet(why.value)
  {
    m := new ClaMachine.Machine(sanity, fmmo);
    at, why, taken := Cla.Top, None, [];
    ghost var l0 := Cla.Boot(sanity, fmmo);
    ClaScripts.NoStep(l0);
    var k := 0;
    while k < |inputs| && why == None
      invariant 0 <= k <= |inputs|
      invariant m.Valid() && fresh(m) && fresh(m.list) && fresh(m.list.clients)
      invariant why == None ==> ClaRuns.Reaches(l0, taken, Cla.Loop(m.View(), at))
      invariant why.Some? ==> !NeverMet(why.value)
    {
      hide Cla.Step, Cla.Enabled, ClaRuns.Reaches, NeverMet;
      var (i, bad) := inputs[k];
      if m.Takes(at, i) {
        ghost var l := Cla.Loop(m.View(), at);
        why, at := m.TakeStep(at, i, bad);
        if why == None {
          ClaScripts.Snoc(l0, taken, l, i, bad);
          taken := taken + [(i, bad)];
        } else {
          Excluded(sanity, fmmo, taken, l, i, bad);
        }
      }
      k := k + 1;
    }
    if why == None {
      hide NeverMet;
      ClaRuns.AckBookkeeping(sanity, fmmo, taken, Cla.Loop(m.View(), at));
      ClaRuns.HoldersAndTimers(sanity, fmmo, taken, Cla.Loop(m.View(), at));
      ClaRuns.CoherentBroadcasts(sanity, fmmo, taken, Cla.Loop(m.View(), at));
      ClaRequests.RequestsRight(sanity, fmmo, taken, Cla.Loop(m.View(), at));
    }
  }

  lemma {:induction false} Excluded(sanity: bool, fmmo: bool, script: ClaRuns.Script, l: Cla.Loop, i: Cla.Input, bad: Cla.Links)
    requires ClaRuns.Reaches(Cla.Boot(sanity, fmmo), script, l) && Cla.Enabled(l, i)
    ensures Cla.Step(l, i, bad).Abort? ==> !NeverMet(Cla.Step(l, i, bad).why)
  {
    hide Cla.Step, Cla.Enabled, ClaRuns.Reaches;
    ClaRuns.AckBookkeeping(sanity, fmmo, script, l);
    ClaRuns.HoldersAndTimers(sanity, fmmo, script, l);
  }

  // ---------------------------------------------------------------- control

  type Events = seq<(Control.Trigger, Control.Env)>

  /** The requests among the events. */
  function Asked(events: Events): nat {
    if events == [] then 0
    else Asked(events[..|events| - 1]) + Bit(System.IsRequest(events[|events| - 1].0))
  }

  /** A busy event was handled and its reason was not. */
  predicate Pending(events: Events) {
    events != []
    && var t := events[|events| - 1].0;
       t == Control.HalBusy || (!Control.IsReason(t) && Pending(events[..|events| - 1]))
  }

  /** The last request among the events. */
  function LastRequest(events: Events): Option<Control.Trigger> {
    if events == [] then None
    else if System.IsRequest(events[|events| - 1].0) then Some(events[|events| - 1].0)
    else LastRequest(events[..|events| - 1])
  }

  /** The request not answered yet: the last one, if fewer results were told than requests made. */
  function Unanswered(told: seq<Cla.ControlMsg>, events: Events): Option<Control.Trigger> {
    if System.Results(told) < Asked(events) then LastRequest(events) else None
  }

  /** A stop is held exactly if the unanswered request is one. */
  ghost predicate Holds(c: Control.Ctx, events: Events) {
    && (c.flow.req == Control.ReqNone <==> Unanswered(c.toCla, events) == None)
    && (c.flow.req == Control.ReqStop <==> Unanswered(c.toCla, events) == Some(Control.CliStop))
  }

  /** What holds of control after `events`, all regular if `regular` says so. */
  ghost predicate Consistent(c: Control.Ctx, events: Events, regular: bool) {
    && WatchdogRuns.Ids(c)
    && WatchdogRuns.Alternates(c.toWatch, -1, false, c.watchId, WatchdogRuns.Armed(c), 0, 0)
    && (regular ==> System.Results(c.toCla) + Bit(c.flow.req != Control.ReqNone) == Asked(events))
    && (regular ==> c.flow.waitBusy == Pending(events))
    && (regular ==> Holds(c, events))
    && ControlOrders.OrdersFit(c)
  }

  lemma {:induction false} StartsConsistent(timeout: int)
    requires Control.Boot(timeout).Ok?
    ensures Consistent(Control.Boot(timeout).ctx, [], true)
  {
    WatchdogRuns.BootAlternates(timeout, 0);
    ControlOrders.NothingOrdered(Control.Boot(timeout).ctx);
    hide WatchdogRuns.Alternates, Watchdog.GenScalar;
  }

  lemma {:induction false} EventConsistent(c: Control.Ctx, events: Events, regular: bool, t: Control.Trigger, e: Control.Env)
    requires Consistent(c, events, regular) && Control.Notify(c, t, e).Ok?
    ensures Consistent(Control.Notify(c, t, e).ctx, events + [(t, e)], regular && System.Regular(t, c.fsm))
  {
    hide Control.Notify, WatchdogRuns.Alternates, System.Results, System.IsRequest, Control.IsReason, ControlOrders.OrdersFit;
    var c' := Control.Notify(c, t, e).ctx;
    WatchdogRuns.WatchTraffic(c, t, e);
    WatchdogRuns.TrafficAlternates(c, c', c.toWatch, -1, false, 0, 0);
    assert c.toWatch + c'.toWatch[|c.toWatch|..] == c'.toWatch;
    assert (events + [(t, e)])[..|events|] == events;
    ControlFrame.BusyRemembered(c, t, e);
    ControlOrders.EventFits(c, t, e);
    if System.Regular(t, c.fsm) && regular {
      System.NotifyBalance(c, t, e);
      EventHolds(c, events, t, e);
    }
  }

  lemma {:induction false} Asks(events: Events)
    ensures Asked(events) == 0 <==> LastRequest(events) == None
    ensures LastRequest(events).Some? ==> System.IsRequest(LastRequest(events).value)
    decreases |events|
  {
    hide System.IsRequest;
    if events != [] {
      Asks(events[..|events| - 1]);
    }
  }

  lemma {:induction false} EventHolds(c: Control.Ctx, events: Events, t: Control.Trigger, e: Control.Env)
    requires WatchdogRuns.Ids(c) && Holds(c, events) && System.Regular(t, c.fsm) && Control.Notify(c, t, e).Ok?
    requires System.Results(c.toCla) + Bit(c.flow.req != Control.ReqNone) == Asked(events)
    requires System.Balance(c, Control.Notify(c, t, e).ctx, Bit(System.IsRequest(t)))
    ensures Holds(Control.Notify(c, t, e).ctx, events + [(t, e)])
  {
    hide Control.Notify, System.Results, System.IsRequest, Control.IsReason, ControlOutcomes.Expects;
    var more := events + [(t, e)];
    assert more[..|more| - 1] == events;
    Asks(events);
    Asks(more);
    ControlFrame.PreOpExact(c, t, e);
    ControlOutcomes.Unexpected(c, t, e);
    ControlOutcomes.Covered(c, t, e);
  }

  /** The thread of control over `events`, up to the first assertion: `n` of them were handled,
      and `regular` tells whether none was of the two kinds that break the exchange. What control
      sent to its watchdog alternates and ends armed exactly outside UP and DOWN. In a regular run
      each request was answered once or is the one held, only a request can stop control as a
      second one, and a reason stops it exactly if no busy event is pending; and whenever the modem
      waits or its dump is over, it is stopped if the unanswered request is a stop, left alone if
      there is none, and else reset or given up. In any run the orders to HAL and the services come
      in order, a modem that is up or on its way was not told to stop since, and a stop held while
      no reason is awaited was passed on. `trace` is the context before each event and at the end. */
  method ControlThread(timeout: int, events: Events)
    returns (m: ControlMachine.Machine, why: Option<Control.Assertion>, n: nat, regular: bool, ghost trace: seq<Control.Ctx>)
    ensures fresh(m) && n <= |events| && (why == None ==> n == |events|)
    ensures why == None ==> |trace| == n + 1 && trace[n] == m.View()
    ensures regular ==> Resumptions(trace, events)
    ensures Control.Boot(timeout).Abort? ==> why == Some(Control.WatchTimeout)
    ensures why == None ==>
              WatchdogRuns.Alternates(m.toWatch, -1, false, m.watchId, m.fsm != Control.StUp && m.fsm != Control.StDown, 0, 0)
    ensures why == None && regular ==> System.Results(m.toCla) + Bit(m.flow.req != Control.ReqNone) == Asked(events)
    ensures why == None && regular ==> m.flow.waitBusy == Pending(events)
    ensures why == None ==> ControlOrders.InOrder(m.orders)
    ensures why == None && ControlOrders.LastTo(m.orders, ControlOrders.HalService) == Some(Control.Shutdown) ==>
              m.fsm == Control.Waiting || m.fsm == Control.StDown || m.fsm == Control.Dumping
    ensures why == None && m.fsm == Control.Waiting && m.flow.req == Control.ReqStop && !m.flow.waitBusy ==>
              ControlOrders.LastTo(m.orders, ControlOrders.HalService) == Some(Control.Shutdown)
    ensures why == Some(Control.ClientRequest) && regular ==> n < |events| && System.IsRequest(events[n].0)
    ensures regular && n < |events| && Control.Boot(timeout).Ok? ==>
              (why == Some(Control.PreOp) <==> Control.IsReason(events[n].0) && !Pending(events[..n]))
  {
    hide Control.Notify, Consistent, Asked, Pending, System.Results, WatchdogRuns.Alternates, Watchdog.GenScalar;
    hide ControlOrders.InOrder, ControlOrders.LastTo;
    m := new ControlMachine.Machine(timeout);
    n, regular, trace := 0, true, [];
    why := m.StartWatchdog();
    if why.Some? { return; }
    StartsConsistent(timeout);
    why, n, regular, trace := ControlLoop(m, events);
    Means(m.View(), events, regular);
  }

  /** Each resumption of the trace follows the unanswered request. */
  ghost predicate Resumptions(trace: seq<Control.Ctx>, events: Events) {
    forall k :: 0 <= k < |trace| - 1 && k < |events| ==> ResumesAt(trace[k], trace[k + 1], events, k)
  }

  ghost predicate ResumesAt(c: Control.Ctx, c': Control.Ctx, events: Events, k: nat)
    requires k < |events|
  {
    ControlOutcomes.Resumes(c.fsm, events[k].0) ==>
      var held := Unanswered(c.toCla, events[..k]);
      var before := c.orders + if events[k].0 == Control.HalBusy then [Control.StopDump] else [];
      if held == None then c'.fsm == Control.Waiting && c'.orders == before
      else if held == Some(Control.CliStop) then c'.fsm == Control.Waiting && c'.orders == before + [Control.Shutdown]
      else if c'.fsm == Control.Packaging then c'.orders == before + [Control.Package, Control.Reset(false)]
      else c'.fsm == Control.StDown && c'.orders == before
  }

  lemma {:induction false} ResumptionHere(c: Control.Ctx, events: Events, k: nat)
    requires k < |events| && Consistent(c, events[..k], true) && Control.Notify(c, events[k].0, events[k].1).Ok?
    ensures ResumesAt(c, Control.Notify(c, events[k].0, events[k].1).ctx, events, k)
  {
    hide Control.Notify, System.Results, WatchdogRuns.Alternates, Asked, LastRequest, Control.IsReason, ControlOrders.OrdersFit;
    var (t, e) := events[k];
    if ControlOutcomes.Resumes(c.fsm, t) {
      ControlFrame.PreOpExact(c, t, e);
      ControlOutcomes.Resumed(c, t, e);
      ControlOrders.ResumedGives(c, t, Control.Notify(c, t, e).ctx.fsm);
      ControlOrders.OrdersGiven(c, t, e);
    }
  }

  lemma {:induction false} Means(c: Control.Ctx, events: Events, regular: bool)
    ensures Consistent(c, events, regular) ==>
              && WatchdogRuns.Alternates(c.toWatch, -1, false, c.watchId, !Control.Settled(c.fsm), 0, 0)
              && (regular ==> System.Results(c.toCla) + Bit(c.flow.req != Control.ReqNone) == Asked(events))
              && (regular ==> c.flow.waitBusy == Pending(events))
              && ControlOrders.OrdersFit(c)
  {
    hide ControlOrders.OrdersFit;
  }

  method ControlLoop(m: ControlMachine.Machine, events: Events)
    returns (why: Option<Control.Assertion>, n: nat, regular: bool, ghost trace: seq<Control.Ctx>)
    requires Consistent(m.View(), [], true)
    modifies m
    ensures why == None ==> |trace| == n + 1 && trace[n] == m.View()
    ensures regular ==> Resumptions(trace, events)
    ensures n <= |events| && (why == None ==> n == |events| && Consistent(m.View(), events, regular))
    ensures why == Some(Control.ClientRequest) && regular ==> n < |events| && System.IsRequest(events[n].0)
    ensures why.Some? ==> n < |events|
    ensures regular && n < |events| ==> (why == Some(Control.PreOp) <==> Control.IsReason(events[n].0) && !Pending(events[..n]))
  {
    hide Control.Notify, Asked, Pending, System.Results, WatchdogRuns.Alternates, System.Regular, System.IsRequest, Control.IsReason, System.Balance;
    hide ResumesAt, Holds, ControlOrders.OrdersFit;
    n, regular, why, trace := 0, true, None, [m.View()];
    assert events[..0] == [];
    while n < |events|
      invariant 0 <= n <= |events| && why == None && Consistent(m.View(), events[..n], regular)
      invariant |trace| == n + 1 && trace[n] == m.View() && (regular ==> Resumptions(trace, events))
    {
      var (t, e) := events[n];
      ghost var c := m.View();
      ControlFrame.PreOpExact(c, t, e);
      regular := regular && System.Regular(t, m.fsm);
      why := m.NotifyEvent(t, e);
      if regular {
        System.NotifyBalance(c, t, e);
      }
      if why.Some? { return; }
      if regular {
        ResumptionHere(c, events, n);
      }
      EventMore(c, events, n, regular);
      trace := trace + [m.View()];
      n := n + 1;
    }
    assert events[..n] == events;
  }

  lemma {:induction false} EventMore(c: Control.Ctx, events: Events, n: nat, regular: bool)
    requires n < |events| && Control.Notify(c, events[n].0, events[n].1).Ok?
    requires exists r :: Consistent(c, events[..n], r) && regular == (r && System.Regular(events[n].0, c.fsm))
    ensures Consistent(Control.Notify(c, events[n].0, events[n].1).ctx, events[..n + 1], regular)
  {
    hide Consistent, Control.Notify;
    var r :| Consistent(c, events[..n], r) && regular == (r && System.Regular(events[n].0, c.fsm));
    EventConsistent(c, events[..n], r, events[n].0, events[n].1);
    assert events[..n] + [(events[n].0, events[n].1)] == events[..n + 1];
  }

  // ---------------------------------------------------------------- HAL

  /** Every reason of the log comes straight after a busy event. */
  predicate WellAnnounced(log: seq<Control.Trigger>) {
    forall j :: 0 <= j < |log| && Control.IsReason(log[j]) ==> j > 0 && log[j - 1] == Control.HalBusy
  }

  lemma {:induction false} AnnouncedMore(log: seq<Control.Trigger>, ts: seq<Control.Trigger>)
    requires WellAnnounced(log) && HalRuns.Announced(ts)
    ensures WellAnnounced(log + ts)
  {
  }

  /** The thread of HAL over `inputs`, those that cannot happen left aside, up to the first
      assertion. Timer, RPC daemon and ping thread live exactly in the states that own them, every
      reason sent to control follows its busy event, and of the assertions only three can be met
      besides the one on the state the modem was found in. */
  method HalThread(mdm: Hal.Trigger, dump: bool, secvm: bool, e0: Hal.Env, inputs: seq<(Hal.Input, Hal.Env)>)
    returns (m: Hal.Machine, why: Option<Hal.Assertion>)
    ensures fresh(m)
    ensures mdm != Hal.MdmOff && mdm != Hal.MdmOn ==> why == Some(Hal.BadBoot)
    ensures why == None ==> (m.timerArmed <==> m.fsm == Hal.Booting || m.fsm == Hal.WaitingRpc || m.fsm == Hal.Stopping)
    ensures why == None ==> (m.rpcd <==> m.fsm == Hal.WaitingRpc || m.fsm == Hal.StRun)
    ensures why == None ==> (m.pinging <==> m.fsm == Hal.Pinging)
    ensures why == None ==> WellAnnounced(m.toCtl)
    ensures why.Some? ==> why.value.AtCell? || why.value == Hal.NotSecvm || why.value == Hal.BadState || why.value == Hal.BadBoot
  {
    hide Hal.Notify, HalRuns.Announced, WellAnnounced;
    m := new Hal.Machine(mdm, dump, secvm);
    if mdm != Hal.MdmOff && mdm != Hal.MdmOn { return m, Some(Hal.BadBoot); }
    HalRuns.StartInv(mdm, dump, secvm, e0);
    NothingSent();
    why := m.NotifyEvent(mdm, e0);
    if why.Some? { return; }
    LogGrows([], m.toCtl);
    why := HalLoop(m, inputs);
  }

  lemma {:induction false} NothingSent()
    ensures WellAnnounced([])
  {
  }

  lemma {:induction false} LogGrows(before: seq<Control.Trigger>, after: seq<Control.Trigger>)
    requires WellAnnounced(before) && |before| <= |after| && before == after[..|before|] && HalRuns.Announced(after[|before|..])
    ensures WellAnnounced(after)
  {
    hide WellAnnounced, HalRuns.Announced;
    AnnouncedMore(before, after[|before|..]);
    assert before + after[|before|..] == after;
  }

  method HalLoop(m: Hal.Machine, inputs: seq<(Hal.Input, Hal.Env)>) returns (why: Option<Hal.Assertion>)
    requires HalRuns.Inv(m.View()) && WellAnnounced(m.toCtl)
    modifies m
    ensures why == None ==> HalRuns.Inv(m.View()) && WellAnnounced(m.toCtl)
    ensures why.Some? ==> why.value.AtCell? || why.value == Hal.NotSecvm || why.value == Hal.BadState
  {
    hide Hal.Step, HalRuns.Inv, HalRuns.Announced, WellAnnounced;
    why := None;
    var k := 0;
    while k < |inputs|
      invariant 0 <= k <= |inputs| && why == None && HalRuns.Inv(m.View()) && WellAnnounced(m.toCtl)
    {
      var (i, e) := inputs[k];
      if Possible(m.pinging, m.timerArmed, i) {
        ghost var s := m.View();
        HalRuns.StepKeeps(s, i, e);
        why := m.Turn(i, e);
        if why.Some? { return; }
        LogGrows(s.toCtl, m.toCtl);
      }
      k := k + 1;
    }
  }

  /** What can happen to HAL, with or without a ping thread and a timer. */
  predicate Possible(pinging: bool, timer: bool, i: Hal.Input) {
    match i
    case Request(t) => t == Hal.Power || t == Hal.BootMdm || t == Hal.StopMdm || t == Hal.ResetMdm || t == Hal.Backup
    case Uevent(t) => t == Hal.MdmOff || t == Hal.MdmOn || t == Hal.MdmTrap || t == Hal.MdmFwFail
    case PingAnswer(_) => pinging
    case RpcEvent(_) => true
    case TimerExpires => timer
  }
}
