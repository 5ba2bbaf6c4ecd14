/**
 The requests of client abstraction on their way to control: which one is in flight, and the state
 in which control meets it.
 */
module SystemRequests {
  import opened Common
  import opened Fsm
  import opened System
  import Cla
  import ClaOrigins
  import ClaRequests
  import ClaRuns
  import ClaTurns
  import Control
  import opened ControlDuty
  import ControlFrame
  import ControlOutcomes
  import SystemResults
  import Watchdog
  import WatchdogRuns

  // ---------------------------------------------------------------- queues

  /** The last message of `q` that says the modem is off, with no result behind it. */
  predicate OffLast(q: seq<Cla.ControlMsg>) {
    q != [] && !q[|q| - 1].Result? && (IsOff(q[|q| - 1]) || OffLast(q[..|q| - 1]))
  }

  lemma {:induction false} OffAppend(p: seq<Cla.ControlMsg>, q: seq<Cla.ControlMsg>)
    ensures OffLast(p + q) ==> OffLast(q) || (OffLast(p) && Results(q) == 0)
    decreases |q|
  {
    hide IsOff;
    if q == [] {
      assert p + q == p;
    } else {
      var last := |q| - 1;
      assert (p + q)[..|p + q| - 1] == p + q[..last];
      OffAppend(p, q[..last]);
      ResultsAdd(q[..last], [q[last]]);
      assert q[..last] + [q[last]] == q && [q[last]][1..] == [];
    }
  }

  lemma {:induction false} OffTail(q: seq<Cla.ControlMsg>)
    requires q != []
    ensures OffLast(q[1..]) ==> OffLast(q)
    decreases |q|
  {
    hide IsOff;
    if |q| > 1 && OffLast(q[1..]) {
      assert q[1..][..|q| - 2] == q[..|q| - 1][1..];
      OffTail(q[..|q| - 1]);
    }
  }

  /** The first message is off, and no result is in the queue. */
  lemma {:induction false} OffFirst(q: seq<Cla.ControlMsg>)
    requires q != [] && IsOff(q[0]) && Results(q) == 0
    ensures OffLast(q)
    decreases |q|
  {
    hide IsOff;
    var last := |q| - 1;
    ResultsAdd(q[..last], [q[last]]);
    assert q[..last] + [q[last]] == q && [q[last]][1..] == [];
    if last > 0 {
      OffFirst(q[..last]);
    }
  }

  /** What is told says nothing that the state does not. */
  lemma {:induction false} SaysOff(told: seq<Cla.ControlMsg>, st: Control.State)
    requires Says(told, st)
    ensures OffLast(told) ==> st == Control.StDown
    decreases |told|
  {
    hide IsOff, IsReady;
    if told != [] {
      SaysOff(told[..|told| - 1], st);
    }
  }

  // ---------------------------------------------------------------- the request in flight

  function Last(y: Sys): Option<Cla.Request> {
    ClaRequests.LastSent(y.cla.ctx)
  }

  /** A modem state that says the modem is up, off or gone was told. */
  predicate EverTold(c: Control.Ctx) {
    exists j :: 0 <= j < |c.toCla| && (IsOff(c.toCla[j]) || IsReady(c.toCla[j]))
  }

  /** The request on its way, and the one control holds, are the last one sent. */
  predicate Matching(y: Sys) {
    && (forall j :: 0 <= j < |y.toCtl| && IsRequest(y.toCtl[j]) ==> Last(y).Some? && y.toCtl[j] == AsTrigger(Last(y).value))
    && (y.ctl.flow.req != Control.ReqNone ==> (y.ctl.flow.req == Control.ReqStop <==> Last(y) == Some(Cla.Stop)))
  }

  /** Control has gone as far as client abstraction thinks; `n` requests are on their way. */
  predicate PlacedWith(y: Sys, n: nat) {
    var c := y.ctl;
    && (n > 0 && Last(y) == Some(Cla.Start) ==> c.fsm == Control.StDown)
    && (y.cla.ctx.inProgress && Last(y) == Some(Cla.Stop) && n == 0 ==>
          if c.flow.req == Control.ReqNone then c.fsm == Control.StDown else HoldsStop(c.fsm))
    && (OffLast(y.toCla) ==> c.fsm == Control.StDown || c.flow.req != Control.ReqNone)
    && (y.cla.ctx.fsm == Cla.StOff && !y.cla.ctx.inProgress && y.cla.ctx.modem != Cla.Unresp ==> c.fsm == Control.StDown)
  }

  predicate Placed(y: Sys) {
    PlacedWith(y, Requests(y.toCtl))
  }

  /** Nothing is built for nobody once the modem was told about. */
  predicate Known(y: Sys) {
    && (EverTold(y.ctl) && y.ctl.flow.req == Control.ReqNone ==> Rests(y.ctl.fsm))
    && (forall j :: 0 <= j < |y.toCla| && (IsOff(y.toCla[j]) || IsReady(y.toCla[j])) ==> EverTold(y.ctl))
    && (y.cla.ctx.fsm != Cla.Initial ==> EverTold(y.ctl))
    && (y.cla.ctx.requests != [] ==> y.cla.ctx.fsm != Cla.Initial)
  }

  predicate Joint(y: Sys) {
    Matching(y) && Placed(y) && Known(y) && WatchdogRuns.Ids(y.ctl) && Timed(y.ctl)
  }

  /** What is known of client abstraction alone, and of the tokens. */
  predicate Base(y: Sys, base: nat) {
    && TokenOk(y) && SystemResults.Ordered(y) && ClaRuns.Inv(y.cla, base)
    && ClaRequests.Fits(y.cla.ctx) && ClaRequests.Shown(y.cla.ctx) && ClaRequests.OffShown(y.cla.ctx)
  }

  // ---------------------------------------------------------------- events of control

  lemma {:induction false} ToldMore(c: Control.Ctx, c': Control.Ctx)
    requires c.toCla <= c'.toCla && EverTold(c)
    ensures EverTold(c')
  {
    var j :| 0 <= j < |c.toCla| && (IsOff(c.toCla[j]) || IsReady(c.toCla[j]));
    assert c'.toCla[j] == c.toCla[j];
  }

  /** A state that was not told before was told by this event. */
  lemma {:induction false} ToldNow(c: Control.Ctx, c': Control.Ctx)
    requires c.toCla <= c'.toCla && Says(c'.toCla[|c.toCla|..], c'.fsm) && EverTold(c') && !EverTold(c)
    ensures c'.fsm == Control.StDown || c'.fsm == Control.StUp
  {
    var j :| 0 <= j < |c'.toCla| && (IsOff(c'.toCla[j]) || IsReady(c'.toCla[j]));
    assert j >= |c.toCla|;
    assert c'.toCla[|c.toCla|..][j - |c.toCla|] == c'.toCla[j];
  }

  lemma {:induction false} CtlKnown(y: Sys, t: Control.Trigger, c': Control.Ctx, told: seq<Cla.ControlMsg>)
    requires Known(y) && Lawful(y.ctl, t, c') && told == c'.toCla[|y.ctl.toCla|..]
    ensures Known(y.(ctl := c', toCla := y.toCla + told))
  {
    hide IsOff, IsReady, Lawful;
    var y' := y.(ctl := c', toCla := y.toCla + told);
    Law(y.ctl, t, c');
    if EverTold(y.ctl) {
      ToldMore(y.ctl, c');
    } else if EverTold(c') {
      ToldNow(y.ctl, c');
    }
    forall j | 0 <= j < |y'.toCla| && (IsOff(y'.toCla[j]) || IsReady(y'.toCla[j])) ensures EverTold(c') {
      if j >= |y.toCla| {
        assert y'.toCla[j] == told[j - |y.toCla|] == c'.toCla[|y.ctl.toCla| + j - |y.toCla|];
      }
    }
  }

  /** What `Lawful` says of requests and of rest. */
  lemma {:induction false} Law(c: Control.Ctx, t: Control.Trigger, c': Control.Ctx)
    requires Lawful(c, t, c')
    ensures c.toCla <= c'.toCla && Says(c'.toCla[|c.toCla|..], c'.fsm)
    ensures c.flow.req == Control.ReqNone && Rests(c.fsm) && c'.flow.req == Control.ReqNone ==> Rests(c'.fsm)
    ensures c.flow.req != Control.ReqNone && c'.flow.req == Control.ReqNone ==> Rests(c'.fsm)
    ensures c'.fsm == Control.StUp || c'.fsm == Control.StDown ==> Rests(c'.fsm)
  {
  }

  /** The event at hand is a request exactly if the count says so. */
  lemma {:induction false} NoRequests(q: seq<Control.Trigger>)
    requires Requests(q) == 0
    ensures forall j :: 0 <= j < |q| ==> !IsRequest(q[j])
  {
    hide IsRequest;
    if q != [] {
      NoRequests(q[1..]);
      assert forall j :: 0 < j < |q| ==> q[j] == q[1..][j - 1];
    }
  }

  lemma {:induction false} CtlMatching(y: Sys, t: Control.Trigger, e: Control.Env)
    requires Matching(y) && WatchdogRuns.Ids(y.ctl) && Regular(t, y.ctl.fsm) && Control.Notify(y.ctl, t, e).Ok?
    requires IsRequest(t) ==> Last(y).Some? && t == AsTrigger(Last(y).value)
    ensures var c' := Control.Notify(y.ctl, t, e).ctx;
            c'.flow.req != Control.ReqNone ==> (c'.flow.req == Control.ReqStop <==> Last(y) == Some(Cla.Stop))
  {
    hide Control.Notify, WatchdogRuns.Ids;
    ControlFrame.PreOpExact(y.ctl, t, e);
    ControlOutcomes.Unexpected(y.ctl, t, e);
    ControlOutcomes.Covered(y.ctl, t, e);
  }

  lemma {:induction false} CtlPlaced(y: Sys, t: Control.Trigger, c': Control.Ctx, told: seq<Cla.ControlMsg>)
    requires PlacedWith(y, Requests(y.toCtl) + Bit(IsRequest(t))) && Lawful(y.ctl, t, c') && told == c'.toCla[|y.ctl.toCla|..]
    requires Requests(y.toCtl) + Bit(IsRequest(t)) + Bit(y.ctl.flow.req != Control.ReqNone) + Results(y.toCla) == Bit(y.cla.ctx.inProgress)
    requires y.ctl.flow.req != Control.ReqNone ==> (y.ctl.flow.req == Control.ReqStop <==> Last(y) == Some(Cla.Stop))
    requires c'.flow.req != Control.ReqNone ==> (c'.flow.req == Control.ReqStop <==> Last(y) == Some(Cla.Stop))
    requires IsRequest(t) ==> Last(y).Some? && t == AsTrigger(Last(y).value)
    requires Results(told) + Bit(c'.flow.req != Control.ReqNone) == Bit(y.ctl.flow.req != Control.ReqNone) + Bit(IsRequest(t))
    requires y.cla.ctx.inProgress || (y.cla.ctx.fsm == Cla.StOff ==> y.cla.ctx.modem == Cla.Unresp) || Rests(y.ctl.fsm)
    requires Requests(y.toCtl) > 0 ==> Rests(y.ctl.fsm)
    ensures Placed(y.(ctl := c', toCla := y.toCla + told))
  {
    hide Requests, Results, IsOff, IsReady, OffLast, Says;
    var c := y.ctl;
    OffAppend(y.toCla, told);
    SaysOff(told, c'.fsm);
    TriggerKinds(y);
  }

  lemma {:induction false} TriggerKinds(y: Sys)
    ensures Last(y).Some? ==> (AsTrigger(Last(y).value) == Control.CliStop <==> Last(y) == Some(Cla.Stop))
    ensures Last(y).Some? ==> (AsTrigger(Last(y).value) == Control.CliStart <==> Last(y) == Some(Cla.Start))
  {
  }

  /** A request on its way finds control at rest, holding nothing. */
  lemma {:induction false} RequestRests(y: Sys)
    requires TokenOk(y) && Matching(y) && Known(y) && Requests(y.toCtl) > 0
    ensures y.ctl.flow.req == Control.ReqNone && Rests(y.ctl.fsm) && Results(y.toCla) == 0 && Requests(y.toCtl) == 1
  {
    hide IsRequest, IsOff, IsReady;
    SomeRequest(y.toCtl);
  }

  lemma {:induction false} SomeRequest(q: seq<Control.Trigger>)
    requires Requests(q) > 0
    ensures exists j :: 0 <= j < |q| && IsRequest(q[j])
  {
    hide IsRequest;
    if !IsRequest(q[0]) {
      SomeRequest(q[1..]);
      var j :| 0 <= j < |q[1..]| && IsRequest(q[1..][j]);
      assert IsRequest(q[j + 1]);
    }
  }

  /** An event of control, its queue already shorter: `t` was its first event, or its timer. */
  lemma {:induction false} CtlJoint(y: Sys, t: Control.Trigger, e: Control.Env)
    requires Matching(y) && PlacedWith(y, Requests(y.toCtl) + Bit(IsRequest(t))) && Known(y) && WatchdogRuns.Ids(y.ctl) && Timed(y.ctl)
    requires Regular(t, y.ctl.fsm) && !Stray(y.ctl, t) && Control.Notify(y.ctl, t, e).Ok?
    requires Requests(y.toCtl) + Bit(IsRequest(t)) + Bit(y.ctl.flow.req != Control.ReqNone) + Results(y.toCla) == Bit(y.cla.ctx.inProgress)
    requires IsRequest(t) ==> Last(y).Some? && t == AsTrigger(Last(y).value)
    requires Requests(y.toCtl) > 0 ==> Rests(y.ctl.fsm)
    ensures Joint(AfterControl(y, Control.Notify(y.ctl, t, e)).ctx)
  {
    hide Control.Notify, Requests, Results, PlacedWith, Known, Lawful, Timed, IsRequest;
    var c' := Control.Notify(y.ctl, t, e).ctx;
    EventLawful(y.ctl, t, e);
    EventTimed(y.ctl, t, e);
    WatchdogRuns.WatchTraffic(y.ctl, t, e);
    NotifyBalance(y.ctl, t, e);
    Law(y.ctl, t, c');
    var told := c'.toCla[|y.ctl.toCla|..];
    ResultsAdd(y.ctl.toCla, told);
    assert y.ctl.toCla + told == c'.toCla;
    CtlKnown(y, t, c', told);
    CtlMatching(y, t, e);
    OffRests(y, Requests(y.toCtl) + Bit(IsRequest(t)));
    CtlPlaced(y, t, c', told);
  }

  lemma {:induction false} OffRests(y: Sys, n: nat)
    requires PlacedWith(y, n)
    ensures y.cla.ctx.inProgress || (y.cla.ctx.fsm == Cla.StOff ==> y.cla.ctx.modem == Cla.Unresp) || Rests(y.ctl.fsm)
  {
    hide OffLast, Requests;
  }

  // ---------------------------------------------------------------- steps of client abstraction

  lemma {:induction false} ClaKnown(y: Sys, l: Cla.Loop, first: bool, q: seq<Cla.ControlMsg>)
    requires Known(y) && (first ==> EverTold(y.ctl))
    requires y.cla.ctx.fsm == Cla.Initial && l.ctx.fsm != Cla.Initial ==> first
    requires l.ctx.fsm == Cla.Initial ==> y.cla.ctx.fsm == Cla.Initial && l.ctx.requests == y.cla.ctx.requests
    requires q == y.toCla || (y.toCla != [] && q == y.toCla[1..])
    ensures Known(Sys(l, y.ctl, y.toCtl, q))
  {
    hide IsOff, IsReady;
  }

  /** A start leaves, or the machine is newly off: control is down. */
  lemma {:induction false} DownThen(y: Sys, i: Cla.Input)
    requires TokenOk(y) && Placed(y) && ClaRequests.Fits(y.cla.ctx)
    requires i.Control? ==> y.toCla != [] && i.msg == y.toCla[0]
    requires ClaOrigins.StartStep(y.cla, i) || ClaOrigins.OffStep(y.cla, i)
    ensures y.ctl.fsm == Control.StDown
  {
    hide OffLast, Requests;
    if i == Cla.Control(Cla.ModemState(Cla.Off)) && !y.cla.ctx.inProgress {
      OffFirst(y.toCla);
    }
  }

  /** What a step of client abstraction does to the requests. */
  lemma {:induction false} ClaPlaced(y: Sys, i: Cla.Input, bad: Cla.Links, base: nat)
    requires Base(y, base) && Placed(y) && CanMove(y, MoveCla(i, bad)) && Moved(y, MoveCla(i, bad)).Ok?
    ensures Placed(Moved(y, MoveCla(i, bad)).ctx)
  {
    hide Cla.Step, Cla.Enabled, ClaRuns.Inv, OffLast, Requests, AsTriggers, Placed;
    var l := Cla.Step(y.cla, i, bad).ctx;
    var y' := Moved(y, MoveCla(i, bad)).ctx;
    StepTokens(y.cla, i, bad);
    ClaRequests.StepWell(y.cla, i, bad, base);
    ClaOrigins.StepFrom(y.cla, i, bad, base);
    var sent := l.ctx.requests[|y.cla.ctx.requests|..];
    AllRequests(sent);
    RequestsAdd(y.toCtl, AsTriggers(sent));
    if i.Control? {
      OffTail(y.toCla);
    }
    if ClaOrigins.StartStep(y.cla, i) || ClaOrigins.OffStep(y.cla, i) {
      DownThen(y, i);
    }
    OffBefore(y, i, bad, base);
    PlacedAfter(y, i, l, y');
  }

  /** A machine that was off already. */
  lemma {:induction false} OffBefore(y: Sys, i: Cla.Input, bad: Cla.Links, base: nat)
    requires ClaRuns.Inv(y.cla, base) && Cla.Enabled(y.cla, i) && Cla.Step(y.cla, i, bad).Ok?
    ensures var s := Cla.Step(y.cla, i, bad).ctx.ctx;
            y.cla.ctx.fsm == Cla.StOff && s.modem != Cla.Unresp ==> y.cla.ctx.modem != Cla.Unresp && !y.cla.ctx.inProgress
  {
    hide Cla.Step, Cla.Enabled;
    if y.cla.ctx.modem == Cla.Unresp {
      ClaRuns.FrozenStep(y.cla, i, bad, base);
    }
  }

  lemma {:induction false} PlacedAfter(y: Sys, i: Cla.Input, l: Cla.Loop, y': Sys)
    requires Placed(y) && y'.cla == l && y'.ctl == y.ctl
    requires var s, s' := y.cla.ctx, l.ctx;
             && s.requests <= s'.requests
             && Requests(y'.toCtl) == Requests(y.toCtl) + |s'.requests| - |s.requests|
             && Bit(s'.inProgress) == Bit(s.inProgress && !(i.Control? && i.msg.Result?)) + |s'.requests| - |s.requests|
             && ClaOrigins.From(s, s', ClaOrigins.StartStep(y.cla, i), ClaOrigins.OffStep(y.cla, i), ClaOrigins.FirstStep(i))
             && (s.fsm == Cla.StOff && s'.modem != Cla.Unresp ==> s.modem != Cla.Unresp && !s.inProgress)
    requires ClaOrigins.StartStep(y.cla, i) || ClaOrigins.OffStep(y.cla, i) ==> y.ctl.fsm == Control.StDown
    requires OffLast(y'.toCla) ==> OffLast(y.toCla)
    ensures Placed(y')
  {
    hide OffLast, Requests, ClaOrigins.StartStep, ClaOrigins.OffStep;
  }

  lemma {:induction false} ClaMatching(y: Sys, i: Cla.Input, bad: Cla.Links, base: nat)
    requires Base(y, base) && Matching(y) && CanMove(y, MoveCla(i, bad)) && Moved(y, MoveCla(i, bad)).Ok?
    ensures Matching(Moved(y, MoveCla(i, bad)).ctx)
  {
    hide Cla.Step, Cla.Enabled, ClaRuns.Inv, IsRequest, Requests, Results, TokenOk, SystemResults.Ordered;
    hide ClaRequests.Fits, ClaRequests.Shown, ClaRequests.OffShown;
    var l := Cla.Step(y.cla, i, bad).ctx;
    StepTokens(y.cla, i, bad);
    ClaRequests.StepWell(y.cla, i, bad, base);
    var sent := l.ctx.requests[|y.cla.ctx.requests|..];
    if sent == [] {
      assert y.toCtl + AsTriggers([]) == y.toCtl;
    } else {
      ResultFirst(y, i);
      NoRequests(y.toCtl);
      assert sent == [sent[0]] && AsTriggers(sent[1..]) == [];
      assert AsTriggers(sent) == [AsTrigger(sent[0])];
    }
  }

  /** A result at hand is a token. */
  lemma {:induction false} ResultFirst(y: Sys, i: Cla.Input)
    requires TokenOk(y) && (i.Control? ==> y.toCla != [] && i.msg == y.toCla[0])
    requires (i.Control? && i.msg.Result?) || !y.cla.ctx.inProgress
    ensures Requests(y.toCtl) == 0 && y.ctl.flow.req == Control.ReqNone
  {
  }

  lemma {:induction false} ClaJoint(y: Sys, i: Cla.Input, bad: Cla.Links, base: nat)
    requires Base(y, base) && Joint(y) && CanMove(y, MoveCla(i, bad)) && Moved(y, MoveCla(i, bad)).Ok?
    ensures Joint(Moved(y, MoveCla(i, bad)).ctx)
  {
    hide Cla.Step, Cla.Enabled, ClaRuns.Inv, Matching, Placed, Known, AsTriggers, TokenOk, SystemResults.Ordered;
    ClaMatching(y, i, bad, base);
    ClaPlaced(y, i, bad, base);
    var l := Cla.Step(y.cla, i, bad).ctx;
    ClaOrigins.StepFrom(y.cla, i, bad, base);
    ClaRequests.StepWell(y.cla, i, bad, base);
    FirstTold(y, i);
    ClaKnown(y, l, ClaOrigins.FirstStep(i), if i.Control? then y.toCla[1..] else y.toCla);
    KnownQueue(Sys(l, y.ctl, y.toCtl, if i.Control? then y.toCla[1..] else y.toCla), Moved(y, MoveCla(i, bad)).ctx);
  }

  lemma {:induction false} KnownQueue(y: Sys, y': Sys)
    requires Known(y) && y' == y.(toCtl := y'.toCtl)
    ensures Known(y')
  {
  }

  lemma {:induction false} FirstTold(y: Sys, i: Cla.Input)
    requires Known(y) && (i.Control? ==> y.toCla != [] && i.msg == y.toCla[0])
    ensures ClaOrigins.FirstStep(i) ==> EverTold(y.ctl)
  {
  }

  // ---------------------------------------------------------------- runs

  /** The move is no stray event. */
  predicate Orderly(y: Sys, v: Move) {
    v.MoveCtl? && y.toCtl != [] ==> !Stray(y.ctl, y.toCtl[0])
  }

  lemma {:induction false} BaseKeeps(y: Sys, v: Move, base: nat)
    requires Base(y, base) && CanMove(y, v) && Moved(y, v).Ok?
    ensures Base(Moved(y, v).ctx, base)
  {
    hide TokenOk, SystemResults.Ordered, ClaRuns.Inv, ClaRequests.Fits, ClaRequests.Shown, Cla.Step, Cla.Enabled, Control.Notify;
    MoveKeeps(y, v);
    SystemResults.MoveOrdered(y, v, base);
    if v.MoveCla? {
      ClaRuns.StepKeeps(y.cla, v.input, v.bad, base);
      ClaRequests.StepWell(y.cla, v.input, v.bad, base);
      NotOdd(y, v.input);
    }
  }

  /** A failure finds the modem gone. */
  lemma {:induction false} NotOdd(y: Sys, i: Cla.Input)
    requires SystemResults.Ordered(y) && (i.Control? ==> y.toCla != [] && i.msg == y.toCla[0])
    ensures !ClaRequests.OddStep(y.cla, i)
  {
    hide SystemResults.Ends;
    if i.Control? {
      SystemResults.BehindTail(y.toCla, SystemResults.Gone(y));
    }
  }

  lemma {:induction false} QueueJoint(y: Sys, v: Move)
    requires Joint(y) && CanMove(y, v) && (v.Post? || v.Relay?)
    ensures Joint(Moved(y, v).ctx)
  {
    match v
    case Post(t) =>
      RequestsAdd(y.toCtl, [t]);
      assert [t][1..] == [];
    case Relay(e) => OffAppend(y.toCla, [Cla.NotifyClient(e)]);
  }

  lemma {:induction false} CtlMoveJoint(y: Sys, v: Move, base: nat)
    requires Base(y, base) && Joint(y) && CanMove(y, v) && Moved(y, v).Ok? && Orderly(y, v) && (v.MoveCtl? || v.CtlTimer?)
    ensures Joint(Moved(y, v).ctx)
  {
    hide Control.Notify, Results, PlacedWith, Known, Matching, Joint, ClaRuns.Inv, SystemResults.Ordered;
    JointParts(y);
    if Requests(y.toCtl) > 0 {
      RequestRests(y);
    }
    if v.MoveCtl? {
      Taken(y);
      CtlJoint(y.(toCtl := y.toCtl[1..]), y.toCtl[0], v.env);
    } else {
      assert y.ctl.timerArmed;
      CtlJoint(y, Control.Timeout, v.env);
    }
  }

  lemma {:induction false} JointParts(y: Sys)
    requires Joint(y)
    ensures Matching(y) && PlacedWith(y, Requests(y.toCtl)) && Known(y) && WatchdogRuns.Ids(y.ctl) && Timed(y.ctl)
  {
  }

  /** The first event taken from the queue. */
  lemma {:induction false} Taken(y: Sys)
    requires Joint(y) && y.toCtl != []
    ensures var y0, t := y.(toCtl := y.toCtl[1..]), y.toCtl[0];
            && Requests(y.toCtl) == Requests(y0.toCtl) + Bit(IsRequest(t))
            && (IsRequest(t) ==> Last(y0).Some? && t == AsTrigger(Last(y0).value))
            && Matching(y0) && Known(y0) && PlacedWith(y0, Requests(y.toCtl))
  {
    hide OffLast, IsOff, IsReady, IsRequest;
  }

  lemma {:induction false} MoveJoint(y: Sys, v: Move, base: nat)
    requires Base(y, base) && Joint(y) && CanMove(y, v) && Moved(y, v).Ok? && Orderly(y, v)
    ensures Joint(Moved(y, v).ctx)
  {
    hide Joint, Base, CanMove, Moved, Orderly;
    match v
    case MoveCla(i, bad) => ClaJoint(y, i, bad, base);
    case MoveCtl(_) => CtlMoveJoint(y, v, base);
    case CtlTimer(_) => CtlMoveJoint(y, v, base);
    case _ => QueueJoint(y, v);
  }

  /** No event of the run is stray. */
  ghost predicate OrderlyRun(y: Sys, moves: seq<Move>)
    decreases |moves|
  {
    moves == []
    || (Orderly(y, moves[0]) && (CanMove(y, moves[0]) && Moved(y, moves[0]).Ok? ==> OrderlyRun(Moved(y, moves[0]).ctx, moves[1..])))
  }

  lemma {:induction false} RunBase(y: Sys, moves: seq<Move>, y': Sys, base: nat)
    requires Base(y, base) && Reaches(y, moves, y')
    ensures Base(y', base)
    decreases |moves|
  {
    hide Base, Moved, CanMove;
    if moves != [] {
      BaseKeeps(y, moves[0], base);
      RunBase(Moved(y, moves[0]).ctx, moves[1..], y', base);
    }
  }

  lemma {:induction false} RunJoint(y: Sys, moves: seq<Move>, y': Sys, base: nat)
    requires Base(y, base) && Joint(y) && Reaches(y, moves, y') && OrderlyRun(y, moves)
    ensures Base(y', base) && Joint(y')
    decreases |moves|
  {
    hide Base, Joint, Moved, CanMove, Orderly;
    if moves != [] {
      BaseKeeps(y, moves[0], base);
      MoveJoint(y, moves[0], base);
      RunJoint(Moved(y, moves[0]).ctx, moves[1..], y', base);
    }
  }

  lemma {:induction false} BootBase(y: Sys) returns (base: nat)
    requires Boot(y)
    ensures Base(y, base) && Joint(y)
  {
    hide ClaRuns.Inv, Watchdog.GenScalar;
    var sanity, fmmo :| y.cla == Cla.Boot(sanity, fmmo);
    var timeout :| Control.Boot(timeout) == Ok(y.ctl);
    base := ClaRuns.BootBase(fmmo);
    ClaRuns.BootInv(sanity, fmmo);
    SystemResults.BootOrdered(y);
    WatchdogRuns.BootAlternates(timeout, 0);
  }

  /** In every regular run, a start is asked only for a modem that is shown off and that somebody
      holds. */
  lemma {:induction false} StartsWhenOff(y: Sys, moves: seq<Move>, y': Sys, i: Cla.Input, bad: Cla.Links)
    requires Boot(y) && Reaches(y, moves, y') && CanMove(y', MoveCla(i, bad)) && Cla.Step(y'.cla, i, bad).Ok?
    ensures var s, s' := y'.cla.ctx, Cla.Step(y'.cla, i, bad).ctx.ctx;
            s'.requests == s.requests + [Cla.Start] ==> s'.modem == Cla.Off && s'.book.numAcquired > 0
  {
    hide Cla.Step, Cla.Enabled, Moved, ClaRuns.Inv, TokenOk, SystemResults.Ordered, Joint, Boot;
    var base := BootBase(y);
    RunBase(y, moves, y', base);
    ClaRequests.StepWell(y'.cla, i, bad, base);
  }

  /** In every regular run without stray events, control expects every start, reset and update it is
      asked for; it stops at a stop exactly if the modem went down meanwhile, and at a backup exactly
      if it went down or waits. */
  lemma {:induction false} RequestsExpected(y: Sys, moves: seq<Move>, y': Sys, e: Control.Env)
    requires Boot(y) && Reaches(y, moves, y') && OrderlyRun(y, moves) && y'.toCtl != [] && IsRequest(y'.toCtl[0])
    ensures var t, r := y'.toCtl[0], Control.Notify(y'.ctl, y'.toCtl[0], e);
            && (r.Abort? && r.why.AtCell? <==> r == Abort(Control.AtCell(t, y'.ctl.fsm)))
            && (r == Abort(Control.AtCell(t, y'.ctl.fsm)) <==>
                  || (t == Control.CliStop && y'.ctl.fsm == Control.StDown)
                  || (t == Control.CliBackup && (y'.ctl.fsm == Control.StDown || y'.ctl.fsm == Control.Waiting)))
  {
    hide Control.Notify, Moved, CanMove, ClaRuns.Inv, SystemResults.Ordered, Boot, OrderlyRun, Reaches;
    var base := BootBase(y);
    RunJoint(y, moves, y', base);
    RequestRests(y');
    var t := y'.toCtl[0];
    ControlOutcomes.Unexpected(y'.ctl, t, e);
    if ControlOutcomes.Expects(y'.ctl.fsm, t) {
      ControlOutcomes.Covered(y'.ctl, t, e);
    }
  }

  // ---------------------------------------------------------------- a restart, from client to control

  /** The event that control gets for a restart. */
  function RestartEvent(m: Cla.ClientMsg): Control.Trigger
    requires m.AskRestart? || m.AskBackup?
  {
    if m.AskBackup? then Control.CliBackup else if m.cause == Cla.MdmErr then Control.CliReset else Control.CliUpdate
  }

  /** A restart that a client asks of a modem that is up, with nothing pending: the event of its cause
      is queued to control at once, or the clients have to acknowledge first and its kind is kept. */
  lemma {:induction false} RestartSent(y: Sys, k: nat, m: Cla.ClientMsg, bad: Cla.Links)
    requires CanMove(y, MoveCla(Cla.FromClient(k, m), bad)) && Moved(y, MoveCla(Cla.FromClient(k, m), bad)).Ok?
    requires (m.AskRestart? || m.AskBackup?) && k !in y.cla.ctx.book.toClean && y.cla.ctx.book.clients[k].registered
    requires y.cla.ctx.fsm == Cla.StUp && y.cla.ctx.restart == Cla.NoRestart && y.cla.ctx.reported == Cla.Ready && !y.cla.ctx.reject
    ensures var y' := Moved(y, MoveCla(Cla.FromClient(k, m), bad)).ctx;
            if y'.cla.ctx.book.numCold == 0 then y'.cla.ctx.fsm == Cla.Starting && y'.toCtl == y.toCtl + [RestartEvent(m)]
            else
              && y'.cla.ctx.fsm == Cla.AckCold && y'.toCtl == y.toCtl
              && AsTrigger(Cla.Restart(y'.cla.ctx.restart)) == RestartEvent(m)
  {
    hide Cla.HandleClientMsg;
    var s := y.cla.ctx;
    var s' := Cla.HandleClientMsg(s, k, m, bad).ctx;
    if m.AskBackup? {
      ClaTurns.BackupTaken(s, k, bad);
    } else {
      ClaTurns.RestartTaken(s, k, m.cause, m.dbg, bad);
    }
    var sent := s'.requests[|s.requests|..];
    if s'.book.numCold == 0 {
      assert sent == [sent[0]] && sent[1..] == [];
      assert AsTriggers(sent) == [AsTrigger(sent[0])];
    } else {
      assert sent == [] && y.toCtl + [] == y.toCtl;
    }
  }
}
