/**
 Runs of client abstraction and control after which the next event breaks the exchange of
 requests and results.
 */
module SystemScripts {
  import opened Common
  import opened Fsm
  import opened System
  import Cla
  import ClaRuns
  import ClaScripts
  import Control
  import ControlDuty
  import ControlOutcomes
  import opened SystemRequests
  import Watchdog

  const CALM := Control.Env(false, Control.ColdReset, Control.OutOfService, false)

  lemma {:induction false} Snoc(y0: Sys, moves: seq<Move>, y: Sys, v: Move)
    requires Reaches(y0, moves, y) && CanMove(y, v) && Moved(y, v).Ok?
    ensures Reaches(y0, moves + [v], Moved(y, v).ctx)
    ensures OrderlyRun(y0, moves) && Orderly(y, v) ==> OrderlyRun(y0, moves + [v])
    decreases |moves|
  {
    hide Moved, CanMove, Orderly;
    if moves == [] {
      assert ([] + [v])[1..] == [];
    } else {
      assert (moves + [v])[1..] == moves[1..] + [v];
      Snoc(Moved(y0, moves[0]).ctx, moves[1..], y, v);
    }
  }

  // ---------------------------------------------------------------- steps of client abstraction

  lemma {:induction false} RequestsGrow(l: Cla.Loop, script: ClaRuns.Script, l': Cla.Loop)
    requires ClaRuns.Reaches(l, script, l')
    ensures l.ctx.requests <= l'.ctx.requests
    decreases |script|
  {
    hide Cla.Step, Cla.Enabled;
    if script != [] {
      StepTokens(l, script[0].0, script[0].1);
      RequestsGrow(Cla.Step(l, script[0].0, script[0].1).ctx, script[1..], l');
    }
  }

  /** Steps of client abstraction that neither hear from control nor ask it for anything. */
  lemma {:induction false} Lift(y0: Sys, moves: seq<Move>, y: Sys, script: ClaRuns.Script, l': Cla.Loop) returns (moves': seq<Move>)
    requires Reaches(y0, moves, y) && ClaRuns.Reaches(y.cla, script, l') && ClaScripts.NoControl(script)
    requires l'.ctx.requests == y.cla.ctx.requests
    ensures Reaches(y0, moves', y.(cla := l')) && (OrderlyRun(y0, moves) ==> OrderlyRun(y0, moves'))
    decreases |script|
  {
    hide Cla.Step, Cla.Enabled, OrderlyRun;
    moves' := moves;
    if script != [] {
      var v := MoveCla(script[0].0, script[0].1);
      var l1 := Cla.Step(y.cla, script[0].0, script[0].1).ctx;
      StepTokens(y.cla, script[0].0, script[0].1);
      RequestsGrow(l1, script[1..], l');
      assert l1.ctx.requests == y.cla.ctx.requests;
      assert Moved(y, v) == Ok(y.(cla := l1)) by {
        assert y.toCtl + AsTriggers([]) == y.toCtl;
      }
      Snoc(y0, moves, y, v);
      forall j | 0 <= j < |script[1..]| ensures !script[1..][j].0.Control? {
        assert !script[j + 1].0.Control?;
      }
      moves' := Lift(y0, moves + [v], y.(cla := l1), script[1..], l');
    }
  }

  // ---------------------------------------------------------------- a failure nobody asked for

  /** The modem is reported off, then a service fails: control injects a stop, and the exchange
      holds a request that client abstraction never made. */
  lemma {:induction false} FailureUnbalances() returns (y: Sys, moves: seq<Move>, y': Sys)
    ensures Boot(y) && Reaches(y, moves, y') && y'.toCtl == [Control.OpFailure]
    ensures Control.Notify(y'.ctl, Control.OpFailure, CALM).Ok?
    ensures var y'' := y'.(ctl := Control.Notify(y'.ctl, Control.OpFailure, CALM).ctx, toCtl := []);
            y''.ctl.flow.req == Control.ReqStop && !y''.cla.ctx.inProgress
  {
    hide Watchdog.GenScalar, Cla.Step, Control.Notify;
    y := Sys(Cla.Boot(false, true), Control.Boot(0).ctx, [], []);
    assert Control.Boot(0) == Ok(y.ctl);
    moves, y' := PostStep(y, [], y, Control.HalOff);
    HearsOff(y'.ctl);
    moves, y' := CtlStep(y, moves, y', Control.Notify(y'.ctl, Control.HalOff, CALM).ctx, [Cla.ModemState(Cla.Off)]);
    HearsFailure(y'.ctl);
    moves, y' := PostStep(y, moves, y', Control.OpFailure);
  }

  lemma {:induction false} HearsOff(c: Control.Ctx)
    requires c == Control.Boot(0).ctx && Control.Boot(0).Ok?
    ensures var r := Control.Notify(c, Control.HalOff, CALM);
            r.Ok? && r.ctx.fsm == Control.StDown && r.ctx.flow == Control.NO_FLOW && r.ctx.timeout == 0 && r.ctx.watchId == 0
            && r.ctx.toCla == [Cla.ModemState(Cla.Off)]
  {
    hide Watchdog.GenScalar;
    assert [] + [Cla.ModemState(Cla.Off)] == [Cla.ModemState(Cla.Off)];
  }

  lemma {:induction false} HearsFailure(c: Control.Ctx)
    requires c.fsm == Control.StDown && c.flow == Control.NO_FLOW && c.timeout == 0 && c.watchId == 0
    ensures var r := Control.Notify(c, Control.OpFailure, CALM);
            r.Ok? && r.ctx.flow.req == Control.ReqStop
  {
    hide Watchdog.GenScalar;
  }

  // ---------------------------------------------------------------- a backup during a dump

  /** Where control is on its way through the run. */
  predicate At(c: Control.Ctx, st: Control.State, wait: bool, told: seq<Cla.ControlMsg>) {
    && c.fsm == st && c.flow == Control.NO_FLOW.(waitBusy := wait) && c.timeout == 0
    && c.watchId == (if st == Control.StUp then 0 else 1)
    && c.toCla == told
  }

  lemma {:induction false} HearsRun(c: Control.Ctx)
    requires c == Control.Boot(0).ctx && Control.Boot(0).Ok?
    ensures var r := Control.Notify(c, Control.HalRun, CALM);
            r.Ok? && At(r.ctx, Control.StUp, false, [Cla.ModemState(Cla.Ready)])
  {
    hide Watchdog.GenScalar;
    assert [] + [Cla.ModemState(Cla.Ready)] == [Cla.ModemState(Cla.Ready)];
  }

  lemma {:induction false} HearsBusy(c: Control.Ctx)
    requires At(c, Control.StUp, false, [Cla.ModemState(Cla.Ready)])
    ensures var r := Control.Notify(c, Control.HalBusy, CALM);
            r.Ok? && At(r.ctx, Control.Waiting, true, [Cla.ModemState(Cla.Ready), Cla.ModemState(Cla.Busy)])
  {
    hide Watchdog.GenScalar;
    assert [Cla.ModemState(Cla.Ready)] + [Cla.ModemState(Cla.Busy)] == [Cla.ModemState(Cla.Ready), Cla.ModemState(Cla.Busy)];
  }

  lemma {:induction false} HearsDump(c: Control.Ctx)
    requires At(c, Control.Waiting, true, [Cla.ModemState(Cla.Ready), Cla.ModemState(Cla.Busy)])
    ensures var r := Control.Notify(c, Control.HalDump, CALM);
            r.Ok? && r.ctx.fsm == Control.Dumping && r.ctx.flow.req == Control.ReqNone
            && r.ctx.toCla == [Cla.ModemState(Cla.Ready), Cla.ModemState(Cla.Busy), Cla.NotifyClient(Cla.DbgInfo)]
  {
    hide Watchdog.GenScalar;
  }

  function BackupCtx(): Cla.Ctx {
    ClaScripts.ReadyCtx({}).(fsm := Cla.Starting, modem := Cla.Busy, fake := true, restart := Cla.BackupNvm, inProgress := true,
                requests := [Cla.Restart(Cla.BackupNvm)], broadcasts := [Cla.Up, Cla.Down, Cla.ColdReset])
  }

  lemma {:induction false} ClaAsksBackup()
    ensures Cla.HandleClientMsg(ClaScripts.ReadyCtx({}), 0, Cla.AskBackup, ClaScripts.Never()) == Ok(BackupCtx())
  {
    hide Cla.NotifyAll;
    var s := ClaScripts.ReadyCtx({}).(restart := Cla.BackupNvm);
    ClaScripts.ToNobody(s, Cla.Down, ClaScripts.Never());
    var s1 := s.(broadcasts := [Cla.Up, Cla.Down], modem := Cla.Busy, fake := true);
    assert [Cla.Up] + [Cla.Down] == [Cla.Up, Cla.Down];
    ClaScripts.ToNobody(s1, Cla.ColdReset, ClaScripts.Never());
    assert [Cla.Up, Cla.Down] + [Cla.ColdReset] == [Cla.Up, Cla.Down, Cla.ColdReset];
    assert [] + [Cla.Restart(Cla.BackupNvm)] == [Cla.Restart(Cla.BackupNvm)];
  }

  /** A client is registered and the modem is up, on both sides. */
  lemma {:induction false} BothUp() returns (y: Sys, moves: seq<Move>, y': Sys)
    ensures Boot(y) && Reaches(y, moves, y') && OrderlyRun(y, moves)
    ensures y'.cla == Cla.Loop(ClaScripts.ReadyCtx({}), Cla.Scan) && y'.toCtl == [] && y'.toCla == []
    ensures At(y'.ctl, Control.StUp, false, [Cla.ModemState(Cla.Ready)])
  {
    hide Watchdog.GenScalar, Control.Notify, Cla.HandleControlMsg, Cla.HandleClientMsg;
    y := Sys(Cla.Boot(false, false), Control.Boot(0).ctx, [], []);
    assert Control.Boot(0) == Ok(y.ctl);
    var s := ClaScripts.Joined(false, {});
    var script := ClaScripts.Registered(false, {});
    moves := Lift(y, [], y, script, Cla.Loop(s, Cla.Scan));
    y' := y.(cla := Cla.Loop(s, Cla.Scan));
    moves, y' := PostStep(y, moves, y', Control.HalRun);
    HearsRun(y'.ctl);
    moves, y' := CtlStep(y, moves, y', Control.Notify(y'.ctl, Control.HalRun, CALM).ctx, [Cla.ModemState(Cla.Ready)]);
    ClaScripts.HearsReady({});
    moves, y' := ClaTurn(y, moves, y', s, Cla.ModemState(Cla.Ready), ClaScripts.ReadyCtx({}));
  }

  /** Client abstraction hears of one modem state, and asks for nothing. */
  lemma {:induction false} ClaTurn(y0: Sys, moves: seq<Move>, y: Sys, s: Cla.Ctx, m: Cla.ControlMsg, s1: Cla.Ctx) returns (moves': seq<Move>, y': Sys)
    requires Reaches(y0, moves, y) && y.cla == Cla.Loop(s, Cla.Scan) && y.toCla == [m] && Cla.FromControl(m)
    requires Cla.HandleControlMsg(s, m, ClaScripts.Never()) == Ok(s1) && s1.requests == s.requests
    requires Cla.FinishTurn(s1, ClaScripts.Begun(s, Cla.Ipc), ClaScripts.Never()) == Ok(s1)
    ensures Reaches(y0, moves', y') && y' == y.(cla := Cla.Loop(s1, Cla.Scan), toCla := [])
    ensures OrderlyRun(y0, moves) ==> OrderlyRun(y0, moves')
  {
    hide OrderlyRun, Cla.HandleControlMsg, Cla.HandleClientMsg, Cla.HandleTimeout, Cla.FinishTurn, Cla.Unmarked, Cla.Unregister, Reaches;
    var never := ClaScripts.Never();
    assert y.toCtl + AsTriggers([]) == y.toCtl;
    var v1 := MoveCla(Cla.Turn(true), never);
    Snoc(y0, moves, y, v1);
    var y1 := y.(cla := Cla.Loop(s, ClaScripts.Begun(s, Cla.Ipc)));
    assert Moved(y, v1) == Ok(y1);
    var v2 := MoveCla(Cla.Control(m), never);
    Snoc(y0, moves + [v1], y1, v2);
    var y2 := y.(cla := Cla.Loop(s1, ClaScripts.Begun(s, Cla.Ipc)), toCla := []);
    assert y1.toCla[1..] == [];
    assert Moved(y1, v2) == Ok(y2);
    var v3 := MoveCla(Cla.EndTurn, never);
    Snoc(y0, moves + [v1] + [v2], y2, v3);
    moves' := moves + [v1] + [v2] + [v3];
    y' := y.(cla := Cla.Loop(s1, Cla.Scan), toCla := []);
    assert Moved(y2, v3) == Ok(y');
  }

  lemma {:induction false} AsksOnce(y: Sys, never: Cla.Links)
    requires y.cla == Cla.Loop(ClaScripts.ReadyCtx({}), Cla.Iter(true, false, Cla.Other)) && never == ClaScripts.Never()
    ensures var v := MoveCla(Cla.FromClient(0, Cla.AskBackup), never);
            CanMove(y, v)
            && Moved(y, v) == Ok(y.(cla := Cla.Loop(BackupCtx(), Cla.Iter(true, false, Cla.Served)), toCtl := y.toCtl + [Control.CliBackup]))
  {
    hide Cla.HandleControlMsg, Cla.HandleClientMsg;
    ClaAsksBackup();
    var sent := [Cla.Restart(Cla.BackupNvm)];
    assert Cla.Step(y.cla, Cla.FromClient(0, Cla.AskBackup), never) == Ok(Cla.Loop(BackupCtx(), Cla.Iter(true, false, Cla.Served)));
    assert y.cla.ctx.requests == [] && BackupCtx().requests == sent;
    assert sent[0..] == sent && sent[1..] == [];
    assert AsTriggers(sent) == [Control.CliBackup];
  }

  lemma {:induction false} BackupTurn(y0: Sys, moves: seq<Move>, y: Sys) returns (moves': seq<Move>, y': Sys)
    requires Reaches(y0, moves, y) && y.cla == Cla.Loop(ClaScripts.ReadyCtx({}), Cla.Scan)
    ensures Reaches(y0, moves', y') && (OrderlyRun(y0, moves) ==> OrderlyRun(y0, moves'))
    ensures y' == y.(cla := Cla.Loop(BackupCtx(), Cla.Iter(true, false, Cla.Served)), toCtl := y.toCtl + [Control.CliBackup])
  {
    hide OrderlyRun, Cla.HandleControlMsg, Cla.HandleClientMsg;
    var never := ClaScripts.Never();
    var v1 := MoveCla(Cla.Turn(false), never);
    Snoc(y0, moves, y, v1);
    var y1 := y.(cla := Cla.Loop(ClaScripts.ReadyCtx({}), Cla.Iter(true, false, Cla.Other)));
    assert y.toCtl + AsTriggers([]) == y.toCtl;
    assert Moved(y, v1) == Ok(y1);
    var v2 := MoveCla(Cla.FromClient(0, Cla.AskBackup), never);
    AsksOnce(y1, never);
    Snoc(y0, moves + [v1], y1, v2);
    moves' := moves + [v1] + [v2];
    y' := y.(cla := Cla.Loop(BackupCtx(), Cla.Iter(true, false, Cla.Served)), toCtl := y.toCtl + [Control.CliBackup]);
    assert Moved(y1, v2) == Ok(y');
  }

  lemma {:induction false} PostStep(y0: Sys, moves: seq<Move>, y: Sys, t: Control.Trigger) returns (moves': seq<Move>, y': Sys)
    requires Reaches(y0, moves, y) && !IsRequest(t)
    ensures Reaches(y0, moves', y') && y' == y.(toCtl := y.toCtl + [t])
    ensures OrderlyRun(y0, moves) ==> OrderlyRun(y0, moves')
  {
    hide Reaches, OrderlyRun;
    Snoc(y0, moves, y, Post(t));
    moves', y' := moves + [Post(t)], y.(toCtl := y.toCtl + [t]);
  }

  lemma {:induction false} CtlStep(y0: Sys, moves: seq<Move>, y: Sys, c: Control.Ctx, told: seq<Cla.ControlMsg>) returns (moves': seq<Move>, y': Sys)
    requires Reaches(y0, moves, y) && y.toCtl != [] && Regular(y.toCtl[0], y.ctl.fsm)
    requires Control.Notify(y.ctl, y.toCtl[0], CALM) == Ok(c) && c.toCla == y.ctl.toCla + told
    ensures Reaches(y0, moves', y') && y' == y.(ctl := c, toCtl := y.toCtl[1..], toCla := y.toCla + told)
    ensures OrderlyRun(y0, moves) && !ControlDuty.Stray(y.ctl, y.toCtl[0]) ==> OrderlyRun(y0, moves')
  {
    hide Reaches, OrderlyRun, Control.Notify;
    Snoc(y0, moves, y, MoveCtl(CALM));
    assert c.toCla[|y.ctl.toCla|..] == told;
    moves', y' := moves + [MoveCtl(CALM)], y.(ctl := c, toCtl := y.toCtl[1..], toCla := y.toCla + told);
  }

  lemma {:induction false} NoResults(m: Cla.ControlMsg, n: Cla.ControlMsg)
    requires !m.Result? && !n.Result?
    ensures Results([m, n]) == 0
  {
    assert [m, n] == [m] + [n] && [m][1..] == [] && [n][1..] == [];
    ResultsAdd([m], [n]);
  }

  /** A backup asked while the modem is about to dump: control drops it, and client abstraction
      waits for an answer that no one will give. */
  lemma {:induction false} BackupUnbalances() returns (y: Sys, moves: seq<Move>, y': Sys)
    ensures Boot(y) && Reaches(y, moves, y') && y'.toCtl == [Control.CliBackup] && y'.ctl.fsm == Control.Dumping
    ensures Control.Notify(y'.ctl, Control.CliBackup, CALM) == Ok(y'.ctl)
    ensures y'.cla.ctx.inProgress && y'.ctl.flow.req == Control.ReqNone && Results(y'.toCla) == 0
  {
    hide Control.Notify, Cla.Step, Reaches, Boot, Results, ClaScripts.ReadyCtx;
    y, moves, y' := BothUp();
    moves, y' := PostStep(y, moves, y', Control.HalBusy);
    moves, y' := PostStep(y, moves, y', Control.HalDump);
    moves, y' := BackupTurn(y, moves, y');
    assert y'.toCtl == [Control.HalBusy, Control.HalDump, Control.CliBackup];
    HearsBusy(y'.ctl);
    moves, y' := CtlStep(y, moves, y', Control.Notify(y'.ctl, Control.HalBusy, CALM).ctx, [Cla.ModemState(Cla.Busy)]);
    assert y'.toCtl == [Control.HalDump, Control.CliBackup];
    HearsDump(y'.ctl);
    moves, y' := CtlStep(y, moves, y', Control.Notify(y'.ctl, Control.HalDump, CALM).ctx, [Cla.NotifyClient(Cla.DbgInfo)]);
    assert y'.toCla == [Cla.ModemState(Cla.Busy), Cla.NotifyClient(Cla.DbgInfo)];
    NoResults(Cla.ModemState(Cla.Busy), Cla.NotifyClient(Cla.DbgInfo));
    BackupDropped(y'.ctl, CALM);
  }

  // ---------------------------------------------------------------- a start that control does not expect

  /** A client is registered and the modem is off, on both sides. */
  lemma {:induction false} BothOff() returns (y: Sys, moves: seq<Move>, y': Sys)
    ensures Boot(y) && Reaches(y, moves, y') && y'.cla == Cla.Loop(ClaScripts.OffCtx(), Cla.Scan) && y'.toCtl == [] && y'.toCla == []
    ensures y'.ctl.fsm == Control.StDown && y'.ctl.flow == Control.NO_FLOW && y'.ctl.timeout == 0 && y'.ctl.watchId == 0
  {
    hide Watchdog.GenScalar, Control.Notify, Cla.HandleControlMsg, Cla.HandleClientMsg;
    y := Sys(Cla.Boot(false, true), Control.Boot(0).ctx, [], []);
    assert Control.Boot(0) == Ok(y.ctl);
    var s := ClaScripts.Joined(true, {});
    var script := ClaScripts.Registered(true, {});
    moves := Lift(y, [], y, script, Cla.Loop(s, Cla.Scan));
    y' := y.(cla := Cla.Loop(s, Cla.Scan));
    moves, y' := PostStep(y, moves, y', Control.HalOff);
    HearsOff(y'.ctl);
    moves, y' := CtlStep(y, moves, y', Control.Notify(y'.ctl, Control.HalOff, CALM).ctx, [Cla.ModemState(Cla.Off)]);
    ClaScripts.OffHeard();
    moves, y' := ClaTurn(y, moves, y', s, Cla.ModemState(Cla.Off), ClaScripts.OffCtx());
  }

  function StartCtx(): Cla.Ctx {
    ClaScripts.Holding(ClaScripts.OffCtx()).(fsm := Cla.Starting, inProgress := true, requests := [Cla.Start])
  }

  /** The first holder of the modem: a start leaves at the end of the turn. */
  lemma {:induction false} StartTurn(y0: Sys, moves: seq<Move>, y: Sys) returns (moves': seq<Move>, y': Sys)
    requires Reaches(y0, moves, y) && y.cla == Cla.Loop(ClaScripts.OffCtx(), Cla.Scan)
    ensures Reaches(y0, moves', y')
    ensures y' == y.(cla := Cla.Loop(StartCtx(), Cla.Scan), toCtl := y.toCtl + [Control.CliStart])
  {
    hide Cla.HandleControlMsg, Cla.HandleClientMsg, Cla.HandleTimeout, Cla.Unmarked, Cla.Unregister, Cla.FinishTurn, Reaches;
    var never := ClaScripts.Never();
    var s, h := ClaScripts.OffCtx(), ClaScripts.Holding(ClaScripts.OffCtx());
    assert y.toCtl + AsTriggers([]) == y.toCtl;
    var v1 := MoveCla(Cla.Turn(false), never);
    Snoc(y0, moves, y, v1);
    var y1 := y.(cla := Cla.Loop(s, ClaScripts.Begun(s, Cla.Other)));
    assert Moved(y, v1) == Ok(y1);
    ClaScripts.Acquires(s);
    var v2 := MoveCla(Cla.FromClient(0, Cla.Acquire), never);
    Snoc(y0, moves + [v1], y1, v2);
    var y2 := y.(cla := Cla.Loop(h, ClaScripts.Begun(s, Cla.Served)));
    assert Moved(y1, v2) == Ok(y2);
    StartSent(y2, never);
    var v3 := MoveCla(Cla.EndTurn, never);
    Snoc(y0, moves + [v1] + [v2], y2, v3);
    moves' := moves + [v1] + [v2] + [v3];
    y' := y.(cla := Cla.Loop(StartCtx(), Cla.Scan), toCtl := y.toCtl + [Control.CliStart]);
  }

  lemma {:induction false} StartSent(y: Sys, never: Cla.Links)
    requires y.cla == Cla.Loop(ClaScripts.Holding(ClaScripts.OffCtx()), ClaScripts.Begun(ClaScripts.OffCtx(), Cla.Served))
    ensures var v := MoveCla(Cla.EndTurn, never);
            CanMove(y, v) && Moved(y, v) == Ok(y.(cla := Cla.Loop(StartCtx(), Cla.Scan), toCtl := y.toCtl + [Control.CliStart]))
  {
    hide Cla.NotifyAll;
    var sent := [Cla.Start];
    assert [] + [Cla.Start] == sent;
    assert Cla.Step(y.cla, Cla.EndTurn, never) == Ok(Cla.Loop(StartCtx(), Cla.Scan));
    assert y.cla.ctx.requests == [] && sent[0..] == sent && sent[1..] == [];
    assert AsTriggers(sent) == [Control.CliStart];
  }

  /** A stray event: a modem that runs while it is down. The start that follows stops control. */
  lemma {:induction false} StrayStart() returns (y: Sys, moves: seq<Move>, y': Sys)
    ensures Boot(y) && Reaches(y, moves, y') && CanMove(y', MoveCtl(CALM))
    ensures Moved(y', MoveCtl(CALM)) == Abort(AtCtl(Control.AtCell(Control.CliStart, Control.Waiting)))
  {
    hide Control.Notify, Cla.Step, Reaches, Boot;
    y, moves, y' := BothOff();
    moves, y' := PostStep(y, moves, y', Control.HalRun);
    moves, y' := StartTurn(y, moves, y');
    ControlOutcomes.RunsWhileDown(y'.ctl, CALM);
    moves, y' := CtlStep(y, moves, y', Control.Notify(y'.ctl, Control.HalRun, CALM).ctx, []);
    assert y'.toCtl == [Control.CliStart];
    StartRefused(y'.ctl);
  }

  lemma {:induction false} StartRefused(c: Control.Ctx)
    requires c.fsm == Control.Waiting
    ensures Control.Notify(c, Control.CliStart, CALM) == Abort(Control.AtCell(Control.CliStart, Control.Waiting))
  {
  }

  // ---------------------------------------------------------------- requests that cross a change of state

  /** The modem turns busy, then off, while a request is on its way. */
  lemma {:induction false} GoesDown(c: Control.Ctx)
    requires At(c, Control.Waiting, true, [Cla.ModemState(Cla.Ready), Cla.ModemState(Cla.Busy)])
    ensures var r := Control.Notify(c, Control.HalOff, CALM);
            r.Ok? && r.ctx.fsm == Control.StDown && r.ctx.toCla == c.toCla + [Cla.ModemState(Cla.Off)]
  {
    hide Watchdog.GenScalar;
  }

  lemma {:induction false} Refused(c: Control.Ctx, t: Control.Trigger)
    requires (t == Control.CliBackup && (c.fsm == Control.Waiting || c.fsm == Control.StDown)) || (t == Control.CliStop && c.fsm == Control.StDown)
    ensures Control.Notify(c, t, CALM) == Abort(Control.AtCell(t, c.fsm))
  {
  }

  /** A backup that meets a modem turned busy, or one turned off. */
  lemma {:induction false} BackupRefused(down: bool) returns (y: Sys, moves: seq<Move>, y': Sys)
    ensures Boot(y) && Reaches(y, moves, y') && OrderlyRun(y, moves) && CanMove(y', MoveCtl(CALM))
    ensures Moved(y', MoveCtl(CALM))
         == Abort(AtCtl(Control.AtCell(Control.CliBackup, if down then Control.StDown else Control.Waiting)))
  {
    hide Control.Notify, Cla.Step, Reaches, Boot, OrderlyRun, ClaScripts.ReadyCtx;
    y, moves, y' := BothUp();
    moves, y' := PostStep(y, moves, y', Control.HalBusy);
    if down {
      moves, y' := PostStep(y, moves, y', Control.HalOff);
    }
    moves, y' := BackupTurn(y, moves, y');
    HearsBusy(y'.ctl);
    moves, y' := CtlStep(y, moves, y', Control.Notify(y'.ctl, Control.HalBusy, CALM).ctx, [Cla.ModemState(Cla.Busy)]);
    if down {
      GoesDown(y'.ctl);
      moves, y' := CtlStep(y, moves, y', Control.Notify(y'.ctl, Control.HalOff, CALM).ctx, [Cla.ModemState(Cla.Off)]);
    }
    assert y'.toCtl == [Control.CliBackup];
    Refused(y'.ctl, Control.CliBackup);
  }

  /** A modem that is up and that nobody holds is stopped. */
  function StopCtx(): Cla.Ctx {
    ClaScripts.Joined(true, {}).(fsm := Cla.Stopping, modem := Cla.Off, reported := Cla.Ready, fake := true, inProgress := true,
                                 requests := [Cla.Stop], broadcasts := [Cla.Up, Cla.Shutdown, Cla.Down])
  }

  lemma {:induction false} ClaAsksStop()
    ensures Cla.HandleControlMsg(ClaScripts.Joined(true, {}), Cla.ModemState(Cla.Ready), ClaScripts.Never()) == Ok(StopCtx())
  {
    hide Cla.NotifyAll;
    var s := Cla.Record(ClaScripts.Joined(true, {}), Cla.Ready, false).(fake := false);
    ClaScripts.ToNobody(s, Cla.Up, ClaScripts.Never());
    assert [] + [Cla.Up] == [Cla.Up];
    var s1 := s.(broadcasts := [Cla.Up], modem := Cla.Ready);
    ClaScripts.ToNobody(s1, Cla.Shutdown, ClaScripts.Never());
    assert [Cla.Up] + [Cla.Shutdown] == [Cla.Up, Cla.Shutdown];
    var s2 := s1.(broadcasts := [Cla.Up, Cla.Shutdown]);
    ClaScripts.ToNobody(s2, Cla.Down, ClaScripts.Never());
    assert [Cla.Up, Cla.Shutdown] + [Cla.Down] == [Cla.Up, Cla.Shutdown, Cla.Down];
    assert [] + [Cla.Stop] == [Cla.Stop];
  }

  lemma {:induction false} StopTurn(y0: Sys, moves: seq<Move>, y: Sys) returns (moves': seq<Move>, y': Sys)
    requires Reaches(y0, moves, y) && y.cla == Cla.Loop(ClaScripts.Joined(true, {}), Cla.Scan)
    requires y.toCla != [] && y.toCla[0] == Cla.ModemState(Cla.Ready)
    ensures Reaches(y0, moves', y') && (OrderlyRun(y0, moves) ==> OrderlyRun(y0, moves'))
    ensures y'.toCtl == y.toCtl + [Control.CliStop] && y'.ctl == y.ctl
  {
    hide Cla.HandleControlMsg, Cla.HandleClientMsg, Cla.HandleTimeout, Cla.FinishTurn, Cla.Unmarked, Cla.Unregister, Reaches, OrderlyRun;
    var never, s := ClaScripts.Never(), ClaScripts.Joined(true, {});
    assert y.toCtl + AsTriggers([]) == y.toCtl;
    var v1 := MoveCla(Cla.Turn(true), never);
    Snoc(y0, moves, y, v1);
    var y1 := y.(cla := Cla.Loop(s, ClaScripts.Begun(s, Cla.Ipc)));
    assert Moved(y, v1) == Ok(y1);
    ClaAsksStop();
    var v2 := MoveCla(Cla.Control(Cla.ModemState(Cla.Ready)), never);
    var sent := [Cla.Stop];
    assert s.requests == [] && StopCtx().requests == sent && sent[0..] == sent && sent[1..] == [];
    assert AsTriggers(sent) == [Control.CliStop];
    assert Moved(y1, v2) == Ok(y1.(cla := Cla.Loop(StopCtx(), ClaScripts.Begun(s, Cla.Ipc)), toCla := y.toCla[1..], toCtl := y.toCtl + [Control.CliStop]));
    Snoc(y0, moves + [v1], y1, v2);
    moves', y' := moves + [v1] + [v2], Moved(y1, v2).ctx;
  }

  /** A stop that meets a modem turned off. */
  lemma {:induction false} StopRefused() returns (y: Sys, moves: seq<Move>, y': Sys)
    ensures Boot(y) && Reaches(y, moves, y') && OrderlyRun(y, moves) && CanMove(y', MoveCtl(CALM))
    ensures Moved(y', MoveCtl(CALM)) == Abort(AtCtl(Control.AtCell(Control.CliStop, Control.StDown)))
  {
    hide Watchdog.GenScalar, Control.Notify, Cla.HandleControlMsg, Cla.HandleClientMsg, Reaches, Cla.Step;
    y := Sys(Cla.Boot(false, true), Control.Boot(0).ctx, [], []);
    assert Control.Boot(0) == Ok(y.ctl);
    var s := ClaScripts.Joined(true, {});
    var script := ClaScripts.Registered(true, {});
    NoMoves(y);
    moves := Lift(y, [], y, script, Cla.Loop(s, Cla.Scan));
    y' := y.(cla := Cla.Loop(s, Cla.Scan));
    hide OrderlyRun;
    moves, y' := DownUnheard(y, moves, y');
    moves, y' := StopTurn(y, moves, y');
    assert y'.toCtl == [Control.CliStop];
    Refused(y'.ctl, Control.CliStop);
  }

  lemma {:induction false} NoMoves(y: Sys)
    ensures Reaches(y, [], y) && OrderlyRun(y, [])
  {
  }

  /** Control finds the modem up, then busy, then off; client abstraction has heard nothing yet. */
  lemma {:induction false} DownUnheard(y0: Sys, moves: seq<Move>, y: Sys) returns (moves': seq<Move>, y': Sys)
    requires Reaches(y0, moves, y) && OrderlyRun(y0, moves) && Control.Boot(0) == Ok(y.ctl) && y.toCtl == [] && y.toCla == []
    ensures Reaches(y0, moves', y') && OrderlyRun(y0, moves') && y'.cla == y.cla && y'.toCtl == []
    ensures y'.toCla != [] && y'.toCla[0] == Cla.ModemState(Cla.Ready) && y'.ctl.fsm == Control.StDown
  {
    hide Watchdog.GenScalar, Control.Notify, Reaches, OrderlyRun;
    moves', y' := PostStep(y0, moves, y, Control.HalRun);
    HearsRun(y'.ctl);
    moves', y' := CtlStep(y0, moves', y', Control.Notify(y'.ctl, Control.HalRun, CALM).ctx, [Cla.ModemState(Cla.Ready)]);
    moves', y' := PostStep(y0, moves', y', Control.HalBusy);
    HearsBusy(y'.ctl);
    moves', y' := CtlStep(y0, moves', y', Control.Notify(y'.ctl, Control.HalBusy, CALM).ctx, [Cla.ModemState(Cla.Busy)]);
    moves', y' := PostStep(y0, moves', y', Control.HalOff);
    GoesDown(y'.ctl);
    moves', y' := CtlStep(y0, moves', y', Control.Notify(y'.ctl, Control.HalOff, CALM).ctx, [Cla.ModemState(Cla.Off)]);
  }
}
