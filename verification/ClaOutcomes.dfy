/**
 What each event makes of client abstraction: the state it leads to, the request it sends to
 control and the broadcasts it makes, for every event and every state that expects it.
 */
module ClaOutcomes {
  import opened Common
  import opened Fsm
  import opened Cla
  import ClaLimits

  // ---------------------------------------------------------------- outcomes

  /** Control is asked for `r`, with nothing else in flight, and the machine goes to `st`. */
  predicate Asks(s: Ctx, s': Ctx, r: Request, st: State) {
    && !s.inProgress && s'.inProgress && s'.requests == s.requests + [r] && s'.fsm == st
  }

  /** The machine goes to `st`; nothing is asked. */
  predicate Goes(s: Ctx, s': Ctx, st: State) {
    s'.fsm == st && s'.requests == s.requests && s'.inProgress == s.inProgress
  }

  /** What no procedure touches; the wakelock may be taken, never dropped. */
  predicate Carries(s: Ctx, s': Ctx) {
    s'.reject == s.reject && s'.bootArmed == s.bootArmed && s'.dbg == s.dbg && (s.wakelock == 1 ==> s'.wakelock == 1)
  }

  /** The clients are told of the shutdown and see the modem off; control is asked to stop it once
      nobody has to acknowledge. */
  predicate ShutsDown(s: Ctx, s': Ctx) {
    && Carries(s, s')
    && s'.modem == Off && s'.fake && s'.restart == s.restart && s'.reported == s.reported
    && s'.broadcasts == s.broadcasts + [Shutdown] + (if s.fake then [] else [Down])
    && (if s'.book.numShut == 0 then Asks(s, s', Stop, Stopping) else Goes(s, s', AckShut))
  }

  /** The clients are told of the cold reset and see the modem busy; control is asked to restart it
      once nobody has to acknowledge. */
  predicate StartsOver(s: Ctx, s': Ctx, kind: RestartKind) {
    && Carries(s, s')
    && s'.modem == Busy && s'.restart == kind && s'.reported == s.reported && kind != NoRestart
    && s'.broadcasts == s.broadcasts + (if s.modem == Busy then [] else [Down]) + [ColdReset]
    && (if s'.book.numCold == 0 then Asks(s, s', Restart(kind), Starting) else Goes(s, s', AckCold))
  }

  // ---------------------------------------------------------------- the building blocks

  lemma {:induction false} Broadcast(s: Ctx, e: Event, bad: Links)
    ensures var r := NotifyAll(s, e, bad);
            r.Ok? ==> r.ctx == s.(book := r.ctx.book, broadcasts := s.broadcasts + [e])
  {
    hide NotifyFrom;
  }

  /** The state an operation leads to, put in place. */
  function Placed(r: Operated): Ctx
    requires r.Ok? && r.ctx.1.Goto?
  {
    r.ctx.0.(fsm := r.ctx.1.state)
  }

  lemma {:induction false} AskShape(s: Ctx, r: Request, st: State)
    ensures AskThen(s, r, st).Ok? ==>
              AskThen(s, r, st).ctx.1.Goto? && Asks(s, Placed(AskThen(s, r, st)), r, st)
              && Placed(AskThen(s, r, st)) == s.(inProgress := true, requests := s.requests + [r], fsm := st)
    ensures AskThen(s, r, st).Ok? <==> !s.inProgress
  {
  }

  lemma {:induction false} RestartShape(s: Ctx, kind: RestartKind, dbg: bool)
    ensures RestartThen(s, kind, dbg).Ok? ==>
              RestartThen(s, kind, dbg).ctx.1.Goto? && Asks(s, Placed(RestartThen(s, kind, dbg)), Restart(kind), Starting)
              && Placed(RestartThen(s, kind, dbg)) == s.(inProgress := true, requests := s.requests + [Restart(kind)], fsm := Starting)
    ensures RestartThen(s, kind, dbg).Ok? <==> !s.inProgress && kind != NoRestart && (dbg ==> kind == ModemRestart)
  {
  }

  /** Waiting for acknowledgements takes the wakelock. */
  function Waits(s: Ctx, st: State): Ctx {
    s.(wakelock := if s.wakelock == 0 then 1 else s.wakelock, fsm := st)
  }

  lemma {:induction false} StopShape(s: Ctx)
    ensures StopOrWait(s).Ok? ==>
              StopOrWait(s).ctx.1.Goto? && (s.book.numShut == 0 ==> !s.inProgress)
              && Placed(StopOrWait(s)) == if s.book.numShut == 0 then s.(inProgress := true, requests := s.requests + [Stop], fsm := Stopping)
                                          else Waits(s, AckShut)
  {
    hide AskThen;
    AskShape(s, Stop, Stopping);
  }

  lemma {:induction false} ColdShape(s: Ctx)
    ensures RestartOrWait(s).Ok? ==>
              RestartOrWait(s).ctx.1.Goto? && (s.book.numCold == 0 ==> !s.inProgress && s.restart != NoRestart)
              && Placed(RestartOrWait(s)) == if s.book.numCold == 0 then s.(inProgress := true, requests := s.requests + [Restart(s.restart)], fsm := Starting)
                                             else Waits(s, AckCold)
  {
    hide RestartThen;
    RestartShape(s, s.restart, s.dbg);
  }

  /** Both procedures, up to the point where acknowledgements count: the clients are told, and see
      another state. */
  function ShutdownTold(s: Ctx, book: Book): Ctx {
    s.(book := book, broadcasts := s.broadcasts + [Shutdown] + (if s.fake then [] else [Down]), fake := true, modem := Off)
  }

  lemma {:induction false} ShutdownTells(s: Ctx, bad: Links) returns (book: Book)
    ensures StartShutdown(s, bad).Ok? ==> StartShutdown(s, bad) == StopOrWait(ShutdownTold(s, book))
  {
    hide NotifyAll, StopOrWait;
    book := s.book;
    Broadcast(s, Shutdown, bad);
    var r1 := NotifyAll(s, Shutdown, bad);
    if r1.Ok? {
      Broadcast(r1.ctx, Down, bad);
      var r2 := if r1.ctx.fake then r1 else NotifyAll(r1.ctx, Down, bad);
      if r2.Ok? {
        book := r2.ctx.book;
        assert s.broadcasts + [Shutdown] + [] == s.broadcasts + [Shutdown];
        assert r2.ctx.(fake := true, modem := Off) == ShutdownTold(s, book);
      }
    }
  }

  lemma {:induction false} ShutdownShape(s: Ctx, bad: Links)
    ensures StartShutdown(s, bad).Ok? ==>
              StartShutdown(s, bad).ctx.1.Goto? && ShutsDown(s, Placed(StartShutdown(s, bad)))
  {
    hide StartShutdown, StopOrWait;
    var book := ShutdownTells(s, bad);
    StopShape(ShutdownTold(s, book));
  }

  function OverTold(s: Ctx, book: Book, fake: bool): Ctx {
    s.(book := book, broadcasts := s.broadcasts + (if s.modem == Busy then [] else [Down]) + [ColdReset], fake := fake, modem := Busy)
  }

  lemma {:induction false} OverTells(s: Ctx, bad: Links) returns (book: Book, fake: bool)
    ensures StartRestart(s, bad).Ok? ==> StartRestart(s, bad) == RestartOrWait(OverTold(s, book, fake))
  {
    hide NotifyAll, RestartOrWait;
    book, fake := s.book, s.fake;
    Broadcast(s, Down, bad);
    var r1 := if s.modem == Busy then Ok(s) else FakeBusy(s, bad);
    if r1.Ok? {
      Broadcast(r1.ctx, ColdReset, bad);
      var r2 := NotifyAll(r1.ctx, ColdReset, bad);
      if r2.Ok? {
        book, fake := r2.ctx.book, r2.ctx.fake;
        assert s.broadcasts + [] + [ColdReset] == s.broadcasts + [ColdReset];
        assert r2.ctx == OverTold(s, book, fake);
      }
    }
  }

  lemma {:induction false} OverShape(s: Ctx, bad: Links)
    requires s.restart != NoRestart
    ensures StartRestart(s, bad).Ok? ==>
              StartRestart(s, bad).ctx.1.Goto? && StartsOver(s, Placed(StartRestart(s, bad)), s.restart)
  {
    hide StartRestart, RestartOrWait;
    var book, fake := OverTells(s, bad);
    ColdShape(OverTold(s, book, fake));
  }

  /** One event through the engine: the state its operation leads to, unless the cell forces one. */
  lemma {:induction false} EventShape(s: Ctx, t: Trigger, bad: Links)
    requires Table(t, s.fsm).forced == None && Notify(s, t, bad).Ok?
    ensures var r := Operate(s, Table(t, s.fsm).op, t, bad);
            r.Ok? && (r.ctx.1.Goto? ==> Notify(s, t, bad).ctx == Placed(r)) && (r.ctx.1.Stay? ==> Notify(s, t, bad).ctx == r.ctx.0.(fsm := s.fsm))
            && !r.ctx.1.Fail?
  {
    hide Operate, Table;
  }

  /** The operation of each of the four cells that decide what to do next. */
  lemma {:induction false} Decisions(s: Ctx, t: Trigger, bad: Links)
    ensures LooksDown(s.fsm, t) ==> Table(t, s.fsm).forced == None && Operate(s, Table(t, s.fsm).op, t, bad) == CheckDown(s)
    ensures LooksUp(s.fsm, t) ==> Table(t, s.fsm).forced == None && Operate(s, Table(t, s.fsm).op, t, bad) == CheckUp(s, bad)
    ensures t == CliAcked && s.fsm == AckCold ==> Table(t, s.fsm).forced == None && Operate(s, Table(t, s.fsm).op, t, bad) == ColdAcked(s, bad)
    ensures t == CliAcked && s.fsm == AckShut ==> Table(t, s.fsm).forced == None && Operate(s, Table(t, s.fsm).op, t, bad) == ShutAcked(s, bad)
  {
    hide CheckUp, CheckDown, ColdAcked, ShutAcked;
  }

  // ---------------------------------------------------------------- clients

  /** The last holder of a modem that is up has gone. */
  lemma {:induction false} Released(s: Ctx, bad: Links)
    requires s.fsm == StUp && Notify(s, CliRelease, bad).Ok?
    ensures ShutsDown(s, Notify(s, CliRelease, bad).ctx)
  {
    hide Notify, StartShutdown, ShutsDown;
    EventShape(s, CliRelease, bad);
    ShutdownShape(s, bad);
  }

  /** A restart, asked by a client, of a modem that is up. */
  lemma {:induction false} RestartAsked(s: Ctx, bad: Links)
    requires s.fsm == StUp && s.restart != NoRestart && Notify(s, CliRestart, bad).Ok?
    ensures StartsOver(s, Notify(s, CliRestart, bad).ctx, s.restart)
  {
    hide Notify, StartRestart, StartsOver;
    EventShape(s, CliRestart, bad);
    OverShape(s, bad);
  }

  /** The first holder of a modem that is off. */
  lemma {:induction false} Acquired(s: Ctx, bad: Links)
    requires s.fsm == StOff && Notify(s, CliAcquire, bad).Ok?
    ensures Notify(s, CliAcquire, bad).ctx == s.(inProgress := true, requests := s.requests + [Start], fsm := Starting)
    ensures !s.inProgress
  {
    hide Notify, AskThen;
    EventShape(s, CliAcquire, bad);
    AskShape(s, Start, Starting);
  }

  /** The states in which an event of the clients changes nothing. */
  predicate Ignores(st: State, t: Trigger) {
    match t
    case CliAcquire => st != StOff && st != StUp
    case CliRelease => st != StUp
    case CliRestart => st == Initial || st == Starting || st == AckShut
    case CliAcked => st == Initial
    case _ => false
  }

  lemma {:induction false} Ignored(s: Ctx, t: Trigger, bad: Links)
    requires Ignores(s.fsm, t) && Notify(s, t, bad).Ok?
    ensures Notify(s, t, bad).ctx == s
    ensures s.fsm == StOff ==> s.modem == Unresp
  {
    hide StartShutdown, StartRestart, CheckUp, CheckDown, ColdAcked, ShutAcked, AskThen;
  }

  // ---------------------------------------------------------------- acknowledgements

  /** Everybody has acknowledged the cold reset. */
  lemma {:induction false} ColdResetAcked(s: Ctx, bad: Links)
    requires s.fsm == AckCold && Notify(s, CliAcked, bad).Ok?
    ensures var s' := Notify(s, CliAcked, bad).ctx;
            if s.modem == Unresp then s' == s.(fsm := StOff)
            else if s.book.numAcquired == 0 then ShutsDown(s, s')
            else
              var kind := if s.restart == NoRestart then ModemRestart else s.restart;
              && s' == s.(inProgress := true, requests := s.requests + [Restart(kind)], fsm := Starting) && !s.inProgress
              && (s.restart == NoRestart ==> s.reported == Busy)
  {
    hide Notify, StartShutdown, RestartThen, ShutsDown, Operate, Table;
    Decisions(s, CliAcked, bad);
    EventShape(s, CliAcked, bad);
    ShutdownShape(s, bad);
    RestartShape(s, s.restart, s.dbg);
    RestartShape(s, ModemRestart, false);
  }

  /** Everybody has acknowledged the shutdown: the modem is stopped if nobody holds it; if somebody
      does again, it is restarted if that is asked, stopped first if it still runs, or restarted
      out of its busy state. */
  lemma {:induction false} ShutdownAcked(s: Ctx, bad: Links)
    requires s.fsm == AckShut && Notify(s, CliAcked, bad).Ok?
    ensures var s' := Notify(s, CliAcked, bad).ctx;
            if s.book.numAcquired == 0 || (s.restart == NoRestart && s.reported == Ready) then
              s' == s.(inProgress := true, requests := s.requests + [Stop], fsm := Stopping) && !s.inProgress
            else if s.restart != NoRestart then StartsOver(s, s', s.restart)
            else
              s.reported == Busy && !s.inProgress
              && s' == s.(fake := false, modem := Busy, inProgress := true, requests := s.requests + [Restart(ModemRestart)], fsm := Starting)
  {
    hide Notify, StartRestart, RestartThen, AskThen, StartsOver, Operate, Table;
    Decisions(s, CliAcked, bad);
    EventShape(s, CliAcked, bad);
    if s.book.numAcquired == 0 || (s.restart == NoRestart && s.reported == Ready) {
      AskShape(s, Stop, Stopping);
    } else if s.restart != NoRestart {
      OverShape(s, bad);
    } else {
      RestartShape(s.(fake := false, modem := s.reported), ModemRestart, false);
    }
  }

  // ---------------------------------------------------------------- modem and results

  /** The events after which a modem that is ready, or off, is looked at. */
  predicate LooksUp(st: State, t: Trigger) {
    (st == Initial && t == MdmReady) || (st == Starting && (t == MdmReady || t == Success))
  }

  predicate LooksDown(st: State, t: Trigger) {
    (st == Initial && t == MdmOff) || (st == Stopping && (t == MdmOff || t == Success))
  }

  /** A modem that came up: stopped if nobody holds it, restarted if that is pending, else up. */
  lemma {:induction false} CameUp(s: Ctx, t: Trigger, bad: Links)
    requires LooksUp(s.fsm, t) && Notify(s, t, bad).Ok?
    ensures var s' := Notify(s, t, bad).ctx;
            if s.inProgress || s.modem != Ready then s' == s
            else if s.book.numAcquired == 0 then ShutsDown(s, s')
            else if s.restart != NoRestart then StartsOver(s, s', s.restart)
            else s' == s.(fsm := StUp)
  {
    hide Notify, CheckUp, ShutsDown, StartsOver, Operate, Table;
    Decisions(s, t, bad);
    EventShape(s, t, bad);
    UpShape(s, bad);
  }

  lemma {:induction false} UpShape(s: Ctx, bad: Links)
    requires CheckUp(s, bad).Ok?
    ensures if s.inProgress || s.modem != Ready then CheckUp(s, bad) == Ok((s, Stay))
            else
              && CheckUp(s, bad).ctx.1.Goto?
              && if s.book.numAcquired == 0 then ShutsDown(s, Placed(CheckUp(s, bad)))
                 else if s.restart != NoRestart then StartsOver(s, Placed(CheckUp(s, bad)), s.restart)
                 else Placed(CheckUp(s, bad)) == s.(fsm := StUp)
  {
    hide StartShutdown, StartRestart, ShutsDown, StartsOver;
    if s.book.numAcquired == 0 {
      ShutdownShape(s, bad);
    } else if s.restart != NoRestart {
      OverShape(s, bad);
    }
  }

  /** A modem that went off: started if somebody holds it, else off. */
  lemma {:induction false} WentOff(s: Ctx, t: Trigger, bad: Links)
    requires LooksDown(s.fsm, t) && Notify(s, t, bad).Ok?
    ensures var s' := Notify(s, t, bad).ctx;
            if s.inProgress || s.modem != Off then s' == s
            else if s.book.numAcquired > 0 then s' == s.(inProgress := true, requests := s.requests + [Start], fsm := Starting)
            else s' == s.(fsm := StOff)
  {
    hide Notify, CheckDown, Operate, Table;
    Decisions(s, t, bad);
    EventShape(s, t, bad);
    DownShape(s);
  }

  lemma {:induction false} DownShape(s: Ctx)
    ensures CheckDown(s).Ok?
    ensures if s.inProgress || s.modem != Off then CheckDown(s) == Ok((s, Stay))
            else
              CheckDown(s).ctx.1.Goto?
              && Placed(CheckDown(s)) == if s.book.numAcquired > 0 then s.(inProgress := true, requests := s.requests + [Start], fsm := Starting)
                                         else s.(fsm := StOff)
  {
    hide AskThen;
    AskShape(s, Start, Starting);
  }

  /** A modem that is busy while it is up is restarted. */
  lemma {:induction false} BecameBusy(s: Ctx, bad: Links)
    requires Notify(s, MdmBusy, bad).Ok?
    ensures if s.fsm == StUp then StartsOver(s, Notify(s, MdmBusy, bad).ctx, ModemRestart)
            else Notify(s, MdmBusy, bad).ctx == s
  {
    hide Notify, StartRestart, StartShutdown, CheckUp, CheckDown, ColdAcked, ShutAcked, AskThen;
    EventShape(s, MdmBusy, bad);
    OverShape(s.(restart := ModemRestart), bad);
  }

  /** An unresponsive modem is off; acknowledgements and a stop under way are waited for. */
  lemma {:induction false} BecameUnresponsive(s: Ctx, bad: Links)
    requires Notify(s, MdmUnresp, bad).Ok?
    ensures Notify(s, MdmUnresp, bad).ctx == s.(fsm := if s.fsm == AckCold || s.fsm == Stopping then s.fsm else StOff)
    ensures s.fsm == StOff || s.fsm == Starting || s.fsm == AckCold || s.fsm == Stopping
  {
    hide StartShutdown, StartRestart, CheckUp, CheckDown, ColdAcked, ShutAcked, AskThen;
  }

  /** A failure is expected of a stop, or of a modem that is unresponsive. */
  lemma {:induction false} Failed(s: Ctx, bad: Links)
    requires Notify(s, Failure, bad).Ok?
    ensures Notify(s, Failure, bad).ctx == s.(fsm := StOff)
    ensures s.fsm == Stopping || (s.fsm == StOff && s.modem == Unresp)
  {
    hide StartShutdown, StartRestart, CheckUp, CheckDown, ColdAcked, ShutAcked, AskThen;
  }

  // ---------------------------------------------------------------- the cells left

  /** The events that each state expects; all others stop the process. */
  predicate Expects(st: State, t: Trigger) {
    match t
    case Success => st == Starting || st == Stopping
    case Failure => st == StOff || st == Stopping
    case MdmOff => st == Initial || st == Stopping
    case MdmUnresp => st == StOff || st == Starting || st == AckCold || st == Stopping
    case MdmBusy => st != Initial && st != StOff
    case MdmReady => st == Initial || st == Starting
    case CliAcquire => st != StUp
    case CliRelease => true
    case CliRestart => st == StUp || st == Initial || st == Starting || st == AckShut
    case CliAcked => st == Initial || st == AckCold || st == AckShut
  }

  lemma {:induction false} Unexpected(s: Ctx, t: Trigger, bad: Links)
    ensures !Expects(s.fsm, t) <==> Notify(s, t, bad) == Abort(AtCell(t, s.fsm))
  {
    hide Operate;
    OpNotAtCell(s, Table(t, s.fsm).op, t, bad);
  }

  lemma {:induction false} ShutdownNotAtCell(s: Ctx, bad: Links)
    ensures StartShutdown(s, bad).Abort? ==> !StartShutdown(s, bad).why.AtCell?
  {
    hide NotifyAll;
    ClaLimits.AllAborts(s, Shutdown, bad);
    var r := NotifyAll(s, Shutdown, bad);
    if r.Ok? {
      ClaLimits.AllAborts(r.ctx, Down, bad);
    }
  }

  lemma {:induction false} OpNotAtCell(s: Ctx, op: Op, t: Trigger, bad: Links)
    ensures Operate(s, op, t, bad) == Abort(AtCell(t, s.fsm)) <==> op == Assert
  {
    hide StartShutdown, StartRestart;
    ShutdownNotAtCell(s, bad);
    ClaLimits.RestartNeverAtCell(s, bad);
    ClaLimits.RestartNeverAtCell(s.(restart := ModemRestart), bad);
  }
}
