/**
 What client abstraction makes of its inputs: acknowledgements, restarts, modem states, the end of
 a turn and a time-out, each seen from outside.
 */
module ClaTurns {
  import opened Common
  import opened Fsm
  import opened Cla
  import opened ClaBook
  import opened ClaRuns
  import opened ClaOutcomes
  import ClaInvariant

  // ---------------------------------------------------------------- acknowledgements

  /** Only the acknowledgement of what is awaited counts, from the client it is awaited of, and it
      counts once; nothing else of the client changes. */
  lemma {:induction false} AckCounts(s: Ctx, k: nat, m: ClientMsg, bad: Links)
    requires BookOk(s.book) && k < |s.book.clients| && k !in s.book.toClean && s.book.clients[k].registered
    requires m == AckColdReset || m == AckShutdown
    ensures var r := HandleClientMsg(s, k, m, bad);
            var c := s.book.clients[k];
            && r.Ok? && r.ctx == s.(book := r.ctx.book) && r.ctx.book.toClean == s.book.toClean && r.ctx.book.numAcquired == s.book.numAcquired
            && r.ctx.book.clients == s.book.clients[k := if m == AckColdReset then c.(waitCold := false) else c.(waitShut := false)]
            && r.ctx.book.numCold == s.book.numCold - Bit(m == AckColdReset && c.waitCold)
            && r.ctx.book.numShut == s.book.numShut - Bit(m == AckShutdown && c.waitShut)
  {
    hide HandleClientMsg, HandleSlotMsg, BookOk;
    SlotHandled(s, k, m, bad);
    AckSlot(s.book, k, m, s.reject);
  }

  lemma {:induction false} SlotHandled(s: Ctx, k: nat, m: ClientMsg, bad: Links)
    requires k < |s.book.clients| && k !in s.book.toClean && s.book.clients[k].registered
    requires m == AckColdReset || m == AckShutdown || m == Acquire || m == Release
    ensures HandleClientMsg(s, k, m, bad) == WithBook(s, HandleSlotMsg(s.book, k, m, s.reject))
  {
    hide Notify, NotifyAll, HandleRestart, HandleRegister, HandleSlotMsg, Unregister, WithBook;
  }

  lemma {:induction false} AckSlot(b: Book, k: nat, m: ClientMsg, reject: bool)
    requires BookOk(b) && k < |b.clients| && (m == AckColdReset || m == AckShutdown)
    ensures var r := HandleSlotMsg(b, k, m, reject);
            var c := b.clients[k];
            && r.Ok? && r.ctx.toClean == b.toClean && r.ctx.numAcquired == b.numAcquired
            && r.ctx.clients == b.clients[k := if m == AckColdReset then c.(waitCold := false) else c.(waitShut := false)]
            && r.ctx.numCold == b.numCold - Bit(m == AckColdReset && c.waitCold)
            && r.ctx.numShut == b.numShut - Bit(m == AckShutdown && c.waitShut)
  {
    hide Num;
    var c := b.clients[k];
    if m == AckColdReset {
      if c.waitCold {
        NumIn(b.clients, k, IsCold);
      } else {
        assert c.(waitCold := false) == c;
      }
    } else {
      if c.waitShut {
        NumIn(b.clients, k, IsShut);
      } else {
        assert c.(waitShut := false) == c;
      }
    }
  }

  /** Acquisitions and releases, taken or rejected. */
  lemma {:induction false} HoldCounts(s: Ctx, k: nat, m: ClientMsg, bad: Links)
    requires k < |s.book.clients| && k !in s.book.toClean && s.book.clients[k].registered && (m == Acquire || m == Release)
    requires HandleClientMsg(s, k, m, bad).Ok?
    ensures var s' := HandleClientMsg(s, k, m, bad).ctx;
            var c := s.book.clients[k];
            && s' == s.(book := s'.book) && s'.book.toClean == s.book.toClean && s'.book.numCold == s.book.numCold && s'.book.numShut == s.book.numShut
            && s'.book.clients == s.book.clients[k := if s.reject then c else c.(acquired := m == Acquire)]
            && s'.book.numAcquired == s.book.numAcquired + (if s.reject || c.acquired == (m == Acquire) then 0 else if m == Acquire then 1 else -1)
  {
    hide Num, Notify, NotifyAll, HandleRestart, HandleRegister, Unregister;
    var c := s.book.clients[k];
    assert c.acquired == (m == Acquire) ==> c.(acquired := m == Acquire) == c;
  }

  // ---------------------------------------------------------------- the end of a turn

  /** What a turn leads to, from what it changed: the machine goes on once the last awaited client
      is done with, and hears of the first holder and of the last one gone; nothing else moves it. */
  lemma {:induction false} TurnSummed(l: Loop, bad: Links, base: nat)
    requires Inv(l, base) && l.phase.Iter? && FinishTurn(l.ctx, l.phase, bad).Ok?
    ensures var s, s' := l.ctx, FinishTurn(l.ctx, l.phase, bad).ctx;
            var acked := l.phase.waiting && s.book.numCold == 0 && s.book.numShut == 0;
            var gone, come := l.phase.acquired && s.book.numAcquired == 0, !l.phase.acquired && s.book.numAcquired != 0;
            && (acked ==> s.fsm == AckCold || s.fsm == AckShut)
            && (acked && s.fsm == AckCold ==> s'.fsm != AckCold)
            && (acked && s.fsm == AckShut ==> s'.fsm != AckShut)
            && (acked && gone ==> s'.restart == NoRestart)
            && (!acked && gone && s.fsm == StUp ==> ShutsDown(s, s'))
            && (!acked && come && s.fsm == StOff ==> s' == s.(inProgress := true, requests := s.requests + [Start], fsm := Starting))
            && (!acked && !(gone && s.fsm == StUp) && !(come && s.fsm == StOff) ==> s' == s)
  {
    hide ClaInvariant.Core, MarkedIdle, Surplus, Notify, ShutsDown;
    var s := l.ctx;
    NonNegative(s);
    var acked := l.phase.waiting && !Waiting(s.book);
    if l.phase.acquired && s.book.numAcquired == 0 {
      if acked {
        AckedLeaves(s.(restart := NoRestart), bad);
      } else if s.fsm == StUp {
        Released(s, bad);
      } else {
        Ignored(s, CliRelease, bad);
      }
    } else if !l.phase.acquired && s.book.numAcquired != 0 {
      if s.fsm == StOff {
        Acquired(s, bad);
      } else {
        Unexpected(s, CliAcquire, bad);
        Ignored(s, CliAcquire, bad);
      }
    } else if acked {
      AckedLeaves(s, bad);
    }
  }

  lemma {:induction false} AckedLeaves(s: Ctx, bad: Links)
    requires (s.fsm == AckCold || s.fsm == AckShut) && Notify(s, CliAcked, bad).Ok?
    ensures var s' := Notify(s, CliAcked, bad).ctx;
            s'.fsm != s.fsm && s'.restart == s.restart
  {
    hide Notify;
    if s.fsm == AckCold {
      ColdResetAcked(s, bad);
    } else {
      ShutdownAcked(s, bad);
    }
  }

  /** The last acknowledgement: a turn about the only client that is awaited, and the machine is out
      of its waiting state. */
  lemma {:induction false} LastAckMoves(l: Loop, k: nat, m: ClientMsg, bad: Links, base: nat)
    requires Inv(l, base) && l.phase == Scan && k < |l.ctx.book.clients| && k !in l.ctx.book.toClean && l.ctx.book.clients[k].registered
    requires (m == AckColdReset && l.ctx.fsm == AckCold && l.ctx.book.clients[k].waitCold && l.ctx.book.numCold == 1)
             || (m == AckShutdown && l.ctx.fsm == AckShut && l.ctx.book.clients[k].waitShut && l.ctx.book.numShut == 1)
    ensures var s := HandleClientMsg(l.ctx, k, m, bad);
            var p := Iter(l.ctx.book.numAcquired != 0, true, Source.Served);
            && s.Ok? && s.ctx.fsm == l.ctx.fsm
            && (FinishTurn(s.ctx, p, bad).Ok? ==> FinishTurn(s.ctx, p, bad).ctx.fsm != l.ctx.fsm)
  {
    hide HandleClientMsg, Inv, FinishTurn;
    OtherCount(l, base);
    AckCounts(l.ctx, k, m, bad);
    var s := HandleClientMsg(l.ctx, k, m, bad).ctx;
    var p := Iter(l.ctx.book.numAcquired != 0, true, Source.Served);
    if FinishTurn(s, p, bad).Ok? {
      NobodyAwaited(s, p, bad);
    }
  }

  lemma {:induction false} NobodyAwaited(s: Ctx, p: Phase, bad: Links)
    requires p.Iter? && p.waiting && s.book.numCold == 0 && s.book.numShut == 0 && (s.fsm == AckCold || s.fsm == AckShut)
    requires p.acquired == (s.book.numAcquired != 0) && FinishTurn(s, p, bad).Ok?
    ensures FinishTurn(s, p, bad).ctx.fsm != s.fsm
  {
    hide Notify;
    AckedLeaves(s, bad);
  }

  lemma {:induction false} OtherCount(l: Loop, base: nat)
    requires Inv(l, base)
    ensures BookOk(l.ctx.book) && l.ctx.book.numAcquired >= 0
    ensures l.ctx.fsm == AckCold ==> l.ctx.book.numShut == 0
    ensures l.ctx.fsm == AckShut ==> l.ctx.book.numCold == 0
  {
    hide ClaInvariant.LogOk, Agrees, Surplus, MarkedIdle;
  }

  // ---------------------------------------------------------------- restarts

  /** A restart that a client asks for: the cause says which kind is pending. It is ignored while
      another is pending, while the modem is not ready, or once requests are rejected. */
  lemma {:induction false} RestartTaken(s: Ctx, k: nat, cause: Cause, dbg: bool, bad: Links)
    requires k < |s.book.clients| && k !in s.book.toClean && s.book.clients[k].registered
    requires HandleClientMsg(s, k, AskRestart(cause, dbg), bad).Ok?
    ensures var s' := HandleClientMsg(s, k, AskRestart(cause, dbg), bad).ctx;
            var kind := if cause == MdmErr then ModemRestart else ModemUpdate;
            if s.restart != NoRestart || s.reported != Ready || s.reject then s' == s
            else
              && cause != BadCause
              && (s.fsm == StUp ==> StartsOver(s.(restart := kind, dbg := dbg), s', kind))
              && (s.fsm != StUp ==> s' == s.(restart := kind, dbg := dbg))
  {
    hide Notify, NotifyAll, StartsOver;
    if !(s.restart != NoRestart || s.reported != Ready || s.reject) {
      var kind := if cause == MdmErr then ModemRestart else ModemUpdate;
      RestartHeard(s.(restart := kind, dbg := dbg), bad);
    }
  }

  lemma {:induction false} BackupTaken(s: Ctx, k: nat, bad: Links)
    requires k < |s.book.clients| && k !in s.book.toClean && s.book.clients[k].registered
    requires HandleClientMsg(s, k, AskBackup, bad).Ok?
    ensures var s' := HandleClientMsg(s, k, AskBackup, bad).ctx;
            if s.fsm == StUp then StartsOver(s.(restart := BackupNvm), s', BackupNvm) else s' == s.(restart := BackupNvm)
  {
    hide Notify, NotifyAll, StartsOver;
    RestartHeard(s.(restart := BackupNvm), bad);
  }

  lemma {:induction false} RestartHeard(s: Ctx, bad: Links)
    requires s.restart != NoRestart
    ensures var r := Notify(s, CliRestart, bad);
            r.Ok? ==> if s.fsm == StUp then StartsOver(s, r.ctx, s.restart) else r.ctx == s
  {
    hide Notify, StartsOver;
    if Notify(s, CliRestart, bad).Ok? {
      if s.fsm == StUp {
        RestartAsked(s, bad);
      } else {
        Unexpected(s, CliRestart, bad);
        Ignored(s, CliRestart, bad);
      }
    }
  }

  // ---------------------------------------------------------------- modem states

  /** A modem state from control is recorded whatever is shown: it ends a pending restart if the
      modem is ready or off, and requests for good if it is gone; a busy modem that was up starts
      one. */
  lemma {:induction false} StateRecorded(s: Ctx, mdm: Mdm, bad: Links)
    requires mdm != Unknown && HandleModemState(s, mdm, bad).Ok?
    ensures var s' := HandleModemState(s, mdm, bad).ctx;
            && s'.reported == (if mdm == PlatformReboot then Unresp else mdm)
            && (mdm == Ready || mdm == Off ==> s'.restart == NoRestart)
            && (mdm == Unresp || mdm == PlatformReboot ==> s'.reject && s'.modem == Unresp && s'.restart == s.restart)
            && (mdm == Busy ==> s'.restart == if s.fsm == StUp && !s.fake && s.modem != Busy then ModemRestart else s.restart)
            && s.modem != Unresp
  {
    hide ChangeState, Record, Recorded;
    var silent := mdm == PlatformReboot;
    var m := if silent then Unresp else mdm;
    var s1 := Record(s, m, silent);
    RecordFields(s, m, silent);
    if !(s.fake && m != Unresp) && s.modem != m && s.modem != Unresp {
      ChangeRecorded(s1.(fake := false), m, silent, bad);
      RecordedFields(s1.(fake := false), ChangeState(s1.(fake := false), m, silent, bad).ctx, m);
    }
  }

  lemma {:induction false} RecordFields(s: Ctx, m: Mdm, silent: bool)
    ensures var s1 := Record(s, m, silent);
            && s1.reported == m && s1.modem == s.modem && s1.fake == s.fake && s1.fsm == s.fsm
            && s1.restart == (if m == Ready || m == Off then NoRestart else s.restart)
            && s1.reject == (s.reject || m == Unresp)
  {
  }

  lemma {:induction false} RecordedFields(s: Ctx, s': Ctx, m: Mdm)
    requires Recorded(s, s', m)
    ensures s'.reported == s.reported && s'.reject == s.reject && (m == Unresp ==> s'.modem == Unresp)
    ensures s'.restart == if m == Busy && s.fsm == StUp then ModemRestart else s.restart
  {
  }

  predicate Recorded(s: Ctx, s': Ctx, m: Mdm) {
    && s'.reported == s.reported && s'.reject == s.reject
    && s'.restart == (if m == Busy && s.fsm == StUp then ModemRestart else s.restart)
    && (m == Unresp ==> s'.modem == Unresp)
  }

  lemma {:induction false} ChangeRecorded(s: Ctx, m: Mdm, silent: bool, bad: Links)
    requires (m == Off || m == Unresp || m == Busy || m == Ready) && (m == Off || m == Ready ==> s.restart == NoRestart)
    requires ChangeState(s, m, silent, bad).Ok?
    ensures Recorded(s, ChangeState(s, m, silent, bad).ctx, m)
  {
    hide Notify, ChangeState, TriggerOf, Recorded;
    var s1 := ChangeTells(s, m, silent, bad);
    HeardRecorded(s1, bad);
    RecordedOf(s, s1, Notify(s1, TriggerOf(m), bad).ctx, m);
  }

  lemma {:induction false} ChangeTells(s: Ctx, m: Mdm, silent: bool, bad: Links) returns (s1: Ctx)
    requires (m == Off || m == Unresp || m == Busy || m == Ready) && ChangeState(s, m, silent, bad).Ok?
    ensures Alike(s, s1) && s1.modem == m
    ensures ChangeState(s, m, silent, bad) == Notify(s1, TriggerOf(m), bad)
  {
    hide Notify, NotifyAll, ChangeState, ToEvent, TriggerOf, Alike;
    ChangeUnfolds(s, m, silent, bad);
    AlikeTold(s, m, s);
    s1 := s.(modem := m);
    if !silent && (s.modem == Unknown || ToEvent(m) != ToEvent(s.modem)) {
      Broadcast(s, ToEvent(m), bad);
      var s0 := NotifyAll(s, ToEvent(m), bad).ctx;
      AlikeTold(s, m, s0);
      s1 := s0.(modem := m);
    }
  }

  predicate Alike(s: Ctx, s1: Ctx) {
    s1.reported == s.reported && s1.reject == s.reject && s1.restart == s.restart && s1.fsm == s.fsm
  }

  lemma {:induction false} AlikeTold(s: Ctx, m: Mdm, s0: Ctx)
    requires s0 == s.(book := s0.book, broadcasts := s0.broadcasts)
    ensures Alike(s, s0.(modem := m))
  {
  }

  lemma {:induction false} RecordedOf(s: Ctx, s1: Ctx, s': Ctx, m: Mdm)
    requires Recorded(s1, s', m) && Alike(s, s1)
    ensures Recorded(s, s', m)
  {
  }

  lemma {:induction false} HeardRecorded(s: Ctx, bad: Links)
    requires (s.modem == Off || s.modem == Unresp || s.modem == Busy || s.modem == Ready)
    requires s.modem == Off || s.modem == Ready ==> s.restart == NoRestart
    requires Notify(s, TriggerOf(s.modem), bad).Ok?
    ensures Recorded(s, Notify(s, TriggerOf(s.modem), bad).ctx, s.modem)
  {
    hide Notify;
    var t := TriggerOf(s.modem);
    Unexpected(s, t, bad);
    match s.modem
    case Off => WentOff(s, t, bad);
    case Ready => CameUp(s, t, bad);
    case Busy => BecameBusy(s, bad);
    case _ => BecameUnresponsive(s, bad);
  }

  // ---------------------------------------------------------------- time-outs and the wakelock

  /** After a time-out: a boot timer that is over is disarmed, a round of acknowledgements that is
      over is given up, and the wakelock is kept exactly if a timer still runs. */
  lemma {:induction false} TimeoutServed(l: Loop, bootLeft: nat, bad: Links, base: nat)
    requires Inv(l, base) && l.phase.Polling? && l.phase.timeout != -1 && HandleTimeout(l.ctx, l.phase, bootLeft, bad).Ok?
    ensures var s, s' := l.ctx, HandleTimeout(l.ctx, l.phase, bootLeft, bad).ctx;
            && s'.bootArmed == (if l.phase.boot then bootLeft > 0 else s.bootArmed)
            && (l.phase.ack ==> s'.fsm != s.fsm)
            && (!l.phase.ack ==> s' == s.(bootArmed := s'.bootArmed, wakelock := s'.wakelock))
            && (s'.wakelock == 1 <==> s'.bootArmed || Waiting(s'.book))
  {
    hide Inv, ElapseAck;
    TimerOwned(l, base);
    var s1 := if l.phase.boot then l.ctx.(bootArmed := bootLeft > 0) else l.ctx;
    Due(l, base);
    ElapseServed(s1, l.phase.ack, bad);
  }

  lemma {:induction false} Due(l: Loop, base: nat)
    requires Inv(l, base) && l.phase.Polling?
    ensures l.phase.ack ==> l.ctx.fsm == AckCold || l.ctx.fsm == AckShut
  {
    hide Agrees, ClaInvariant.LogOk, Surplus;
  }

  lemma {:induction false} ElapseServed(s: Ctx, ack: bool, bad: Links)
    requires s.wakelock == 1 && (ack ==> s.fsm == AckCold || s.fsm == AckShut) && ElapseAck(s, ack, bad).Ok?
    ensures var s' := ElapseAck(s, ack, bad).ctx;
            && s'.bootArmed == s.bootArmed
            && (ack ==> s'.fsm != s.fsm) && (!ack ==> s' == s.(wakelock := s'.wakelock))
            && (s'.wakelock == 1 <==> s'.bootArmed || Waiting(s'.book))
  {
    hide Notify, ClearAcks;
    if ack {
      var s0 := s.(book := ClearAcks(s.book));
      AckedLeaves(s0, bad);
      AckedTimers(s0, bad);
    }
  }

  lemma {:induction false} AckedTimers(s: Ctx, bad: Links)
    requires (s.fsm == AckCold || s.fsm == AckShut) && s.wakelock == 1 && Notify(s, CliAcked, bad).Ok?
    ensures var s' := Notify(s, CliAcked, bad).ctx;
            s'.wakelock == 1 && s'.bootArmed == s.bootArmed
  {
    hide Notify;
    if s.fsm == AckCold {
      ColdResetAcked(s, bad);
    } else {
      ShutdownAcked(s, bad);
    }
  }

  /** While the loop polls, in every run, the wakelock is held exactly if a timer runs. */
  predicate Exact(l: Loop) {
    l.phase.Polling? ==> (l.ctx.wakelock == 1 <==> l.ctx.bootArmed || Waiting(l.ctx.book))
  }

  lemma {:induction false} PollExact(l: Loop, i: Input, bad: Links, base: nat)
    requires Inv(l, base) && Enabled(l, i) && Step(l, i, bad).Ok?
    ensures Exact(Step(l, i, bad).ctx)
  {
    hide HandleControlMsg, HandleClientMsg, HandleTimeout, FinishTurn, Unregister, WithBook, Unmarked, Agrees, ClaInvariant.LogOk, Surplus;
  }

  lemma {:induction false} WakelockExact(sanity: bool, fmmo: bool, script: Script, l: Loop)
    requires Reaches(Boot(sanity, fmmo), script, l) && l.phase.Polling?
    ensures l.ctx.wakelock == 1 <==> l.ctx.bootArmed || l.ctx.book.numCold != 0 || l.ctx.book.numShut != 0
  {
    hide Inv, Step, Enabled;
    BootInv(sanity, fmmo);
    RunExact(Boot(sanity, fmmo), script, l, BootBase(fmmo));
  }

  lemma {:induction false} RunExact(l: Loop, script: Script, l': Loop, base: nat)
    requires Inv(l, base) && Exact(l) && Reaches(l, script, l')
    ensures Exact(l')
    decreases |script|
  {
    hide Inv, Exact, Step, Enabled;
    if script != [] {
      StepKeeps(l, script[0].0, script[0].1, base);
      PollExact(l, script[0].0, script[0].1, base);
      RunExact(Step(l, script[0].0, script[0].1).ctx, script[1..], l', base);
    }
  }
}
