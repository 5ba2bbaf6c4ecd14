/**
 Where client abstraction stops: for three of its assertions, exactly which requests meet
 them.
 */
module ClaLimits {
  import opened Common
  import opened Fsm
  import opened Cla
  import opened ClaBook
  import opened ClaInvariant
  import opened ClaRuns
  import ClaFrame

  /** After a SHUTDOWN request, in every later state of every run: requests are rejected and the
      acquisition counter is 0, and the removal of a client that is not marked yet stops the
      process exactly if its slot still holds the modem. */
  lemma {:induction false} LossAfterShutdown(sanity: bool, fmmo: bool, script: Script, l: Loop, i: nat)
    requires Reaches(Boot(sanity, fmmo), script, l) && l.ctx.shutdownSeen
    requires i < |l.ctx.book.clients| && i !in l.ctx.book.toClean
    ensures l.ctx.reject && l.ctx.book.numAcquired == 0
    ensures Unregister(l.ctx.book, i) == Abort(NegativeAcquired) <==> l.ctx.book.clients[i].acquired
    ensures Unregister(l.ctx.book, i).Ok? <==> !l.ctx.book.clients[i].acquired
  {
    hide Step, Enabled, Inv;
    ClaFrame.RunSettled(Boot(sanity, fmmo), script, l);
    NoForbiddenStop(sanity, fmmo, script, l);
    FlagsCounted(l, i, BootBase(fmmo));
  }

  lemma {:induction false} FlagsCounted(l: Loop, i: nat, base: nat)
    requires Inv(l, base) && i < |l.ctx.book.clients|
    ensures l.ctx.book.clients[i].acquired ==> l.ctx.book.clients[i].registered
    ensures l.ctx.book.clients[i].waitCold ==> l.ctx.book.numCold > 0
    ensures l.ctx.book.clients[i].waitShut ==> l.ctx.book.numShut > 0
  {
    hide Num, UpAfterDown, Last;
    OneCounts(l.ctx.book.clients, i, IsCold);
    OneCounts(l.ctx.book.clients, i, IsShut);
  }

  lemma {:induction false} OneCounts(cs: seq<Client>, i: nat, f: Client -> bool)
    requires i < |cs|
    ensures f(cs[i]) ==> Num(cs, f) > 0
  {
    if i > 0 {
      OneCounts(cs[1..], i - 1, f);
    }
  }

  /** So the loss of its socket stops the process exactly if the client held the modem. */
  lemma {:induction false} SocketLostAfterShutdown(sanity: bool, fmmo: bool, script: Script, l: Loop, i: nat, bad: Links)
    requires Reaches(Boot(sanity, fmmo), script, l) && l.ctx.shutdownSeen
    requires Enabled(l, Lost(i)) && i !in l.ctx.book.toClean
    ensures Step(l, Lost(i), bad) == Abort(NegativeAcquired) <==> l.ctx.book.clients[i].acquired
    ensures Step(l, Lost(i), bad).Ok? <==> !l.ctx.book.clients[i].acquired
  {
    hide Reaches, Unregister;
    LossAfterShutdown(sanity, fmmo, script, l, i);
  }

  /** A NVM_BACKUP request is passed to the machine whatever its state: it stops the process
      exactly in OFF, WAITING_COLD and STOPPING. */
  lemma {:induction false} BackupMeetsAssertion(s: Ctx, i: nat, bad: Links)
    requires i < |s.book.clients| && i !in s.book.toClean && s.book.clients[i].registered
    ensures (exists t, st :: HandleClientMsg(s, i, AskBackup, bad) == Abort(AtCell(t, st)))
            <==> s.fsm == StOff || s.fsm == AckCold || s.fsm == Stopping
  {
    hide StartRestart;
    var s1 := s.(restart := BackupNvm);
    assert HandleClientMsg(s, i, AskBackup, bad) == Notify(s1, CliRestart, bad);
    if s.fsm == StUp {
      RestartNeverAtCell(s1, bad);
    }
  }

  lemma {:induction false} BroadcastAborts(b: Book, e: Event, bad: Links, i: nat)
    requires i <= |b.clients|
    ensures var r := NotifyFrom(b, e, bad, i);
            r.Abort? ==> !r.why.AtCell? && r.why != FakeState
    decreases |b.clients| - i
  {
    hide NotifySingle;
    if i < |b.clients| {
      if i in b.toClean {
        BroadcastAborts(b, e, bad, i + 1);
      } else {
        SingleAborts(b, i, e, bad(e, i));
        var r := NotifySingle(b, i, e, bad(e, i));
        if r.Ok? {
          BroadcastAborts(r.ctx, e, bad, i + 1);
        }
      }
    }
  }

  lemma {:induction false} SingleAborts(b: Book, i: nat, e: Event, failed: bool)
    requires i < |b.clients|
    ensures var r := NotifySingle(b, i, e, failed);
            r.Abort? ==> !r.why.AtCell? && r.why != FakeState
  {
  }

  lemma {:induction false} AllAborts(s: Ctx, e: Event, bad: Links)
    ensures var r := NotifyAll(s, e, bad);
            r.Abort? ==> !r.why.AtCell? && r.why != FakeState
  {
    hide NotifyFrom;
    BroadcastAborts(s.book, e, bad, 0);
  }

  lemma {:induction false} RestartNeverAtCell(s: Ctx, bad: Links)
    ensures var r := StartRestart(s, bad);
            r.Abort? ==> !r.why.AtCell?
  {
    hide NotifyAll;
    AllAborts(s, Down, bad);
    var r1 := if s.modem == Busy then Ok(s) else FakeBusy(s, bad);
    if r1.Ok? {
      AllAborts(r1.ctx, ColdReset, bad);
    }
  }

  /** The restart procedure meets its assertion on the fake state exactly when it starts from a
      faked state other than BUSY (and its broadcast goes through). */
  lemma {:induction false} RestartMeetsFake(s: Ctx, bad: Links)
    ensures StartRestart(s, bad) == Abort(FakeState) <==> s.modem != Busy && s.fake && NotifyAll(s, Down, bad).Ok?
  {
    hide NotifyAll;
    AllAborts(s, Down, bad);
    var r1 := if s.modem == Busy then Ok(s) else FakeBusy(s, bad);
    if r1.Ok? {
      AllAborts(r1.ctx, ColdReset, bad);
    }
    FakeKept(s, bad);
  }

  lemma {:induction false} FakeKept(s: Ctx, bad: Links)
    ensures NotifyAll(s, Down, bad).Ok? ==> NotifyAll(s, Down, bad).ctx.fake == s.fake
  {
    hide NotifyFrom;
  }

  /** So the acknowledgement of a shutdown meets it exactly when a restart was asked meanwhile,
      somebody holds the modem again and the state is still a faked OFF. */
  lemma {:induction false} RestartDuringShutdown(s: Ctx, bad: Links)
    requires s.fsm == AckShut
    ensures Notify(s, CliAcked, bad) == Abort(FakeState)
            <==> s.book.numAcquired != 0 && s.restart != NoRestart && s.modem != Busy && s.fake && NotifyAll(s, Down, bad).Ok?
  {
    hide NotifyAll, StartRestart;
    RestartMeetsFake(s, bad);
  }

  /** In every run, until a SHUTDOWN request the broadcast always goes through: what remains is a
      condition on the state alone. */
  lemma {:induction false} AckMeetsFake(sanity: bool, fmmo: bool, script: Script, l: Loop, bad: Links)
    requires Reaches(Boot(sanity, fmmo), script, l) && !l.ctx.shutdownSeen && l.ctx.fsm == AckShut
    ensures Notify(l.ctx, CliAcked, bad) == Abort(FakeState)
            <==> l.ctx.book.numAcquired != 0 && l.ctx.restart != NoRestart && l.ctx.modem == Off && l.ctx.fake
  {
    hide Step, Enabled, Inv, Notify, NotifyAll;
    RestartDuringShutdown(l.ctx, bad);
    NoForbiddenStop(sanity, fmmo, script, l);
    DownGoesThrough(l, BootBase(fmmo), bad);
  }

  lemma {:induction false} DownGoesThrough(l: Loop, base: nat, bad: Links)
    requires Inv(l, base) && !l.ctx.shutdownSeen
    ensures NotifyAll(l.ctx, Down, bad).Ok?
    ensures l.ctx.fsm == AckShut ==> l.ctx.modem == Off || l.ctx.modem == Busy
  {
    hide NotifyAll, Num, Last, UpAfterDown;
    BroadcastCtx(l.ctx, Down, bad);
  }
}
