/**
 What each client is told: exactly the broadcasts it listens to while it is not marked, and, in
 every run, the state that the modem is shown in.
 */
module ClaDelivery {
  import opened Common
  import opened Fsm
  import opened Cla
  import opened ClaBook
  import opened ClaInvariant
  import opened ClaRuns
  import opened ClaFrame
  import ClaOutcomes
  import ClaRequests

  // ---------------------------------------------------------------- logs

  predicate IsState(e: Event) {
    e == Up || e == Down || e == Oos
  }

  /** A registered client that listens to the last state broadcast was told it last. */
  predicate UpToDate(c: Client, log: seq<Event>) {
    c.registered && Last(log).Some? && Last(log).value in c.events ==> Last(c.told) == Last(log)
  }

  lemma {:induction false} LastMore(log: seq<Event>, e: Event)
    ensures Last(log + [e]) == if IsState(e) then Some(e) else Last(log)
  {
    assert (log + [e])[..|log|] == log;
  }

  /** A client that hears all of `ext` stays up to date. */
  lemma {:induction false} LastListened(log: seq<Event>, told: seq<Event>, ext: seq<Event>, events: set<Event>)
    requires Last(log).Some? && Last(log).value in events ==> Last(told) == Last(log)
    ensures Last(log + ext).Some? && Last(log + ext).value in events ==> Last(told + Listened(ext, events)) == Last(log + ext)
    decreases |ext|
  {
    if ext == [] {
      assert log + ext == log && told + Listened(ext, events) == told;
    } else {
      var x, e := ext[..|ext| - 1], ext[|ext| - 1];
      LastListened(log, told, x, events);
      assert log + ext == log + x + [e];
      LastMore(log + x, e);
      LastMore(told + Listened(x, events), e);
      if e in events {
        assert told + Listened(ext, events) == told + Listened(x, events) + [e];
      } else {
        assert told + Listened(ext, events) == told + Listened(x, events);
      }
    }
  }

  /** Nothing but the state shown is repeated. */
  predicate Repeats(log: seq<Event>, ext: seq<Event>) {
    forall j :: 0 <= j < |ext| && IsState(ext[j]) ==> Last(log) == Some(ext[j])
  }

  lemma {:induction false} LastRepeated(log: seq<Event>, ext: seq<Event>, d: Option<Event>)
    requires Last(log) == d && forall j :: 0 <= j < |ext| && IsState(ext[j]) ==> d == Some(ext[j])
    ensures Last(log + ext) == d
    decreases |ext|
  {
    if ext == [] {
      assert log + ext == log;
    } else {
      var x, e := ext[..|ext| - 1], ext[|ext| - 1];
      LastRepeated(log, x, d);
      assert log + ext == log + x + [e];
      LastMore(log + x, e);
    }
  }

  // ---------------------------------------------------------------- contexts

  /** Every client is up to date; those that are marked too, if `all` says so. */
  predicate Informed(s: Ctx, all: bool) {
    !s.rebootSeen ==>
      forall k :: 0 <= k < |s.book.clients| && (all || k !in s.book.toClean) ==> UpToDate(s.book.clients[k], s.broadcasts)
  }

  lemma {:induction false} HeardInformed(s: Ctx, s': Ctx)
    requires Informed(s, false) && Heard(s, s') && (s.rebootSeen ==> s'.rebootSeen)
    ensures Informed(s', false)
  {
    if !s'.rebootSeen {
      var ext := s'.broadcasts[|s.broadcasts|..];
      assert s.broadcasts + ext == s'.broadcasts;
      forall k | 0 <= k < |s'.book.clients| && k !in s'.book.toClean ensures UpToDate(s'.book.clients[k], s'.broadcasts) {
        assert HearsAt(s.book, s'.book, ext, k);
        var c := s.book.clients[k];
        assert UpToDate(c, s.broadcasts);
        if c.registered {
          LastListened(s.broadcasts, c.told, ext, c.events);
        }
      }
    }
  }

  /** Broadcasts that repeat the state shown leave everybody up to date, marked or not. */
  lemma {:induction false} RepeatInformed(s: Ctx, s': Ctx)
    requires Informed(s, true) && Heard(s, s') && (s.rebootSeen ==> s'.rebootSeen)
    requires !s'.rebootSeen ==> Repeats(s.broadcasts, s'.broadcasts[|s.broadcasts|..])
    ensures Informed(s', true)
  {
    if !s'.rebootSeen {
      var ext := s'.broadcasts[|s.broadcasts|..];
      assert s.broadcasts + ext == s'.broadcasts;
      LastRepeated(s.broadcasts, ext, Last(s.broadcasts));
      forall k | 0 <= k < |s'.book.clients| ensures UpToDate(s'.book.clients[k], s'.broadcasts) {
        assert HearsAt(s.book, s'.book, ext, k);
        var c, c' := s.book.clients[k], s'.book.clients[k];
        assert UpToDate(c, s.broadcasts);
        var more := c'.told[|c.told|..];
        assert c.told + more == c'.told;
        if c.registered && Last(s.broadcasts).Some? && Last(s.broadcasts).value in c.events {
          forall j | 0 <= j < |more| && IsState(more[j]) ensures Last(c.told) == Some(more[j]) {
            assert more[j] == c'.told[|c.told| + j] && more[j] in ext;
          }
          LastRepeated(c.told, more, Last(c.told));
        }
      }
    }
  }

  // ---------------------------------------------------------------- messages of a client

  /** Nobody is told anything, and nobody changes what it listens to. */
  predicate Mute(b: Book, b': Book) {
    && |b'.clients| == |b.clients| && b.toClean <= b'.toClean
    && forall k :: 0 <= k < |b.clients| ==>
         b'.clients[k].registered == b.clients[k].registered && b'.clients[k].events == b.clients[k].events
         && b'.clients[k].told == b.clients[k].told
  }

  lemma {:induction false} MuteInformed(s: Ctx, s': Ctx)
    requires Informed(s, false) && Mute(s.book, s'.book) && s'.broadcasts == s.broadcasts && s'.rebootSeen == s.rebootSeen
    ensures Informed(s', false)
  {
    if !s'.rebootSeen {
      forall k | 0 <= k < |s'.book.clients| && k !in s'.book.toClean ensures UpToDate(s'.book.clients[k], s'.broadcasts) {
        assert UpToDate(s.book.clients[k], s.broadcasts);
      }
    }
  }

  lemma {:induction false} LeaveMute(b: Book, k: nat)
    requires k < |b.clients|
    ensures Unregister(b, k).Ok? ==> Mute(b, Unregister(b, k).ctx)
  {
  }

  lemma {:induction false} SlotMute(b: Book, k: nat, m: ClientMsg, reject: bool)
    requires k < |b.clients| && (m.Acquire? || m.Release? || m.AckColdReset? || m.AckShutdown?)
    ensures HandleSlotMsg(b, k, m, reject).Ok? ==> Mute(b, HandleSlotMsg(b, k, m, reject).ctx)
  {
  }

  /** A client that registers is told the state the modem is shown in, unless none is known yet or
      it does not listen to it; one that cannot be told is removed, and so is one that registers
      twice. Nobody else is told anything. */
  lemma {:induction false} RegisterTells(b: Book, k: nat, events: set<Event>, modem: Mdm, bad: Links)
    requires k < |b.clients| && k !in b.toClean && HandleRegister(b, k, events, modem, bad).Ok? && modem != PlatformReboot
    ensures var b' := HandleRegister(b, k, events, modem, bad).ctx;
            var e := match modem case Ready => Up case Unresp => Oos case _ => Down;
            && |b'.clients| == |b.clients| && (forall j :: 0 <= j < |b.clients| && j != k ==> b'.clients[j] == b.clients[j])
            && (k in b'.toClean <==> b.clients[k].registered || (modem != Unknown && e in events && bad(e, k)))
            && b'.toClean == (if k in b'.toClean then b.toClean + {k} else b.toClean)
            && (k !in b'.toClean ==>
                  && b'.clients[k].registered && b'.clients[k].events == events
                  && b'.clients[k].told == b.clients[k].told + if modem != Unknown && e in events then [e] else [])
  {
  }

  lemma {:induction false} RegisterInformed(s: Ctx, k: nat, events: set<Event>, bad: Links)
    requires Informed(s, false) && LogOk(s) && s.modem != PlatformReboot && k < |s.book.clients| && k !in s.book.toClean
    requires HandleRegister(s.book, k, events, s.modem, bad).Ok?
    ensures Informed(s.(book := HandleRegister(s.book, k, events, s.modem, bad).ctx), false)
  {
    hide HandleRegister, UpAfterDown;
    RegisterTells(s.book, k, events, s.modem, bad);
    var b := HandleRegister(s.book, k, events, s.modem, bad).ctx;
    if !s.rebootSeen {
      forall j | 0 <= j < |b.clients| && j !in b.toClean ensures UpToDate(b.clients[j], s.broadcasts) {
        if j == k {
          LastMore(s.book.clients[k].told, ToEvent(s.modem));
        } else {
          assert UpToDate(s.book.clients[j], s.broadcasts);
        }
      }
    }
  }

  lemma {:induction false} MildInformed(s: Ctx, r: Handled)
    requires Informed(s, false) && HandledMild(s, r)
    ensures r.Ok? ==> Informed(r.ctx, false)
  {
    hide Informed, Heard, Untouched;
    if r.Ok? {
      HeardInformed(s, r.ctx);
    }
  }

  lemma {:induction false} BookInformed(s: Ctx, r: Outcome<Book, Assertion>)
    requires Informed(s, false) && (r.Ok? ==> Mute(s.book, r.ctx))
    ensures WithBook(s, r).Ok? ==> Informed(WithBook(s, r).ctx, false)
  {
    hide Informed, Mute;
    if r.Ok? {
      MuteInformed(s, s.(book := r.ctx));
    }
  }

  lemma {:induction false} RestartInformed(s: Ctx, kind: RestartKind, dbg: bool, bad: Links)
    requires Informed(s, false)
    ensures var r := Notify(s.(restart := kind, dbg := dbg), CliRestart, bad);
            r.Ok? ==> Informed(r.ctx, false)
  {
    hide Mild, Notify, Informed;
    var s1 := s.(restart := kind, dbg := dbg);
    MildSame(s, s1);
    EventAfter(s, s1, CliRestart, bad);
    MildInformed(s, Notify(s1, CliRestart, bad));
  }

  lemma {:induction false} ShutdownInformed(s: Ctx)
    requires Informed(s, false)
    ensures Informed(s.(reject := true, book := s.book.(numAcquired := 0), shutdownSeen := true), false)
  {
  }

  lemma {:induction false} ClientInformed(s: Ctx, k: nat, m: ClientMsg, bad: Links)
    requires Informed(s, false) && LogOk(s) && s.modem != PlatformReboot && k < |s.book.clients|
    ensures HandleClientMsg(s, k, m, bad).Ok? ==> Informed(HandleClientMsg(s, k, m, bad).ctx, false)
  {
    hide Informed, LogOk, Mute, Mild, Notify, NotifyAll, HandleRegister, HandleSlotMsg, Unregister;
    LeaveMute(s.book, k);
    BookInformed(s, Unregister(s.book, k));
    match m
    case Register(_, events) =>
      if k !in s.book.toClean && HandleRegister(s.book, k, events, s.modem, bad).Ok? {
        RegisterInformed(s, k, events, bad);
      }
    case AskRestart(cause, dbg) =>
      RestartInformed(s, if cause == MdmErr then ModemRestart else ModemUpdate, dbg, bad);
    case AskBackup => RestartInformed(s, BackupNvm, s.dbg, bad);
    case AskShutdown => ShutdownInformed(s);
    case NotifyDbg =>
      AllMild(s, DbgInfo, bad);
      MildInformed(s, NotifyAll(s, DbgInfo, bad));
    case UnknownId =>
    case _ =>
      SlotMute(s.book, k, m, s.reject);
      BookInformed(s, HandleSlotMsg(s.book, k, m, s.reject));
  }

  // ---------------------------------------------------------------- time-outs

  lemma {:induction false} AckedRepeats(s: Ctx, bad: Links)
    requires s.fsm == AckCold || s.fsm == AckShut
    requires LogOk(s) && !s.rebootSeen && (if s.fsm == AckCold then s.modem == Busy || s.modem == Unresp else s.modem == Off || s.modem == Busy)
    requires Notify(s, CliAcked, bad).Ok?
    ensures var s' := Notify(s, CliAcked, bad).ctx;
            s.broadcasts <= s'.broadcasts && Repeats(s.broadcasts, s'.broadcasts[|s.broadcasts|..])
  {
    hide Notify, UpAfterDown, Last;
    if s.fsm == AckCold {
      ClaOutcomes.ColdResetAcked(s, bad);
    } else {
      ClaOutcomes.ShutdownAcked(s, bad);
    }
  }

  lemma {:induction false} ElapseRepeats(s: Ctx, ack: bool, bad: Links)
    requires LogOk(s) && ElapseAck(s, ack, bad).Ok? && (ack ==> s.fsm == AckCold || s.fsm == AckShut)
    requires ack && s.fsm == AckCold ==> s.modem == Busy || s.modem == Unresp
    requires ack && s.fsm == AckShut ==> s.modem == Off || s.modem == Busy
    ensures var s' := ElapseAck(s, ack, bad).ctx;
            !s.rebootSeen ==> s.broadcasts <= s'.broadcasts && Repeats(s.broadcasts, s'.broadcasts[|s.broadcasts|..])
  {
    hide Notify, ClearAcks, UpAfterDown, Last, Repeats;
    if ack && !s.rebootSeen {
      AckedRepeats(s.(book := ClearAcks(s.book)), bad);
    } else {
      NoRepeat(s.broadcasts);
    }
  }

  lemma {:induction false} NoRepeat(log: seq<Event>)
    ensures Repeats(log, log[|log|..])
  {
  }

  /** The state is never changed by a time-out: whoever misses its broadcasts stays up to date. */
  lemma {:induction false} TimeoutInformed(l: Loop, bootLeft: nat, bad: Links, base: nat)
    requires Inv(l, base) && ClaRequests.Shown(l.ctx) && l.phase.Polling? && l.phase.timeout != -1 && Informed(l.ctx, true)
    requires HandleTimeout(l.ctx, l.phase, bootLeft, bad).Ok?
    ensures Informed(HandleTimeout(l.ctx, l.phase, bootLeft, bad).ctx, true)
  {
    hide Informed, ElapseAck, Inv, Repeats, Heard, Untouched, LogOk;
    Polled(l, base);
    var s := if l.phase.boot then l.ctx.(bootArmed := bootLeft > 0) else l.ctx;
    SameLog(l.ctx, s);
    ElapseRepeats(s, l.phase.ack, bad);
    TimeoutMild(l.ctx, l.phase, bootLeft, bad);
    RebootKept(s, l.phase.ack, bad);
    RepeatInformed(l.ctx, HandleTimeout(l.ctx, l.phase, bootLeft, bad).ctx);
  }

  lemma {:induction false} SameLog(s: Ctx, s': Ctx)
    requires LogOk(s) && s' == s.(bootArmed := s'.bootArmed)
    ensures LogOk(s')
  {
  }

  lemma {:induction false} RebootKept(s: Ctx, ack: bool, bad: Links)
    ensures ElapseAck(s, ack, bad).Ok? && s.rebootSeen ==> ElapseAck(s, ack, bad).ctx.rebootSeen
  {
    hide ElapseAck, Heard, Untouched;
    ElapseMild(s, ack, bad);
  }

  lemma {:induction false} Polled(l: Loop, base: nat)
    requires Inv(l, base)
    ensures LogOk(l.ctx) && l.ctx.modem != PlatformReboot
    ensures l.phase.Polling? && l.phase.ack ==> l.ctx.fsm == AckCold || l.ctx.fsm == AckShut
    ensures l.ctx.fsm == AckShut ==> l.ctx.modem == Off || l.ctx.modem == Busy
  {
    hide LogOk, Agrees, Surplus, MarkedIdle;
  }

  // ---------------------------------------------------------------- steps and runs

  /** Marks count while descriptors are served; between the compaction and the next poll they are
      leftovers. */
  predicate LoopInformed(l: Loop) {
    Informed(l.ctx, l.phase.Top? || l.phase.Polling?)
  }

  lemma {:induction false} FromUnmarked(xs: seq<Client>, marked: set<nat>, i: nat, j: nat) returns (k: nat)
    requires i <= |xs| && j < |Unmarked(xs, marked, i)|
    ensures i <= k < |xs| && k !in marked && Unmarked(xs, marked, i)[j] == xs[k]
    decreases |xs| - i
  {
    if i in marked {
      k := FromUnmarked(xs, marked, i + 1, j);
    } else if j == 0 {
      k := i;
    } else {
      k := FromUnmarked(xs, marked, i + 1, j - 1);
    }
  }

  lemma {:induction false} CompactInformed(s: Ctx)
    requires Informed(s, false)
    ensures Informed(Compact(s), true)
  {
    hide Unmarked;
    if !s.rebootSeen {
      var s' := Compact(s);
      forall j | 0 <= j < |s'.book.clients| ensures UpToDate(s'.book.clients[j], s'.broadcasts) {
        var k := FromUnmarked(s.book.clients, s.book.toClean, 0, j);
        assert UpToDate(s.book.clients[k], s.broadcasts);
      }
    }
  }

  lemma {:induction false} LocalInformed(l: Loop, i: Input, bad: Links)
    requires Enabled(l, i) && Step(l, i, bad).Ok? && LoopInformed(l)
    requires i.EnterPoll? || i.PollReturns? || i.Turn? || i.Accept? || i.EndScan?
    ensures LoopInformed(Step(l, i, bad).ctx)
  {
    hide HandleControlMsg, HandleClientMsg, HandleTimeout, FinishTurn, Unregister, UpToDate, Compact;
    if i.EndScan? {
      CompactInformed(l.ctx);
    } else if i.Accept? {
      NewcomerUpToDate(i.fd, l.ctx.broadcasts);
    }
  }

  lemma {:induction false} NewcomerUpToDate(fd: int, log: seq<Event>)
    ensures UpToDate(Client(fd, false, {}, false, false, false, []), log)
  {
  }

  lemma {:induction false} StepInformed(l: Loop, i: Input, bad: Links, base: nat)
    requires Inv(l, base) && ClaRequests.Shown(l.ctx) && LoopInformed(l) && Enabled(l, i) && Step(l, i, bad).Ok?
    ensures LoopInformed(Step(l, i, bad).ctx)
  {
    hide Inv, Informed, LogOk, HandleControlMsg, HandleClientMsg, HandleTimeout, FinishTurn, Unregister, Mild;
    Polled(l, base);
    match i
    case Control(m) =>
      ControlMild(l.ctx, m, bad);
      MildInformed(l.ctx, HandleControlMsg(l.ctx, m, bad));
    case PollTimesOut(bootLeft) => TimeoutInformed(l, bootLeft, bad, base);
    case EndTurn =>
      TurnMild(l.ctx, l.phase, bad);
      MildInformed(l.ctx, FinishTurn(l.ctx, l.phase, bad));
    case FromClient(k, m) => ClientInformed(l.ctx, k, m, bad);
    case Lost(k) =>
      LeaveMute(l.ctx.book, k);
      BookInformed(l.ctx, Unregister(l.ctx.book, k));
    case _ =>
      hide Step;
      LocalInformed(l, i, bad);
  }

  lemma {:induction false} RunInformed(l: Loop, script: Script, l': Loop, base: nat)
    requires Inv(l, base) && ClaRequests.Fits(l.ctx) && ClaRequests.Shown(l.ctx) && LoopInformed(l) && Reaches(l, script, l')
    ensures Inv(l', base) && LoopInformed(l')
    decreases |script|
  {
    hide Inv, Step, Enabled, ClaRequests.Fits, ClaRequests.Shown, LoopInformed, ClaRequests.Sends;
    if script != [] {
      StepKeeps(l, script[0].0, script[0].1, base);
      ClaRequests.StepWell(l, script[0].0, script[0].1, base);
      StepInformed(l, script[0].0, script[0].1, base);
      RunInformed(Step(l, script[0].0, script[0].1).ctx, script[1..], l', base);
    }
  }

  /** In every run, a registered client that is not being removed was last told the state that the
      modem is shown in, if it listens to it; a platform reboot excepted, which is not told. */
  lemma {:induction false} ClientsInformed(sanity: bool, fmmo: bool, script: Script, l: Loop, k: nat)
    requires Reaches(Boot(sanity, fmmo), script, l) && k < |l.ctx.book.clients| && l.ctx.book.clients[k].registered
    requires l.phase.Top? || l.phase.Polling? || k !in l.ctx.book.toClean
    ensures !l.ctx.rebootSeen ==>
              match l.ctx.modem
              case Unknown => true
              case Ready => Up in l.ctx.book.clients[k].events ==> Last(l.ctx.book.clients[k].told) == Some(Up)
              case Unresp => Oos in l.ctx.book.clients[k].events ==> Last(l.ctx.book.clients[k].told) == Some(Oos)
              case _ => Down in l.ctx.book.clients[k].events ==> Last(l.ctx.book.clients[k].told) == Some(Down)
  {
    hide Inv, Last, UpAfterDown;
    BootInv(sanity, fmmo);
    RunInformed(Boot(sanity, fmmo), script, l, BootBase(fmmo));
    Polled(l, BootBase(fmmo));
    if !l.ctx.rebootSeen {
      assert UpToDate(l.ctx.book.clients[k], l.ctx.broadcasts);
    }
  }

  // ---------------------------------------------------------------- who misses a broadcast

  function New(s: Ctx, s': Ctx): seq<Event>
    requires s.broadcasts <= s'.broadcasts
  {
    s'.broadcasts[|s.broadcasts|..]
  }

  /** Client `k`, unless it is given up just now, is told every broadcast it listens to exactly if it
      is not marked, or there is none. */
  predicate Tells(s: Ctx, s': Ctx, k: nat)
    requires k < |s.book.clients|
  {
    && k < |s'.book.clients| && s.broadcasts <= s'.broadcasts
    && ((k in s'.book.toClean ==> k in s.book.toClean) ==>
          (s'.book.clients[k].told == s.book.clients[k].told + Listened(New(s, s'), s.book.clients[k].events)
           <==> k !in s.book.toClean || Listened(New(s, s'), s.book.clients[k].events) == []))
  }

  lemma {:induction false} HeardTells(s: Ctx, s': Ctx, k: nat)
    requires Heard(s, s') && k < |s.book.clients|
    ensures Tells(s, s', k)
  {
    assert HearsAt(s.book, s'.book, New(s, s'), k);
  }

  lemma {:induction false} MildTells(s: Ctx, r: Handled, k: nat)
    requires HandledMild(s, r) && k < |s.book.clients|
    ensures r.Ok? ==> Tells(s, r.ctx, k)
  {
    hide Heard, Untouched, Tells;
    if r.Ok? {
      HeardTells(s, r.ctx, k);
    }
  }

  lemma {:induction false} QuietTells(s: Ctx, s': Ctx, k: nat)
    requires s'.broadcasts == s.broadcasts && k < |s.book.clients| <= |s'.book.clients| && s'.book.clients[k].told == s.book.clients[k].told
    ensures Tells(s, s', k)
  {
  }

  lemma {:induction false} BookTells(s: Ctx, r: Outcome<Book, Assertion>, k: nat)
    requires k < |s.book.clients| && (r.Ok? ==> |r.ctx.clients| == |s.book.clients| && r.ctx.clients[k].told == s.book.clients[k].told)
    ensures WithBook(s, r).Ok? ==> Tells(s, WithBook(s, r).ctx, k)
  {
    hide Tells;
    if r.Ok? {
      QuietTells(s, s.(book := r.ctx), k);
    }
  }

  lemma {:induction false} RestartTells(s: Ctx, kind: RestartKind, dbg: bool, bad: Links, k: nat)
    requires k < |s.book.clients|
    ensures var r := Notify(s.(restart := kind, dbg := dbg), CliRestart, bad);
            r.Ok? ==> Tells(s, r.ctx, k)
  {
    hide Mild, Notify, Tells;
    var s1 := s.(restart := kind, dbg := dbg);
    MildSame(s, s1);
    EventAfter(s, s1, CliRestart, bad);
    MildTells(s, Notify(s1, CliRestart, bad), k);
  }

  lemma {:induction false} JoinTells(s: Ctx, c: nat, events: set<Event>, bad: Links, k: nat)
    requires c < |s.book.clients| && k < |s.book.clients| && c != k && c !in s.book.toClean && s.modem != PlatformReboot
    ensures var r := WithBook(s, HandleRegister(s.book, c, events, s.modem, bad));
            r.Ok? ==> Tells(s, r.ctx, k)
  {
    hide Tells, HandleRegister, WithBook;
    var r := HandleRegister(s.book, c, events, s.modem, bad);
    if r.Ok? {
      RegisterTells(s.book, c, events, s.modem, bad);
    }
    BookTells(s, r, k);
  }

  lemma {:induction false} PlainTells(s: Ctx, c: nat, m: ClientMsg, k: nat)
    requires c < |s.book.clients| && k < |s.book.clients| && (m.Acquire? || m.Release? || m.AckColdReset? || m.AckShutdown?)
    ensures var r := WithBook(s, HandleSlotMsg(s.book, c, m, s.reject));
            r.Ok? ==> Tells(s, r.ctx, k)
  {
    hide Tells, HandleSlotMsg, WithBook;
    SlotMute(s.book, c, m, s.reject);
    BookTells(s, HandleSlotMsg(s.book, c, m, s.reject), k);
  }

  lemma {:induction false} LeaveTells(s: Ctx, c: nat, k: nat)
    requires c < |s.book.clients| && k < |s.book.clients|
    ensures var r := WithBook(s, Unregister(s.book, c));
            r.Ok? ==> Tells(s, r.ctx, k)
  {
    hide Tells, Unregister, WithBook;
    LeaveMute(s.book, c);
    BookTells(s, Unregister(s.book, c), k);
  }

  lemma {:induction false} ClientTells(s: Ctx, c: nat, m: ClientMsg, bad: Links, k: nat)
    requires c < |s.book.clients| && k < |s.book.clients| && !(m.Register? && c == k) && s.modem != PlatformReboot
    ensures HandleClientMsg(s, c, m, bad).Ok? ==> Tells(s, HandleClientMsg(s, c, m, bad).ctx, k)
  {
    hide Tells, Mild, Notify, NotifyAll, HandleRegister, HandleSlotMsg, Unregister, WithBook, HandledMild;
    QuietTells(s, s, k);
    LeaveTells(s, c, k);
    match m
    case Register(_, events) =>
      if c !in s.book.toClean {
        JoinTells(s, c, events, bad, k);
      }
    case AskRestart(cause, dbg) =>
      RestartTells(s, if cause == MdmErr then ModemRestart else ModemUpdate, dbg, bad, k);
    case AskBackup => RestartTells(s, BackupNvm, s.dbg, bad, k);
    case AskShutdown => QuietTells(s, s.(reject := true, book := s.book.(numAcquired := 0), shutdownSeen := true), k);
    case NotifyDbg =>
      AllMild(s, DbgInfo, bad);
      MildTells(s, NotifyAll(s, DbgInfo, bad), k);
    case UnknownId =>
    case _ => PlainTells(s, c, m, k);
  }

  /** Any step: a client that is not given up is told every broadcast it listens to exactly if it is
      not marked, or there is none. A mark that outlived the compaction names another client, which
      a time-out then passes over. */
  lemma {:induction false} StepTells(l: Loop, i: Input, bad: Links, k: nat)
    requires Enabled(l, i) && Step(l, i, bad).Ok? && k < |l.ctx.book.clients| && !i.EndScan? && l.ctx.modem != PlatformReboot
    requires !(i.FromClient? && i.client == k && i.cmsg.Register?)
    ensures Tells(l.ctx, Step(l, i, bad).ctx.ctx, k)
  {
    hide Tells, HandleControlMsg, HandleClientMsg, HandleTimeout, FinishTurn, Unregister, Mild, Compact;
    match i
    case Control(m) =>
      ControlMild(l.ctx, m, bad);
      MildTells(l.ctx, HandleControlMsg(l.ctx, m, bad), k);
    case PollTimesOut(bootLeft) =>
      TimeoutMild(l.ctx, l.phase, bootLeft, bad);
      MildTells(l.ctx, HandleTimeout(l.ctx, l.phase, bootLeft, bad), k);
    case EndTurn =>
      TurnMild(l.ctx, l.phase, bad);
      MildTells(l.ctx, FinishTurn(l.ctx, l.phase, bad), k);
    case FromClient(c, m) => ClientTells(l.ctx, c, m, bad, k);
    case Lost(c) =>
      QuietTells(l.ctx, l.ctx, k);
      LeaveTells(l.ctx, c, k);
    case EndScan => assert false;
    case EnterPoll(_, _) => QuietTells(l.ctx, Step(l, i, bad).ctx.ctx, k);
    case PollReturns => QuietTells(l.ctx, Step(l, i, bad).ctx.ctx, k);
    case Turn(_) => QuietTells(l.ctx, Step(l, i, bad).ctx.ctx, k);
    case Accept(_) => QuietTells(l.ctx, Step(l, i, bad).ctx.ctx, k);
  }
}
