/**
 Escalation: which recovery step comes next after a modem failure.
 */
module Escalation {
  import Control

  type Step = Control.Step

  const WARM := 0
  const COLD := 1
  const REBOOT := 2
  const OOS := 3

  /** Attempts configured at each level. */
  datatype Config = Config(warm: nat, cold: nat, reboot: nat)

  /** `stored` is the reboot counter kept in a property across restarts. */
  datatype Ctx = Ctx(cfg: Config, disabled: bool, idx: nat, counter: int, stored: int)

  predicate Ok(s: Ctx) {
    s.idx <= OOS
  }

  function Attempts(cfg: Config, i: nat): nat {
    if i == WARM then cfg.warm else if i == COLD then cfg.cold else if i == REBOOT then cfg.reboot else 0
  }

  function StepOf(i: nat): Step {
    if i == WARM then Control.WarmReset
    else if i == COLD then Control.ColdReset
    else if i == REBOOT then Control.Reboot
    else Control.OutOfService
  }

  /** The next level with attempts, the last one in any case. */
  function NextLevel(cfg: Config, i: nat): (j: nat)
    requires i < OOS
    ensures i < j <= OOS && (j == OOS || Attempts(cfg, j) > 0)
    ensures forall k :: i < k < j ==> Attempts(cfg, k) == 0
    decreases OOS - i
  {
    if i + 1 == OOS || Attempts(cfg, i + 1) > 0 then i + 1 else NextLevel(cfg, i + 1)
  }

  function GoNext(s: Ctx): Ctx
    requires s.idx < OOS
  {
    var j := NextLevel(s.cfg, s.idx);
    s.(idx := j, counter := Attempts(s.cfg, j))
  }

  function UpdateReboot(s: Ctx): Ctx {
    if s.stored >= s.cfg.reboot then s.(idx := OOS) else s.(stored := s.stored + 1)
  }

  /** The modem was stable long enough. */
  predicate Resets(s: Ctx, expired: bool) {
    !s.disabled && s.idx != OOS && expired
  }

  function Reset(s: Ctx): Ctx {
    s.(idx := WARM, counter := s.cfg.warm, stored := 0)
  }

  function Advance(s: Ctx): (s': Ctx)
    requires s.idx < OOS
    ensures Ok(s')
  {
    var s1 := if s.counter <= 0 then GoNext(s) else s;
    if s1.idx != REBOOT then s1.(counter := s1.counter - 1) else UpdateReboot(s1)
  }

  /** get_next_step: the new context; the answer is the level it is at, or a cold reset when
      escalation is disabled. */
  function Next(s: Ctx, expired: bool): (s': Ctx)
    requires Ok(s)
    ensures Ok(s')
  {
    if s.disabled || s.idx == OOS then s
    else Advance(if expired then Reset(s) else s)
  }

  function Answer(s: Ctx): Step {
    if s.disabled then Control.ColdReset else StepOf(s.idx)
  }

  /** get_last_step does not look at `disabled`. */
  function Last(s: Ctx): (s': Ctx)
    ensures Ok(s')
  {
    UpdateReboot(s.(idx := REBOOT))
  }

  function Init(cfg: Config, disabled: bool, stored: int): (s: Ctx)
    ensures Ok(s)
  {
    if disabled then Ctx(Config(0, 0, 0), true, WARM, 0, stored)
    else
      var s := Ctx(cfg, false, WARM, cfg.warm, stored);
      if s.counter <= 0 then GoNext(s) else s
  }

  // ---------------------------------------------------------------- what is left to try

  function Positive(x: int): nat {
    if x > 0 then x else 0
  }

  /** Reboots that the level can still give. */
  function RebootsFrom(cfg: Config, stored: int): nat {
    if cfg.reboot == 0 then 0 else Positive(cfg.reboot - stored)
  }

  /** The attempts left at each level, as a triple. */
  function Left(s: Ctx): (nat, nat, nat)
    requires Ok(s)
  {
    var level := Positive(s.counter);
    if s.idx == WARM then (level, s.cfg.cold, RebootsFrom(s.cfg, s.stored))
    else if s.idx == COLD then (0, level, RebootsFrom(s.cfg, s.stored))
    else if s.idx == REBOOT then (0, 0, if level > 0 then Positive(s.cfg.reboot - s.stored) else 0)
    else (0, 0, 0)
  }

  /** A stable period gives every attempt back, the reboots included; out of service is for good. */
  lemma {:induction false} StableRestores(s: Ctx)
    requires Ok(s) && !s.disabled
    ensures s.idx == OOS ==> Next(s, true) == s
    ensures s.idx != OOS ==>
              var s' := Next(s, true);
              var (w, c, r) := (s.cfg.warm, s.cfg.cold, s.cfg.reboot);
              && Answer(s') == (if w > 0 then Control.WarmReset else if c > 0 then Control.ColdReset
                                else if r > 0 then Control.Reboot else Control.OutOfService)
              && Left(s') == (if w > 0 then (w - 1, c, r) else if c > 0 then (0, c - 1, r)
                              else if r > 0 then (0, 0, r - 1) else (0, 0, 0))
  {
    if s.idx != OOS {
      NextTakesFirst(Reset(s));
    }
  }

  /** The first attempt left is the one taken, whatever led to this state. */
  lemma {:induction false} NextTakesFirst(s: Ctx)
    requires Ok(s) && !s.disabled
    ensures var s' := Next(s, false);
            var (w, c, r) := Left(s);
            && !s'.disabled
            && Answer(s') == (if w > 0 then Control.WarmReset else if c > 0 then Control.ColdReset
                              else if r > 0 then Control.Reboot else Control.OutOfService)
            && Left(s') == (if w > 0 then (w - 1, c, r) else if c > 0 then (0, c - 1, r)
                            else if r > 0 then (0, 0, r - 1) else (0, 0, 0))
  {
    if s.idx < OOS && s.counter <= 0 {
      var j := NextLevel(s.cfg, s.idx);
      assert forall k :: s.idx < k < j ==> Attempts(s.cfg, k) == 0;
      if j > COLD && s.idx < COLD {
        assert Attempts(s.cfg, COLD) == 0;
      }
      if j > REBOOT && s.idx < REBOOT {
        assert Attempts(s.cfg, REBOOT) == 0;
      }
    }
  }

  /** The answers of `n` successive calls without a stable period. */
  function Answers(s: Ctx, n: nat): seq<Step>
    requires Ok(s)
    decreases n
  {
    if n == 0 then [] else [Answer(Next(s, false))] + Answers(Next(s, false), n - 1)
  }

  /** w warm resets, c cold resets, r reboots, then out of service for ever. */
  function Plan(w: nat, c: nat, r: nat, i: nat): Step {
    if i < w then Control.WarmReset
    else if i < w + c then Control.ColdReset
    else if i < w + c + r then Control.Reboot
    else Control.OutOfService
  }

  lemma {:induction false} AnswersFollowPlan(s: Ctx, n: nat)
    requires Ok(s) && !s.disabled
    ensures |Answers(s, n)| == n
    ensures forall i :: 0 <= i < n ==> Answers(s, n)[i] == Plan(Left(s).0, Left(s).1, Left(s).2, i)
    decreases n
  {
    if n > 0 {
      var s' := Next(s, false);
      NextTakesFirst(s);
      AnswersFollowPlan(s', n - 1);
      forall i | 0 <= i < n ensures Answers(s, n)[i] == Plan(Left(s).0, Left(s).1, Left(s).2, i) {
        if i > 0 {
          assert Answers(s, n)[i] == Answers(s', n - 1)[i - 1];
        }
      }
    }
  }

  lemma {:induction false} InitLeft(cfg: Config, stored: int)
    ensures Left(Init(cfg, false, stored)) == (cfg.warm, cfg.cold, RebootsFrom(cfg, stored))
  {
    if cfg.warm == 0 {
      var j := NextLevel(cfg, WARM);
      assert forall k :: WARM < k < j ==> Attempts(cfg, k) == 0;
      if j > COLD {
        assert Attempts(cfg, COLD) == 0;
      }
      if j > REBOOT {
        assert Attempts(cfg, REBOOT) == 0;
      }
    }
  }

  /** From a fresh start and with no stable period, the answers are exactly
      warm^w cold^c reboot^max(0, b - r), then out of service. */
  lemma {:induction false} ClosedForm(cfg: Config, stored: nat, n: nat)
    ensures |Answers(Init(cfg, false, stored), n)| == n
    ensures forall i :: 0 <= i < n ==>
              Answers(Init(cfg, false, stored), n)[i] == Plan(cfg.warm, cfg.cold, Positive(cfg.reboot - stored), i)
  {
    InitLeft(cfg, stored);
    AnswersFollowPlan(Init(cfg, false, stored), n);
  }

  /** Disabled, it always answers a cold reset. */
  lemma {:induction false} DisabledAnswers(cfg: Config, stored: int, n: nat, i: nat)
    requires i < n
    ensures |Answers(Init(cfg, true, stored), n)| == n && Answers(Init(cfg, true, stored), n)[i] == Control.ColdReset
    decreases n
  {
    if n > 1 {
      DisabledAnswers(cfg, stored, n - 1, if i > 0 then i - 1 else 0);
    }
  }

  // ---------------------------------------------------------------- reboots over any history

  /** A call to either entry point, or a restart of the whole service. */
  datatype Call = GetNext(expired: bool) | GetLast | Restart(disable: bool)

  function After(s: Ctx, cfg: Config, call: Call): (s': Ctx)
    requires Ok(s)
    ensures Ok(s')
  {
    match call
    case GetNext(expired) => Next(s, expired)
    case GetLast => Last(s)
    case Restart(disable) => Init(cfg, disable, s.stored)
  }

  /** The call answered with a platform reboot. */
  predicate Reboots(s: Ctx, call: Call)
    requires Ok(s)
  {
    match call
    case GetNext(expired) => Answer(Next(s, expired)) == Control.Reboot
    case GetLast => StepOf(Last(s).idx) == Control.Reboot
    case Restart(_) => false
  }

  /** Reboots answered since the last stable period, `n` of them before `calls`. */
  function Tally(s: Ctx, cfg: Config, n: nat, calls: seq<Call>): nat
    requires Ok(s)
    decreases |calls|
  {
    if calls == [] then n
    else
      var call := calls[0];
      var n0 := if call.GetNext? && Resets(s, call.expired) then 0 else n;
      Tally(After(s, cfg, call), cfg, if Reboots(s, call) then n0 + 1 else n0, calls[1..])
  }

  /** A reboot is always paid for from the stored counter. */
  lemma {:induction false} RebootPaid(s: Ctx, cfg: Config, call: Call)
    requires Ok(s) && (if s.disabled then s.cfg == Config(0, 0, 0) else s.cfg == cfg) && s.stored >= 0
    ensures var s' := After(s, cfg, call);
            var before := if call.GetNext? && Resets(s, call.expired) then 0 else s.stored;
            && (if s'.disabled then s'.cfg == Config(0, 0, 0) else s'.cfg == cfg)
            && s'.stored == (if Reboots(s, call) then before + 1 else before)
            && (Reboots(s, call) ==> before < cfg.reboot)
  {
    hide NextLevel;
  }

  /** Whatever the restarts and the entry points used, at most `reboot` platform reboots are
      asked for between two stable periods. */
  lemma {:induction false} RebootsBounded(s: Ctx, cfg: Config, n: nat, calls: seq<Call>)
    requires Ok(s) && (if s.disabled then s.cfg == Config(0, 0, 0) else s.cfg == cfg)
    requires n <= s.stored && n <= cfg.reboot
    ensures Tally(s, cfg, n, calls) <= cfg.reboot
    decreases |calls|
  {
    if calls != [] {
      var call := calls[0];
      RebootPaid(s, cfg, call);
      var n0 := if call.GetNext? && Resets(s, call.expired) then 0 else n;
      RebootsBounded(After(s, cfg, call), cfg, if Reboots(s, call) then n0 + 1 else n0, calls[1..]);
    }
  }

  /** Out of service is not final for get_last_step: it asks for a reboot whenever the stored
      counter allows one. */
  lemma {:induction false} LastExact(s: Ctx)
    ensures StepOf(Last(s).idx) == (if s.stored < s.cfg.reboot then Control.Reboot else Control.OutOfService)
  {
  }

  // ---------------------------------------------------------------- the module's context

  class Module {
    const cfg: array<int>
    var cfgIdx: nat
    var counter: int
    var stored: int
    var disabled: bool

    ghost predicate Valid()
      reads this, cfg
    {
      && cfg.Length == 4 && cfgIdx <= OOS && cfg[OOS] == 0
      && cfg[WARM] >= 0 && cfg[COLD] >= 0 && cfg[REBOOT] >= 0
    }

    ghost function View(): Ctx
      requires Valid()
      reads this, cfg
    {
      Ctx(Config(cfg[WARM], cfg[COLD], cfg[REBOOT]), disabled, cfgIdx, counter, stored)
    }

    constructor (c: Config, disable: bool, property: int)
      ensures Valid() && View() == Init(c, disable, property)
    {
      cfg := new int[4](_ => 0);
      cfgIdx, counter, stored, disabled := WARM, 0, property, disable;
      new;
      if !disable {
        cfg[WARM] := c.warm;
        cfg[COLD] := c.cold;
        cfg[REBOOT] := c.reboot;
        counter := cfg[WARM];
        if counter <= 0 {
          GoNextStep();
        }
      }
    }

    /** The level index stays in range: the assertion of the loop never fires. */
    method GoNextStep()
      requires Valid() && cfgIdx < OOS
      modifies `cfgIdx, `counter
      ensures Valid() && View() == GoNext(old(View()))
    {
      ghost var from := View();
      cfgIdx := cfgIdx + 1;
      while cfg[cfgIdx] <= 0 && cfgIdx != OOS
        invariant from.idx < cfgIdx <= OOS
        invariant forall k :: from.idx < k < cfgIdx ==> Attempts(from.cfg, k) == 0
        invariant NextLevel(from.cfg, from.idx) == if cfgIdx < OOS && Attempts(from.cfg, cfgIdx) == 0
                                                   then NextLevel(from.cfg, cfgIdx) else cfgIdx
        decreases OOS - cfgIdx
      {
        cfgIdx := cfgIdx + 1;
      }
      counter := cfg[cfgIdx];
    }

    method UpdateRebootCounter()
      requires Valid()
      modifies `cfgIdx, `stored
      ensures Valid() && View() == UpdateReboot(old(View()))
    {
      if stored >= cfg[REBOOT] {
        cfgIdx := OOS;
      } else {
        stored := stored + 1;
      }
    }

    method GetNextStep(expired: bool) returns (step: Step)
      requires Valid()
      modifies this
      ensures Valid() && View() == Next(old(View()), expired) && step == Answer(View())
    {
      if disabled {
        return Control.ColdReset;
      }
      if cfgIdx != OOS {
        if expired {
          cfgIdx := 0;
          counter := cfg[cfgIdx];
          stored := 0;
        }
        if counter <= 0 {
          GoNextStep();
        }
        if cfgIdx != REBOOT {
          counter := counter - 1;
        } else {
          UpdateRebootCounter();
        }
      }
      step := StepOf(cfgIdx);
    }

    method GetLastStep() returns (step: Step)
      requires Valid()
      modifies `cfgIdx, `stored
      ensures Valid() && View() == Last(old(View())) && step == StepOf(View().idx)
    {
      cfgIdx := REBOOT;
      UpdateRebootCounter();
      step := StepOf(cfgIdx);
    }
  }
}
