/** Runs of the driver: any sequence of calls through its entry points, applied
    from a state, with the effects concatenated in order. The lemmas here are
    the lifetime properties of the power controller. */
module Runs {
  import opened Registers
  import opened LevelMapper
  import opened PowerSpec

  /** One call through an entry point of the driver, arguments already parsed. */
  datatype Op =
    | SetLevelCall(level: int)                                  // lm3533_lcd_backlight_set_level
    | PwmDisableCall                                            // lm3533_lcd_backlight_pwm_disable
    | IntensityCall(brightness: int, fbBlank: bool, suspended: bool) // bl_set_intensity
    | ResumeCall                                                // lm3533_bl_resume
    | SuspendCall                                               // lm3533_bl_suspend
    | StoreLevelCall(count: nat, level: int)                    // lcd_backlight_store_level
    | StoreOnOffCall(count: nat, onOff: int)                    // lcd_backlight_store_on_off

  function Step(cfg: Config, s: State, op: Op): (t: Transition)
  {
    match op
    case SetLevelCall(level) => SetLevel(cfg, s, level)
    case PwmDisableCall => PwmDisable(cfg, s)
    case IntensityCall(b, blank, susp) => Intensity(cfg, s, b, blank, susp)
    case ResumeCall => Resume(cfg, s)
    case SuspendCall => Suspend(cfg, s)
    case StoreLevelCall(count, level) => StoreLevel(cfg, s, count, level)
    case StoreOnOffCall(count, onOff) => StoreOnOff(cfg, s, count, onOff)
  }

  function Run(cfg: Config, s: State, ops: seq<Op>): (t: Transition)
    decreases |ops|
  {
    if ops == [] then Transition(s, [])
    else
      var first := Step(cfg, s, ops[0]);
      var rest := Run(cfg, first.next, ops[1..]);
      Transition(rest.next, first.events + rest.events)
  }

  /** A non-empty run is its first step followed by the run of the rest. */
  lemma RunUnfold(cfg: Config, s: State, ops: seq<Op>)
    requires ops != []
    ensures Run(cfg, s, ops).next == Run(cfg, Step(cfg, s, ops[0]).next, ops[1..]).next
    ensures Run(cfg, s, ops).events == Step(cfg, s, ops[0]).events + Run(cfg, Step(cfg, s, ops[0]).next, ops[1..]).events
  {
  }

  /** The number of pwm_disable calls in a run. */
  function PwmCalls(ops: seq<Op>): (n: nat)
  {
    if ops == [] then 0 else (if ops[0].PwmDisableCall? then 1 else 0) + PwmCalls(ops[1..])
  }

  /** The number of calls in a run that take the backlight from OFF to ON. */
  function Activations(cfg: Config, s: State, ops: seq<Op>): (n: nat)
    decreases |ops|
  {
    if ops == [] then 0
    else
      var first := Step(cfg, s, ops[0]);
      (if s.status == Off && first.next.status == On then 1 else 0) + Activations(cfg, first.next, ops[1..])
  }

  // ---------------------------------------------------------------------------
  // The one-shot current-limit write

  lemma CountWritesSingle(e: Event, reg: Byte)
    ensures CountWrites([e], reg) == if e.Write? && e.reg == reg then 1 else 0
  {
    assert [e][1..] == [];
  }

  lemma LevelWritesCount(cfg: Config, level: int, reg: Byte)
    requires reg != BRIGHTNESS && reg != BANK_ENABLE
    ensures CountWrites(LevelWrites(cfg, level), reg) == 0
  {
    LevelWritesRegisters(cfg, level);
    CountWritesNone(LevelWrites(cfg, level), reg);
  }

  lemma ActivationCounts(cfg: Config)
    ensures CountWrites(ActivationSequence(cfg), CURRENT_LIMIT) == 0
    ensures CountWrites(ActivationSequence(cfg), BOOST_CONFIG) == 1
  {
    var a := ActivationSequence(cfg);
    var head := a[..|a| - 1];
    assert a == head + [Write(BOOST_CONFIG, 0x0E)];
    CountWritesNone(a, CURRENT_LIMIT);
    CountWritesNone(head, BOOST_CONFIG);
    CountWritesAppend(head, [Write(BOOST_CONFIG, 0x0E)], BOOST_CONFIG);
    CountWritesSingle(Write(BOOST_CONFIG, 0x0E), BOOST_CONFIG);
  }

  lemma FirstBootCounts(cfg: Config, s: State)
    ensures CountWrites(FirstBootWrites(cfg, s), CURRENT_LIMIT) == (if s.firstBoot then 1 else 0)
    ensures CountWrites(FirstBootWrites(cfg, s), BOOST_CONFIG) == 0
  {
    if s.firstBoot {
      CountWritesSingle(Write(CURRENT_LIMIT, ToByte(cfg.maxCurrent)), CURRENT_LIMIT);
      CountWritesSingle(Write(CURRENT_LIMIT, ToByte(cfg.maxCurrent)), BOOST_CONFIG);
    }
  }

  lemma CountWritesAppend3(a: seq<Event>, b: seq<Event>, c: seq<Event>, reg: Byte)
    ensures CountWrites(a + b + c, reg) == CountWrites(a, reg) + CountWrites(b, reg) + CountWrites(c, reg)
  {
    CountWritesAppend(a + b, c, reg);
    CountWritesAppend(a, b, reg);
  }

  /** The events of backlight_on as its three parts. */
  lemma BacklightOnParts(cfg: Config, s: State, level: int)
    ensures BacklightOn(cfg, s, level).events
            == (if s.status == Off then ActivationSequence(cfg) else []) + FirstBootWrites(cfg, s) + LevelWrites(cfg, level)
  {
  }

  /** The register writes of one backlight_on call, counted per register of interest. */
  lemma BacklightOnCounts(cfg: Config, s: State, level: int)
    ensures CountWrites(BacklightOn(cfg, s, level).events, CURRENT_LIMIT) == (if s.firstBoot then 1 else 0)
    ensures CountWrites(BacklightOn(cfg, s, level).events, BOOST_CONFIG) == (if s.status == Off then 1 else 0)
  {
    var activation: seq<Event> := if s.status == Off then ActivationSequence(cfg) else [];
    BacklightOnParts(cfg, s, level);
    CountWritesAppend3(activation, FirstBootWrites(cfg, s), LevelWrites(cfg, level), CURRENT_LIMIT);
    CountWritesAppend3(activation, FirstBootWrites(cfg, s), LevelWrites(cfg, level), BOOST_CONFIG);
    ActivationCounts(cfg);
    FirstBootCounts(cfg, s);
    LevelWritesCount(cfg, level, CURRENT_LIMIT);
    LevelWritesCount(cfg, level, BOOST_CONFIG);
  }

  /** backlight_off writes neither the current limit nor the boost register. */
  lemma BacklightOffCounts(cfg: Config, s: State)
    ensures CountWrites(BacklightOff(cfg, s).events, CURRENT_LIMIT) == 0
    ensures CountWrites(BacklightOff(cfg, s).events, BOOST_CONFIG) == 0
  {
    CountWritesNone(BacklightOff(cfg, s).events, CURRENT_LIMIT);
    CountWritesNone(BacklightOff(cfg, s).events, BOOST_CONFIG);
  }

  lemma SetLevelCounts(cfg: Config, s: State, level: int)
    ensures CountWrites(SetLevel(cfg, s, level).events, CURRENT_LIMIT)
            == (if s.firstBoot && SetLevel(cfg, s, level).next.status == On then 1 else 0)
    ensures CountWrites(SetLevel(cfg, s, level).events, BOOST_CONFIG)
            == (if s.status == Off && SetLevel(cfg, s, level).next.status == On then 1 else 0)
  {
    BacklightOnCounts(cfg, s, LimitLevel(cfg, level));
    BacklightOffCounts(cfg, s);
  }

  lemma StepCurrentLimit(cfg: Config, s: State, op: Op)
    ensures Step(cfg, s, op).next.firstBoot ==> s.firstBoot
    ensures CountWrites(Step(cfg, s, op).events, CURRENT_LIMIT) + (if Step(cfg, s, op).next.firstBoot then 1 else 0)
            <= (if s.firstBoot then 1 else 0) + (if op.PwmDisableCall? then 1 else 0)
  {
    match op
    case SetLevelCall(level) =>
      SetLevelCounts(cfg, s, level);
    case PwmDisableCall =>
      PwmDisableCounts(cfg, s);
    case IntensityCall(b, blank, susp) =>
      SetLevelCounts(cfg, s, IntensityLevel(cfg, b, blank, susp));
    case ResumeCall =>
      BacklightOnCounts(cfg, s, s.saved);
    case SuspendCall =>
      BacklightOffCounts(cfg, s);
    case StoreLevelCall(count, level) =>
      LevelWritesCount(cfg, level, CURRENT_LIMIT);
    case StoreOnOffCall(count, onOff) =>
      StoreOnOffCounts(cfg, s, count, onOff);
  }

  /** Over any run, the current limit is written at most once by the first-boot
      latch, plus once per pwm_disable call; once first_boot is clear it stays clear. */
  lemma {:induction false} CurrentLimitWrittenOnce(cfg: Config, s: State, ops: seq<Op>)
    ensures Run(cfg, s, ops).next.firstBoot ==> s.firstBoot
    ensures CountWrites(Run(cfg, s, ops).events, CURRENT_LIMIT) + (if Run(cfg, s, ops).next.firstBoot then 1 else 0)
            <= (if s.firstBoot then 1 else 0) + PwmCalls(ops)
    decreases |ops|
  {
    if ops != [] {
      var first := Step(cfg, s, ops[0]);
      var rest := Run(cfg, first.next, ops[1..]);
      assert Run(cfg, s, ops) == Transition(rest.next, first.events + rest.events);
      StepCurrentLimit(cfg, s, ops[0]);
      CurrentLimitWrittenOnce(cfg, first.next, ops[1..]);
      CountWritesAppend(first.events, rest.events, CURRENT_LIMIT);
    }
  }

  /** Without pwm_disable calls, a run from the initial state writes the current limit at most once. */
  lemma InitialRunWritesCurrentLimitAtMostOnce(cfg: Config, ops: seq<Op>)
    requires PwmCalls(ops) == 0
    ensures CountWrites(Run(cfg, Initial, ops).events, CURRENT_LIMIT) <= 1
  {
    CurrentLimitWrittenOnce(cfg, Initial, ops);
  }

  // ---------------------------------------------------------------------------
  // The activation sequence runs once per OFF-to-ON transition

  lemma PwmDisableCounts(cfg: Config, s: State)
    ensures CountWrites(PwmDisable(cfg, s).events, CURRENT_LIMIT) == (if s.status == On then 1 else 0)
    ensures CountWrites(PwmDisable(cfg, s).events, BOOST_CONFIG) == 0
  {
    if s.status == On {
      CountWritesSingle(PwmDisable(cfg, s).events[0], CURRENT_LIMIT);
      CountWritesSingle(PwmDisable(cfg, s).events[0], BOOST_CONFIG);
    }
  }

  lemma StoreOnOffCounts(cfg: Config, s: State, count: nat, onOff: int)
    ensures CountWrites(StoreOnOff(cfg, s, count, onOff).events, BOOST_CONFIG)
            == (if s.status == Off && StoreOnOff(cfg, s, count, onOff).next.status == On then 1 else 0)
    ensures CountWrites(StoreOnOff(cfg, s, count, onOff).events, CURRENT_LIMIT)
            == (if s.firstBoot && !StoreOnOff(cfg, s, count, onOff).next.firstBoot then 1 else 0)
  {
    BacklightOnCounts(cfg, s, s.saved);
    BacklightOffCounts(cfg, s);
  }

  lemma StepBoost(cfg: Config, s: State, op: Op)
    ensures CountWrites(Step(cfg, s, op).events, BOOST_CONFIG)
            == (if s.status == Off && Step(cfg, s, op).next.status == On then 1 else 0)
  {
    match op
    case SetLevelCall(level) =>
      SetLevelCounts(cfg, s, level);
    case PwmDisableCall =>
      PwmDisableCounts(cfg, s);
    case IntensityCall(b, blank, susp) =>
      SetLevelCounts(cfg, s, IntensityLevel(cfg, b, blank, susp));
    case ResumeCall =>
      BacklightOnCounts(cfg, s, s.saved);
    case SuspendCall =>
      BacklightOffCounts(cfg, s);
    case StoreLevelCall(count, level) =>
      LevelWritesCount(cfg, level, BOOST_CONFIG);
    case StoreOnOffCall(count, onOff) =>
      StoreOnOffCounts(cfg, s, count, onOff);
  }

  /** The last write of the activation sequence occurs exactly once per OFF-to-ON transition. */
  lemma {:induction false} ActivationPerTransition(cfg: Config, s: State, ops: seq<Op>)
    ensures CountWrites(Run(cfg, s, ops).events, BOOST_CONFIG) == Activations(cfg, s, ops)
    decreases |ops|
  {
    if ops != [] {
      var first := Step(cfg, s, ops[0]);
      var rest := Run(cfg, first.next, ops[1..]);
      assert Run(cfg, s, ops) == Transition(rest.next, first.events + rest.events);
      StepBoost(cfg, s, ops[0]);
      ActivationPerTransition(cfg, first.next, ops[1..]);
      CountWritesAppend(first.events, rest.events, BOOST_CONFIG);
    }
  }

  // ---------------------------------------------------------------------------
  // OFF means bank A disabled

  /** While the status is OFF, the bank-enable register last received 0. */
  ghost predicate OffMeansDark(s: State, log: seq<Event>)
  {
    s.status == Off ==> LastWrite(log, BANK_ENABLE) == Some(0x00)
  }

  lemma StepKeepsOffDark(cfg: Config, s: State, log: seq<Event>, op: Op)
    requires OffMeansDark(s, log)
    ensures OffMeansDark(Step(cfg, s, op).next, log + Step(cfg, s, op).events)
  {
    var t := Step(cfg, s, op);
    LastWriteAppend(log, t.events, BANK_ENABLE);
    if t.next.status == Off && t.events != [] {
      // only backlight_off from ON and store_level reach here
      if s.status == On {
        assert t.events == [Write(BANK_ENABLE, 0x00), PinLow];
        assert LastWrite(t.events, BANK_ENABLE) == LastWrite([Write(BANK_ENABLE, 0x00)], BANK_ENABLE);
      } else {
        assert op.StoreLevelCall? && t.events == LevelWrites(cfg, op.level);
        assert |t.events| == 1;
      }
    }
  }

  /** Every run keeps OFF dark: from OFF, the bank is never left enabled. */
  lemma {:induction false} RunKeepsOffDark(cfg: Config, s: State, log: seq<Event>, ops: seq<Op>)
    requires OffMeansDark(s, log)
    ensures OffMeansDark(Run(cfg, s, ops).next, log + Run(cfg, s, ops).events)
    decreases |ops|
  {
    if ops != [] {
      var first := Step(cfg, s, ops[0]);
      var rest := Run(cfg, first.next, ops[1..]);
      RunUnfold(cfg, s, ops);
      StepKeepsOffDark(cfg, s, log, ops[0]);
      RunKeepsOffDark(cfg, first.next, log + first.events, ops[1..]);
      assert log + first.events + rest.events == log + (first.events + rest.events);
    } else {
      assert log + [] == log;
    }
  }

  /** The converse does not hold: from the initial state, suspend, resume and
      set_level(100) leave the status ON while bank A was last disabled, so the
      panel stays dark until the next OFF-to-ON transition. */
  lemma OnCanBeDark(cfg: Config)
    requires cfg.blmap.None? && cfg.minBrightness <= 100 <= cfg.maxBrightness
    ensures var a := Suspend(cfg, Initial); var b := Resume(cfg, a.next); var c := SetLevel(cfg, b.next, 100);
            c.next.status == On && c.next.cur == 100 &&
            c.events == [Write(BRIGHTNESS, 100)] &&
            LastWrite(a.events + b.events + c.events, BANK_ENABLE) == Some(0x00)
  {
    var a := Suspend(cfg, Initial);
    var b := Resume(cfg, a.next);
    var c := SetLevel(cfg, b.next, 100);
    assert a.next == State(Off, 0, 0, true);
    ResumeWithZeroSaved(cfg, a.next);
    assert c.events == [Write(BRIGHTNESS, 100)];
    LastWriteNone(c.events, BANK_ENABLE);
    LastWriteAppend(a.events + b.events, c.events, BANK_ENABLE);
    LastWriteAppend(a.events, b.events, BANK_ENABLE);
  }
}
