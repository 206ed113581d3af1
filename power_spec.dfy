/** The power controller of the LM3533 driver as transitions over its four
    process-wide variables (backlight_status, cur_main_lcd_level,
    saved_main_lcd_level, first_boot). Each transition yields the new state and
    the effects it issues, in order. The class in module Driver is proved
    against these functions. */
module PowerSpec {
  import opened Registers
  import opened LevelMapper

  /** backlight_status: BL_OFF (0) or BL_ON (1). */
  datatype Status = Off | On

  const BL_OFF: int := 0
  const BL_ON: int := 1

  /** The integer lm3533_lcd_backlight_on_status reports. */
  function StatusCode(st: Status): (code: int)
    ensures code == BL_ON || code == BL_OFF
    ensures code == BL_ON <==> st == On
  {
    match st
    case Off => BL_OFF
    case On => BL_ON
  }

  datatype State = State(status: Status, cur: int, saved: int, firstBoot: bool)

  datatype Transition = Transition(next: State, events: seq<Event>)

  /** The static initialisers: status BL_ON, both levels 0, first_boot true. */
  const Initial: State := State(On, 0, 0, true)

  /** The six register writes that configure an LM3533 coming out of OFF. */
  const ActivationWrites: seq<Event> := [
    Write(0x10, 0x00), Write(0x14, 0x01), Write(0x1A, 0x00),
    Write(0x1F, 0x13), Write(BANK_ENABLE, 0x01), Write(BOOST_CONFIG, 0x0E)]

  /** The OFF-to-ON block: the hardware reset when a reset pin is wired, then the six writes. */
  function ActivationSequence(cfg: Config): (es: seq<Event>)
    ensures |es| == (if cfg.hasResetPin then 7 else 6)
    ensures es[|es| - 6..] == ActivationWrites
    ensures cfg.hasResetPin ==> es[0] == ResetHigh
    ensures !cfg.hasResetPin ==> es == ActivationWrites
  {
    (if cfg.hasResetPin then [ResetHigh] else []) + ActivationWrites
  }

  /** lm3533_set_main_current_level: records the raw level and issues the mapper's write. */
  function MainCurrent(cfg: Config, s: State, level: int): (t: Transition)
    ensures t.next.cur == level
    ensures t.next.status == s.status && t.next.saved == s.saved && t.next.firstBoot == s.firstBoot
  {
    Transition(s.(cur := level), LevelWrites(cfg, level))
  }

  /** The first-boot write of the current limit, issued while first_boot is set. */
  function FirstBootWrites(cfg: Config, s: State): (es: seq<Event>)
  {
    if s.firstBoot then [Write(CURRENT_LIMIT, ToByte(cfg.maxCurrent))] else []
  }

  /** lm3533_backlight_on(level). */
  function BacklightOn(cfg: Config, s: State, level: int): (t: Transition)
    ensures t.next == State(On, level, s.saved, false)
    ensures |t.events| == (if s.status == Off then |ActivationSequence(cfg)| else 0)
                          + (if s.firstBoot then 1 else 0) + |LevelWrites(cfg, level)|
  {
    var activation := if s.status == Off then ActivationSequence(cfg) else [];
    Transition(State(On, level, s.saved, false), activation + FirstBootWrites(cfg, s) + LevelWrites(cfg, level))
  }

  /** What backlight_on issues: the activation sequence first, and only when the
      status was OFF; the current-limit write when first_boot was set; and the
      mapper's write for the level last. */
  lemma BacklightOnEffects(cfg: Config, s: State, level: int)
    ensures var t := BacklightOn(cfg, s, level);
            (s.status == Off ==> t.events[..|ActivationSequence(cfg)|] == ActivationSequence(cfg)) &&
            (Write(BOOST_CONFIG, 0x0E) in t.events <==> s.status == Off) &&
            (s.firstBoot ==> Write(CURRENT_LIMIT, ToByte(cfg.maxCurrent)) in t.events) &&
            t.events[|t.events| - |LevelWrites(cfg, level)|..] == LevelWrites(cfg, level)
  {
    var activation := if s.status == Off then ActivationSequence(cfg) else [];
    var lw := LevelWrites(cfg, level);
    var tail := FirstBootWrites(cfg, s) + lw;
    var es := BacklightOn(cfg, s, level).events;
    assert es == activation + tail;
    LevelWritesRegisters(cfg, level);
    assert Write(BOOST_CONFIG, 0x0E) !in tail;
    assert es[..|activation|] == activation;
    assert es[|es| - |lw|..] == lw;
    if s.status == Off {
      assert es[|activation| - 1] == Write(BOOST_CONFIG, 0x0E);
    } else {
      assert es == tail;
    }
    assert s.firstBoot ==> es[|activation|] == Write(CURRENT_LIMIT, ToByte(cfg.maxCurrent));
  }

  /** lm3533_backlight_off: nothing when already OFF; otherwise the level is
      saved, bank A is disabled, status becomes OFF and the pin is driven low. */
  function BacklightOff(cfg: Config, s: State): (t: Transition)
    ensures s.status == Off ==> t == Transition(s, [])
    ensures s.status == On ==> t.next == State(Off, 0, s.cur, s.firstBoot)
    ensures s.status == On ==> t.events == [Write(BANK_ENABLE, 0x00), PinLow]
  {
    if s.status == Off then Transition(s, [])
    else
      var t := MainCurrent(cfg, s.(saved := s.cur), 0);
      Transition(t.next.(status := Off), t.events + [PinLow])
  }

  /** The level lm3533_lcd_backlight_set_level acts on: anything above max_brightness becomes max_brightness. */
  function LimitLevel(cfg: Config, level: int): (l: int)
    ensures l <= cfg.maxBrightness
    ensures l == level || (level > cfg.maxBrightness && l == cfg.maxBrightness)
  {
    if level > cfg.maxBrightness then cfg.maxBrightness else level
  }

  /** lm3533_lcd_backlight_set_level(level), for an attached client. */
  function SetLevel(cfg: Config, s: State, level: int): (t: Transition)
    ensures LimitLevel(cfg, level) != 0 ==> t.next.status == On && t.next.cur == LimitLevel(cfg, level)
    ensures LimitLevel(cfg, level) == 0 ==> t.next.status == Off
    ensures s.cur <= cfg.maxBrightness ==> t.next.cur <= cfg.maxBrightness
  {
    var l := LimitLevel(cfg, level);
    if l != 0 then BacklightOn(cfg, s, l) else BacklightOff(cfg, s)
  }

  /** lm3533_lcd_backlight_pwm_disable: reprograms the current limit to its low five bits unless OFF. */
  function PwmDisable(cfg: Config, s: State): (t: Transition)
    ensures t.next == s
    ensures s.status == Off ==> t.events == []
    ensures s.status == On ==> |t.events| == 1 && t.events[0].Write? && t.events[0].reg == CURRENT_LIMIT
    ensures s.status == On ==> t.events[0].val <= 0x1F && t.events[0].val == ToByte(cfg.maxCurrent) & 0x1F
  {
    if s.status == Off then Transition(s, [])
    else Transition(s, [Write(CURRENT_LIMIT, ToByte(cfg.maxCurrent) & 0x1F)])
  }

  /** lm3533_bl_resume: turns the backlight on at the saved level, whatever it is. */
  function Resume(cfg: Config, s: State): (t: Transition)
    ensures t.next.status == On && t.next.cur == s.saved && t.next.saved == s.saved
  {
    BacklightOn(cfg, s, s.saved)
  }

  /** lm3533_bl_suspend: the backlight-off transition. */
  function Suspend(cfg: Config, s: State): (t: Transition)
    ensures t.next.status == Off
    ensures s.status == Off ==> t.events == []
  {
    BacklightOff(cfg, s)
  }

  /** lcd_backlight_store_level on an already-parsed level: no effect for an
      empty write; otherwise the level goes straight to the mapper, bypassing
      the lock, the max clamp of set_level and backlight_status. */
  function StoreLevel(cfg: Config, s: State, count: nat, level: int): (t: Transition)
    ensures t.next.status == s.status && t.next.saved == s.saved && t.next.firstBoot == s.firstBoot
    ensures count == 0 ==> t == Transition(s, [])
    ensures count > 0 ==> t.next.cur == level && t.events == LevelWrites(cfg, level)
  {
    if count == 0 then Transition(s, []) else MainCurrent(cfg, s, level)
  }

  /** lcd_backlight_store_on_off on an already-parsed value: 1 resumes, 0 suspends, anything else does nothing. */
  function StoreOnOff(cfg: Config, s: State, count: nat, onOff: int): (t: Transition)
    ensures count > 0 && onOff == 1 ==> t.next.status == On && t.next.cur == s.saved
    ensures count > 0 && onOff == 0 ==> t.next.status == Off
    ensures count == 0 || (onOff != 0 && onOff != 1) ==> t == Transition(s, [])
  {
    if count == 0 then Transition(s, [])
    else if onOff == 1 then Resume(cfg, s)
    else if onOff == 0 then Suspend(cfg, s)
    else Transition(s, [])
  }

  /** The brightness bl_set_intensity hands to set_level: 0 for a blanked or
      suspended panel, default_brightness for a raw 0, the raw value otherwise. */
  function IntensityLevel(cfg: Config, brightness: int, fbBlank: bool, suspended: bool): (l: int)
    ensures fbBlank || suspended ==> l == 0
    ensures !fbBlank && !suspended && brightness == 0 ==> l == cfg.defaultBrightness
    ensures !fbBlank && !suspended && brightness != 0 ==> l == brightness
  {
    if fbBlank || suspended then 0
    else if brightness == 0 then cfg.defaultBrightness
    else brightness
  }

  /** bl_set_intensity. */
  function Intensity(cfg: Config, s: State, brightness: int, fbBlank: bool, suspended: bool): (t: Transition)
    ensures fbBlank || suspended ==> t.next.status == Off
    ensures !fbBlank && !suspended && brightness == 0 && LimitLevel(cfg, cfg.defaultBrightness) != 0
            ==> t.next.status == On && t.next.cur == LimitLevel(cfg, cfg.defaultBrightness)
  {
    SetLevel(cfg, s, IntensityLevel(cfg, brightness, fbBlank, suspended))
  }

  // ---------------------------------------------------------------------------
  // Properties relating several transitions

  /** set_level(n) for n above max_brightness is set_level(max_brightness). */
  lemma SetLevelAboveMax(cfg: Config, s: State, n: int)
    requires n > cfg.maxBrightness
    ensures SetLevel(cfg, s, n) == SetLevel(cfg, s, cfg.maxBrightness)
  {
  }

  /** Levels in (0, min_brightness] issue the same register traffic as min_brightness. */
  lemma SetLevelBelowMin(cfg: Config, s: State, n: int)
    requires 0 < n <= cfg.minBrightness
    ensures SetLevel(cfg, s, n).events == SetLevel(cfg, s, cfg.minBrightness).events
    ensures SetLevel(cfg, s, n).next.cur == n
  {
  }

  /** Turning off twice: the second call is a no-op. */
  lemma OffIdempotent(cfg: Config, s: State)
    ensures var t := BacklightOff(cfg, s); BacklightOff(cfg, t.next) == Transition(t.next, [])
  {
  }

  /** set_level(0) twice leaves the backlight OFF and the second call issues nothing. */
  lemma SetLevelZeroIdempotent(cfg: Config, s: State)
    ensures var t := SetLevel(cfg, s, 0);
            t.next.status == Off && SetLevel(cfg, t.next, 0) == Transition(t.next, [])
  {
  }

  /** Off from ON followed by resume restores the level that was showing, reruns
      the activation sequence and ends by writing that level again. */
  lemma OffThenResume(cfg: Config, s: State)
    requires s.status == On
    ensures var off := Suspend(cfg, s); var on := Resume(cfg, off.next);
            off.next.saved == s.cur && off.next.cur == 0 &&
            on.next.status == On && on.next.cur == s.cur && on.next.saved == s.cur &&
            on.events[..|ActivationSequence(cfg)|] == ActivationSequence(cfg) &&
            on.events[|on.events| - |LevelWrites(cfg, s.cur)|..] == LevelWrites(cfg, s.cur)
  {
  }

  /** Resume with a saved level of 0 does not leave the backlight OFF: it marks
      it ON and its last bank-enable write disables bank A. */
  lemma ResumeWithZeroSaved(cfg: Config, s: State)
    requires s.status == Off && s.saved == 0
    ensures Resume(cfg, s).next.status == On
    ensures LastWrite(Resume(cfg, s).events, BANK_ENABLE) == Some(0x00)
  {
    var t := Resume(cfg, s);
    assert t.events == (ActivationSequence(cfg) + FirstBootWrites(cfg, s)) + [Write(BANK_ENABLE, 0x00)];
    LastWriteAppend(ActivationSequence(cfg) + FirstBootWrites(cfg, s), [Write(BANK_ENABLE, 0x00)], BANK_ENABLE);
  }

  /** A concrete run without a table: min 10, max 255, default 120. */
  lemma ScenarioWithoutTable(s: State)
    requires s.status == On && !s.firstBoot
    ensures var cfg := PlatformData(false, 0x13, 10, 255, 120, None);
            var a := SetLevel(cfg, s, 5);
            var b := SetLevel(cfg, a.next, 300);
            var c := SetLevel(cfg, b.next, 0);
            var d := Resume(cfg, c.next);
            a.events == [Write(BRIGHTNESS, 10)] && a.next.cur == 5 &&
            b.events == [Write(BRIGHTNESS, 255)] && b.next.cur == 255 &&
            c.next.status == Off && c.events == [Write(BANK_ENABLE, 0), PinLow] &&
            d.next.status == On && d.next.cur == 255 && d.events == ActivationWrites + [Write(BRIGHTNESS, 255)]
  {
  }
}
