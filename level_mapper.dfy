/** The level mapper of lm3533_set_main_current_level: the clamp of a requested
    level into [min_brightness, max_brightness], the optional calibration-table
    lookup, and the choice of the single register write that results. */
module LevelMapper {
  import opened Registers

  /** Reference clamp of x into [lo, hi]. */
  function Clamp(x: int, lo: int, hi: int): (c: int)
    requires lo <= hi
  {
    if x < lo then lo else if x > hi then hi else x
  }

  /** cal_value: the clamped level the driver looks up or writes. A negative
      level matches none of the three ranges and leaves cal_value at 0. */
  function CalValue(cfg: Config, level: int): (cal: int)
    ensures level > 0 ==> cal == Clamp(level, cfg.minBrightness, cfg.maxBrightness)
    ensures level > 0 ==> cfg.minBrightness <= cal <= cfg.maxBrightness
    ensures level < 0 ==> cal == 0
  {
    if 0 < level <= cfg.minBrightness then cfg.minBrightness
    else if cfg.minBrightness < level <= cfg.maxBrightness then level
    else if level > cfg.maxBrightness then cfg.maxBrightness
    else 0
  }

  /** The brightness code for a non-zero level: the table entry when a table is
      configured and cal_value indexes it, None when it does not, and cal_value
      itself (as an unsigned char) when there is no table. */
  function BrightnessCode(cfg: Config, level: int): (code: Option<Byte>)
    ensures code.None? <==> cfg.blmap.Some? && CalValue(cfg, level) >= |cfg.blmap.value|
    ensures cfg.blmap.Some? && code.Some? ==> code.value == cfg.blmap.value[CalValue(cfg, level)]
    ensures cfg.blmap.None? ==> code == Some(ToByte(CalValue(cfg, level)))
  {
    var cal := CalValue(cfg, level);
    match cfg.blmap
    case Some(table) => if cal < |table| then Some(table[cal]) else None
    case None => Some(ToByte(cal))
  }

  /** The register writes of lm3533_set_main_current_level(level). */
  function LevelWrites(cfg: Config, level: int): (w: seq<Event>)
    ensures |w| <= 1
    ensures level == 0 <==> w == [Write(BANK_ENABLE, 0x00)]
    ensures level != 0 ==> (w == [] <==> BrightnessCode(cfg, level).None?)
    ensures level != 0 && w != [] ==> w == [Write(BRIGHTNESS, BrightnessCode(cfg, level).value)]
  {
    if level != 0 then
      match BrightnessCode(cfg, level)
      case Some(code) => [Write(BRIGHTNESS, code)]
      case None => []
    else
      [Write(BANK_ENABLE, 0x00)]
  }

  /** The clamp is monotone on positive levels. */
  lemma CalValueMonotone(cfg: Config, a: int, b: int)
    requires 0 < a <= b
    ensures CalValue(cfg, a) <= CalValue(cfg, b)
  {
  }

  /** Every level in (0, min_brightness] produces the write that min_brightness does. */
  lemma LowLevelsWriteMinimum(cfg: Config, level: int)
    requires 0 < level <= cfg.minBrightness
    ensures LevelWrites(cfg, level) == LevelWrites(cfg, cfg.minBrightness)
  {
  }

  /** Every level above max_brightness produces the write that max_brightness does. */
  lemma HighLevelsWriteMaximum(cfg: Config, level: int)
    requires level > cfg.maxBrightness && cfg.maxBrightness > 0
    ensures LevelWrites(cfg, level) == LevelWrites(cfg, cfg.maxBrightness)
  {
  }

  /** The mapper writes only the brightness or the bank-enable register. */
  lemma LevelWritesRegisters(cfg: Config, level: int)
    ensures forall e :: e in LevelWrites(cfg, level) ==> e.Write? && (e.reg == BRIGHTNESS || e.reg == BANK_ENABLE)
  {
  }

  /** An identity table of 256 entries writes what no table writes, as long as
      max_brightness fits in a byte. */
  lemma IdentityTableIsTransparent(cfg: Config, level: int)
    requires cfg.maxBrightness < 256
    requires cfg.blmap == Some(seq(256, i requires 0 <= i < 256 => i as Byte))
    ensures LevelWrites(cfg, level) == LevelWrites(cfg.(blmap := None), level)
  {
  }
}
