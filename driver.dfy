/** The LM3533 driver's process-wide state and entry points as one object. The
    fields are the driver's globals; `log` records, in order, every register
    write and reset-pin change the driver makes. Every method is proved to do
    exactly what the matching transition of PowerSpec describes. */
module Driver {
  import opened Registers
  import opened LevelMapper
  import opened PowerSpec
  import Findings

  const EINVAL: int := 22

  class Lm3533 {
    const cfg: Config        // the lm3533_device fields copied from platform data at probe
    const attached: bool     // lm3533_i2c_client != NULL
    var status: Status       // backlight_status
    var curLevel: int        // cur_main_lcd_level
    var savedLevel: int      // saved_main_lcd_level
    var firstBoot: bool      // first_boot
    ghost var log: seq<Event>

    /** The four globals as a PowerSpec state. */
    function Snapshot(): (s: State)
      reads this
    {
      State(status, curLevel, savedLevel, firstBoot)
    }

    /** The state of the globals at module load. */
    constructor (cfg: Config, attached: bool)
      ensures this.cfg == cfg && this.attached == attached
      ensures Snapshot() == Initial && log == []
    {
      this.cfg := cfg;
      this.attached := attached;
      status := On;
      curLevel := 0;
      savedLevel := 0;
      firstBoot := true;
      log := [];
    }

    /** lm3533_write_reg: one message on the bus; its result is always 0 and no caller reads it. */
    method WriteReg(reg: Byte, val: Byte)
      modifies this
      ensures Snapshot() == old(Snapshot())
      ensures log == old(log) + [Write(reg, val)]
    {
      log := log + [Write(reg, val)];
    }

    /** lm3533_hw_reset: drives the reset pin high when one is wired. */
    method HwReset()
      modifies this
      ensures Snapshot() == old(Snapshot())
      ensures log == old(log) + if cfg.hasResetPin then [ResetHigh] else []
    {
      if cfg.hasResetPin {
        log := log + [ResetHigh];
      }
    }

    /** lm3533_set_main_current_level. */
    method SetMainCurrentLevel(level: int)
      modifies this
      ensures Snapshot() == MainCurrent(cfg, old(Snapshot()), level).next
      ensures log == old(log) + MainCurrent(cfg, old(Snapshot()), level).events
    {
      curLevel := level;
      if level != 0 {
        var cal := 0;
        if 0 < level <= cfg.minBrightness {
          cal := cfg.minBrightness;
        } else if cfg.minBrightness < level <= cfg.maxBrightness {
          cal := level;
        } else if level > cfg.maxBrightness {
          cal := cfg.maxBrightness;
        }
        match cfg.blmap {
          case Some(table) =>
            if cal < |table| {
              WriteReg(BRIGHTNESS, table[cal]);
            }
            // otherwise the driver only warns about the invalid index
          case None =>
            WriteReg(BRIGHTNESS, ToByte(cal));
        }
      } else {
        WriteReg(BANK_ENABLE, 0x00);
      }
    }

    /** The block lm3533_backlight_on runs when the status is OFF: reset, then six writes. */
    method Activate()
      modifies this
      ensures Snapshot() == old(Snapshot())
      ensures log == old(log) + ActivationSequence(cfg)
    {
      HwReset();
      ghost var reset := log;
      WriteReg(0x10, 0x00);
      WriteReg(0x14, 0x01);
      WriteReg(0x1A, 0x00);
      WriteReg(0x1F, 0x13);
      WriteReg(BANK_ENABLE, 0x01);
      WriteReg(BOOST_CONFIG, 0x0E);
      assert log == reset + ActivationWrites;
    }

    /** lm3533_backlight_on. */
    method BacklightOn(level: int)
      modifies this
      ensures Snapshot() == PowerSpec.BacklightOn(cfg, old(Snapshot()), level).next
      ensures log == old(log) + PowerSpec.BacklightOn(cfg, old(Snapshot()), level).events
    {
      if status == Off {
        Activate();
      }
      ghost var activated := log;
      if firstBoot {
        WriteReg(CURRENT_LIMIT, ToByte(cfg.maxCurrent));
        firstBoot := false;
      }
      assert log == activated + FirstBootWrites(cfg, old(Snapshot()));
      SetMainCurrentLevel(level);
      status := On;
    }

    /** lm3533_backlight_off. */
    method BacklightOff()
      modifies this
      ensures Snapshot() == PowerSpec.BacklightOff(cfg, old(Snapshot())).next
      ensures log == old(log) + PowerSpec.BacklightOff(cfg, old(Snapshot())).events
    {
      if status == Off {
        return;
      }
      savedLevel := curLevel;
      SetMainCurrentLevel(0);
      status := Off;
      log := log + [PinLow];
    }

    /** lm3533_lcd_backlight_set_level, with the client tested before it is used:
        without a client, nothing happens. */
    method SetLevel(level: int)
      modifies this
      ensures !attached ==> Snapshot() == old(Snapshot()) && log == old(log)
      ensures attached ==> Snapshot() == PowerSpec.SetLevel(cfg, old(Snapshot()), level).next
      ensures attached ==> log == old(log) + PowerSpec.SetLevel(cfg, old(Snapshot()), level).events
    {
      if Findings.SetLevelEntry(attached) == Findings.NotYetEnabled {
        return;
      }
      var l := level;
      if l > cfg.maxBrightness {
        l := cfg.maxBrightness;
      }
      if l != 0 {
        BacklightOn(l);
      } else {
        BacklightOff();
      }
    }

    /** lm3533_lcd_backlight_pwm_disable. */
    method PwmDisable()
      requires attached
      modifies this
      ensures Snapshot() == old(Snapshot())
      ensures log == old(log) + PowerSpec.PwmDisable(cfg, old(Snapshot())).events
    {
      if status == Off {
        return;
      }
      WriteReg(CURRENT_LIMIT, ToByte(cfg.maxCurrent) & 0x1F);
    }

    /** lm3533_lcd_backlight_on_status. */
    method OnStatus() returns (code: int)
      ensures code == BL_ON || code == BL_OFF
      ensures code == BL_ON <==> status == On
    {
      code := if status == On then BL_ON else BL_OFF;
    }

    /** bl_set_intensity, given the backlight core's brightness and state bits. */
    method BlSetIntensity(brightness: int, fbBlank: bool, suspended: bool) returns (r: int)
      requires attached
      modifies this
      ensures r == 0
      ensures Snapshot() == Intensity(cfg, old(Snapshot()), brightness, fbBlank, suspended).next
      ensures log == old(log) + Intensity(cfg, old(Snapshot()), brightness, fbBlank, suspended).events
    {
      var b := brightness;
      if fbBlank || suspended {
        b := 0;
      } else if b == 0 {
        b := cfg.defaultBrightness;
      }
      SetLevel(b);
      r := 0;
    }

    /** lm3533_bl_resume. */
    method Resume() returns (r: int)
      modifies this
      ensures r == 0
      ensures Snapshot() == PowerSpec.Resume(cfg, old(Snapshot())).next
      ensures log == old(log) + PowerSpec.Resume(cfg, old(Snapshot())).events
    {
      BacklightOn(savedLevel);
      r := 0;
    }

    /** lm3533_bl_suspend. */
    method Suspend() returns (r: int)
      modifies this
      ensures r == 0
      ensures Snapshot() == PowerSpec.Suspend(cfg, old(Snapshot())).next
      ensures log == old(log) + PowerSpec.Suspend(cfg, old(Snapshot())).events
    {
      BacklightOff();
      r := 0;
    }

    /** lcd_backlight_store_level, on the parsed level of a write of `count` bytes. */
    method StoreLevel(count: nat, level: int) returns (r: int)
      modifies this
      ensures r == if count == 0 then -EINVAL else count
      ensures Snapshot() == PowerSpec.StoreLevel(cfg, old(Snapshot()), count, level).next
      ensures log == old(log) + PowerSpec.StoreLevel(cfg, old(Snapshot()), count, level).events
    {
      if count == 0 {
        return -EINVAL;
      }
      SetMainCurrentLevel(level);
      curLevel := level;
      r := count;
    }

    /** lcd_backlight_store_on_off, on the parsed value of a write of `count` bytes. */
    method StoreOnOff(count: nat, onOff: int) returns (r: int)
      modifies this
      ensures r == if count == 0 then -EINVAL else count
      ensures Snapshot() == PowerSpec.StoreOnOff(cfg, old(Snapshot()), count, onOff).next
      ensures log == old(log) + PowerSpec.StoreOnOff(cfg, old(Snapshot()), count, onOff).events
    {
      if count == 0 {
        return -EINVAL;
      }
      if onOff == 1 {
        var _ := Resume();
      } else if onOff == 0 {
        var _ := Suspend();
      }
      r := count;
    }
  }
}
