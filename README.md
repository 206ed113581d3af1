# LM3533 backlight driver: brightness and power state machine

This project models the control logic of the LM3533 backlight driver in
`drivers/video/backlight/lm3533.c` and proves properties about it. The driver
keeps four process-wide variables: `backlight_status`, `cur_main_lcd_level`,
`saved_main_lcd_level` and `first_boot`. It moves them through
backlight-on, backlight-off, set-level, suspend/resume and the two sysfs store
handlers. Each step issues an ordered series of I2C register writes and
reset-pin changes.

Modules:

- `Registers` (registers.dfy): bytes, the effect log (`Event`: a register write, the
  reset pin driven high, the pin driven low), the platform data (`Config`), the
  C `unsigned char` conversion, and a read-back view of a log (`LastWrite`,
  `CountWrites`).
- `LevelMapper` (level_mapper.dfy): the clamp into `[min_brightness, max_brightness]`,
  the calibration lookup, and which single write `lm3533_set_main_current_level` issues.
- `PowerSpec` (power_spec.dfy): each driver function as a transition from the
  four variables to the new variables plus the effects issued, in order.
- `Runs` (runs.dfy): any sequence of calls through the entry points, and the
  properties that hold over a whole run. These are proved by induction.
- `Driver` (driver.dfy): class `Lm3533` with the four variables as fields and
  a ghost effect log. Its methods are imperative, statement by statement as in
  the C source. Each is proved to produce exactly the new state and the log
  suffix of its `PowerSpec` transition.
- `Findings` (findings.dfy): the entry order of `lm3533_lcd_backlight_set_level`.

Behaviour of the code worth noting:

- The initial status is ON (line 63): the driver starts as if the backlight were already on.
- `cur_main_lcd_level` keeps the raw, unclamped level (line 101). So
  `set_level(5)` with `min_brightness = 10` writes 10 but records 5.
- Resume calls `lm3533_backlight_on` with the saved level unconditionally
  (line 268). With a saved level of 0 it does not leave the backlight OFF.
  From OFF it runs the activation sequence, disables bank A with `0x27 <- 0`
  (line 151), and then sets the status to ON (line 152). From ON it only
  disables bank A, after the `0x17` write if `first_boot` is still set.
  `PowerSpec.ResumeWithZeroSaved` and `Runs.OnCanBeDark` state this.
- When the calibration index is out of range the driver only warns and writes
  nothing (lines 116-118). The model does the same.
- The `first_boot` write of `0x17` sits outside the OFF test (lines 146-149).
  It fires on the first `lm3533_backlight_on` call whatever the status.
- `lcd_backlight_store_level` bypasses the lock, the max clamp of set-level
  and the status flag.

## Model

| member | source | states |
|---|---|---|
| Registers.ToByte | drivers/video/backlight/lm3533.c:77-78 | an int passed as `unsigned char` (taken modulo 256) is unchanged when it lies in 0..255 |
| LevelMapper.CalValue | drivers/video/backlight/lm3533.c:103-109 | for any level > 0, cal_value is the clamp of the level into [min, max], so it lies in that range; a negative level leaves cal_value 0 |
| LevelMapper.CalValueMonotone | drivers/video/backlight/lm3533.c:103-109 | the clamp is monotone on positive levels |
| LevelMapper.BrightnessCode | drivers/video/backlight/lm3533.c:111-121 | no code exactly when a table exists and cal_value >= its size; otherwise table[cal_value], or cal_value itself when there is no table |
| LevelMapper.LevelWrites | drivers/video/backlight/lm3533.c:103-123 | at most one write; level 0 gives exactly `0x27 <- 0`; a non-zero level gives `0x40 <- code`, or nothing when the table index is out of range |
| LevelMapper.LowLevelsWriteMinimum | drivers/video/backlight/lm3533.c:104-105 | every level in (0, min] issues the write that min issues |
| LevelMapper.HighLevelsWriteMaximum | drivers/video/backlight/lm3533.c:108-109 | for a positive max, every level above max issues the write that max issues (with max 0, level 0 disables the bank instead) |
| LevelMapper.LevelWritesRegisters | drivers/video/backlight/lm3533.c:111-123 | the mapper writes only register 0x40 or 0x27 |
| LevelMapper.IdentityTableIsTransparent | drivers/video/backlight/lm3533.c:111-121 | a 256-entry identity table issues the same writes as no table when max fits in a byte |
| PowerSpec.StatusCode | drivers/video/backlight/lm3533.c:34-35 | the status is reported as BL_ON (1) exactly when it is ON, otherwise BL_OFF (0) |
| PowerSpec.ActivationSequence | drivers/video/backlight/lm3533.c:137-143 | the reset pulse (`ResetHigh`) first when a pin is wired, nothing before them otherwise; then the six writes `0x10<-0, 0x14<-1, 0x1A<-0, 0x1F<-0x13, 0x27<-1, 0x2C<-0xE`, in that order |
| PowerSpec.MainCurrent | drivers/video/backlight/lm3533.c:101 | set_main_current_level records the raw level and changes no other variable |
| PowerSpec.BacklightOn | drivers/video/backlight/lm3533.c:129-154 | after backlight_on: status ON, current level = level, saved level unchanged, first_boot false; the number of effects is activation (only if OFF) + one (only if first_boot) + the mapper's |
| PowerSpec.BacklightOnEffects | drivers/video/backlight/lm3533.c:134-151 | the activation sequence comes first and is present iff the status was OFF; `0x17 <- max_current` is issued whenever first_boot was set; the mapper's write is last |
| PowerSpec.BacklightOff | drivers/video/backlight/lm3533.c:156-178 | from OFF: no effect and no state change; from ON: saved = previous current level, current level 0, status OFF, effects exactly `0x27 <- 0` then the pin driven low |
| PowerSpec.LimitLevel | drivers/video/backlight/lm3533.c:190-191 | a level above max becomes max; any other level is unchanged |
| PowerSpec.SetLevel | drivers/video/backlight/lm3533.c:190-197 | a non-zero limited level ends ON at that level; a zero one ends OFF; the current level stays <= max if it was |
| PowerSpec.PwmDisable | drivers/video/backlight/lm3533.c:201-210 | no state change; no write when OFF; otherwise exactly `0x17 <- max_current & 0x1F` |
| PowerSpec.Resume | drivers/video/backlight/lm3533.c:266-270 | resume ends ON with the current level equal to the saved level, with no zero check or clamp |
| PowerSpec.Suspend | drivers/video/backlight/lm3533.c:272-278 | suspend ends OFF and issues nothing when already OFF |
| PowerSpec.StoreLevel | drivers/video/backlight/lm3533.c:249-264 | an empty write changes nothing; otherwise the level is recorded and sent to the mapper, while status, saved level and first_boot are untouched |
| PowerSpec.StoreOnOff | drivers/video/backlight/lm3533.c:289-313 | 1 resumes to the saved level, 0 ends OFF, an empty write or any other value does nothing |
| PowerSpec.IntensityLevel | drivers/video/backlight/lm3533.c:225-229 | a blanked or suspended panel gives 0; otherwise a raw 0 gives default_brightness and any other value passes through |
| PowerSpec.Intensity | drivers/video/backlight/lm3533.c:219-233 | a blanked or suspended panel ends OFF; an unblanked raw 0 ends ON at the limited default when that is non-zero |
| PowerSpec.SetLevelAboveMax | drivers/video/backlight/lm3533.c:190-191 | set_level(n) for n > max is set_level(max) |
| PowerSpec.SetLevelBelowMin | drivers/video/backlight/lm3533.c:104-105 | set_level(n) for n in (0, min] issues the writes of set_level(min) but records n |
| PowerSpec.OffIdempotent | drivers/video/backlight/lm3533.c:163-167 | a second backlight_off issues nothing and changes nothing |
| PowerSpec.SetLevelZeroIdempotent | drivers/video/backlight/lm3533.c:194-197 | set_level(0) ends OFF, and a second set_level(0) issues nothing |
| PowerSpec.OffThenResume | drivers/video/backlight/lm3533.c:169-171 | off from ON saves the level and zeroes the current one; a following resume (line 268) ends ON at that level, runs the activation sequence first and writes the level last |
| PowerSpec.ResumeWithZeroSaved | drivers/video/backlight/lm3533.c:266-270 | from OFF with a saved level of 0, resume ends ON while its last bank-enable write is 0 |
| PowerSpec.ScenarioWithoutTable | drivers/video/backlight/lm3533.c:94-154 | min 10, max 255, no table: set_level(5) writes 10 and records 5; set_level(300) writes 255; set_level(0) turns off; resume rewrites 255 after the activation writes |
| Runs.BacklightOnCounts | drivers/video/backlight/lm3533.c:134-149 | one backlight_on writes `0x17` once if first_boot was set and never otherwise, and writes `0x2C` once if the status was OFF and never otherwise |
| Runs.CurrentLimitWrittenOnce | drivers/video/backlight/lm3533.c:146-149 | over any run, the writes to `0x17` are at most one from the first-boot latch plus one per pwm_disable call; once first_boot is false it stays false |
| Runs.InitialRunWritesCurrentLimitAtMostOnce | drivers/video/backlight/lm3533.c:128 | from the initial state, a run without pwm_disable writes `0x17` at most once |
| Runs.ActivationPerTransition | drivers/video/backlight/lm3533.c:134-144 | over any run, the activation sequence's last write occurs exactly once per call that takes the status from OFF to ON |
| Runs.RunKeepsOffDark | drivers/video/backlight/lm3533.c:169-171 | over any run, while the status is OFF the last value written to `0x27` is 0 |
| Runs.OnCanBeDark | drivers/video/backlight/lm3533.c:266-270 | from the initial state, suspend, resume and set_level(100) end ON at level 100 with bank A last disabled; set_level only writes `0x40` |
| Findings.SetLevelEntryAsWritten | drivers/video/backlight/lm3533.c:182-188 | the driver-data read comes before the NULL test, so no client means a fault, and a client means the function continues |
| Findings.AsWrittenNullCheckIsDead | drivers/video/backlight/lm3533.c:182-188 | as written, a missing client faults at the driver-data read, and the "not yet enabled" return is never reached |
| Findings.SetLevelEntry | drivers/video/backlight/lm3533.c:185-188 | when the client is tested first, there is no fault, and the early return happens exactly when there is no client |
| Driver.Lm3533.constructor | drivers/video/backlight/lm3533.c:61-63 | initial state: status ON, both levels 0, first_boot true (its initialiser is at line 128), empty log |
| Driver.Lm3533.WriteReg | drivers/video/backlight/lm3533.c:77-92 | appends exactly one register write to the log and changes no variable |
| Driver.Lm3533.HwReset | drivers/video/backlight/lm3533.c:65-75 | drives the reset pin high only when a valid pin is configured |
| Driver.Lm3533.SetMainCurrentLevel | drivers/video/backlight/lm3533.c:94-126 | the new variables and log suffix are those of `PowerSpec.MainCurrent` |
| Driver.Lm3533.Activate | drivers/video/backlight/lm3533.c:137-143 | appends exactly the activation sequence |
| Driver.Lm3533.BacklightOn | drivers/video/backlight/lm3533.c:129-154 | the new variables and log suffix are those of `PowerSpec.BacklightOn` |
| Driver.Lm3533.BacklightOff | drivers/video/backlight/lm3533.c:156-178 | the new variables and log suffix are those of `PowerSpec.BacklightOff` |
| Driver.Lm3533.SetLevel | drivers/video/backlight/lm3533.c:180-198 | with no client, nothing changes; otherwise the result is that of `PowerSpec.SetLevel` |
| Driver.Lm3533.PwmDisable | drivers/video/backlight/lm3533.c:201-210 | variables unchanged; log suffix as in `PowerSpec.PwmDisable` |
| Driver.Lm3533.OnStatus | drivers/video/backlight/lm3533.c:213-216 | returns BL_ON exactly when the status is ON, otherwise BL_OFF |
| Driver.Lm3533.BlSetIntensity | drivers/video/backlight/lm3533.c:219-233 | returns 0; the result is that of `PowerSpec.Intensity` |
| Driver.Lm3533.Resume | drivers/video/backlight/lm3533.c:266-270 | returns 0; the result is that of `PowerSpec.Resume` |
| Driver.Lm3533.Suspend | drivers/video/backlight/lm3533.c:272-278 | returns 0; the result is that of `PowerSpec.Suspend` |
| Driver.Lm3533.StoreLevel | drivers/video/backlight/lm3533.c:249-264 | returns -EINVAL for an empty write and the byte count otherwise; the result is that of `PowerSpec.StoreLevel` |
| Driver.Lm3533.StoreOnOff | drivers/video/backlight/lm3533.c:289-313 | returns -EINVAL for an empty write and the byte count otherwise; the result is that of `PowerSpec.StoreOnOff` |

## Findings

| source | as written | input that shows it | evidently intended | confidence | as-written member | corrected member |
|---|---|---|---|---|---|---|
| drivers/video/backlight/lm3533.c:182-188 | `i2c_get_clientdata(client)` reads through the global client before `if (!client)` tests it | any call of `lm3533_lcd_backlight_set_level` while `lm3533_i2c_client` is NULL, i.e. before probe completes or after remove | test the client first and return with the "not yet enabled" warning | high (not executed) | Findings.SetLevelEntryAsWritten, Findings.AsWrittenNullCheckIsDead | Findings.SetLevelEntry, used by Driver.Lm3533.SetLevel |

## Left out

- I2C transport: `lm3533_write_reg` appends one `Write` event. Its `i2c_transfer` failure only logs an error, and the function always returns 0 (lines 88-91). No caller reads that result, so `WriteReg` returns nothing.
- GPIO: `lm3533_hw_reset` is one `ResetHigh` event, emitted only when the pin is valid. It is modelled by the flag `hasResetPin`, which stands for `gpio_is_valid`. The `gpio_tlmm_config` and `gpio_direction_output(gpio, 0)` calls in backlight-off are one `PinLow` event, logged after the `0x27 <- 0` write and emitted whatever the pin.
- Delays (`mdelay`, `msleep`), the mutex and `pr_*`/`dev_*` logging: every locked function is one atomic method, and concurrency is not modelled.
- sysfs text: the store handlers take the byte count and the already-parsed integer. The `simple_strtoul` parse and its conversion to `int` are not modelled.
- `lcd_backlight_show_level`, `lcd_backlight_show_on_off` and `bl_get_intensity`: these only format text, log, or always return 0 (lines 237-239).
- Registration and lifecycle: `lm3533_probe`, `lm3533_remove`, `lcd_backlight_init`, the attribute and ops tables. Whether a client is attached is fixed when the object is built.
- The backlight core's `props.brightness`: the model does not track it. Probe sets it to `default_brightness` (line 358) and the backlight core updates it before calling `bl_set_intensity`, so `bl_set_intensity` receives it, with the FBBLANK/SUSPENDED state bits, as arguments.
- The calibration table: its length stands in for `blmap_size`. A platform that declares a larger `blmap_size` than its table, which would be an out-of-bounds read, is not modelled.
- Platform data with `min_brightness < 0` or `min_brightness > max_brightness` is excluded by the `Config` subset type.
- Driver.Lm3533.PwmDisable: requires an attached client, because line 204 reads through the global client with no NULL test.
- Driver.Lm3533.BlSetIntensity: requires an attached client, because line 222 reads through the global client with no NULL test.
- arch/arm/mach-msm/include/mach/hsic_debug_ch.h: holds only type and prototype declarations for an unrelated debug transport.
