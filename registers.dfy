/** Vocabulary shared by the LM3533 model: bytes, the effects the driver has on
    the I2C bus and on the reset pin, the platform data the driver is given at
    probe time, and a read-back view of an effect log as a register file. */
module Registers {

  type Byte = bv8

  datatype Option<T> = None | Some(value: T)

  /** One observable effect of the driver, in the order it happens. */
  datatype Event =
    | Write(reg: Byte, val: Byte)  // one two-byte message sent by lm3533_write_reg
    | ResetHigh                    // lm3533_hw_reset: reset pin made an output and driven high
    | PinLow                       // backlight off: reset pin configured as output and driven low

  /** Registers the driver writes. */
  const BRIGHTNESS: Byte := 0x40      // brightness code of control bank A
  const BANK_ENABLE: Byte := 0x27     // control bank enable
  const CURRENT_LIMIT: Byte := 0x17   // global current limit
  const BOOST_CONFIG: Byte := 0x2C    // last register of the activation sequence

  /** The fields of struct lm3533_device that the logic reads. */
  datatype PlatformData = PlatformData(
    hasResetPin: bool,        // gpio_is_valid(dev->gpio)
    maxCurrent: int,
    minBrightness: int,
    maxBrightness: int,
    defaultBrightness: int,
    blmap: Option<seq<Byte>>) // calibration table; its length plays the role of blmap_size

  /** Platform data with 0 <= min_brightness <= max_brightness. */
  type Config = c: PlatformData | 0 <= c.minBrightness <= c.maxBrightness
    witness PlatformData(false, 0, 0, 0, 0, None)

  /** The conversion C applies when an int is passed as an unsigned char. */
  function ToByte(x: int): (b: Byte)
    ensures 0 <= x < 256 ==> b as int == x
  {
    var r := x % 256;
    assert 0 <= x < 256 ==> r == x;
    r as Byte
  }

  /** The value most recently written to register `reg`, if any. */
  function LastWrite(log: seq<Event>, reg: Byte): (v: Option<Byte>)
  {
    if log == [] then None
    else if log[|log| - 1].Write? && log[|log| - 1].reg == reg then Some(log[|log| - 1].val)
    else LastWrite(log[..|log| - 1], reg)
  }

  /** The number of writes to register `reg` in `log`. */
  function CountWrites(log: seq<Event>, reg: Byte): (n: nat)
  {
    if log == [] then 0
    else (if log[0].Write? && log[0].reg == reg then 1 else 0) + CountWrites(log[1..], reg)
  }

  /** Reading a register back after more traffic: the later traffic wins when it wrote the register. */
  lemma {:induction false} LastWriteAppend(a: seq<Event>, b: seq<Event>, reg: Byte)
    ensures LastWrite(a + b, reg) == if LastWrite(b, reg).Some? then LastWrite(b, reg) else LastWrite(a, reg)
  {
    if b == [] {
      assert a + b == a;
    } else {
      var b' := b[..|b| - 1];
      assert (a + b)[..|a + b| - 1] == a + b';
      LastWriteAppend(a, b', reg);
    }
  }

  /** A register not written in `log` reads back as not written. */
  lemma {:induction false} LastWriteNone(log: seq<Event>, reg: Byte)
    requires forall i :: 0 <= i < |log| ==> !(log[i].Write? && log[i].reg == reg)
    ensures LastWrite(log, reg) == None
  {
    if log != [] {
      LastWriteNone(log[..|log| - 1], reg);
    }
  }

  /** A log without writes to `reg` counts none. */
  lemma {:induction false} CountWritesNone(log: seq<Event>, reg: Byte)
    requires forall i :: 0 <= i < |log| ==> !(log[i].Write? && log[i].reg == reg)
    ensures CountWrites(log, reg) == 0
  {
    if log != [] {
      CountWritesNone(log[1..], reg);
    }
  }

  lemma {:induction false} CountWritesAppend(a: seq<Event>, b: seq<Event>, reg: Byte)
    ensures CountWrites(a + b, reg) == CountWrites(a, reg) + CountWrites(b, reg)
  {
    if a == [] {
      assert a + b == b;
    } else {
      assert (a + b)[1..] == a[1..] + b;
      CountWritesAppend(a[1..], b, reg);
    }
  }
}
