/**
 * The DAC front end: one handle per converter number, registered
 * write-only. An output value is one word written through the kernel, either
 * given raw or computed from millivolts against the reference voltage; the
 * enable flag, resolution and speed are bit-fields of the converter's record,
 * sent with their command bits.
 */
module HalDac {
  import opened Common
  import opened HalConfigs
  import opened HalDevTypes
  import opened HalDev
  import opened HalFront

  const XF_HAL_DAC_CMD_ENABLE: bv32 := 0x1
  const XF_HAL_DAC_CMD_RESOLUTION: bv32 := 0x2
  const XF_HAL_DAC_CMD_SPEED: bv32 := 0x4
  const XF_HAL_DAC_CMD_VALUE_MAX: bv32 := 0x8
  const XF_HAL_DAC_CMD_VERF: bv32 := 0x10

  /** The largest speed set_speed admits. */
  const SPEED_MAX: nat := 50000000

  /** What a converter's handle is allocated with. */
  const Blank: Config := DacCfg(DacZero)

  /** `xf_hal_dac_register`: write-only, so the kernel refuses every read. */
  method Register(k: Kernel, ops: Option<DriverOps>) returns (err: int)
    requires k.Valid()
    modifies k.table
    ensures k.Valid()
    ensures err == (if ops.Some? then XF_OK else XF_ERR_INVALID_ARG)
    ensures err == XF_OK ==>
      && k.table[XF_HAL_DAC] == Entry(ops, XF_HAL_FLAG_ONLY_WRITE, 0, Some(Blank), [])
      && k.GetFlag(XF_HAL_DAC) == XF_HAL_FLAG_ONLY_WRITE && k.GetEnableCount(XF_HAL_DAC) == 0
      && forall d: Device, count | d.devType == XF_HAL_DAC ::
           k.ReadOutcome(d, count) == Outcome(XF_ERR_NOT_SUPPORTED, [], [])
    ensures forall u | 0 <= u < k.table.Length && (err != XF_OK || u != XF_HAL_DAC) :: k.table[u] == old(k.table[u])
  {
    err := k.Register(XF_HAL_DAC, XF_HAL_FLAG_ONLY_WRITE, Some(Blank), ops);
  }

  /** `xf_hal_dac_init`: create the converter; nothing is sent. */
  method Init(k: Kernel, n: u32) returns (err: int)
    requires k.Valid() && k.Registered(XF_HAL_DAC) && k.table[XF_HAL_DAC].ctor.Some?
    modifies k, k.table
    ensures k.Valid() && Instantiated(k, XF_HAL_DAC, n, old(k.Lookup(XF_HAL_DAC, n)), XF_ERR_NOT_FOUND, err)
  {
    err := Instantiate(k, XF_HAL_DAC, n, XF_ERR_NOT_FOUND);
  }

  /** `xf_hal_dac_deinit`. */
  method Deinit(k: Kernel, n: u32) returns (err: int)
    requires k.Valid() && k.Registered(XF_HAL_DAC)
    modifies k, k.table
    ensures k.Valid() && Released(k, XF_HAL_DAC, n, old(k.Lookup(XF_HAL_DAC, n)), XF_ERR_UNINIT, err)
  {
    err := Release(k, XF_HAL_DAC, n, XF_ERR_UNINIT);
  }

  /** `xf_hal_dac_enable`. */
  method Enable(k: Kernel, n: u32) returns (err: int)
    requires k.Valid() && k.Registered(XF_HAL_DAC)
    modifies k, k.Handle(XF_HAL_DAC, n)`config
    ensures k.Valid()
    ensures Reconfigured(k, XF_HAL_DAC, n, old(k.Lookup(XF_HAL_DAC, n)), XF_ERR_UNINIT,
                         XF_HAL_DAC_CMD_ENABLE, OnDac(DacEnable(true)), err)
  {
    err := Reconfigure(k, XF_HAL_DAC, n, XF_ERR_UNINIT, XF_HAL_DAC_CMD_ENABLE, OnDac(DacEnable(true)));
  }

  /** `xf_hal_dac_disable`. */
  method Disable(k: Kernel, n: u32) returns (err: int)
    requires k.Valid() && k.Registered(XF_HAL_DAC)
    modifies k, k.Handle(XF_HAL_DAC, n)`config
    ensures k.Valid()
    ensures Reconfigured(k, XF_HAL_DAC, n, old(k.Lookup(XF_HAL_DAC, n)), XF_ERR_UNINIT,
                         XF_HAL_DAC_CMD_ENABLE, OnDac(DacEnable(false)), err)
  {
    err := Reconfigure(k, XF_HAL_DAC, n, XF_ERR_UNINIT, XF_HAL_DAC_CMD_ENABLE, OnDac(DacEnable(false)));
  }

  /**
   * `xf_hal_dac_set_resolution` as written: a resolution above 32 is refused
   * before the lookup; otherwise it is stored into the five-bit field (so 32
   * is kept as 0) and sent.
   */
  method SetResolution(k: Kernel, n: u32, resolution: u8) returns (err: int)
    requires k.Valid() && k.Registered(XF_HAL_DAC)
    modifies k, k.Handle(XF_HAL_DAC, n)`config
    ensures k.Valid()
    ensures ResolutionRefused(resolution) ==>
      err == XF_ERR_INVALID_ARG && k.trace == old(k.trace) && unchanged(k.Handle(XF_HAL_DAC, n))
    ensures !ResolutionRefused(resolution) ==>
      Reconfigured(k, XF_HAL_DAC, n, old(k.Lookup(XF_HAL_DAC, n)), XF_ERR_UNINIT,
                   XF_HAL_DAC_CMD_RESOLUTION, OnDac(DacResolution(resolution)), err)
    ensures !ResolutionRefused(resolution) && old(k.Lookup(XF_HAL_DAC, n)) != null && KeepsRecords(k.OpsOf(XF_HAL_DAC)) ==>
      DacOf(k.Lookup(XF_HAL_DAC, n).config).resolution == Bits(resolution, 5)
  {
    if ResolutionRefused(resolution) {
      return XF_ERR_INVALID_ARG;
    }
    err := Reconfigure(k, XF_HAL_DAC, n, XF_ERR_UNINIT, XF_HAL_DAC_CMD_RESOLUTION, OnDac(DacResolution(resolution)));
  }

  /**
   * `xf_hal_dac_set_resolution` with the guard the field needs: every
   * resolution it admits is kept exactly.
   */
  method SetResolutionFixed(k: Kernel, n: u32, resolution: u8) returns (err: int)
    requires k.Valid() && k.Registered(XF_HAL_DAC)
    modifies k, k.Handle(XF_HAL_DAC, n)`config
    ensures k.Valid()
    ensures ResolutionRefusedFixed(resolution) ==>
      err == XF_ERR_INVALID_ARG && k.trace == old(k.trace) && unchanged(k.Handle(XF_HAL_DAC, n))
    ensures !ResolutionRefusedFixed(resolution) ==>
      Reconfigured(k, XF_HAL_DAC, n, old(k.Lookup(XF_HAL_DAC, n)), XF_ERR_UNINIT,
                   XF_HAL_DAC_CMD_RESOLUTION, OnDac(DacResolution(resolution)), err)
    ensures !ResolutionRefusedFixed(resolution) && old(k.Lookup(XF_HAL_DAC, n)) != null && KeepsRecords(k.OpsOf(XF_HAL_DAC)) ==>
      DacOf(k.Lookup(XF_HAL_DAC, n).config).resolution == resolution
  {
    if ResolutionRefusedFixed(resolution) {
      return XF_ERR_INVALID_ARG;
    }
    ResolutionGuardFixedExact(resolution);
    err := Reconfigure(k, XF_HAL_DAC, n, XF_ERR_UNINIT, XF_HAL_DAC_CMD_RESOLUTION, OnDac(DacResolution(resolution)));
  }

  /**
   * `xf_hal_dac_set_speed` as written: a speed above 50 MHz is refused
   * before the lookup; otherwise it is stored (it fits the twenty-six-bit
   * field) and the record is sent under the resolution command.
   */
  method SetSpeed(k: Kernel, n: u32, speed: u32) returns (err: int)
    requires k.Valid() && k.Registered(XF_HAL_DAC)
    modifies k, k.Handle(XF_HAL_DAC, n)`config
    ensures k.Valid()
    ensures speed > SPEED_MAX ==>
      err == XF_ERR_INVALID_ARG && k.trace == old(k.trace) && unchanged(k.Handle(XF_HAL_DAC, n))
    ensures speed <= SPEED_MAX ==>
      Reconfigured(k, XF_HAL_DAC, n, old(k.Lookup(XF_HAL_DAC, n)), XF_ERR_UNINIT,
                   XF_HAL_DAC_CMD_RESOLUTION, OnDac(DacSpeed(speed)), err)
    ensures speed <= SPEED_MAX && old(k.Lookup(XF_HAL_DAC, n)) != null && KeepsRecords(k.OpsOf(XF_HAL_DAC)) ==>
      DacOf(k.Lookup(XF_HAL_DAC, n).config).speed == speed
    ensures |old(k.trace)| <= |k.trace|
    ensures forall i :: |old(k.trace)| <= i < |k.trace| && k.trace[i].IoctlCall? ==>
      k.trace[i].cmd & XF_HAL_DAC_CMD_SPEED == 0
  {
    if speed > SPEED_MAX {
      return XF_ERR_INVALID_ARG;
    }
    RateFits(speed);
    SpeedSentUnderResolution();
    err := Reconfigure(k, XF_HAL_DAC, n, XF_ERR_UNINIT, XF_HAL_DAC_CMD_RESOLUTION, OnDac(DacSpeed(speed)));
  }

  /**
   * The command set_speed sends carries no speed bit, so a driver dispatching
   * on the bits never sees the change; SetSpeed states this of its trace.
   */
  lemma SpeedSentUnderResolution()
    ensures XF_HAL_DAC_CMD_RESOLUTION & XF_HAL_DAC_CMD_SPEED == 0
    ensures XF_HAL_DAC_CMD_RESOLUTION != XF_HAL_DAC_CMD_SPEED
  {
  }

  /** `xf_hal_dac_set_speed` sending the speed command, as its driver expects. */
  method SetSpeedFixed(k: Kernel, n: u32, speed: u32) returns (err: int)
    requires k.Valid() && k.Registered(XF_HAL_DAC)
    modifies k, k.Handle(XF_HAL_DAC, n)`config
    ensures k.Valid()
    ensures speed > SPEED_MAX ==>
      err == XF_ERR_INVALID_ARG && k.trace == old(k.trace) && unchanged(k.Handle(XF_HAL_DAC, n))
    ensures speed <= SPEED_MAX ==>
      Reconfigured(k, XF_HAL_DAC, n, old(k.Lookup(XF_HAL_DAC, n)), XF_ERR_UNINIT,
                   XF_HAL_DAC_CMD_SPEED, OnDac(DacSpeed(speed)), err)
    ensures speed <= SPEED_MAX && old(k.Lookup(XF_HAL_DAC, n)) != null && KeepsRecords(k.OpsOf(XF_HAL_DAC)) ==>
      DacOf(k.Lookup(XF_HAL_DAC, n).config).speed == speed
  {
    if speed > SPEED_MAX {
      return XF_ERR_INVALID_ARG;
    }
    RateFits(speed);
    err := Reconfigure(k, XF_HAL_DAC, n, XF_ERR_UNINIT, XF_HAL_DAC_CMD_SPEED, OnDac(DacSpeed(speed)));
  }

  /**
   * `xf_hal_dac_write`: a value above the record's maximum is refused
   * without a driver call; otherwise one word is written and any nonzero
   * driver result comes back negated.
   */
  method Write(k: Kernel, n: u32, value: u32) returns (err: int)
    requires k.Valid() && k.Registered(XF_HAL_DAC)
    modifies k
    ensures k.Valid() && k.Lookup(XF_HAL_DAC, n) == old(k.Lookup(XF_HAL_DAC, n))
    ensures old(k.Lookup(XF_HAL_DAC, n)) == null ==> err == XF_ERR_UNINIT && k.trace == old(k.trace)
    ensures old(k.Lookup(XF_HAL_DAC, n)) != null && value > old(DacOf(k.Lookup(XF_HAL_DAC, n).config)).valueMax ==>
      err == XF_ERR_INVALID_ARG && k.trace == old(k.trace)
    ensures old(k.Lookup(XF_HAL_DAC, n)) != null && value <= old(DacOf(k.Lookup(XF_HAL_DAC, n).config)).valueMax ==>
      var io := k.WriteOutcome(old(k.Lookup(XF_HAL_DAC, n)), [value], 1);
      && (io.ret == XF_OK <==> err == XF_OK)
      && err == -io.ret
      && k.trace == old(k.trace) + io.calls
  {
    var d := k.Find(XF_HAL_DAC, n);
    if d == null {
      return XF_ERR_UNINIT;
    }
    if value > DacOf(d.config).valueMax {
      return XF_ERR_INVALID_ARG;
    }
    var ret, got := Pass(k, d, true, [value], 1);
    err := if ret != XF_OK then -ret else XF_OK;
  }

  /**
   * The value write_mv sends for `mv` millivolts: the product of the maximum
   * and `mv` is formed in 32 bits, so it wraps before the division. Without
   * the wrap it is the wide computation's value.
   */
  function MvValue(valueMax: u32, mv: u32, verfMv: u32): (v: u32)
    requires verfMv > 0
    ensures valueMax * mv < U32_LIMIT && mv <= verfMv ==> v == MvValueWide(valueMax, mv, verfMv)
  {
    var p := ToU32(valueMax * mv);
    QuotientWithin(p, verfMv);
    p / verfMv
  }

  /** write_mv's value with the product formed wide enough not to wrap: never above the maximum. */
  function MvValueWide(valueMax: u32, mv: u32, verfMv: u32): (v: u32)
    requires 0 < verfMv && mv <= verfMv
    ensures v <= valueMax
  {
    var p := valueMax * mv;
    QuotientAtMost(p, valueMax, verfMv);
    p / verfMv
  }

  /** The wide value is the floor of the proportion `valueMax * mv / verfMv`. */
  lemma MvValueWideFloor(valueMax: u32, mv: u32, verfMv: u32)
    requires 0 < verfMv && mv <= verfMv
    ensures var v := MvValueWide(valueMax, mv, verfMv);
      v * verfMv <= valueMax * mv < (v + 1) * verfMv
  {
    var p := valueMax * mv;
    var v := p / verfMv;
    assert p == v * verfMv + p % verfMv;
    assert (v + 1) * verfMv == v * verfMv + verfMv;
  }

  lemma QuotientAtMost(p: nat, m: nat, d: nat)
    requires 0 < d && p <= m * d
    ensures p / d <= m
  {
  }

  lemma QuotientWithin(p: nat, d: nat)
    requires 0 < d
    ensures p / d <= p
  {
    assert p * d == p + p * (d - 1);
    QuotientAtMost(p, p, d);
  }

  /** A 24-bit converter at its full 3300 mV reference: the wrapped product sends 1159152 for what should be 0xFF_FFFF. */
  lemma MvValueWraps()
    ensures MvValue(0xFF_FFFF, 3300, 3300) == 1159152
    ensures MvValueWide(0xFF_FFFF, 3300, 3300) == 0xFF_FFFF
  {
  }

  /**
   * `xf_hal_dac_write_mv` as written: a voltage above the reference is
   * refused without a driver call; otherwise the value is scaled with the
   * wrapping product, written as one word, and any nonzero driver result
   * comes back negated. The source divides by the reference, so a zero
   * reference with 0 mV is excluded.
   */
  method WriteMv(k: Kernel, n: u32, mv: u32) returns (err: int)
    requires k.Valid() && k.Registered(XF_HAL_DAC)
    requires k.Lookup(XF_HAL_DAC, n) != null && mv == 0 ==> DacOf(k.Lookup(XF_HAL_DAC, n).config).verfMv != 0
    modifies k
    ensures k.Valid() && k.Lookup(XF_HAL_DAC, n) == old(k.Lookup(XF_HAL_DAC, n))
    ensures old(k.Lookup(XF_HAL_DAC, n)) == null ==> err == XF_ERR_UNINIT && k.trace == old(k.trace)
    ensures old(k.Lookup(XF_HAL_DAC, n)) != null && mv > old(DacOf(k.Lookup(XF_HAL_DAC, n).config)).verfMv ==>
      err == XF_ERR_INVALID_ARG && k.trace == old(k.trace)
    ensures old(k.Lookup(XF_HAL_DAC, n)) != null && mv <= old(DacOf(k.Lookup(XF_HAL_DAC, n).config)).verfMv ==>
      var c := old(DacOf(k.Lookup(XF_HAL_DAC, n).config));
      var io := k.WriteOutcome(old(k.Lookup(XF_HAL_DAC, n)), [MvValue(c.valueMax, mv, c.verfMv)], 1);
      && (io.ret == XF_OK <==> err == XF_OK)
      && err == -io.ret
      && k.trace == old(k.trace) + io.calls
  {
    var d := k.Find(XF_HAL_DAC, n);
    if d == null {
      return XF_ERR_UNINIT;
    }
    var c := DacOf(d.config);
    if mv > c.verfMv {
      return XF_ERR_INVALID_ARG;
    }
    var value := MvValue(c.valueMax, mv, c.verfMv);
    var ret, got := Pass(k, d, true, [value], 1);
    err := if ret != XF_OK then -ret else XF_OK;
  }
}
