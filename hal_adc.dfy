/**
 * The ADC front end: one handle per converter number, registered read-only.
 * A raw sample is one word read through the kernel; the enable flag,
 * resolution and sample rate are bit-fields of the converter's record, sent
 * with their command bits. Resolution and sample rate are range-checked
 * before the converter is looked up.
 */
module HalAdc {
  import opened Common
  import opened HalConfigs
  import opened HalDevTypes
  import opened HalDev
  import opened HalFront

  const XF_HAL_ADC_CMD_ENABLE: bv32 := 0x1
  const XF_HAL_ADC_CMD_RESOLUTION: bv32 := 0x2
  const XF_HAL_ADC_CMD_SAMPLE_RATE: bv32 := 0x4

  /** The largest sample rate set_sample_rate admits. */
  const SAMPLE_RATE_MAX: nat := 10000000

  /** What a converter's handle is allocated with. */
  const Blank: Config := AdcCfg(AdcZero)

  /** `xf_hal_adc_register`: read-only, so the kernel refuses every write. */
  method Register(k: Kernel, ops: Option<DriverOps>) returns (err: int)
    requires k.Valid()
    modifies k.table
    ensures k.Valid()
    ensures err == (if ops.Some? then XF_OK else XF_ERR_INVALID_ARG)
    ensures err == XF_OK ==>
      && k.table[XF_HAL_ADC] == Entry(ops, XF_HAL_FLAG_ONLY_READ, 0, Some(Blank), [])
      && k.GetFlag(XF_HAL_ADC) == XF_HAL_FLAG_ONLY_READ && k.GetEnableCount(XF_HAL_ADC) == 0
      && forall d: Device, data, count | d.devType == XF_HAL_ADC ::
           k.WriteOutcome(d, data, count) == Outcome(XF_ERR_NOT_SUPPORTED, [], [])
    ensures forall u | 0 <= u < k.table.Length && (err != XF_OK || u != XF_HAL_ADC) :: k.table[u] == old(k.table[u])
  {
    err := k.Register(XF_HAL_ADC, XF_HAL_FLAG_ONLY_READ, Some(Blank), ops);
  }

  /** `xf_hal_adc_init`: create the converter; nothing is sent. */
  method Init(k: Kernel, n: u32) returns (err: int)
    requires k.Valid() && k.Registered(XF_HAL_ADC) && k.table[XF_HAL_ADC].ctor.Some?
    modifies k, k.table
    ensures k.Valid() && Instantiated(k, XF_HAL_ADC, n, old(k.Lookup(XF_HAL_ADC, n)), XF_ERR_NOT_FOUND, err)
  {
    err := Instantiate(k, XF_HAL_ADC, n, XF_ERR_NOT_FOUND);
  }

  /** `xf_hal_adc_deinit`. */
  method Deinit(k: Kernel, n: u32) returns (err: int)
    requires k.Valid() && k.Registered(XF_HAL_ADC)
    modifies k, k.table
    ensures k.Valid() && Released(k, XF_HAL_ADC, n, old(k.Lookup(XF_HAL_ADC, n)), XF_ERR_UNINIT, err)
  {
    err := Release(k, XF_HAL_ADC, n, XF_ERR_UNINIT);
  }

  /** `xf_hal_adc_enable`. */
  method Enable(k: Kernel, n: u32) returns (err: int)
    requires k.Valid() && k.Registered(XF_HAL_ADC)
    modifies k, k.Handle(XF_HAL_ADC, n)`config
    ensures k.Valid()
    ensures Reconfigured(k, XF_HAL_ADC, n, old(k.Lookup(XF_HAL_ADC, n)), XF_ERR_UNINIT,
                         XF_HAL_ADC_CMD_ENABLE, OnAdc(AdcEnable(true)), err)
  {
    err := Reconfigure(k, XF_HAL_ADC, n, XF_ERR_UNINIT, XF_HAL_ADC_CMD_ENABLE, OnAdc(AdcEnable(true)));
  }

  /** `xf_hal_adc_disable`. */
  method Disable(k: Kernel, n: u32) returns (err: int)
    requires k.Valid() && k.Registered(XF_HAL_ADC)
    modifies k, k.Handle(XF_HAL_ADC, n)`config
    ensures k.Valid()
    ensures Reconfigured(k, XF_HAL_ADC, n, old(k.Lookup(XF_HAL_ADC, n)), XF_ERR_UNINIT,
                         XF_HAL_ADC_CMD_ENABLE, OnAdc(AdcEnable(false)), err)
  {
    err := Reconfigure(k, XF_HAL_ADC, n, XF_ERR_UNINIT, XF_HAL_ADC_CMD_ENABLE, OnAdc(AdcEnable(false)));
  }

  /**
   * `xf_hal_adc_set_resolution` as written: a resolution above 32 is refused
   * before the lookup; otherwise it is stored into the five-bit field (so 32
   * is kept as 0) and sent.
   */
  method SetResolution(k: Kernel, n: u32, resolution: u8) returns (err: int)
    requires k.Valid() && k.Registered(XF_HAL_ADC)
    modifies k, k.Handle(XF_HAL_ADC, n)`config
    ensures k.Valid()
    ensures ResolutionRefused(resolution) ==>
      err == XF_ERR_INVALID_ARG && k.trace == old(k.trace) && unchanged(k.Handle(XF_HAL_ADC, n))
    ensures !ResolutionRefused(resolution) ==>
      Reconfigured(k, XF_HAL_ADC, n, old(k.Lookup(XF_HAL_ADC, n)), XF_ERR_UNINIT,
                   XF_HAL_ADC_CMD_RESOLUTION, OnAdc(AdcResolution(resolution)), err)
    ensures !ResolutionRefused(resolution) && old(k.Lookup(XF_HAL_ADC, n)) != null && KeepsRecords(k.OpsOf(XF_HAL_ADC)) ==>
      AdcOf(k.Lookup(XF_HAL_ADC, n).config).resolution == Bits(resolution, 5)
  {
    if ResolutionRefused(resolution) {
      return XF_ERR_INVALID_ARG;
    }
    err := Reconfigure(k, XF_HAL_ADC, n, XF_ERR_UNINIT, XF_HAL_ADC_CMD_RESOLUTION, OnAdc(AdcResolution(resolution)));
  }

  /**
   * `xf_hal_adc_set_resolution` with the guard the field needs: every
   * resolution it admits is kept exactly.
   */
  method SetResolutionFixed(k: Kernel, n: u32, resolution: u8) returns (err: int)
    requires k.Valid() && k.Registered(XF_HAL_ADC)
    modifies k, k.Handle(XF_HAL_ADC, n)`config
    ensures k.Valid()
    ensures ResolutionRefusedFixed(resolution) ==>
      err == XF_ERR_INVALID_ARG && k.trace == old(k.trace) && unchanged(k.Handle(XF_HAL_ADC, n))
    ensures !ResolutionRefusedFixed(resolution) ==>
      Reconfigured(k, XF_HAL_ADC, n, old(k.Lookup(XF_HAL_ADC, n)), XF_ERR_UNINIT,
                   XF_HAL_ADC_CMD_RESOLUTION, OnAdc(AdcResolution(resolution)), err)
    ensures !ResolutionRefusedFixed(resolution) && old(k.Lookup(XF_HAL_ADC, n)) != null && KeepsRecords(k.OpsOf(XF_HAL_ADC)) ==>
      AdcOf(k.Lookup(XF_HAL_ADC, n).config).resolution == resolution
  {
    if ResolutionRefusedFixed(resolution) {
      return XF_ERR_INVALID_ARG;
    }
    ResolutionGuardFixedExact(resolution);
    err := Reconfigure(k, XF_HAL_ADC, n, XF_ERR_UNINIT, XF_HAL_ADC_CMD_RESOLUTION, OnAdc(AdcResolution(resolution)));
  }

  /**
   * `xf_hal_adc_set_sample_rate`: a rate above 10 MHz is refused before the
   * lookup; every admitted rate fits the twenty-six-bit field.
   */
  method SetSampleRate(k: Kernel, n: u32, rate: u32) returns (err: int)
    requires k.Valid() && k.Registered(XF_HAL_ADC)
    modifies k, k.Handle(XF_HAL_ADC, n)`config
    ensures k.Valid()
    ensures rate > SAMPLE_RATE_MAX ==>
      err == XF_ERR_INVALID_ARG && k.trace == old(k.trace) && unchanged(k.Handle(XF_HAL_ADC, n))
    ensures rate <= SAMPLE_RATE_MAX ==>
      Reconfigured(k, XF_HAL_ADC, n, old(k.Lookup(XF_HAL_ADC, n)), XF_ERR_UNINIT,
                   XF_HAL_ADC_CMD_SAMPLE_RATE, OnAdc(AdcSampleRate(rate)), err)
    ensures rate <= SAMPLE_RATE_MAX && old(k.Lookup(XF_HAL_ADC, n)) != null && KeepsRecords(k.OpsOf(XF_HAL_ADC)) ==>
      AdcOf(k.Lookup(XF_HAL_ADC, n).config).sampleRate == rate
  {
    if rate > SAMPLE_RATE_MAX {
      return XF_ERR_INVALID_ARG;
    }
    RateFits(rate);
    err := Reconfigure(k, XF_HAL_ADC, n, XF_ERR_UNINIT, XF_HAL_ADC_CMD_SAMPLE_RATE, OnAdc(AdcSampleRate(rate)));
  }

  /**
   * `xf_hal_adc_read_raw`: one word read through the kernel, 0 when the read
   * failed. A missing converter makes the function return XF_ERR_UNINIT as a
   * sample.
   */
  method ReadRaw(k: Kernel, n: u32) returns (raw: u32)
    requires k.Valid() && k.Registered(XF_HAL_ADC)
    modifies k
    ensures k.Valid()
    ensures old(k.Lookup(XF_HAL_ADC, n)) == null ==> raw == XF_ERR_UNINIT && k.trace == old(k.trace)
    ensures old(k.Lookup(XF_HAL_ADC, n)) != null ==>
      var io := k.ReadOutcome(old(k.Lookup(XF_HAL_ADC, n)), 1);
      && raw == (if io.ret < XF_OK then 0 else StoredWord(io.data))
      && k.trace == old(k.trace) + io.calls
  {
    var d, ret, got := Exchange(k, XF_HAL_ADC, n, false, [], 1);
    if d == null {
      return XF_ERR_UNINIT;
    }
    if ret < XF_OK {
      return 0;
    }
    raw := StoredWord(got);
  }
}
