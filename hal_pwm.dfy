/**
 * The PWM front end: one handle per channel number, registered with the
 * read capability only. Every operation on a missing channel gives
 * XF_ERR_INVALID_ARG; the getters read the stored record without calling
 * the driver.
 */
module HalPwm {
  import opened Common
  import opened HalConfigs
  import opened HalDevTypes
  import opened HalDev
  import opened HalFront

  const XF_HAL_PWM_CMD_ENABLE: bv32 := 0x1
  const XF_HAL_PWM_CMD_FREQ: bv32 := 0x2
  const XF_HAL_PWM_CMD_DUTY: bv32 := 0x4
  const XF_HAL_PWM_CMD_DUTY_RESOLUTION: bv32 := 0x8
  const XF_HAL_PWM_CMD_IO_NUM: bv32 := 0x10

  /** What a channel's handle is allocated with. */
  const Blank: Config := PwmCfg(PwmZero)

  /**
   * `xf_hal_pwm_register`. The type gets the read capability only, so the
   * kernel refuses every write on a PWM handle without calling the driver.
   */
  method Register(k: Kernel, ops: Option<DriverOps>) returns (err: int)
    requires k.Valid()
    modifies k.table
    ensures k.Valid()
    ensures err == (if ops.Some? then XF_OK else XF_ERR_INVALID_ARG)
    ensures err == XF_OK ==>
      && k.table[XF_HAL_PWM] == Entry(ops, XF_HAL_FLAG_ONLY_READ, 0, Some(Blank), [])
      && k.GetFlag(XF_HAL_PWM) == XF_HAL_FLAG_ONLY_READ && k.GetEnableCount(XF_HAL_PWM) == 0
      && forall d: Device, data, count | d.devType == XF_HAL_PWM ::
           k.WriteOutcome(d, data, count) == Outcome(XF_ERR_NOT_SUPPORTED, [], [])
    ensures forall u | 0 <= u < k.table.Length && (err != XF_OK || u != XF_HAL_PWM) :: k.table[u] == old(k.table[u])
  {
    err := k.Register(XF_HAL_PWM, XF_HAL_FLAG_ONLY_READ, Some(Blank), ops);
  }

  /** `xf_hal_pwm_init`: create the channel, then set and send its frequency and duty. */
  method Init(k: Kernel, n: u32, freq: u32, duty: u32) returns (err: int)
    requires k.Valid() && k.Registered(XF_HAL_PWM) && k.table[XF_HAL_PWM].ctor.Some?
    modifies k, k.table
    ensures k.Valid()
    ensures Initialised(k, XF_HAL_PWM, n, old(k.Lookup(XF_HAL_PWM, n)), XF_ERR_NOT_FOUND,
                        XF_HAL_PWM_CMD_FREQ | XF_HAL_PWM_CMD_DUTY, OnPwm(PwmSetup(freq, duty)), err)
  {
    err := Setup(k, XF_HAL_PWM, n, XF_ERR_NOT_FOUND, XF_HAL_PWM_CMD_FREQ | XF_HAL_PWM_CMD_DUTY, OnPwm(PwmSetup(freq, duty)));
  }

  /** `xf_hal_pwm_deinit`. */
  method Deinit(k: Kernel, n: u32) returns (err: int)
    requires k.Valid() && k.Registered(XF_HAL_PWM)
    modifies k, k.table
    ensures k.Valid() && Released(k, XF_HAL_PWM, n, old(k.Lookup(XF_HAL_PWM, n)), XF_ERR_INVALID_ARG, err)
  {
    err := Release(k, XF_HAL_PWM, n, XF_ERR_INVALID_ARG);
  }

  /** `xf_hal_pwm_enable`. */
  method Enable(k: Kernel, n: u32) returns (err: int)
    requires k.Valid() && k.Registered(XF_HAL_PWM)
    modifies k, k.Handle(XF_HAL_PWM, n)`config
    ensures k.Valid()
    ensures Reconfigured(k, XF_HAL_PWM, n, old(k.Lookup(XF_HAL_PWM, n)), XF_ERR_INVALID_ARG,
                         XF_HAL_PWM_CMD_ENABLE, OnPwm(PwmEnable(true)), err)
    ensures old(k.Lookup(XF_HAL_PWM, n)) != null && KeepsRecords(k.OpsOf(XF_HAL_PWM)) ==> PwmOf(k.Lookup(XF_HAL_PWM, n).config).enable
  {
    err := Reconfigure(k, XF_HAL_PWM, n, XF_ERR_INVALID_ARG, XF_HAL_PWM_CMD_ENABLE, OnPwm(PwmEnable(true)));
  }

  /** `xf_hal_pwm_disable`. */
  method Disable(k: Kernel, n: u32) returns (err: int)
    requires k.Valid() && k.Registered(XF_HAL_PWM)
    modifies k, k.Handle(XF_HAL_PWM, n)`config
    ensures k.Valid()
    ensures Reconfigured(k, XF_HAL_PWM, n, old(k.Lookup(XF_HAL_PWM, n)), XF_ERR_INVALID_ARG,
                         XF_HAL_PWM_CMD_ENABLE, OnPwm(PwmEnable(false)), err)
    ensures old(k.Lookup(XF_HAL_PWM, n)) != null && KeepsRecords(k.OpsOf(XF_HAL_PWM)) ==> !PwmOf(k.Lookup(XF_HAL_PWM, n).config).enable
  {
    err := Reconfigure(k, XF_HAL_PWM, n, XF_ERR_INVALID_ARG, XF_HAL_PWM_CMD_ENABLE, OnPwm(PwmEnable(false)));
  }

  /** `xf_hal_pwm_set_freq`. */
  method SetFreq(k: Kernel, n: u32, freq: u32) returns (err: int)
    requires k.Valid() && k.Registered(XF_HAL_PWM)
    modifies k, k.Handle(XF_HAL_PWM, n)`config
    ensures k.Valid()
    ensures Reconfigured(k, XF_HAL_PWM, n, old(k.Lookup(XF_HAL_PWM, n)), XF_ERR_INVALID_ARG,
                         XF_HAL_PWM_CMD_FREQ, OnPwm(PwmFreq(freq)), err)
    ensures old(k.Lookup(XF_HAL_PWM, n)) != null && KeepsRecords(k.OpsOf(XF_HAL_PWM)) ==> PwmOf(k.Lookup(XF_HAL_PWM, n).config).freq == freq
  {
    err := Reconfigure(k, XF_HAL_PWM, n, XF_ERR_INVALID_ARG, XF_HAL_PWM_CMD_FREQ, OnPwm(PwmFreq(freq)));
  }

  /** `xf_hal_pwm_set_duty`. */
  method SetDuty(k: Kernel, n: u32, duty: u32) returns (err: int)
    requires k.Valid() && k.Registered(XF_HAL_PWM)
    modifies k, k.Handle(XF_HAL_PWM, n)`config
    ensures k.Valid()
    ensures Reconfigured(k, XF_HAL_PWM, n, old(k.Lookup(XF_HAL_PWM, n)), XF_ERR_INVALID_ARG,
                         XF_HAL_PWM_CMD_DUTY, OnPwm(PwmDuty(duty)), err)
    ensures old(k.Lookup(XF_HAL_PWM, n)) != null && KeepsRecords(k.OpsOf(XF_HAL_PWM)) ==> PwmOf(k.Lookup(XF_HAL_PWM, n).config).duty == duty
  {
    err := Reconfigure(k, XF_HAL_PWM, n, XF_ERR_INVALID_ARG, XF_HAL_PWM_CMD_DUTY, OnPwm(PwmDuty(duty)));
  }

  /** `xf_hal_pwm_set_duty_resolution`. */
  method SetDutyResolution(k: Kernel, n: u32, resolution: u32) returns (err: int)
    requires k.Valid() && k.Registered(XF_HAL_PWM)
    modifies k, k.Handle(XF_HAL_PWM, n)`config
    ensures k.Valid()
    ensures Reconfigured(k, XF_HAL_PWM, n, old(k.Lookup(XF_HAL_PWM, n)), XF_ERR_INVALID_ARG,
                         XF_HAL_PWM_CMD_DUTY_RESOLUTION, OnPwm(PwmDutyResolution(resolution)), err)
  {
    err := Reconfigure(k, XF_HAL_PWM, n, XF_ERR_INVALID_ARG, XF_HAL_PWM_CMD_DUTY_RESOLUTION, OnPwm(PwmDutyResolution(resolution)));
  }

  /** `xf_hal_pwm_set_gpio`. */
  method SetGpio(k: Kernel, n: u32, ioNum: u32) returns (err: int)
    requires k.Valid() && k.Registered(XF_HAL_PWM)
    modifies k, k.Handle(XF_HAL_PWM, n)`config
    ensures k.Valid()
    ensures Reconfigured(k, XF_HAL_PWM, n, old(k.Lookup(XF_HAL_PWM, n)), XF_ERR_INVALID_ARG,
                         XF_HAL_PWM_CMD_IO_NUM, OnPwm(PwmIoNum(ioNum)), err)
  {
    err := Reconfigure(k, XF_HAL_PWM, n, XF_ERR_INVALID_ARG, XF_HAL_PWM_CMD_IO_NUM, OnPwm(PwmIoNum(ioNum)));
  }

  /** `xf_hal_pwm_get_freq`: the stored freq, 0 for a missing channel; no driver is called. */
  method GetFreq(k: Kernel, n: u32) returns (r: u32)
    requires k.Valid() && k.Registered(XF_HAL_PWM)
    ensures k.Lookup(XF_HAL_PWM, n) == null ==> r == 0
    ensures k.Lookup(XF_HAL_PWM, n) != null ==> r == PwmOf(k.Lookup(XF_HAL_PWM, n).config).freq
  {
    var d := k.Find(XF_HAL_PWM, n);
    if d == null {
      return 0;
    }
    r := PwmOf(d.config).freq;
  }

  /** `xf_hal_pwm_get_duty`: the stored duty, 0 for a missing channel; no driver is called. */
  method GetDuty(k: Kernel, n: u32) returns (r: u32)
    requires k.Valid() && k.Registered(XF_HAL_PWM)
    ensures k.Lookup(XF_HAL_PWM, n) == null ==> r == 0
    ensures k.Lookup(XF_HAL_PWM, n) != null ==> r == PwmOf(k.Lookup(XF_HAL_PWM, n).config).duty
  {
    var d := k.Find(XF_HAL_PWM, n);
    if d == null {
      return 0;
    }
    r := PwmOf(d.config).duty;
  }

  /** `xf_hal_pwm_is_enable`: the stored enable, false for a missing channel; no driver is called. */
  method IsEnable(k: Kernel, n: u32) returns (r: bool)
    requires k.Valid() && k.Registered(XF_HAL_PWM)
    ensures k.Lookup(XF_HAL_PWM, n) == null ==> r == false
    ensures k.Lookup(XF_HAL_PWM, n) != null ==> r == PwmOf(k.Lookup(XF_HAL_PWM, n).config).enable
  {
    var d := k.Find(XF_HAL_PWM, n);
    if d == null {
      return false;
    }
    r := PwmOf(d.config).enable;
  }
}
