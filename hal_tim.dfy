/**
 * The timer front end: one handle per timer number, registered readable and
 * writable. The raw counter is read and written through the kernel; the
 * rest is the timer's record, sent with its command bits.
 */
module HalTim {
  import opened Common
  import opened HalConfigs
  import opened HalDevTypes
  import opened HalDev
  import opened HalFront

  const XF_HAL_TIM_CMD_ACTIVE: bv32 := 0x1
  const XF_HAL_TIM_CMD_AUTO_RELOAD: bv32 := 0x2
  const XF_HAL_TIM_CMD_COUNT_DIR: bv32 := 0x4
  const XF_HAL_TIM_CMD_TICK_FREQ_HZ: bv32 := 0x8
  const XF_HAL_TIM_CMD_TARGET_TICKS: bv32 := 0x10
  const XF_HAL_TIM_CMD_CB: bv32 := 0x20
  const XF_HAL_TIM_CMD_ISR: bv32 := 0x40

  /** What a timer's handle is allocated with. */
  const Blank: Config := TimCfg(TimZero)

  /** `xf_hal_tim_register`. */
  method Register(k: Kernel, ops: Option<DriverOps>) returns (err: int)
    requires k.Valid()
    modifies k.table
    ensures k.Valid()
    ensures err == (if ops.Some? then XF_OK else XF_ERR_INVALID_ARG)
    ensures err == XF_OK ==>
      && k.table[XF_HAL_TIM] == Entry(ops, XF_HAL_FLAG_READ_WRITE, 0, Some(Blank), [])
      && k.GetFlag(XF_HAL_TIM) == XF_HAL_FLAG_READ_WRITE && k.GetEnableCount(XF_HAL_TIM) == 0
    ensures forall u | 0 <= u < k.table.Length && (err != XF_OK || u != XF_HAL_TIM) :: k.table[u] == old(k.table[u])
  {
    err := k.Register(XF_HAL_TIM, XF_HAL_FLAG_READ_WRITE, Some(Blank), ops);
  }

  /** `xf_hal_tim_init`: create the timer, then set and send its tick rate, direction and reload mode. */
  method Init(k: Kernel, n: u32, tickFreqHz: u32, countDir: nat, autoReload: bool) returns (err: int)
    requires k.Valid() && k.Registered(XF_HAL_TIM) && k.table[XF_HAL_TIM].ctor.Some?
    modifies k, k.table
    ensures k.Valid()
    ensures Initialised(k, XF_HAL_TIM, n, old(k.Lookup(XF_HAL_TIM, n)), XF_ERR_NOT_FOUND,
                        XF_HAL_TIM_CMD_TICK_FREQ_HZ | XF_HAL_TIM_CMD_AUTO_RELOAD | XF_HAL_TIM_CMD_COUNT_DIR,
                        OnTim(TimSetup(tickFreqHz, autoReload, countDir)), err)
  {
    err := Setup(k, XF_HAL_TIM, n, XF_ERR_NOT_FOUND,
                 XF_HAL_TIM_CMD_TICK_FREQ_HZ | XF_HAL_TIM_CMD_AUTO_RELOAD | XF_HAL_TIM_CMD_COUNT_DIR,
                 OnTim(TimSetup(tickFreqHz, autoReload, countDir)));
  }

  /** `xf_hal_tim_deinit`. */
  method Deinit(k: Kernel, n: u32) returns (err: int)
    requires k.Valid() && k.Registered(XF_HAL_TIM)
    modifies k, k.table
    ensures k.Valid() && Released(k, XF_HAL_TIM, n, old(k.Lookup(XF_HAL_TIM, n)), XF_ERR_UNINIT, err)
  {
    err := Release(k, XF_HAL_TIM, n, XF_ERR_UNINIT);
  }

  /** `xf_hal_tim_set_cb`: the callback and its user data go together. */
  method SetCb(k: Kernel, n: u32, callback: nat, userData: nat) returns (err: int)
    requires k.Valid() && k.Registered(XF_HAL_TIM)
    modifies k, k.Handle(XF_HAL_TIM, n)`config
    ensures k.Valid()
    ensures Reconfigured(k, XF_HAL_TIM, n, old(k.Lookup(XF_HAL_TIM, n)), XF_ERR_UNINIT,
                         XF_HAL_TIM_CMD_CB, OnTim(TimCb(Callback(callback, userData))), err)
  {
    err := Reconfigure(k, XF_HAL_TIM, n, XF_ERR_UNINIT, XF_HAL_TIM_CMD_CB, OnTim(TimCb(Callback(callback, userData))));
  }

  /** `xf_hal_tim_set_isr`: the callback and its user data go together. */
  method SetIsr(k: Kernel, n: u32, callback: nat, userData: nat) returns (err: int)
    requires k.Valid() && k.Registered(XF_HAL_TIM)
    modifies k, k.Handle(XF_HAL_TIM, n)`config
    ensures k.Valid()
    ensures Reconfigured(k, XF_HAL_TIM, n, old(k.Lookup(XF_HAL_TIM, n)), XF_ERR_UNINIT,
                         XF_HAL_TIM_CMD_ISR, OnTim(TimIsr(Callback(callback, userData))), err)
  {
    err := Reconfigure(k, XF_HAL_TIM, n, XF_ERR_UNINIT, XF_HAL_TIM_CMD_ISR, OnTim(TimIsr(Callback(callback, userData))));
  }

  /** `xf_hal_tim_start`: mark the timer active with a new target. */
  method Start(k: Kernel, n: u32, targetTicks: u32) returns (err: int)
    requires k.Valid() && k.Registered(XF_HAL_TIM)
    modifies k, k.Handle(XF_HAL_TIM, n)`config
    ensures k.Valid()
    ensures Reconfigured(k, XF_HAL_TIM, n, old(k.Lookup(XF_HAL_TIM, n)), XF_ERR_UNINIT,
                         XF_HAL_TIM_CMD_TARGET_TICKS | XF_HAL_TIM_CMD_ACTIVE, OnTim(TimStart(targetTicks)), err)
  {
    err := Reconfigure(k, XF_HAL_TIM, n, XF_ERR_UNINIT, XF_HAL_TIM_CMD_TARGET_TICKS | XF_HAL_TIM_CMD_ACTIVE, OnTim(TimStart(targetTicks)));
  }

  /** `xf_hal_tim_stop`: only the active flag is cleared. */
  method Stop(k: Kernel, n: u32) returns (err: int)
    requires k.Valid() && k.Registered(XF_HAL_TIM)
    modifies k, k.Handle(XF_HAL_TIM, n)`config
    ensures k.Valid()
    ensures Reconfigured(k, XF_HAL_TIM, n, old(k.Lookup(XF_HAL_TIM, n)), XF_ERR_UNINIT,
                         XF_HAL_TIM_CMD_ACTIVE, OnTim(TimStop), err)
  {
    err := Reconfigure(k, XF_HAL_TIM, n, XF_ERR_UNINIT, XF_HAL_TIM_CMD_ACTIVE, OnTim(TimStop));
  }

  /**
   * `xf_hal_tim_set_raw_ticks`: one word written through the kernel; a
   * negative result comes back negated, any other result unchanged.
   */
  method SetRawTicks(k: Kernel, n: u32, ticks: u32) returns (err: int)
    requires k.Valid() && k.Registered(XF_HAL_TIM)
    modifies k
    ensures k.Valid()
    ensures old(k.Lookup(XF_HAL_TIM, n)) == null ==> err == XF_ERR_UNINIT && k.trace == old(k.trace)
    ensures old(k.Lookup(XF_HAL_TIM, n)) != null ==>
      var io := k.WriteOutcome(old(k.Lookup(XF_HAL_TIM, n)), [ticks], 1);
      err == Positive(io.ret) && k.trace == old(k.trace) + io.calls
  {
    var d, ret, _ := Exchange(k, XF_HAL_TIM, n, true, [ticks], 1);
    if d == null {
      return XF_ERR_UNINIT;
    }
    err := Positive(ret);
  }

  /**
   * `xf_hal_tim_get_raw_ticks`: the word the driver read, 0 when the read
   * failed. A missing timer makes the function return XF_ERR_UNINIT as a
   * count.
   */
  method GetRawTicks(k: Kernel, n: u32) returns (ticks: u32)
    requires k.Valid() && k.Registered(XF_HAL_TIM)
    modifies k
    ensures k.Valid()
    ensures old(k.Lookup(XF_HAL_TIM, n)) == null ==> ticks == XF_ERR_UNINIT && k.trace == old(k.trace)
    ensures old(k.Lookup(XF_HAL_TIM, n)) != null ==>
      var io := k.ReadOutcome(old(k.Lookup(XF_HAL_TIM, n)), 1);
      && ticks == (if io.ret < XF_OK then 0 else StoredWord(io.data))
      && k.trace == old(k.trace) + io.calls
  {
    var d, ret, got := Exchange(k, XF_HAL_TIM, n, false, [], 1);
    if d == null {
      return XF_ERR_UNINIT;
    }
    if ret < XF_OK {
      return 0;
    }
    ticks := StoredWord(got);
  }
}
