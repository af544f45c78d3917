/**
 * The GPIO front end: one handle per pin number, registered readable and
 * writable. The level is read and written through the kernel; everything
 * else is a member of the pin's record sent with its own command bit.
 */
module HalGpio {
  import opened Common
  import opened HalConfigs
  import opened HalDevTypes
  import opened HalDev
  import opened HalFront

  const XF_HAL_GPIO_CMD_DIRECTION: bv32 := 0x1
  const XF_HAL_GPIO_CMD_PULL: bv32 := 0x2
  const XF_HAL_GPIO_CMD_SPEED: bv32 := 0x4
  const XF_HAL_GPIO_CMD_INTR_ENABLE: bv32 := 0x8
  const XF_HAL_GPIO_CMD_INTR_TYPE: bv32 := 0x10
  const XF_HAL_GPIO_CMD_INTR_CB: bv32 := 0x20
  const XF_HAL_GPIO_CMD_INTR_ISR: bv32 := 0x40

  /** What a pin's handle is allocated with. */
  const Blank: Config := GpioCfg(GpioZero)

  /** `xf_hal_gpio_register`. */
  method Register(k: Kernel, ops: Option<DriverOps>) returns (err: int)
    requires k.Valid()
    modifies k.table
    ensures k.Valid()
    ensures err == (if ops.Some? then XF_OK else XF_ERR_INVALID_ARG)
    ensures err == XF_OK ==>
      && k.table[XF_HAL_GPIO] == Entry(ops, XF_HAL_FLAG_READ_WRITE, 0, Some(Blank), [])
      && k.GetFlag(XF_HAL_GPIO) == XF_HAL_FLAG_READ_WRITE && k.GetEnableCount(XF_HAL_GPIO) == 0
    ensures forall u | 0 <= u < k.table.Length && (err != XF_OK || u != XF_HAL_GPIO) :: k.table[u] == old(k.table[u])
  {
    err := k.Register(XF_HAL_GPIO, XF_HAL_FLAG_READ_WRITE, Some(Blank), ops);
  }

  /** `xf_hal_gpio_init`: create the pin, then set and send its direction. */
  method Init(k: Kernel, n: u32, direction: nat) returns (err: int)
    requires k.Valid() && k.Registered(XF_HAL_GPIO) && k.table[XF_HAL_GPIO].ctor.Some?
    modifies k, k.table
    ensures k.Valid()
    ensures Initialised(k, XF_HAL_GPIO, n, old(k.Lookup(XF_HAL_GPIO, n)), XF_ERR_NOT_FOUND,
                        XF_HAL_GPIO_CMD_DIRECTION, OnGpio(GpioDirection(direction)), err)
  {
    err := Setup(k, XF_HAL_GPIO, n, XF_ERR_NOT_FOUND, XF_HAL_GPIO_CMD_DIRECTION, OnGpio(GpioDirection(direction)));
  }

  /** `xf_hal_gpio_deinit`. */
  method Deinit(k: Kernel, n: u32) returns (err: int)
    requires k.Valid() && k.Registered(XF_HAL_GPIO)
    modifies k, k.table
    ensures k.Valid() && Released(k, XF_HAL_GPIO, n, old(k.Lookup(XF_HAL_GPIO, n)), XF_ERR_UNINIT, err)
  {
    err := Release(k, XF_HAL_GPIO, n, XF_ERR_UNINIT);
  }

  /** `xf_hal_gpio_set_direction`. */
  method SetDirection(k: Kernel, n: u32, direction: nat) returns (err: int)
    requires k.Valid() && k.Registered(XF_HAL_GPIO)
    modifies k, k.Handle(XF_HAL_GPIO, n)`config
    ensures k.Valid()
    ensures Reconfigured(k, XF_HAL_GPIO, n, old(k.Lookup(XF_HAL_GPIO, n)), XF_ERR_UNINIT,
                         XF_HAL_GPIO_CMD_DIRECTION, OnGpio(GpioDirection(direction)), err)
  {
    err := Reconfigure(k, XF_HAL_GPIO, n, XF_ERR_UNINIT, XF_HAL_GPIO_CMD_DIRECTION, OnGpio(GpioDirection(direction)));
  }

  /** `xf_hal_gpio_set_pull`. */
  method SetPull(k: Kernel, n: u32, pull: nat) returns (err: int)
    requires k.Valid() && k.Registered(XF_HAL_GPIO)
    modifies k, k.Handle(XF_HAL_GPIO, n)`config
    ensures k.Valid()
    ensures Reconfigured(k, XF_HAL_GPIO, n, old(k.Lookup(XF_HAL_GPIO, n)), XF_ERR_UNINIT,
                         XF_HAL_GPIO_CMD_PULL, OnGpio(GpioPull(pull)), err)
  {
    err := Reconfigure(k, XF_HAL_GPIO, n, XF_ERR_UNINIT, XF_HAL_GPIO_CMD_PULL, OnGpio(GpioPull(pull)));
  }

  /** `xf_hal_gpio_set_speed`. */
  method SetSpeed(k: Kernel, n: u32, speed: u32) returns (err: int)
    requires k.Valid() && k.Registered(XF_HAL_GPIO)
    modifies k, k.Handle(XF_HAL_GPIO, n)`config
    ensures k.Valid()
    ensures Reconfigured(k, XF_HAL_GPIO, n, old(k.Lookup(XF_HAL_GPIO, n)), XF_ERR_UNINIT,
                         XF_HAL_GPIO_CMD_SPEED, OnGpio(GpioSpeed(speed)), err)
  {
    err := Reconfigure(k, XF_HAL_GPIO, n, XF_ERR_UNINIT, XF_HAL_GPIO_CMD_SPEED, OnGpio(GpioSpeed(speed)));
  }

  /** `xf_hal_gpio_set_intr_cb`: the callback and its user data go together. */
  method SetIntrCb(k: Kernel, n: u32, callback: nat, userData: nat) returns (err: int)
    requires k.Valid() && k.Registered(XF_HAL_GPIO)
    modifies k, k.Handle(XF_HAL_GPIO, n)`config
    ensures k.Valid()
    ensures Reconfigured(k, XF_HAL_GPIO, n, old(k.Lookup(XF_HAL_GPIO, n)), XF_ERR_UNINIT,
                         XF_HAL_GPIO_CMD_INTR_CB, OnGpio(GpioIntrCb(Callback(callback, userData))), err)
  {
    err := Reconfigure(k, XF_HAL_GPIO, n, XF_ERR_UNINIT, XF_HAL_GPIO_CMD_INTR_CB, OnGpio(GpioIntrCb(Callback(callback, userData))));
  }

  /** `xf_hal_gpio_set_intr_isr`. */
  method SetIntrIsr(k: Kernel, n: u32, callback: nat, userData: nat) returns (err: int)
    requires k.Valid() && k.Registered(XF_HAL_GPIO)
    modifies k, k.Handle(XF_HAL_GPIO, n)`config
    ensures k.Valid()
    ensures Reconfigured(k, XF_HAL_GPIO, n, old(k.Lookup(XF_HAL_GPIO, n)), XF_ERR_UNINIT,
                         XF_HAL_GPIO_CMD_INTR_ISR, OnGpio(GpioIntrIsr(Callback(callback, userData))), err)
  {
    err := Reconfigure(k, XF_HAL_GPIO, n, XF_ERR_UNINIT, XF_HAL_GPIO_CMD_INTR_ISR, OnGpio(GpioIntrIsr(Callback(callback, userData))));
  }

  /** `xf_hal_gpio_set_intr_type`. */
  method SetIntrType(k: Kernel, n: u32, intrType: nat) returns (err: int)
    requires k.Valid() && k.Registered(XF_HAL_GPIO)
    modifies k, k.Handle(XF_HAL_GPIO, n)`config
    ensures k.Valid()
    ensures Reconfigured(k, XF_HAL_GPIO, n, old(k.Lookup(XF_HAL_GPIO, n)), XF_ERR_UNINIT,
                         XF_HAL_GPIO_CMD_INTR_TYPE, OnGpio(GpioIntrType(intrType)), err)
  {
    err := Reconfigure(k, XF_HAL_GPIO, n, XF_ERR_UNINIT, XF_HAL_GPIO_CMD_INTR_TYPE, OnGpio(GpioIntrType(intrType)));
  }

  /** `xf_hal_gpio_set_intr_enable`. */
  method SetIntrEnable(k: Kernel, n: u32) returns (err: int)
    requires k.Valid() && k.Registered(XF_HAL_GPIO)
    modifies k, k.Handle(XF_HAL_GPIO, n)`config
    ensures k.Valid()
    ensures Reconfigured(k, XF_HAL_GPIO, n, old(k.Lookup(XF_HAL_GPIO, n)), XF_ERR_UNINIT,
                         XF_HAL_GPIO_CMD_INTR_ENABLE, OnGpio(GpioIntrEnable(true)), err)
  {
    err := Reconfigure(k, XF_HAL_GPIO, n, XF_ERR_UNINIT, XF_HAL_GPIO_CMD_INTR_ENABLE, OnGpio(GpioIntrEnable(true)));
  }

  /** `xf_hal_gpio_set_intr_disable`: the same command as enable, with the flag cleared. */
  method SetIntrDisable(k: Kernel, n: u32) returns (err: int)
    requires k.Valid() && k.Registered(XF_HAL_GPIO)
    modifies k, k.Handle(XF_HAL_GPIO, n)`config
    ensures k.Valid()
    ensures Reconfigured(k, XF_HAL_GPIO, n, old(k.Lookup(XF_HAL_GPIO, n)), XF_ERR_UNINIT,
                         XF_HAL_GPIO_CMD_INTR_ENABLE, OnGpio(GpioIntrEnable(false)), err)
  {
    err := Reconfigure(k, XF_HAL_GPIO, n, XF_ERR_UNINIT, XF_HAL_GPIO_CMD_INTR_ENABLE, OnGpio(GpioIntrEnable(false)));
  }

  /** The byte a `bool` level occupies in the buffer handed to the driver. */
  function LevelByte(level: bool): (b: int)
    ensures 0 <= b <= 1 && (b == 1 <==> level)
  {
    if level then 1 else 0
  }

  /** The level a `bool` variable holds after a read stored `data` into it, having been false before. */
  function StoredLevel(data: seq<int>): (level: bool)
    ensures data == [] ==> !level
    ensures data != [] && 0 <= data[0] <= 1 ==> (level <==> data[0] == 1)
  {
    data != [] && data[0] % 0x100 != 0
  }

  /**
   * `xf_hal_gpio_set_level`: one byte written through the kernel; a negative
   * result comes back negated, any other result unchanged.
   */
  method SetLevel(k: Kernel, n: u32, level: bool) returns (err: int)
    requires k.Valid() && k.Registered(XF_HAL_GPIO)
    modifies k
    ensures k.Valid()
    ensures old(k.Lookup(XF_HAL_GPIO, n)) == null ==> err == XF_ERR_UNINIT && k.trace == old(k.trace)
    ensures old(k.Lookup(XF_HAL_GPIO, n)) != null ==>
      var io := k.WriteOutcome(old(k.Lookup(XF_HAL_GPIO, n)), [LevelByte(level)], 1);
      err == Positive(io.ret) && k.trace == old(k.trace) + io.calls
  {
    var d, ret, _ := Exchange(k, XF_HAL_GPIO, n, true, [LevelByte(level)], 1);
    if d == null {
      return XF_ERR_UNINIT;
    }
    err := Positive(ret);
  }

  /**
   * `xf_hal_gpio_get_level`: the level the driver read, false when the read
   * failed. A missing pin makes the function return XF_ERR_UNINIT converted
   * to `bool`, which is true.
   */
  method GetLevel(k: Kernel, n: u32) returns (level: bool)
    requires k.Valid() && k.Registered(XF_HAL_GPIO)
    modifies k
    ensures k.Valid()
    ensures old(k.Lookup(XF_HAL_GPIO, n)) == null ==> level == (XF_ERR_UNINIT != 0) && k.trace == old(k.trace)
    ensures old(k.Lookup(XF_HAL_GPIO, n)) != null ==>
      var io := k.ReadOutcome(old(k.Lookup(XF_HAL_GPIO, n)), 1);
      && level == (io.ret >= XF_OK && StoredLevel(io.data))
      && k.trace == old(k.trace) + io.calls
  {
    var d, ret, got := Exchange(k, XF_HAL_GPIO, n, false, [], 1);
    if d == null {
      return XF_ERR_UNINIT != 0;
    }
    if ret < XF_OK {
      return false;
    }
    level := StoredLevel(got);
  }
}
