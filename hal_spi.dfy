/**
 * The SPI front end: one handle per bus number, registered readable and
 * writable. A transfer first sends the requested timeout when the record
 * holds a different one, and then reads or writes through the kernel.
 */
module HalSpi {
  import opened Common
  import opened HalConfigs
  import opened HalDevTypes
  import opened HalDev
  import opened HalFront

  const XF_HAL_SPI_CMD_HOSTS: bv32 := 0x1
  const XF_HAL_SPI_CMD_ENABLE: bv32 := 0x2
  const XF_HAL_SPI_CMD_BIT_ORDER: bv32 := 0x4
  const XF_HAL_SPI_CMD_MODE: bv32 := 0x8
  const XF_HAL_SPI_CMD_DATA_WIDTH: bv32 := 0x10
  const XF_HAL_SPI_CMD_TIMEOUT: bv32 := 0x20
  const XF_HAL_SPI_CMD_SPEED: bv32 := 0x40
  const XF_HAL_SPI_CMD_GPIO: bv32 := 0x80
  const XF_HAL_SPI_CMD_PREV_CB: bv32 := 0x100
  const XF_HAL_SPI_CMD_POST_CB: bv32 := 0x200

  /** What a bus's handle is allocated with. */
  const Blank: Config := SpiCfg(SpiZero)

  /** `xf_hal_spi_register`. */
  method Register(k: Kernel, ops: Option<DriverOps>) returns (err: int)
    requires k.Valid()
    modifies k.table
    ensures k.Valid()
    ensures err == (if ops.Some? then XF_OK else XF_ERR_INVALID_ARG)
    ensures err == XF_OK ==>
      && k.table[XF_HAL_SPI] == Entry(ops, XF_HAL_FLAG_READ_WRITE, 0, Some(Blank), [])
      && k.GetFlag(XF_HAL_SPI) == XF_HAL_FLAG_READ_WRITE && k.GetEnableCount(XF_HAL_SPI) == 0
    ensures forall u | 0 <= u < k.table.Length && (err != XF_OK || u != XF_HAL_SPI) :: k.table[u] == old(k.table[u])
  {
    err := k.Register(XF_HAL_SPI, XF_HAL_FLAG_READ_WRITE, Some(Blank), ops);
  }

  /** `xf_hal_spi_init`: create the bus, then set and send its role and speed. */
  method Init(k: Kernel, n: u32, hosts: nat, speed: u32) returns (err: int)
    requires k.Valid() && k.Registered(XF_HAL_SPI) && k.table[XF_HAL_SPI].ctor.Some?
    modifies k, k.table
    ensures k.Valid()
    ensures Initialised(k, XF_HAL_SPI, n, old(k.Lookup(XF_HAL_SPI, n)), XF_ERR_NOT_FOUND,
                        XF_HAL_SPI_CMD_HOSTS | XF_HAL_SPI_CMD_SPEED, OnSpi(SpiSetup(hosts, speed)), err)
  {
    err := Setup(k, XF_HAL_SPI, n, XF_ERR_NOT_FOUND, XF_HAL_SPI_CMD_HOSTS | XF_HAL_SPI_CMD_SPEED, OnSpi(SpiSetup(hosts, speed)));
  }

  /** `xf_hal_spi_deinit`. */
  method Deinit(k: Kernel, n: u32) returns (err: int)
    requires k.Valid() && k.Registered(XF_HAL_SPI)
    modifies k, k.table
    ensures k.Valid() && Released(k, XF_HAL_SPI, n, old(k.Lookup(XF_HAL_SPI, n)), XF_ERR_UNINIT, err)
  {
    err := Release(k, XF_HAL_SPI, n, XF_ERR_UNINIT);
  }

  /** `xf_hal_spi_enable`. */
  method Enable(k: Kernel, n: u32) returns (err: int)
    requires k.Valid() && k.Registered(XF_HAL_SPI)
    modifies k, k.Handle(XF_HAL_SPI, n)`config
    ensures k.Valid()
    ensures Reconfigured(k, XF_HAL_SPI, n, old(k.Lookup(XF_HAL_SPI, n)), XF_ERR_UNINIT,
                         XF_HAL_SPI_CMD_ENABLE, OnSpi(SpiEnable(true)), err)
  {
    err := Reconfigure(k, XF_HAL_SPI, n, XF_ERR_UNINIT, XF_HAL_SPI_CMD_ENABLE, OnSpi(SpiEnable(true)));
  }

  /** `xf_hal_spi_disable`. */
  method Disable(k: Kernel, n: u32) returns (err: int)
    requires k.Valid() && k.Registered(XF_HAL_SPI)
    modifies k, k.Handle(XF_HAL_SPI, n)`config
    ensures k.Valid()
    ensures Reconfigured(k, XF_HAL_SPI, n, old(k.Lookup(XF_HAL_SPI, n)), XF_ERR_UNINIT,
                         XF_HAL_SPI_CMD_ENABLE, OnSpi(SpiEnable(false)), err)
  {
    err := Reconfigure(k, XF_HAL_SPI, n, XF_ERR_UNINIT, XF_HAL_SPI_CMD_ENABLE, OnSpi(SpiEnable(false)));
  }

  /** `xf_hal_spi_set_prev_cb`: the callback and its user data go together. */
  method SetPrevCb(k: Kernel, n: u32, callback: nat, userData: nat) returns (err: int)
    requires k.Valid() && k.Registered(XF_HAL_SPI)
    modifies k, k.Handle(XF_HAL_SPI, n)`config
    ensures k.Valid()
    ensures Reconfigured(k, XF_HAL_SPI, n, old(k.Lookup(XF_HAL_SPI, n)), XF_ERR_UNINIT,
                         XF_HAL_SPI_CMD_PREV_CB, OnSpi(SpiPrevCb(Callback(callback, userData))), err)
  {
    err := Reconfigure(k, XF_HAL_SPI, n, XF_ERR_UNINIT, XF_HAL_SPI_CMD_PREV_CB, OnSpi(SpiPrevCb(Callback(callback, userData))));
  }

  /** `xf_hal_spi_set_post_cb`: the callback and its user data go together. */
  method SetPostCb(k: Kernel, n: u32, callback: nat, userData: nat) returns (err: int)
    requires k.Valid() && k.Registered(XF_HAL_SPI)
    modifies k, k.Handle(XF_HAL_SPI, n)`config
    ensures k.Valid()
    ensures Reconfigured(k, XF_HAL_SPI, n, old(k.Lookup(XF_HAL_SPI, n)), XF_ERR_UNINIT,
                         XF_HAL_SPI_CMD_POST_CB, OnSpi(SpiPostCb(Callback(callback, userData))), err)
  {
    err := Reconfigure(k, XF_HAL_SPI, n, XF_ERR_UNINIT, XF_HAL_SPI_CMD_POST_CB, OnSpi(SpiPostCb(Callback(callback, userData))));
  }

  /** `xf_hal_spi_set_gpio`: the whole pin assignment is copied. */
  method SetGpio(k: Kernel, n: u32, gpio: SpiGpio) returns (err: int)
    requires k.Valid() && k.Registered(XF_HAL_SPI)
    modifies k, k.Handle(XF_HAL_SPI, n)`config
    ensures k.Valid()
    ensures Reconfigured(k, XF_HAL_SPI, n, old(k.Lookup(XF_HAL_SPI, n)), XF_ERR_UNINIT,
                         XF_HAL_SPI_CMD_GPIO, OnSpi(SpiSetGpio(gpio)), err)
  {
    err := Reconfigure(k, XF_HAL_SPI, n, XF_ERR_UNINIT, XF_HAL_SPI_CMD_GPIO, OnSpi(SpiSetGpio(gpio)));
  }

  /** `xf_hal_spi_set_bit_order`. */
  method SetBitOrder(k: Kernel, n: u32, order: nat) returns (err: int)
    requires k.Valid() && k.Registered(XF_HAL_SPI)
    modifies k, k.Handle(XF_HAL_SPI, n)`config
    ensures k.Valid()
    ensures Reconfigured(k, XF_HAL_SPI, n, old(k.Lookup(XF_HAL_SPI, n)), XF_ERR_UNINIT,
                         XF_HAL_SPI_CMD_BIT_ORDER, OnSpi(SpiBitOrder(order)), err)
  {
    err := Reconfigure(k, XF_HAL_SPI, n, XF_ERR_UNINIT, XF_HAL_SPI_CMD_BIT_ORDER, OnSpi(SpiBitOrder(order)));
  }

  /** `xf_hal_spi_set_mode`. */
  method SetMode(k: Kernel, n: u32, mode: nat) returns (err: int)
    requires k.Valid() && k.Registered(XF_HAL_SPI)
    modifies k, k.Handle(XF_HAL_SPI, n)`config
    ensures k.Valid()
    ensures Reconfigured(k, XF_HAL_SPI, n, old(k.Lookup(XF_HAL_SPI, n)), XF_ERR_UNINIT,
                         XF_HAL_SPI_CMD_MODE, OnSpi(SpiMode(mode)), err)
  {
    err := Reconfigure(k, XF_HAL_SPI, n, XF_ERR_UNINIT, XF_HAL_SPI_CMD_MODE, OnSpi(SpiMode(mode)));
  }

  /** `xf_hal_spi_set_data_width`. */
  method SetDataWidth(k: Kernel, n: u32, width: nat) returns (err: int)
    requires k.Valid() && k.Registered(XF_HAL_SPI)
    modifies k, k.Handle(XF_HAL_SPI, n)`config
    ensures k.Valid()
    ensures Reconfigured(k, XF_HAL_SPI, n, old(k.Lookup(XF_HAL_SPI, n)), XF_ERR_UNINIT,
                         XF_HAL_SPI_CMD_DATA_WIDTH, OnSpi(SpiDataWidth(width)), err)
  {
    err := Reconfigure(k, XF_HAL_SPI, n, XF_ERR_UNINIT, XF_HAL_SPI_CMD_DATA_WIDTH, OnSpi(SpiDataWidth(width)));
  }

  /** `xf_hal_spi_set_speed`. */
  method SetSpeed(k: Kernel, n: u32, speed: u32) returns (err: int)
    requires k.Valid() && k.Registered(XF_HAL_SPI)
    modifies k, k.Handle(XF_HAL_SPI, n)`config
    ensures k.Valid()
    ensures Reconfigured(k, XF_HAL_SPI, n, old(k.Lookup(XF_HAL_SPI, n)), XF_ERR_UNINIT,
                         XF_HAL_SPI_CMD_SPEED, OnSpi(SpiSpeed(speed)), err)
  {
    err := Reconfigure(k, XF_HAL_SPI, n, XF_ERR_UNINIT, XF_HAL_SPI_CMD_SPEED, OnSpi(SpiSpeed(speed)));
  }

  /**
   * `xf_hal_spi_write`: send `timeoutMs` when the record holds another
   * timeout, then write. With a driver that keeps the records it is handed,
   * the record afterwards differs from before in the timeout at most.
   */
  method Write(k: Kernel, n: u32, buffer: seq<int>, size: u32, timeoutMs: u32) returns (ret: int)
    requires k.Valid() && k.Registered(XF_HAL_SPI)
    modifies k, k.Handle(XF_HAL_SPI, n)`config
    ensures k.Valid()
    ensures TransferredAt(k, XF_HAL_SPI, n, old(k.Lookup(XF_HAL_SPI, n)), XF_HAL_SPI_CMD_TIMEOUT, OnSpi(SpiTimeout(timeoutMs)),
                          true, buffer, size, ret, [])
    ensures old(k.Lookup(XF_HAL_SPI, n)) != null && KeepsRecords(k.OpsOf(XF_HAL_SPI)) ==>
      SpiOf(k.Lookup(XF_HAL_SPI, n).config) == SpiOf(old(k.Lookup(XF_HAL_SPI, n).config)).(timeoutMs := timeoutMs)
  {
    var got;
    ret, got := RetargetAndTransfer(k, XF_HAL_SPI, n, XF_HAL_SPI_CMD_TIMEOUT, OnSpi(SpiTimeout(timeoutMs)), true, buffer, size);
  }

  /** `xf_hal_spi_read`: as write, reading `size` bytes into `got`. */
  method Read(k: Kernel, n: u32, size: u32, timeoutMs: u32) returns (ret: int, got: seq<int>)
    requires k.Valid() && k.Registered(XF_HAL_SPI)
    modifies k, k.Handle(XF_HAL_SPI, n)`config
    ensures k.Valid()
    ensures TransferredAt(k, XF_HAL_SPI, n, old(k.Lookup(XF_HAL_SPI, n)), XF_HAL_SPI_CMD_TIMEOUT, OnSpi(SpiTimeout(timeoutMs)),
                          false, [], size, ret, got)
    ensures old(k.Lookup(XF_HAL_SPI, n)) != null && KeepsRecords(k.OpsOf(XF_HAL_SPI)) ==>
      SpiOf(k.Lookup(XF_HAL_SPI, n).config) == SpiOf(old(k.Lookup(XF_HAL_SPI, n).config)).(timeoutMs := timeoutMs)
  {
    ret, got := RetargetAndTransfer(k, XF_HAL_SPI, n, XF_HAL_SPI_CMD_TIMEOUT, OnSpi(SpiTimeout(timeoutMs)), false, [], size);
  }
}
