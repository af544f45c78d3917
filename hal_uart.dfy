/**
 * The UART front end: one handle per port number, registered readable and
 * writable. Bytes go through the kernel's read and write; the line settings
 * are members of the port's record sent with their command bits.
 */
module HalUart {
  import opened Common
  import opened HalConfigs
  import opened HalDevTypes
  import opened HalDev
  import opened HalFront

  const XF_HAL_UART_CMD_ENABLE: bv32 := 0x1
  const XF_HAL_UART_CMD_DATA_BITS: bv32 := 0x2
  const XF_HAL_UART_CMD_STOP_BITS: bv32 := 0x4
  const XF_HAL_UART_CMD_PARITY_BITS: bv32 := 0x8
  const XF_HAL_UART_CMD_FLOW_CONTROL: bv32 := 0x10
  const XF_HAL_UART_CMD_BAUDRATE: bv32 := 0x20
  const XF_HAL_UART_CMD_TX_NUM: bv32 := 0x40
  const XF_HAL_UART_CMD_RX_NUM: bv32 := 0x80
  const XF_HAL_UART_CMD_RTS_NUM: bv32 := 0x100
  const XF_HAL_UART_CMD_CTS_NUM: bv32 := 0x200

  /** What a port's handle is allocated with. */
  const Blank: Config := UartCfg(UartZero)

  /** `xf_hal_uart_register`. */
  method Register(k: Kernel, ops: Option<DriverOps>) returns (err: int)
    requires k.Valid()
    modifies k.table
    ensures k.Valid()
    ensures err == (if ops.Some? then XF_OK else XF_ERR_INVALID_ARG)
    ensures err == XF_OK ==>
      && k.table[XF_HAL_UART] == Entry(ops, XF_HAL_FLAG_READ_WRITE, 0, Some(Blank), [])
      && k.GetFlag(XF_HAL_UART) == XF_HAL_FLAG_READ_WRITE && k.GetEnableCount(XF_HAL_UART) == 0
    ensures forall u | 0 <= u < k.table.Length && (err != XF_OK || u != XF_HAL_UART) :: k.table[u] == old(k.table[u])
  {
    err := k.Register(XF_HAL_UART, XF_HAL_FLAG_READ_WRITE, Some(Blank), ops);
  }

  /** `xf_hal_uart_init`: create the port, then set and send its baud rate; a failed create gives -1. */
  method Init(k: Kernel, n: u32, baudrate: u32) returns (err: int)
    requires k.Valid() && k.Registered(XF_HAL_UART) && k.table[XF_HAL_UART].ctor.Some?
    modifies k, k.table
    ensures k.Valid()
    ensures Initialised(k, XF_HAL_UART, n, old(k.Lookup(XF_HAL_UART, n)), XF_FAIL,
                        XF_HAL_UART_CMD_BAUDRATE, OnUart(UartBaudrate(baudrate)), err)
  {
    err := Setup(k, XF_HAL_UART, n, XF_FAIL, XF_HAL_UART_CMD_BAUDRATE, OnUart(UartBaudrate(baudrate)));
  }

  /** `xf_hal_uart_deinit`: a missing port gives XF_ERR_NOT_FOUND here, unlike the setters. */
  method Deinit(k: Kernel, n: u32) returns (err: int)
    requires k.Valid() && k.Registered(XF_HAL_UART)
    modifies k, k.table
    ensures k.Valid() && Released(k, XF_HAL_UART, n, old(k.Lookup(XF_HAL_UART, n)), XF_ERR_NOT_FOUND, err)
  {
    err := Release(k, XF_HAL_UART, n, XF_ERR_NOT_FOUND);
  }

  /** `xf_hal_uart_enable`. */
  method Enable(k: Kernel, n: u32) returns (err: int)
    requires k.Valid() && k.Registered(XF_HAL_UART)
    modifies k, k.Handle(XF_HAL_UART, n)`config
    ensures k.Valid()
    ensures Reconfigured(k, XF_HAL_UART, n, old(k.Lookup(XF_HAL_UART, n)), XF_ERR_UNINIT,
                         XF_HAL_UART_CMD_ENABLE, OnUart(UartEnable(true)), err)
  {
    err := Reconfigure(k, XF_HAL_UART, n, XF_ERR_UNINIT, XF_HAL_UART_CMD_ENABLE, OnUart(UartEnable(true)));
  }

  /** `xf_hal_uart_disable`. */
  method Disable(k: Kernel, n: u32) returns (err: int)
    requires k.Valid() && k.Registered(XF_HAL_UART)
    modifies k, k.Handle(XF_HAL_UART, n)`config
    ensures k.Valid()
    ensures Reconfigured(k, XF_HAL_UART, n, old(k.Lookup(XF_HAL_UART, n)), XF_ERR_UNINIT,
                         XF_HAL_UART_CMD_ENABLE, OnUart(UartEnable(false)), err)
  {
    err := Reconfigure(k, XF_HAL_UART, n, XF_ERR_UNINIT, XF_HAL_UART_CMD_ENABLE, OnUart(UartEnable(false)));
  }

  /** `xf_hal_uart_set_gpio`: both pins in one command. */
  method SetGpio(k: Kernel, n: u32, tx: u32, rx: u32) returns (err: int)
    requires k.Valid() && k.Registered(XF_HAL_UART)
    modifies k, k.Handle(XF_HAL_UART, n)`config
    ensures k.Valid()
    ensures Reconfigured(k, XF_HAL_UART, n, old(k.Lookup(XF_HAL_UART, n)), XF_ERR_UNINIT,
                         XF_HAL_UART_CMD_TX_NUM | XF_HAL_UART_CMD_RX_NUM, OnUart(UartGpio(tx, rx)), err)
  {
    err := Reconfigure(k, XF_HAL_UART, n, XF_ERR_UNINIT, XF_HAL_UART_CMD_TX_NUM | XF_HAL_UART_CMD_RX_NUM, OnUart(UartGpio(tx, rx)));
  }

  /** `xf_hal_uart_set_config`: data, stop and parity bits in one command. */
  method SetConfig(k: Kernel, n: u32, dataBits: nat, stopBits: nat, parityBits: nat) returns (err: int)
    requires k.Valid() && k.Registered(XF_HAL_UART)
    modifies k, k.Handle(XF_HAL_UART, n)`config
    ensures k.Valid()
    ensures Reconfigured(k, XF_HAL_UART, n, old(k.Lookup(XF_HAL_UART, n)), XF_ERR_UNINIT,
                         XF_HAL_UART_CMD_DATA_BITS | XF_HAL_UART_CMD_STOP_BITS | XF_HAL_UART_CMD_PARITY_BITS,
                         OnUart(UartFrame(dataBits, stopBits, parityBits)), err)
  {
    err := Reconfigure(k, XF_HAL_UART, n, XF_ERR_UNINIT,
                       XF_HAL_UART_CMD_DATA_BITS | XF_HAL_UART_CMD_STOP_BITS | XF_HAL_UART_CMD_PARITY_BITS,
                       OnUart(UartFrame(dataBits, stopBits, parityBits)));
  }

  /**
   * `xf_hal_uart_set_baudrate`. With a driver that keeps the records it is
   * handed, get_baudrate returns the new rate afterwards.
   */
  method SetBaudrate(k: Kernel, n: u32, baudrate: u32) returns (err: int)
    requires k.Valid() && k.Registered(XF_HAL_UART)
    modifies k, k.Handle(XF_HAL_UART, n)`config
    ensures k.Valid()
    ensures Reconfigured(k, XF_HAL_UART, n, old(k.Lookup(XF_HAL_UART, n)), XF_ERR_UNINIT,
                         XF_HAL_UART_CMD_BAUDRATE, OnUart(UartBaudrate(baudrate)), err)
    ensures old(k.Lookup(XF_HAL_UART, n)) != null && KeepsRecords(k.OpsOf(XF_HAL_UART)) ==>
      UartOf(k.Lookup(XF_HAL_UART, n).config).baudrate == baudrate
  {
    err := Reconfigure(k, XF_HAL_UART, n, XF_ERR_UNINIT, XF_HAL_UART_CMD_BAUDRATE, OnUart(UartBaudrate(baudrate)));
  }

  /**
   * `xf_hal_uart_get_baudrate`: the stored rate, without a driver call. A
   * missing port makes the function return XF_ERR_UNINIT as a rate.
   */
  method GetBaudrate(k: Kernel, n: u32) returns (baudrate: u32)
    requires k.Valid() && k.Registered(XF_HAL_UART)
    ensures k.Lookup(XF_HAL_UART, n) == null ==> baudrate == XF_ERR_UNINIT
    ensures k.Lookup(XF_HAL_UART, n) != null ==> baudrate == UartOf(k.Lookup(XF_HAL_UART, n).config).baudrate
  {
    var d := k.Find(XF_HAL_UART, n);
    if d == null {
      return XF_ERR_UNINIT;
    }
    baudrate := UartOf(d.config).baudrate;
  }

  /** `xf_hal_uart_set_flow_control`: the mode and both pins in one command. */
  method SetFlowControl(k: Kernel, n: u32, flow: nat, rts: u32, cts: u32) returns (err: int)
    requires k.Valid() && k.Registered(XF_HAL_UART)
    modifies k, k.Handle(XF_HAL_UART, n)`config
    ensures k.Valid()
    ensures Reconfigured(k, XF_HAL_UART, n, old(k.Lookup(XF_HAL_UART, n)), XF_ERR_UNINIT,
                         XF_HAL_UART_CMD_FLOW_CONTROL | XF_HAL_UART_CMD_RTS_NUM | XF_HAL_UART_CMD_CTS_NUM,
                         OnUart(UartFlowControl(flow, rts, cts)), err)
  {
    err := Reconfigure(k, XF_HAL_UART, n, XF_ERR_UNINIT,
                       XF_HAL_UART_CMD_FLOW_CONTROL | XF_HAL_UART_CMD_RTS_NUM | XF_HAL_UART_CMD_CTS_NUM,
                       OnUart(UartFlowControl(flow, rts, cts)));
  }

  /** `xf_hal_uart_read`: the driver's count or negative error, and the bytes it stored. */
  method Read(k: Kernel, n: u32, len: u32) returns (ret: int, got: seq<int>)
    requires k.Valid() && k.Registered(XF_HAL_UART)
    modifies k
    ensures k.Valid()
    ensures old(k.Lookup(XF_HAL_UART, n)) == null ==> ret == XF_ERR_UNINIT && got == [] && k.trace == old(k.trace)
    ensures old(k.Lookup(XF_HAL_UART, n)) != null ==>
      var io := k.ReadOutcome(old(k.Lookup(XF_HAL_UART, n)), len);
      ret == io.ret && got == io.data && k.trace == old(k.trace) + io.calls
  {
    var _, r, g := Exchange(k, XF_HAL_UART, n, false, [], len);
    ret, got := r, g;
  }

  /** `xf_hal_uart_write`: the driver's count or negative error. */
  method Write(k: Kernel, n: u32, data: seq<int>, len: u32) returns (ret: int)
    requires k.Valid() && k.Registered(XF_HAL_UART)
    modifies k
    ensures k.Valid()
    ensures old(k.Lookup(XF_HAL_UART, n)) == null ==> ret == XF_ERR_UNINIT && k.trace == old(k.trace)
    ensures old(k.Lookup(XF_HAL_UART, n)) != null ==>
      var io := k.WriteOutcome(old(k.Lookup(XF_HAL_UART, n)), data, len);
      ret == io.ret && k.trace == old(k.trace) + io.calls
  {
    var _, r, _ := Exchange(k, XF_HAL_UART, n, true, data, len);
    ret := r;
  }
}
