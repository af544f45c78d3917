/**
 * The I2C front end: one handle per bus number, registered readable and
 * writable. A transfer first brings the record's memory-address settings
 * and timeout in line with the request, sending them only when they differ
 * from what the record already holds, and then reads or writes through the
 * kernel.
 */
module HalI2c {
  import opened Common
  import opened HalConfigs
  import opened HalDevTypes
  import opened HalDev
  import opened HalFront

  const XF_HAL_I2C_CMD_HOSTS: bv32 := 0x1
  const XF_HAL_I2C_CMD_ENABLE: bv32 := 0x2
  const XF_HAL_I2C_CMD_ADDRESS_WIDTH: bv32 := 0x4
  const XF_HAL_I2C_CMD_ADDRESS: bv32 := 0x8
  const XF_HAL_I2C_CMD_MEM_ADDR_EN: bv32 := 0x10
  const XF_HAL_I2C_CMD_MEM_ADDR_WIDTH: bv32 := 0x20
  const XF_HAL_I2C_CMD_MEM_ADDR: bv32 := 0x40
  const XF_HAL_I2C_CMD_SPEED: bv32 := 0x80
  const XF_HAL_I2C_CMD_TIMEOUT: bv32 := 0x100
  const XF_HAL_I2C_CMD_SCL_NUM: bv32 := 0x200
  const XF_HAL_I2C_CMD_SDA_NUM: bv32 := 0x400

  /** The command a memory transfer reconfigures with. */
  const MemCmd: bv32 := XF_HAL_I2C_CMD_MEM_ADDR | XF_HAL_I2C_CMD_MEM_ADDR_EN | XF_HAL_I2C_CMD_TIMEOUT
  /** The command a plain transfer reconfigures with. */
  const PlainCmd: bv32 := XF_HAL_I2C_CMD_MEM_ADDR_EN | XF_HAL_I2C_CMD_TIMEOUT

  /** What a bus's handle is allocated with. */
  const Blank: Config := I2cCfg(I2cZero)

  /** `xf_hal_i2c_register`. */
  method Register(k: Kernel, ops: Option<DriverOps>) returns (err: int)
    requires k.Valid()
    modifies k.table
    ensures k.Valid()
    ensures err == (if ops.Some? then XF_OK else XF_ERR_INVALID_ARG)
    ensures err == XF_OK ==>
      && k.table[XF_HAL_I2C] == Entry(ops, XF_HAL_FLAG_READ_WRITE, 0, Some(Blank), [])
      && k.GetFlag(XF_HAL_I2C) == XF_HAL_FLAG_READ_WRITE && k.GetEnableCount(XF_HAL_I2C) == 0
    ensures forall u | 0 <= u < k.table.Length && (err != XF_OK || u != XF_HAL_I2C) :: k.table[u] == old(k.table[u])
  {
    err := k.Register(XF_HAL_I2C, XF_HAL_FLAG_READ_WRITE, Some(Blank), ops);
  }

  /** `xf_hal_i2c_init`: create the bus, then set and send its role and speed. */
  method Init(k: Kernel, n: u32, hosts: nat, speed: u32) returns (err: int)
    requires k.Valid() && k.Registered(XF_HAL_I2C) && k.table[XF_HAL_I2C].ctor.Some?
    modifies k, k.table
    ensures k.Valid()
    ensures Initialised(k, XF_HAL_I2C, n, old(k.Lookup(XF_HAL_I2C, n)), XF_ERR_NOT_FOUND,
                        XF_HAL_I2C_CMD_HOSTS | XF_HAL_I2C_CMD_SPEED, OnI2c(I2cSetup(hosts, speed)), err)
  {
    err := Setup(k, XF_HAL_I2C, n, XF_ERR_NOT_FOUND, XF_HAL_I2C_CMD_HOSTS | XF_HAL_I2C_CMD_SPEED, OnI2c(I2cSetup(hosts, speed)));
  }

  /** `xf_hal_i2c_deinit`: a missing bus gives XF_ERR_NOT_FOUND here, unlike the other operations. */
  method Deinit(k: Kernel, n: u32) returns (err: int)
    requires k.Valid() && k.Registered(XF_HAL_I2C)
    modifies k, k.table
    ensures k.Valid() && Released(k, XF_HAL_I2C, n, old(k.Lookup(XF_HAL_I2C, n)), XF_ERR_NOT_FOUND, err)
  {
    err := Release(k, XF_HAL_I2C, n, XF_ERR_NOT_FOUND);
  }

  /** `xf_hal_i2c_enable`. */
  method Enable(k: Kernel, n: u32) returns (err: int)
    requires k.Valid() && k.Registered(XF_HAL_I2C)
    modifies k, k.Handle(XF_HAL_I2C, n)`config
    ensures k.Valid()
    ensures Reconfigured(k, XF_HAL_I2C, n, old(k.Lookup(XF_HAL_I2C, n)), XF_ERR_UNINIT,
                         XF_HAL_I2C_CMD_ENABLE, OnI2c(I2cEnable(true)), err)
  {
    err := Reconfigure(k, XF_HAL_I2C, n, XF_ERR_UNINIT, XF_HAL_I2C_CMD_ENABLE, OnI2c(I2cEnable(true)));
  }

  /** `xf_hal_i2c_disable`. */
  method Disable(k: Kernel, n: u32) returns (err: int)
    requires k.Valid() && k.Registered(XF_HAL_I2C)
    modifies k, k.Handle(XF_HAL_I2C, n)`config
    ensures k.Valid()
    ensures Reconfigured(k, XF_HAL_I2C, n, old(k.Lookup(XF_HAL_I2C, n)), XF_ERR_UNINIT,
                         XF_HAL_I2C_CMD_ENABLE, OnI2c(I2cEnable(false)), err)
  {
    err := Reconfigure(k, XF_HAL_I2C, n, XF_ERR_UNINIT, XF_HAL_I2C_CMD_ENABLE, OnI2c(I2cEnable(false)));
  }

  /** `xf_hal_i2c_set_gpio`: both pins in one command. */
  method SetGpio(k: Kernel, n: u32, scl: u32, sda: u32) returns (err: int)
    requires k.Valid() && k.Registered(XF_HAL_I2C)
    modifies k, k.Handle(XF_HAL_I2C, n)`config
    ensures k.Valid()
    ensures Reconfigured(k, XF_HAL_I2C, n, old(k.Lookup(XF_HAL_I2C, n)), XF_ERR_UNINIT,
                         XF_HAL_I2C_CMD_SCL_NUM | XF_HAL_I2C_CMD_SDA_NUM, OnI2c(I2cGpio(scl, sda)), err)
  {
    err := Reconfigure(k, XF_HAL_I2C, n, XF_ERR_UNINIT, XF_HAL_I2C_CMD_SCL_NUM | XF_HAL_I2C_CMD_SDA_NUM, OnI2c(I2cGpio(scl, sda)));
  }

  /** `xf_hal_i2c_set_address_width`. */
  method SetAddressWidth(k: Kernel, n: u32, width: nat) returns (err: int)
    requires k.Valid() && k.Registered(XF_HAL_I2C)
    modifies k, k.Handle(XF_HAL_I2C, n)`config
    ensures k.Valid()
    ensures Reconfigured(k, XF_HAL_I2C, n, old(k.Lookup(XF_HAL_I2C, n)), XF_ERR_UNINIT,
                         XF_HAL_I2C_CMD_ADDRESS_WIDTH, OnI2c(I2cAddressWidth(width)), err)
  {
    err := Reconfigure(k, XF_HAL_I2C, n, XF_ERR_UNINIT, XF_HAL_I2C_CMD_ADDRESS_WIDTH, OnI2c(I2cAddressWidth(width)));
  }

  /** `xf_hal_i2c_set_address`. */
  method SetAddress(k: Kernel, n: u32, address: u16) returns (err: int)
    requires k.Valid() && k.Registered(XF_HAL_I2C)
    modifies k, k.Handle(XF_HAL_I2C, n)`config
    ensures k.Valid()
    ensures Reconfigured(k, XF_HAL_I2C, n, old(k.Lookup(XF_HAL_I2C, n)), XF_ERR_UNINIT,
                         XF_HAL_I2C_CMD_ADDRESS, OnI2c(I2cAddress(address)), err)
  {
    err := Reconfigure(k, XF_HAL_I2C, n, XF_ERR_UNINIT, XF_HAL_I2C_CMD_ADDRESS, OnI2c(I2cAddress(address)));
  }

  /** `xf_hal_i2c_set_mem_addr_width`. */
  method SetMemAddrWidth(k: Kernel, n: u32, width: nat) returns (err: int)
    requires k.Valid() && k.Registered(XF_HAL_I2C)
    modifies k, k.Handle(XF_HAL_I2C, n)`config
    ensures k.Valid()
    ensures Reconfigured(k, XF_HAL_I2C, n, old(k.Lookup(XF_HAL_I2C, n)), XF_ERR_UNINIT,
                         XF_HAL_I2C_CMD_MEM_ADDR_WIDTH, OnI2c(I2cMemAddrWidth(width)), err)
  {
    err := Reconfigure(k, XF_HAL_I2C, n, XF_ERR_UNINIT, XF_HAL_I2C_CMD_MEM_ADDR_WIDTH, OnI2c(I2cMemAddrWidth(width)));
  }

  /**
   * `xf_hal_i2c_write_mem`: select `memAddr` and `timeoutMs` unless the
   * record already has them with memory addressing on, then write. With a
   * driver that keeps the records it is handed, the record afterwards holds
   * exactly those three settings changed.
   */
  method WriteMem(k: Kernel, n: u32, memAddr: u32, buffer: seq<int>, size: u32, timeoutMs: u32) returns (ret: int)
    requires k.Valid() && k.Registered(XF_HAL_I2C)
    modifies k, k.Handle(XF_HAL_I2C, n)`config
    ensures k.Valid()
    ensures TransferredAt(k, XF_HAL_I2C, n, old(k.Lookup(XF_HAL_I2C, n)), MemCmd, OnI2c(I2cMemTarget(memAddr, timeoutMs)),
                          true, buffer, size, ret, [])
    ensures old(k.Lookup(XF_HAL_I2C, n)) != null && KeepsRecords(k.OpsOf(XF_HAL_I2C)) ==>
      I2cOf(k.Lookup(XF_HAL_I2C, n).config)
        == I2cOf(old(k.Lookup(XF_HAL_I2C, n).config)).(memAddr := memAddr, memAddrEn := true, timeoutMs := timeoutMs)
  {
    var got;
    ret, got := RetargetAndTransfer(k, XF_HAL_I2C, n, MemCmd, OnI2c(I2cMemTarget(memAddr, timeoutMs)), true, buffer, size);
  }

  /** `xf_hal_i2c_read_mem`: as write_mem, reading `size` bytes into `got`. */
  method ReadMem(k: Kernel, n: u32, memAddr: u32, size: u32, timeoutMs: u32) returns (ret: int, got: seq<int>)
    requires k.Valid() && k.Registered(XF_HAL_I2C)
    modifies k, k.Handle(XF_HAL_I2C, n)`config
    ensures k.Valid()
    ensures TransferredAt(k, XF_HAL_I2C, n, old(k.Lookup(XF_HAL_I2C, n)), MemCmd, OnI2c(I2cMemTarget(memAddr, timeoutMs)),
                          false, [], size, ret, got)
    ensures old(k.Lookup(XF_HAL_I2C, n)) != null && KeepsRecords(k.OpsOf(XF_HAL_I2C)) ==>
      I2cOf(k.Lookup(XF_HAL_I2C, n).config)
        == I2cOf(old(k.Lookup(XF_HAL_I2C, n).config)).(memAddr := memAddr, memAddrEn := true, timeoutMs := timeoutMs)
  {
    ret, got := RetargetAndTransfer(k, XF_HAL_I2C, n, MemCmd, OnI2c(I2cMemTarget(memAddr, timeoutMs)), false, [], size);
  }

  /**
   * `xf_hal_i2c_write`: switch memory addressing off and select `timeoutMs`
   * unless the record already has them, then write. The memory address
   * itself is left as it was.
   */
  method Write(k: Kernel, n: u32, buffer: seq<int>, size: u32, timeoutMs: u32) returns (ret: int)
    requires k.Valid() && k.Registered(XF_HAL_I2C)
    modifies k, k.Handle(XF_HAL_I2C, n)`config
    ensures k.Valid()
    ensures TransferredAt(k, XF_HAL_I2C, n, old(k.Lookup(XF_HAL_I2C, n)), PlainCmd, OnI2c(I2cPlainTarget(timeoutMs)),
                          true, buffer, size, ret, [])
    ensures old(k.Lookup(XF_HAL_I2C, n)) != null && KeepsRecords(k.OpsOf(XF_HAL_I2C)) ==>
      I2cOf(k.Lookup(XF_HAL_I2C, n).config)
        == I2cOf(old(k.Lookup(XF_HAL_I2C, n).config)).(memAddrEn := false, timeoutMs := timeoutMs)
  {
    var got;
    ret, got := RetargetAndTransfer(k, XF_HAL_I2C, n, PlainCmd, OnI2c(I2cPlainTarget(timeoutMs)), true, buffer, size);
  }

  /** `xf_hal_i2c_read`: as write, reading `size` bytes into `got`. */
  method Read(k: Kernel, n: u32, size: u32, timeoutMs: u32) returns (ret: int, got: seq<int>)
    requires k.Valid() && k.Registered(XF_HAL_I2C)
    modifies k, k.Handle(XF_HAL_I2C, n)`config
    ensures k.Valid()
    ensures TransferredAt(k, XF_HAL_I2C, n, old(k.Lookup(XF_HAL_I2C, n)), PlainCmd, OnI2c(I2cPlainTarget(timeoutMs)),
                          false, [], size, ret, got)
    ensures old(k.Lookup(XF_HAL_I2C, n)) != null && KeepsRecords(k.OpsOf(XF_HAL_I2C)) ==>
      I2cOf(k.Lookup(XF_HAL_I2C, n).config)
        == I2cOf(old(k.Lookup(XF_HAL_I2C, n).config)).(memAddrEn := false, timeoutMs := timeoutMs)
  {
    ret, got := RetargetAndTransfer(k, XF_HAL_I2C, n, PlainCmd, OnI2c(I2cPlainTarget(timeoutMs)), false, [], size);
  }

  /**
   * Two identical write_mem calls in a row on an open bus whose driver keeps
   * the records it is handed: the second sends no configuration, its only
   * driver call being the write. `between` is the trace after the first:
   * the write alone when the record was already settled, otherwise the
   * retargeting ioctl followed by the write if that ioctl succeeded.
   */
  method WriteMemTwice(k: Kernel, n: u32, memAddr: u32, buffer: seq<int>, size: u32, timeoutMs: u32)
    returns (first: int, second: int, ghost between: seq<Call>)
    requires k.Valid() && k.Registered(XF_HAL_I2C)
    requires k.Lookup(XF_HAL_I2C, n) != null && KeepsRecords(k.OpsOf(XF_HAL_I2C))
    modifies k, k.Handle(XF_HAL_I2C, n)`config
    ensures k.Valid()
    ensures var d := old(k.Lookup(XF_HAL_I2C, n));
            var e := OnI2c(I2cMemTarget(memAddr, timeoutMs));
            var w := k.WriteOutcome(d, buffer, size).calls;
            var sent := Apply(e, old(d.config));
            between == old(k.trace) + (if Settled(e, old(d.config)) then w
                                       else [IoctlCall(d.Info(), MemCmd, sent)]
                                            + (if k.OpsOf(XF_HAL_I2C).ioctl(d.Info(), MemCmd, sent).err == XF_OK then w else []))
    ensures k.trace == between + k.WriteOutcome(old(k.Lookup(XF_HAL_I2C, n)), buffer, size).calls
    ensures var d := old(k.Lookup(XF_HAL_I2C, n));
            var e := OnI2c(I2cMemTarget(memAddr, timeoutMs));
            var r := k.OpsOf(XF_HAL_I2C).ioctl(d.Info(), MemCmd, Apply(e, old(d.config))).err;
            first == (if Settled(e, old(d.config)) || r == XF_OK then k.WriteOutcome(d, buffer, size).ret else r)
    ensures second == k.WriteOutcome(old(k.Lookup(XF_HAL_I2C, n)), buffer, size).ret
  {
    first := WriteMem(k, n, memAddr, buffer, size, timeoutMs);
    between := k.trace;
    second := WriteMem(k, n, memAddr, buffer, size, timeoutMs);
  }
}
