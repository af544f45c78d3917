/**
 * The types the kernel shares with drivers and front ends: the two reserved
 * ioctl commands, the capability flags a driver registers with, the driver
 * operation table, and the device handle.
 *
 * A driver is a value of `DriverOps`: five functions, each giving the result
 * the real driver returns for its inputs. The kernel passes the driver the
 * device's type, id and platform data (`DevInfo`); `open` may hand back new
 * platform data, `ioctl` the record it left behind its configuration pointer,
 * `read` the words it stored into the caller's buffer.
 */
module HalDevTypes {
  import opened Common
  import opened HalConfigs

  /** Sent first when a device is created: the driver fills in its defaults. */
  const XF_HAL_DEV_CMD_DEFAULT: bv32 := 0x0
  /** Sent second when a device is created: the driver applies every member. */
  const XF_HAL_DEV_CMD_ALL: bv32 := 0x7FFF_FFFF

  /*
   * The device types. The list that numbers them is generated from a table
   * that is not part of this model; the model numbers them in the order the
   * device configuration header lists the peripherals. Nothing proved here
   * depends on the order, only on the numbers being distinct and below
   * XF_HAL_TYPE_MAX.
   */
  const XF_HAL_TYPE_NONE: int := -1
  const XF_HAL_GPIO: int := 0
  const XF_HAL_PWM: int := 1
  const XF_HAL_TIM: int := 2
  const XF_HAL_UART: int := 3
  const XF_HAL_I2C: int := 4
  const XF_HAL_SPI: int := 5
  const XF_HAL_ADC: int := 6
  const XF_HAL_DAC: int := 7
  const XF_HAL_TYPE_MAX: int := 8

  const XF_HAL_FLAG_NOT_USE: nat := 0x00
  const XF_HAL_FLAG_ONLY_READ: nat := 0x01
  const XF_HAL_FLAG_ONLY_WRITE: nat := 0x02
  const XF_HAL_FLAG_READ_WRITE: nat := 0x03

  /** `BITS_CHECK` on the 16-bit flag field the kernel stores. */
  function BitsCheck(flag: u16, bits: u16): (b: bool)
    ensures bits == 0 ==> b
    ensures bits == XF_HAL_FLAG_ONLY_READ ==> (b <==> flag % 2 == 1)
    ensures bits == XF_HAL_FLAG_ONLY_WRITE ==> (b <==> (flag / 2) % 2 == 1)
  {
    (flag as bv16) & (bits as bv16) == bits as bv16
  }

  /** READ_WRITE carries both capability bits, NOT_USE neither, and each single flag only its own. */
  lemma FlagBits()
    ensures BitsCheck(XF_HAL_FLAG_READ_WRITE, XF_HAL_FLAG_ONLY_READ) && BitsCheck(XF_HAL_FLAG_READ_WRITE, XF_HAL_FLAG_ONLY_WRITE)
    ensures !BitsCheck(XF_HAL_FLAG_NOT_USE, XF_HAL_FLAG_ONLY_READ) && !BitsCheck(XF_HAL_FLAG_NOT_USE, XF_HAL_FLAG_ONLY_WRITE)
    ensures !BitsCheck(XF_HAL_FLAG_ONLY_READ, XF_HAL_FLAG_ONLY_WRITE) && !BitsCheck(XF_HAL_FLAG_ONLY_WRITE, XF_HAL_FLAG_ONLY_READ)
  {
  }

  /** What a driver operation learns about the device it is called on. */
  datatype DevInfo = DevInfo(devType: int, id: u32, platformData: nat)

  datatype OpenResult = OpenResult(err: int, platformData: nat)
  datatype IoctlResult = IoctlResult(err: int, config: Config)
  datatype ReadResult = ReadResult(ret: int, data: seq<int>)

  datatype DriverOps = DriverOps(
    open: DevInfo -> OpenResult,
    ioctl: (DevInfo, bv32, Config) -> IoctlResult,
    read: (DevInfo, nat) -> ReadResult,
    write: (DevInfo, seq<int>, nat) -> int,
    close: DevInfo -> int)

  /** One call the kernel made into a driver. */
  datatype Call =
    | OpenCall(info: DevInfo)
    | IoctlCall(info: DevInfo, cmd: bv32, config: Config)
    | ReadCall(info: DevInfo, count: nat)
    | WriteCall(info: DevInfo, data: seq<int>, count: nat)
    | CloseCall(info: DevInfo)

  /**
   * A device handle: the kernel's header (type, id, platform data) followed
   * by the front end's configuration record.
   */
  class Device {
    var devType: int
    var id: u32
    var platformData: nat
    var config: Config

    /** A freshly allocated handle whose record starts as `config`. */
    constructor (config: Config)
      ensures this.config == config && devType == 0 && id == 0 && platformData == 0
    {
      this.config := config;
      devType := 0;
      id := 0;
      platformData := 0;
    }

    function Info(): DevInfo
      reads this`devType, this`id, this`platformData
    {
      DevInfo(devType, id, platformData)
    }
  }
}
