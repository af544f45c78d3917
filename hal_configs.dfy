/**
 * The configuration records the eight peripheral front ends keep inside each
 * device, one per peripheral header, and the edits their operations make to
 * them before handing the record to the driver.
 *
 * Bit-field members hold the value a C store into a field of that width
 * keeps (`Bits`); plain `uint32_t` members are `u32`; callback and user-data
 * pointers are opaque addresses.
 */
module HalConfigs {
  import opened Common

  /** A callback function pointer together with its user-data pointer. */
  datatype Callback = Callback(callback: nat, userData: nat)

  // ---------------------------------------------------------------- GPIO

  const XF_HAL_GPIO_DIR_IN: nat := 0
  const XF_HAL_GPIO_DIR_OUT: nat := 1
  const XF_HAL_GPIO_DIR_OUT_OD: nat := 2

  datatype GpioConfig = GpioConfig(
    direction: nat,   // 2 bits
    pull: nat,        // 2 bits
    speed: nat,       // 25 bits
    intrEnable: bool, // 1 bit
    intrType: nat,    // 2 bits
    cb: Callback,
    isr: Callback)

  datatype GpioEdit =
    | GpioDirection(direction: nat)
    | GpioPull(pull: nat)
    | GpioSpeed(speed: u32)
    | GpioIntrEnable(on: bool)
    | GpioIntrType(intrType: nat)
    | GpioIntrCb(cb: Callback)
    | GpioIntrIsr(isr: Callback)

  function ApplyGpio(e: GpioEdit, c: GpioConfig): GpioConfig
  {
    match e
    case GpioDirection(d) => c.(direction := Bits(d, 2))
    case GpioPull(p) => c.(pull := Bits(p, 2))
    case GpioSpeed(s) => c.(speed := Bits(s, 25))
    case GpioIntrEnable(on) => c.(intrEnable := on)
    case GpioIntrType(t) => c.(intrType := Bits(t, 2))
    case GpioIntrCb(cb) => c.(cb := cb)
    case GpioIntrIsr(isr) => c.(isr := isr)
  }

  // ---------------------------------------------------------------- UART

  datatype UartConfig = UartConfig(
    enable: bool,     // 1 bit
    dataBits: nat,    // 3 bits
    stopBits: nat,    // 2 bits
    parityBits: nat,  // 3 bits
    flowControl: nat, // 3 bits
    baudrate: u32,
    txNum: u32,
    rxNum: u32,
    rtsNum: u32,
    ctsNum: u32)

  datatype UartEdit =
    | UartEnable(on: bool)
    | UartGpio(tx: u32, rx: u32)
    | UartFrame(dataBits: nat, stopBits: nat, parityBits: nat)
    | UartBaudrate(baudrate: u32)
    | UartFlowControl(flow: nat, rts: u32, cts: u32)

  function ApplyUart(e: UartEdit, c: UartConfig): UartConfig
  {
    match e
    case UartEnable(on) => c.(enable := on)
    case UartGpio(tx, rx) => c.(txNum := tx, rxNum := rx)
    case UartFrame(d, s, p) => c.(dataBits := Bits(d, 3), stopBits := Bits(s, 2), parityBits := Bits(p, 3))
    case UartBaudrate(b) => c.(baudrate := b)
    case UartFlowControl(f, rts, cts) => c.(flowControl := Bits(f, 3), rtsNum := rts, ctsNum := cts)
  }

  // ---------------------------------------------------------------- I2C

  datatype I2cConfig = I2cConfig(
    hosts: nat,         // 1 bit
    enable: bool,       // 1 bit
    addressWidth: nat,  // 1 bit
    address: nat,       // 16 bits
    memAddrEn: bool,    // 1 bit
    memAddrWidth: nat,  // 2 bits
    memAddr: u32,
    speed: u32,
    timeoutMs: u32,
    sclNum: u32,
    sdaNum: u32)

  datatype I2cEdit =
    | I2cSetup(hosts: nat, speed: u32)
    | I2cEnable(on: bool)
    | I2cGpio(scl: u32, sda: u32)
    | I2cAddressWidth(width: nat)
    | I2cAddress(address: u16)
    | I2cMemAddrWidth(width: nat)
      /** Selects a slave memory address for the next transfers. */
    | I2cMemTarget(memAddr: u32, timeoutMs: u32)
      /** Switches memory addressing off for the next transfers. */
    | I2cPlainTarget(timeoutMs: u32)

  function ApplyI2c(e: I2cEdit, c: I2cConfig): I2cConfig
  {
    match e
    case I2cSetup(h, s) => c.(hosts := Bits(h, 1), speed := s)
    case I2cEnable(on) => c.(enable := on)
    case I2cGpio(scl, sda) => c.(sclNum := scl, sdaNum := sda)
    case I2cAddressWidth(w) => c.(addressWidth := Bits(w, 1))
    case I2cAddress(a) => c.(address := a as nat)
    case I2cMemAddrWidth(w) => c.(memAddrWidth := Bits(w, 2))
    case I2cMemTarget(m, t) => c.(memAddr := m, memAddrEn := true, timeoutMs := t)
    case I2cPlainTarget(t) => c.(timeoutMs := t, memAddrEn := false)
  }

  // ---------------------------------------------------------------- SPI

  datatype SpiGpio = SpiGpio(sclkNum: u32, csNum: u32, data0Num: u32, data1Num: u32, data2Num: u32, data3Num: u32)

  datatype SpiConfig = SpiConfig(
    hosts: nat,       // 1 bit
    enable: bool,     // 1 bit
    bitOrder: nat,    // 1 bit
    mode: nat,        // 2 bits
    dataWidth: nat,   // 2 bits
    timeoutMs: u32,
    speed: u32,
    gpio: SpiGpio,
    prevCb: Callback,
    postCb: Callback)

  datatype SpiEdit =
    | SpiSetup(hosts: nat, speed: u32)
    | SpiEnable(on: bool)
    | SpiPrevCb(cb: Callback)
    | SpiPostCb(cb: Callback)
    | SpiSetGpio(gpio: SpiGpio)
    | SpiBitOrder(order: nat)
    | SpiMode(mode: nat)
    | SpiDataWidth(width: nat)
    | SpiSpeed(speed: u32)
    | SpiTimeout(timeoutMs: u32)

  function ApplySpi(e: SpiEdit, c: SpiConfig): SpiConfig
  {
    match e
    case SpiSetup(h, s) => c.(hosts := Bits(h, 1), speed := s)
    case SpiEnable(on) => c.(enable := on)
    case SpiPrevCb(cb) => c.(prevCb := cb)
    case SpiPostCb(cb) => c.(postCb := cb)
    case SpiSetGpio(g) => c.(gpio := g)
    case SpiBitOrder(o) => c.(bitOrder := Bits(o, 1))
    case SpiMode(m) => c.(mode := Bits(m, 2))
    case SpiDataWidth(w) => c.(dataWidth := Bits(w, 2))
    case SpiSpeed(s) => c.(speed := s)
    case SpiTimeout(t) => c.(timeoutMs := t)
  }

  // ---------------------------------------------------------------- PWM

  datatype PwmConfig = PwmConfig(enable: bool, freq: u32, duty: u32, dutyResolution: u32, ioNum: u32)

  datatype PwmEdit =
    | PwmSetup(freq: u32, duty: u32)
    | PwmEnable(on: bool)
    | PwmFreq(freq: u32)
    | PwmDuty(duty: u32)
    | PwmDutyResolution(resolution: u32)
    | PwmIoNum(ioNum: u32)

  function ApplyPwm(e: PwmEdit, c: PwmConfig): PwmConfig
  {
    match e
    case PwmSetup(f, d) => c.(freq := f, duty := d)
    case PwmEnable(on) => c.(enable := on)
    case PwmFreq(f) => c.(freq := f)
    case PwmDuty(d) => c.(duty := d)
    case PwmDutyResolution(r) => c.(dutyResolution := r)
    case PwmIoNum(n) => c.(ioNum := n)
  }

  // ---------------------------------------------------------------- TIM

  const XF_HAL_TIM_ACTIVE_STOP: nat := 0
  const XF_HAL_TIM_ACTIVE_START: nat := 1

  datatype TimConfig = TimConfig(
    active: nat,      // 1 bit
    autoReload: bool, // 1 bit
    countDir: nat,    // 2 bits
    tickFreqHz: u32,
    targetTicks: u32,
    cb: Callback,
    isr: Callback)

  datatype TimEdit =
    | TimSetup(tickFreqHz: u32, autoReload: bool, countDir: nat)
    | TimCb(cb: Callback)
    | TimIsr(isr: Callback)
    | TimStart(targetTicks: u32)
    | TimStop

  function ApplyTim(e: TimEdit, c: TimConfig): TimConfig
  {
    match e
    case TimSetup(f, r, d) => c.(tickFreqHz := f, autoReload := r, countDir := Bits(d, 2))
    case TimCb(cb) => c.(cb := cb)
    case TimIsr(isr) => c.(isr := isr)
    case TimStart(t) => c.(active := XF_HAL_TIM_ACTIVE_START, targetTicks := t)
    case TimStop => c.(active := XF_HAL_TIM_ACTIVE_STOP)
  }

  // ---------------------------------------------------------------- ADC

  datatype AdcConfig = AdcConfig(
    enable: bool,     // 1 bit
    resolution: nat,  // 5 bits
    sampleRate: nat)  // 26 bits

  datatype AdcEdit =
    | AdcEnable(on: bool)
    | AdcResolution(resolution: nat)
    | AdcSampleRate(rate: u32)

  function ApplyAdc(e: AdcEdit, c: AdcConfig): AdcConfig
  {
    match e
    case AdcEnable(on) => c.(enable := on)
    case AdcResolution(r) => c.(resolution := Bits(r, 5))
    case AdcSampleRate(r) => c.(sampleRate := Bits(r, 26))
  }

  /**
   * The guard adc and dac set_resolution place before storing a resolution
   * into the five-bit field: only values above 32 are refused.
   */
  predicate ResolutionRefused(r: nat)
  {
    r > 32
  }

  /** The guard the five-bit field needs, and the refusal message states: 32 and above are refused. */
  predicate ResolutionRefusedFixed(r: nat)
  {
    r >= 32
  }

  /** The guard as written lets 32 through, and the field then keeps 0. */
  lemma ResolutionGuardAdmitsLoss()
    ensures !ResolutionRefused(32) && Bits(32, 5) == 0
  {
    Pow2Widths();
  }

  /** With the corrected guard a resolution is admitted exactly when the field keeps it. */
  lemma ResolutionGuardFixedExact(r: nat)
    ensures !ResolutionRefusedFixed(r) <==> Bits(r, 5) == r
  {
    Pow2Widths();
  }

  /** Every sample rate or speed the adc and dac guards admit fits the twenty-six-bit field. */
  lemma RateFits(r: nat)
    requires r <= 50000000
    ensures Bits(r, 26) == r
  {
    Pow2Widths();
  }

  // ---------------------------------------------------------------- DAC

  datatype DacConfig = DacConfig(
    enable: bool,     // 1 bit
    resolution: nat,  // 5 bits
    speed: nat,       // 26 bits
    valueMax: u32,
    verfMv: u32)

  datatype DacEdit =
    | DacEnable(on: bool)
    | DacResolution(resolution: nat)
    | DacSpeed(speed: u32)

  function ApplyDac(e: DacEdit, c: DacConfig): DacConfig
  {
    match e
    case DacEnable(on) => c.(enable := on)
    case DacResolution(r) => c.(resolution := Bits(r, 5))
    case DacSpeed(s) => c.(speed := Bits(s, 26))
  }

  // ------------------------------------------------- the record a device holds

  /**
   * What a device's configuration pointer points at. The kernel sees an
   * untyped pointer; each front end reads it as its own record.
   */
  datatype Config =
    | GpioCfg(gpio: GpioConfig)
    | UartCfg(uart: UartConfig)
    | I2cCfg(i2c: I2cConfig)
    | SpiCfg(spi: SpiConfig)
    | PwmCfg(pwm: PwmConfig)
    | TimCfg(tim: TimConfig)
    | AdcCfg(adc: AdcConfig)
    | DacCfg(dac: DacConfig)

  const NoCallback := Callback(0, 0)
  const GpioZero := GpioConfig(0, 0, 0, false, 0, NoCallback, NoCallback)
  const UartZero := UartConfig(false, 0, 0, 0, 0, 0, 0, 0, 0, 0)
  const I2cZero := I2cConfig(0, false, 0, 0, false, 0, 0, 0, 0, 0, 0)
  const SpiZero := SpiConfig(0, false, 0, 0, 0, 0, 0, SpiGpio(0, 0, 0, 0, 0, 0), NoCallback, NoCallback)
  const PwmZero := PwmConfig(false, 0, 0, 0, 0)
  const TimZero := TimConfig(0, false, 0, 0, 0, NoCallback, NoCallback)
  const AdcZero := AdcConfig(false, 0, 0)
  const DacZero := DacConfig(false, 0, 0, 0, 0)

  // A front end reading a record of another peripheral's kind sees the
  // all-zero record of its own kind.
  function GpioOf(c: Config): GpioConfig { if c.GpioCfg? then c.gpio else GpioZero }
  function UartOf(c: Config): UartConfig { if c.UartCfg? then c.uart else UartZero }
  function I2cOf(c: Config): I2cConfig { if c.I2cCfg? then c.i2c else I2cZero }
  function SpiOf(c: Config): SpiConfig { if c.SpiCfg? then c.spi else SpiZero }
  function PwmOf(c: Config): PwmConfig { if c.PwmCfg? then c.pwm else PwmZero }
  function TimOf(c: Config): TimConfig { if c.TimCfg? then c.tim else TimZero }
  function AdcOf(c: Config): AdcConfig { if c.AdcCfg? then c.adc else AdcZero }
  function DacOf(c: Config): DacConfig { if c.DacCfg? then c.dac else DacZero }

  /** An edit a front end makes to its own record. */
  datatype Edit =
    | OnGpio(g: GpioEdit)
    | OnUart(u: UartEdit)
    | OnI2c(i: I2cEdit)
    | OnSpi(s: SpiEdit)
    | OnPwm(p: PwmEdit)
    | OnTim(t: TimEdit)
    | OnAdc(a: AdcEdit)
    | OnDac(d: DacEdit)

  /**
   * Whether `c`, read as the record of `e`'s kind, already holds everything
   * `e` stores.
   */
  predicate Settled(e: Edit, c: Config)
  {
    match e
    case OnGpio(g) => ApplyGpio(g, GpioOf(c)) == GpioOf(c)
    case OnUart(u) => ApplyUart(u, UartOf(c)) == UartOf(c)
    case OnI2c(i) => ApplyI2c(i, I2cOf(c)) == I2cOf(c)
    case OnSpi(s) => ApplySpi(s, SpiOf(c)) == SpiOf(c)
    case OnPwm(p) => ApplyPwm(p, PwmOf(c)) == PwmOf(c)
    case OnTim(t) => ApplyTim(t, TimOf(c)) == TimOf(c)
    case OnAdc(a) => ApplyAdc(a, AdcOf(c)) == AdcOf(c)
    case OnDac(d) => ApplyDac(d, DacOf(c)) == DacOf(c)
  }

  /**
   * The record a front end hands to the driver after making edit `e`. Every
   * edit only overwrites members, so making it a second time changes nothing.
   */
  function Apply(e: Edit, c: Config): (r: Config)
    ensures Settled(e, r)
  {
    match e
    case OnGpio(g) => GpioCfg(ApplyGpio(g, GpioOf(c)))
    case OnUart(u) => UartCfg(ApplyUart(u, UartOf(c)))
    case OnI2c(i) => I2cCfg(ApplyI2c(i, I2cOf(c)))
    case OnSpi(s) => SpiCfg(ApplySpi(s, SpiOf(c)))
    case OnPwm(p) => PwmCfg(ApplyPwm(p, PwmOf(c)))
    case OnTim(t) => TimCfg(ApplyTim(t, TimOf(c)))
    case OnAdc(a) => AdcCfg(ApplyAdc(a, AdcOf(c)))
    case OnDac(d) => DacCfg(ApplyDac(d, DacOf(c)))
  }
}
