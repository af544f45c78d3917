# xf_hal: device kernel, peripheral front ends and POSIX shim

xf_hal is a hardware abstraction layer for microcontrollers. It has three layers.

- **The kernel** (`xf_hal_dev`) keeps one slot per device type: GPIO, PWM, TIM, UART, I2C, SPI, ADC and DAC. A slot holds:
  - the registered driver's five operations (open, ioctl, read, write, close);
  - a 16-bit capability flag (read, write or both);
  - a 16-bit count of opened devices;
  - the constructor the front end registered;
  - the list of open device handles, in insertion order.

  Create builds a handle with the constructor, opens it through the driver, and then sends the driver two configuration passes: `CMD_DEFAULT` (0), then `CMD_ALL` (0x7FFFFFFF). Find walks a slot's list from the head. Read and write are gated on the flag's capability bits. Close unlinks a handle only when the driver's close succeeds.
- **The front ends** (`xf_hal_gpio`, `_uart`, `_i2c`, `_spi`, `_pwm`, `_tim`, `_adc`, `_dac`) name a device by its peripheral number. Each operation:
  - finds the handle;
  - edits members of the configuration record that follows the handle's header;
  - hands the whole record to the driver's ioctl, under a command word whose bits name the edited members.

  The I2C and SPI transfers resend the record only when it does not already hold the requested address mode and timeout. The ADC and DAC setters check their argument ranges before any lookup.
- **The POSIX shim** (`xf_hal_posix`) provides `open`, `ioctl`, `read`, `write` and `close` over file descriptors.
  - `open` parses a path such as `UART1` against the table of type names: the first name that is a prefix of the path gives the type, and the rest is read as a 16-bit decimal id.
  - It creates the device and returns a descriptor holding the type in bits 16-31 and the id in bits 0-15. This happens only when the requested access mode matches the type's capabilities exactly.

How the model is built:

- The kernel is a class, `HalDev.Kernel`. Its table is an `array<Entry>`, with one `Entry` value per type. Device handles are objects of class `HalDevTypes.Device`, whose `config` field is the front end's record.
- A driver is a value of `DriverOps`: five functions giving whatever the real driver returns for its inputs. No property assumes anything about a driver except where a contract says so. `HalFront.KeepsRecords` names drivers whose ioctl hands back the record unchanged.
- Every call into a driver is appended to the kernel's ghost `trace`. This is how the contracts state "no driver is called" and "exactly this command is sent".
- Every front-end setter is an instance of one pattern: find the handle, make an `Edit`, send it. The pattern is written once, in `HalFront`. For each front-end operation, the contract states which failure code it returns, which command bits it sends and what the record becomes.
- The POSIX string helpers are loops over `seq<char>`, each proved against a pure specification (`DigitRun`, `DecimalValue`, `FirstPrefix`, `Parse`).

## Model

| member | source | states |
|---|---|---|
| HalDev.Kernel.Register | src/kernel/xf_hal_dev.c:44-65 | A missing driver or a type outside the table gives XF_ERR_INVALID_ARG and changes nothing. Otherwise the slot holds the driver, the flag truncated to 16 bits, the constructor, an empty list and a zero count. No other slot changes. |
| HalDev.Kernel.GetFlag | src/kernel/xf_hal_dev.c:67-75 | The result fits in 16 bits. A type outside the table gives the NOT_USE flag. |
| HalDev.Kernel.GetEnableCount | src/kernel/xf_hal_dev.c:77-92 | The result fits in 16 bits. A type outside the table gives 0. |
| HalDev.Kernel.Find | src/kernel/xf_hal_dev.c:239-265 | The handle returned is FirstById of the type's list (the first in insertion order with that id, null when there is none) or null for a type outside the table, and a non-null result carries the requested type and id. |
| HalDev.FirstById | src/kernel/xf_hal_dev.c:249-262 | The walk's answer carries the id and is in the list. It is null exactly when no handle in the list has that id. |
| HalDev.FirstByIdUnique | src/kernel/xf_hal_dev.c:217-265 | In a list without repeated ids, a lookup of any member's id finds that member. |
| HalDev.FirstByIdAppend | src/kernel/xf_hal_dev.c:228 | Appending a handle keeps every earlier answer. The new handle is found only for an id not found before. |
| HalDev.Kernel.Add | src/kernel/xf_hal_dev.c:217-237 | Null, or a (type, id) already listed, gives XF_ERR_INVALID_ARG and changes nothing. Otherwise the handle is appended at the tail of its type's list and nothing else changes. The kernel invariant `Valid` keeps ids distinct in each list. |
| HalDev.Kernel.Link | src/kernel/xf_hal_dev.c:125-131 | Sets the handle's type, id and null platform data, and appends it to the type's list. No other slot changes. |
| HalDev.Kernel.Activate | src/kernel/xf_hal_dev.c:133-145 | Calls the driver's open once. The count goes up by one, wrapping at 16 bits, only when that open returns XF_OK. The driver's error is returned unchanged. |
| HalDev.Kernel.Open | src/kernel/xf_hal_dev.c:119-153 | Null, a bad type or an existing (type, id) gives XF_ERR_INVALID_ARG with no driver call and nothing changed. Otherwise the handle is linked before the driver's open runs, so it stays linked when that open fails. Only a successful open is counted. |
| HalDev.Kernel.Construct | src/device/xf_hal_gpio.c:323-341 | The constructor every front end registers. A used (type, id) gives null and changes nothing. Otherwise a fresh handle holding the blank record becomes the tail of the list. It is returned exactly when the driver's open succeeds. |
| HalDev.Kernel.Create | src/kernel/xf_hal_dev.c:94-117 | A type outside the table or a used id gives null and makes no call. Otherwise it constructs and opens the handle. When that succeeds, it sends CMD_DEFAULT and then CMD_ALL on the handle's own record and returns the handle whatever those two ioctls returned. |
| HalDev.Kernel.ApplyDefaults | src/kernel/xf_hal_dev.c:106-114 | Sends the two create commands in order. The record becomes what the second ioctl left. |
| HalDev.Kernel.Ioctl | src/kernel/xf_hal_dev.c:155-167 | Null dev or a null record gives XF_ERR_INVALID_ARG with no driver call. Otherwise it makes exactly one ioctl call and returns the driver's error and the record it left. |
| HalDev.Kernel.ReadOutcome | src/kernel/xf_hal_dev.c:169-179 | The driver's read is called exactly when the flag has the read bit. Without the bit the result is XF_ERR_NOT_SUPPORTED and no data. |
| HalDev.Kernel.WriteOutcome | src/kernel/xf_hal_dev.c:181-191 | The driver's write is called exactly when the flag has the write bit. Without the bit the result is XF_ERR_NOT_SUPPORTED. |
| HalDev.Kernel.Read | src/kernel/xf_hal_dev.c:169-179 | Null dev gives XF_ERR_INVALID_ARG with no call. Otherwise the result, data and calls are those of `ReadOutcome`. |
| HalDev.Kernel.Write | src/kernel/xf_hal_dev.c:181-191 | Null dev gives XF_ERR_INVALID_ARG with no call. Otherwise the result and calls are those of `WriteOutcome`. |
| HalDev.Kernel.Close | src/kernel/xf_hal_dev.c:193-215 | Calls the driver's close once. A failure is returned and the table is left untouched. On success the handle is unlinked, its id is no longer found, every other id's answer stays the same, and the count drops by one, wrapping at 16 bits. |
| HalDev.Kernel.Unlink | src/kernel/xf_hal_dev.c:205-207 | Removes the handle from its list and decrements the 16-bit count. Its id is no longer found; every other id still is. |
| HalDev.Kernel.CreateThenClose | src/kernel/xf_hal_dev.c:94-215 | A create on a free id, followed by a successful close of what it returned, leaves every slot exactly as before. The id is free again. |
| HalDev.IncDec16 | src/kernel/xf_hal_dev.c:145-207 | The 16-bit increment and decrement undo each other. A decrement from 0 wraps to 0xFFFF. |
| HalDev.Inc16 | src/kernel/xf_hal_dev.c:145 | The `dev_count++` of a 16-bit bit field: one more, except that 0xFFFF wraps to 0. |
| HalDev.Dec16 | src/kernel/xf_hal_dev.c:207 | The `dev_count--` of a 16-bit bit field: one less, except that 0 wraps to 0xFFFF. |
| HalDev.Without | src/kernel/xf_hal_dev.c:205 | Unlinking removes exactly the given handle and keeps every other. |
| HalDev.WithoutKeepsList | src/kernel/xf_hal_dev.c:205 | Unlinking keeps the ids of a list distinct and its type tags intact. |
| HalDev.WithoutDropsId | src/kernel/xf_hal_dev.c:205 | After the unlink, a list without repeated ids holds no handle with the removed handle's id. |
| HalDev.WithoutKeepsOthers | src/kernel/xf_hal_dev.c:205 | Unlinking keeps the find answer for every other id. |
| HalDev.WithoutAppended | src/kernel/xf_hal_dev.c:205 | Unlinking the handle just appended gives back the list as it was before the append. |
| HalDevTypes.FlagBits | src/kernel/xf_hal_dev.h:48-53 | READ_WRITE has both capability bits. NOT_USE has neither. Each single flag has only its own bit. |
| HalDevTypes.BitsCheck | src/kernel/xf_hal_dev.c:172 | `BITS_CHECK` on the stored flag: no bits always pass, ONLY_READ passes exactly when bit 0 of the flag is set, and ONLY_WRITE exactly when bit 1 is set. |
| HalDev.Kernel.constructor | src/kernel/xf_hal_dev.c:38 | The zero-initialised table: no type registered, every list empty, and every type reports the NOT_USE flag and a zero count. |
| HalDevTypes.Device.constructor | src/kernel/xf_hal_dev.h:63-71 | A new handle holds the given record, a zero header and null platform data. |
| Common.Bits | src/device/xf_hal_adc.h:66-68 | The value an unsigned bit field of the given width keeps is below 2 to that width, and a value that fits is kept unchanged. |
| Common.ToU32 | src/kernel/xf_hal_posix.c:133-173 | Conversion to a 32-bit unsigned value keeps values in range. A negative value of at least -2^32 becomes that value plus 2^32; this covers every 32-bit `int` the shim converts. |
| Common.Pow2Widths | src/device/xf_hal_adc.h:67-68 | The five-bit and twenty-six-bit fields hold 32 and 0x4000000 values. |
| HalConfigs.Apply | src/device/xf_hal_gpio.c:103-109 | After an edit the record already holds what the edit stores, so repeating the edit changes nothing. |
| HalConfigs.ResolutionGuardAdmitsLoss | src/device/xf_hal_adc.c:124 | The guard as written lets resolution 32 through, and the five-bit field then stores 0. |
| HalConfigs.ResolutionGuardFixedExact | src/device/xf_hal_adc.c:124 | With the corrected guard, a resolution is accepted exactly when the five-bit field stores it unchanged. |
| HalConfigs.RateFits | src/device/xf_hal_adc.c:151 | A rate that passes the range check fits the twenty-six-bit field unchanged. |
| HalFront.Configure | src/device/xf_hal_gpio.c:103-109 | Applies the edit to the handle's record and sends it in one ioctl. The handle keeps what the driver left, and the driver's error is returned. With a record-keeping driver, the record is the edited one. |
| HalFront.Reconfigure | src/device/xf_hal_gpio.c:90-113 | Without a handle: the given code and no driver call. Otherwise exactly one ioctl, under the given command, on the edited record. |
| HalFront.Release | src/device/xf_hal_gpio.c:76-88 | Without a handle: the given code and nothing changed. Otherwise the kernel's close. |
| HalFront.Instantiate | src/device/xf_hal_adc.c:50-56 | An init that only creates. It returns the given code when create returns null, and XF_OK with the created handle found afterwards otherwise. |
| HalFront.Setup | src/device/xf_hal_gpio.c:50-74 | Create, then one ioctl of the edit on the created record. On a failed create, the given code. |
| HalFront.Retarget | src/device/xf_hal_i2c.c:255-271 | Sends the edit only when the record does not already hold it. Otherwise it makes no call and returns XF_OK. |
| HalFront.TransferOn | src/device/xf_hal_i2c.c:255-276 | A failed reconfiguration ends the transfer with its error and no read or write. Otherwise the kernel's read or write follows. |
| HalFront.RetargetAndTransfer | src/device/xf_hal_spi.c:320-349 | Without a handle: XF_ERR_UNINIT and no call. Otherwise a `TransferOn`. With a record-keeping driver, the record then holds the edit. |
| HalFront.Pass | src/device/xf_hal_uart.c:280-298 | The kernel's read or write on a found handle. It changes no handle. |
| HalFront.Exchange | src/device/xf_hal_uart.c:270-299 | Returns the handle find gave. Without one there is no call; otherwise the kernel's read or write result. |
| HalFront.StoredWord | src/device/xf_hal_adc.c:176-190 | The word a read stored, or 0 when it stored none. |
| HalFront.Positive | src/device/xf_hal_gpio.c:300-304 | A negative driver result is negated. Other results are kept. The value returned is never negative. |
| HalGpio.Register | src/device/xf_hal_gpio.c:45-48 | Registers with READ_WRITE and the GPIO constructor. |
| HalGpio.Init | src/device/xf_hal_gpio.c:50-74 | XF_ERR_NOT_FOUND when create fails. Otherwise it stores the direction and sends CMD_DIRECTION. |
| HalGpio.Deinit | src/device/xf_hal_gpio.c:76-88 | XF_ERR_UNINIT for a missing pin. Otherwise the kernel's close. |
| HalGpio.SetDirection | src/device/xf_hal_gpio.c:90-113 | XF_ERR_UNINIT and no call for a missing pin. Otherwise it stores the direction and sends CMD_DIRECTION only. |
| HalGpio.SetPull | src/device/xf_hal_gpio.c:115-138 | As set_direction, for the pull and CMD_PULL. |
| HalGpio.SetSpeed | src/device/xf_hal_gpio.c:140-163 | As set_direction, for the speed and CMD_SPEED. |
| HalGpio.SetIntrCb | src/device/xf_hal_gpio.c:165-189 | Stores the callback and user data together and sends CMD_INTR_CB. |
| HalGpio.SetIntrIsr | src/device/xf_hal_gpio.c:191-215 | Stores the ISR and user data and sends CMD_INTR_ISR. |
| HalGpio.SetIntrType | src/device/xf_hal_gpio.c:217-240 | Stores the interrupt type and sends CMD_INTR_TYPE. |
| HalGpio.SetIntrEnable | src/device/xf_hal_gpio.c:242-265 | Sets intr_enable and sends CMD_INTR_ENABLE. |
| HalGpio.SetIntrDisable | src/device/xf_hal_gpio.c:267-290 | Clears intr_enable and sends CMD_INTR_ENABLE. |
| HalGpio.LevelByte | src/device/xf_hal_gpio.c:300 | The written byte is 1 exactly for a high level, and 0 otherwise. |
| HalGpio.StoredLevel | src/device/xf_hal_gpio.c:316-319 | No data reads as low. A byte 0 or 1 reads as its own level. |
| HalGpio.SetLevel | src/device/xf_hal_gpio.c:292-305 | Writes one byte through the kernel. A negative result comes back negated. |
| HalGpio.GetLevel | src/device/xf_hal_gpio.c:307-320 | The level the driver read, or false on a read failure. A missing pin gives XF_ERR_UNINIT converted to bool. |
| HalUart.Register | src/device/xf_hal_uart.c:46-49 | Registers with READ_WRITE. |
| HalUart.Init | src/device/xf_hal_uart.c:51-75 | -1 when create fails. Otherwise it stores the baud rate and sends CMD_BAUDRATE. |
| HalUart.Deinit | src/device/xf_hal_uart.c:77-90 | XF_ERR_NOT_FOUND for a missing port. |
| HalUart.Enable | src/device/xf_hal_uart.c:92-115 | XF_ERR_UNINIT for a missing port. Otherwise it sets enable and sends CMD_ENABLE. |
| HalUart.Disable | src/device/xf_hal_uart.c:117-140 | As enable, clearing it. |
| HalUart.SetGpio | src/device/xf_hal_uart.c:142-167 | Stores both pins and sends TX_NUM\|RX_NUM. |
| HalUart.SetConfig | src/device/xf_hal_uart.c:169-196 | Stores data, stop and parity bits and sends the three bits ORed. |
| HalUart.SetBaudrate | src/device/xf_hal_uart.c:198-221 | Stores the rate and sends CMD_BAUDRATE. With a record-keeping driver, get_baudrate then returns it. |
| HalUart.GetBaudrate | src/device/xf_hal_uart.c:223-240 | The stored rate, with no driver call. A missing port gives XF_ERR_UNINIT as a rate. |
| HalUart.SetFlowControl | src/device/xf_hal_uart.c:242-268 | Stores the mode and both pins and sends FLOW_CONTROL\|RTS_NUM\|CTS_NUM. |
| HalUart.Read | src/device/xf_hal_uart.c:270-284 | The driver's count or negative error, unchanged, and the bytes it stored. |
| HalUart.Write | src/device/xf_hal_uart.c:286-299 | The driver's count or negative error, unchanged. |
| HalI2c.Register | src/device/xf_hal_i2c.c:46-49 | Registers with READ_WRITE. |
| HalI2c.Init | src/device/xf_hal_i2c.c:51-76 | XF_ERR_NOT_FOUND when create fails. Otherwise it stores hosts and speed and sends HOSTS\|SPEED. |
| HalI2c.Deinit | src/device/xf_hal_i2c.c:78-91 | XF_ERR_NOT_FOUND for a missing bus. |
| HalI2c.Enable | src/device/xf_hal_i2c.c:93-116 | Sets enable and sends CMD_ENABLE. XF_ERR_UNINIT for a missing bus. |
| HalI2c.Disable | src/device/xf_hal_i2c.c:118-141 | As enable, clearing it. |
| HalI2c.SetGpio | src/device/xf_hal_i2c.c:143-168 | Stores both pins and sends SCL_NUM\|SDA_NUM. |
| HalI2c.SetAddressWidth | src/device/xf_hal_i2c.c:170-193 | One member and one command bit. |
| HalI2c.SetAddress | src/device/xf_hal_i2c.c:195-218 | One member and one command bit. |
| HalI2c.SetMemAddrWidth | src/device/xf_hal_i2c.c:220-243 | One member and one command bit. |
| HalI2c.WriteMem | src/device/xf_hal_i2c.c:245-277 | Sends MEM_ADDR\|MEM_ADDR_EN\|TIMEOUT only when the record is not already in that state. A failed ioctl returns its error without writing. With a record-keeping driver, exactly those three members change. |
| HalI2c.ReadMem | src/device/xf_hal_i2c.c:279-310 | As write_mem, with a read. |
| HalI2c.Write | src/device/xf_hal_i2c.c:312-342 | Sends MEM_ADDR_EN\|TIMEOUT only when memory addressing is on or the timeout differs. A failed ioctl returns its error without writing. With a record-keeping driver, memory addressing is then off, the timeout is the requested one, and the memory address is unchanged. |
| HalI2c.Read | src/device/xf_hal_i2c.c:344-373 | As write, with a read: with a record-keeping driver, memory addressing is then off and the timeout is the requested one. |
| HalI2c.WriteMemTwice | src/device/xf_hal_i2c.c:255 | Of two identical write_mem calls on a driver that keeps its records, the first sends the retargeting ioctl only when the record is unsettled and returns that ioctl's error or else the write's result; the second adds only the write to the trace and returns its result. |
| HalSpi.Register | src/device/xf_hal_spi.c:46-49 | Registers with READ_WRITE. |
| HalSpi.Init | src/device/xf_hal_spi.c:51-76 | XF_ERR_NOT_FOUND when create fails. Otherwise it stores hosts and speed and sends HOSTS\|SPEED. |
| HalSpi.Deinit | src/device/xf_hal_spi.c:78-91 | XF_ERR_UNINIT for a missing bus. |
| HalSpi.Enable | src/device/xf_hal_spi.c:93-116 | Sets enable and sends CMD_ENABLE. |
| HalSpi.Disable | src/device/xf_hal_spi.c:118-141 | Clears enable and sends CMD_ENABLE. |
| HalSpi.SetPrevCb | src/device/xf_hal_spi.c:143-167 | Stores the callback and user data and sends PREV_CB. |
| HalSpi.SetPostCb | src/device/xf_hal_spi.c:169-193 | Stores the callback and user data and sends POST_CB. |
| HalSpi.SetGpio | src/device/xf_hal_spi.c:195-218 | Replaces the whole pin set and sends CMD_GPIO. |
| HalSpi.SetBitOrder | src/device/xf_hal_spi.c:220-243 | One member and one command bit. |
| HalSpi.SetMode | src/device/xf_hal_spi.c:245-268 | One member and one command bit. |
| HalSpi.SetDataWidth | src/device/xf_hal_spi.c:270-293 | One member and one command bit. |
| HalSpi.SetSpeed | src/device/xf_hal_spi.c:295-318 | One member and one command bit. |
| HalSpi.Write | src/device/xf_hal_spi.c:320-349 | Sends CMD_TIMEOUT only when the stored timeout differs. A failed ioctl returns its error without writing. With a record-keeping driver, only the timeout changes. |
| HalSpi.Read | src/device/xf_hal_spi.c:351-378 | As write, with a read. |
| HalPwm.Register | src/device/xf_hal_pwm.c:45-48 | Registers with ONLY_READ, so a kernel write on PWM is refused as not supported. |
| HalPwm.Init | src/device/xf_hal_pwm.c:50-74 | XF_ERR_NOT_FOUND when create fails. Otherwise it stores freq and duty, sends FREQ\|DUTY and returns the ioctl's result. |
| HalPwm.Deinit | src/device/xf_hal_pwm.c:76-89 | XF_ERR_INVALID_ARG for a missing channel. |
| HalPwm.Enable | src/device/xf_hal_pwm.c:91-114 | XF_ERR_INVALID_ARG for a missing channel. With a record-keeping driver, is_enable then returns true. |
| HalPwm.Disable | src/device/xf_hal_pwm.c:116-139 | As enable; is_enable then returns false. |
| HalPwm.SetFreq | src/device/xf_hal_pwm.c:141-164 | Stores freq and sends CMD_FREQ. With a record-keeping driver, get_freq then returns it. |
| HalPwm.SetDuty | src/device/xf_hal_pwm.c:166-189 | Stores duty and sends CMD_DUTY. With a record-keeping driver, get_duty then returns it. |
| HalPwm.SetDutyResolution | src/device/xf_hal_pwm.c:191-214 | One member and DUTY_RESOLUTION. |
| HalPwm.SetGpio | src/device/xf_hal_pwm.c:216-239 | One member and IO_NUM. |
| HalPwm.GetFreq | src/device/xf_hal_pwm.c:241-258 | The stored freq, or 0 for a missing channel. |
| HalPwm.GetDuty | src/device/xf_hal_pwm.c:260-277 | The stored duty, or 0 for a missing channel. |
| HalPwm.IsEnable | src/device/xf_hal_pwm.c:279-296 | The stored enable, or false for a missing channel. |
| HalTim.Register | src/device/xf_hal_tim.c:46-49 | Registers with READ_WRITE. |
| HalTim.Init | src/device/xf_hal_tim.c:51-79 | XF_ERR_NOT_FOUND when create fails. Otherwise it stores tick rate, reload mode and direction and sends the three bits ORed. |
| HalTim.Deinit | src/device/xf_hal_tim.c:81-94 | XF_ERR_UNINIT for a missing timer. |
| HalTim.SetCb | src/device/xf_hal_tim.c:96-120 | Stores the callback and user data and sends CMD_CB. |
| HalTim.SetIsr | src/device/xf_hal_tim.c:122-146 | Stores the ISR and user data and sends CMD_ISR. |
| HalTim.Start | src/device/xf_hal_tim.c:148-173 | Sets active and the target ticks and sends TARGET_TICKS\|ACTIVE. |
| HalTim.Stop | src/device/xf_hal_tim.c:175-198 | Clears only active and sends CMD_ACTIVE. |
| HalTim.SetRawTicks | src/device/xf_hal_tim.c:200-215 | Writes one word through the kernel. A negative result comes back negated. |
| HalTim.GetRawTicks | src/device/xf_hal_tim.c:217-231 | The word read, or 0 on a read failure. A missing timer gives XF_ERR_UNINIT as a count. |
| HalAdc.Register | src/device/xf_hal_adc.c:45-48 | Registers with ONLY_READ, so a kernel write on ADC is refused as not supported. |
| HalAdc.Init | src/device/xf_hal_adc.c:50-56 | Only creates. XF_ERR_NOT_FOUND when create fails. |
| HalAdc.Deinit | src/device/xf_hal_adc.c:58-70 | XF_ERR_UNINIT for a missing channel. |
| HalAdc.Enable | src/device/xf_hal_adc.c:72-95 | Sets enable and sends CMD_ENABLE. |
| HalAdc.Disable | src/device/xf_hal_adc.c:97-120 | Clears enable and sends CMD_ENABLE. |
| HalAdc.SetResolution | src/device/xf_hal_adc.c:122-147 | A resolution above 32 gives XF_ERR_INVALID_ARG before any lookup. Otherwise the resolution is stored in its five-bit field and CMD_RESOLUTION is sent. |
| HalAdc.SetResolutionFixed | src/device/xf_hal_adc.c:122-147 | The same with the guard at 32 and above. A record-keeping driver then holds exactly the resolution given. |
| HalAdc.SetSampleRate | src/device/xf_hal_adc.c:149-174 | A rate above 10000000 gives XF_ERR_INVALID_ARG before any lookup. Otherwise the rate is stored unchanged and CMD_SAMPLE_RATE is sent. |
| HalAdc.ReadRaw | src/device/xf_hal_adc.c:176-190 | The word read, or 0 on a read failure. A missing channel gives XF_ERR_UNINIT as a value. |
| HalDac.Register | src/device/xf_hal_dac.c:45-48 | Registers with ONLY_WRITE, so a kernel read on DAC is refused as not supported. |
| HalDac.Init | src/device/xf_hal_dac.c:50-56 | Only creates. XF_ERR_NOT_FOUND when create fails. |
| HalDac.Deinit | src/device/xf_hal_dac.c:58-71 | XF_ERR_UNINIT for a missing channel. |
| HalDac.Enable | src/device/xf_hal_dac.c:73-96 | Sets enable and sends CMD_ENABLE. |
| HalDac.Disable | src/device/xf_hal_dac.c:98-121 | Clears enable and sends CMD_ENABLE. |
| HalDac.SetResolution | src/device/xf_hal_dac.c:123-148 | A resolution above 32 gives XF_ERR_INVALID_ARG before any lookup. Otherwise it is stored in five bits and CMD_RESOLUTION is sent. |
| HalDac.SetResolutionFixed | src/device/xf_hal_dac.c:123-148 | The same with the guard at 32 and above; the resolution is kept exactly. |
| HalDac.SetSpeed | src/device/xf_hal_dac.c:150-175 | A speed above 50000000 gives XF_ERR_INVALID_ARG before any lookup. Otherwise it stores the speed unchanged and sends CMD_RESOLUTION, so no ioctl it adds to the trace carries the CMD_SPEED bit. |
| HalDac.SpeedSentUnderResolution | src/device/xf_hal_dac.c:171 | The command set_speed sends shares no bit with CMD_SPEED. |
| HalDac.SetSpeedFixed | src/device/xf_hal_dac.c:150-175 | The same, sending CMD_SPEED. |
| HalDac.Write | src/device/xf_hal_dac.c:177-201 | A value above value_max gives XF_ERR_INVALID_ARG with no driver call. Otherwise it writes one word. Any nonzero driver result is returned negated, so a positive count comes back negative; a zero result gives XF_OK. |
| HalDac.MvValue | src/device/xf_hal_dac.c:219 | The 32-bit value the conversion computes. It agrees with the exact quotient whenever the product does not overflow. |
| HalDac.MvValueWide | src/device/xf_hal_dac.c:219 | The conversion without the 32-bit wrap never exceeds value_max. |
| HalDac.MvValueWideFloor | src/device/xf_hal_dac.c:219 | The unwrapped conversion is the floor of value_max * mv / verf_mv. |
| HalDac.MvValueWraps | src/device/xf_hal_dac.c:219 | For value_max 0xFFFFFF, mv 3300 and verf_mv 3300, the 32-bit conversion gives 1159152, where the exact one gives value_max. |
| HalDac.WriteMv | src/device/xf_hal_dac.c:203-230 | XF_ERR_UNINIT for a missing channel. mv above verf_mv gives XF_ERR_INVALID_ARG with no call. Otherwise it writes the converted value. Any nonzero driver result is returned negated, and a zero result gives XF_OK. |
| HalPosix.FdOf | src/kernel/xf_hal_posix.c:51 | The descriptor's low 16 bits are the id. A type below 0x8000 gives a non-negative descriptor. |
| HalPosix.FdToId | src/kernel/xf_hal_posix.c:49 | `FD_TO_ID`: a 16-bit value that differs from the descriptor by a multiple of 2^16, i.e. its low 16 bits. |
| HalPosix.FdToType | src/kernel/xf_hal_posix.c:50 | `FD_TO_TYPE`: for a non-negative descriptor its upper half; for a negative one, the arithmetic shift masked to 16 bits, which is the shifted value plus 2^16. |
| HalPosix.Decode | src/kernel/xf_hal_posix.c:49-51 | The unpacking that matches `TYPE_ID_TO_FD`: packing what it gives yields the same descriptor, for every 32-bit descriptor. |
| HalPosix.DecodeAsWritten | src/kernel/xf_hal_posix.c:111-112 | The unpacking ioctl, read, write and close use, with the type taken from `FD_TO_ID` and the id from `FD_TO_TYPE`: packing its id as the type and its type as the id yields the same descriptor. |
| HalPosix.DecodeRoundTrip | src/kernel/xf_hal_posix.c:49-51 | Unpacking the high half as the type and the low half as the id gives back every packed pair. |
| HalPosix.FdOfInjective | src/kernel/xf_hal_posix.c:51 | Distinct pairs give distinct descriptors. |
| HalPosix.DecodeAsWrittenSwaps | src/kernel/xf_hal_posix.c:111-112 | The shim's own unpacking gives (id, type). It agrees with what open packed only when type equals id. |
| HalPosix.DecodeAsWrittenCounterexample | src/kernel/xf_hal_posix.c:111-112 | The descriptor of PWM 2 is looked up as TIM 1. |
| HalPosix.DigitChar | src/kernel/xf_hal_posix.c:215 | A digit's character is a digit of that value. |
| HalPosix.DigitRun | src/kernel/xf_hal_posix.c:214-220 | The length of the leading run of digits: every character in it is a digit, and the one after it is not. |
| HalPosix.Decimal | src/kernel/xf_hal_posix.c:210-223 | The decimal rendering is non-empty, all digits, and spells the number. |
| HalPosix.AllDigitsRun | src/kernel/xf_hal_posix.c:214-222 | A string of digits is one whole digit run. |
| HalPosix.AtoiOfDecimal | src/kernel/xf_hal_posix.c:210-223 | `_atoi` succeeds on the decimal rendering of any 16-bit number and reads it back. |
| HalPosix.ModStep | src/kernel/xf_hal_posix.c:215 | Wrapping at 16 bits after every step equals wrapping the total. |
| HalPosix.FirstPrefix | src/kernel/xf_hal_posix.c:227-235 | The index of the first name that prefixes the path, or none exactly when no name does. |
| HalPosix.Parse | src/kernel/xf_hal_posix.c:225-238 | No result exactly when no name prefixes the path. |
| HalPosix.ParseRoundTrip | src/kernel/xf_hal_posix.c:225-238 | With prefix-free names, a name followed by the decimal rendering of an id parses back to that type and id. |
| HalPosix.IsPrefix | src/kernel/xf_hal_posix.c:198-208 | Returns the remainder exactly when the first string is a prefix of the second; otherwise nothing. |
| HalPosix.Atoi | src/kernel/xf_hal_posix.c:210-223 | Returns the leading digits wrapped to 16 bits. Reports success exactly when the digits run to the end. |
| HalPosix.NameToTypeAndId | src/kernel/xf_hal_posix.c:225-238 | Found exactly when `Parse` gives a result, and then gives that type and id. Trailing non-digits do not cause a failure. |
| HalPosix.ModeMatchesCapability | src/kernel/xf_hal_posix.c:82-99 | ONLY_READ admits exactly O_RDONLY, ONLY_WRITE exactly O_WRONLY, READ_WRITE exactly O_RDWR, and NOT_USE nothing. |
| HalPosix.ModeMatchesOne | src/kernel/xf_hal_posix.c:82-99 | At most one access mode matches a flag. |
| HalPosix.Open | src/kernel/xf_hal_posix.c:55-104 | -1 when the path does not parse, the type is out of range or the device exists; nothing changes then. Otherwise it creates the device, and the result is the packed descriptor only when create succeeded and the mode matches. A mismatch leaves the device created. |
| HalPosix.Ioctl | src/kernel/xf_hal_posix.c:106-131 | Unpacks the descriptor as written and forwards the request to the kernel even when find fails. The kernel then returns XF_ERR_INVALID_ARG. |
| HalPosix.Cmd | src/kernel/xf_hal_posix.c:125 | The `unsigned long` request passed as the kernel's `uint32_t` command: a request that fits in 32 bits is passed unchanged. |
| HalPosix.Write | src/kernel/xf_hal_posix.c:133-152 | As ioctl, through the kernel's write. The signed result is returned as a 32-bit size. |
| HalPosix.Read | src/kernel/xf_hal_posix.c:154-173 | As write, through the kernel's read. |
| HalPosix.Close | src/kernel/xf_hal_posix.c:175-194 | Unpacks as written and closes what find returned. A missing device gives XF_ERR_INVALID_ARG. |

The POSIX `ioctl`, `read`, `write` and `close` take the type from the low half of the descriptor and the id from the high half. This is the reverse of how `open` packs it, and the model keeps the order the code uses (`DecodeAsWritten`). `Decode` is the unpacking that matches the packing.

## Left out

- Locking: the per-type and per-device mutexes of the lock-enabled build are not modelled. The model is the lock-off build. In that build, the DAC write paths that return early from a failed assertion without unlocking cost nothing.
- Logging is not modelled. The assertion and check macros come from xf_utils, which is not part of this model. They are modelled only by their effect: an early return with the given code.
- Memory: allocation never fails, and the record following the header is the handle's `config` field. The record a constructor allocates is uninitialised in C; the model gives it a blank value.
- Driver operations are total and deterministic functions of their inputs, and none of them is a NULL pointer. The reference drivers under `port/` are not modelled.
- A record of the wrong kind read through a front end's view is read as the zero record of that kind.
- Close frees the handle and then reads its type. The model decrements the closed handle's type count and says nothing more about the freed handle.
- On a failed open, the handle stays linked in the list after the constructor frees it. The model keeps it in the list as a live object.
- The type numbering comes from a generated table that is not part of this model. The model numbers the types GPIO 0, PWM 1, TIM 2, UART 3, I2C 4, SPI 5, ADC 6, DAC 7. No proof depends on this order.
- Error code values come from xf_utils. The model fixes XF_OK at 0 and XF_FAIL at -1, and gives the other codes distinct positive values.
- `HalDac.Write`: the contract returns `-err` as an unbounded integer, so it does not model the 32-bit overflow of negating INT_MIN.
- Counts of type `size_t` and `uint32_t` are natural numbers; `size_t` is taken as 32 bits wide where the POSIX shim converts a signed result to it.
- `HalPosix.FdOf`: a type of 0x8000 or more shifts into the sign bit, which is undefined behaviour in C. The model takes it to wrap in two's complement.
- `HalPosix.Cmd`: the contract states only that a request below 2^32 is passed unchanged. A larger `unsigned long` is reduced modulo 2^32 by the definition, but the contract does not state it, because that conversion to a bit-vector is too costly to prove for arbitrary values.
- `HalPosix.Ioctl`: the variadic argument is an `Option` record. A NULL pointer is `None`; any other pointer is a record.
- `HalPosix.Open`, `HalDev.Kernel.Create`: these require a non-NULL constructor for a registered type. The front ends always register one, and a NULL one would crash in C.
- `HalDev.Kernel.Find` requires an in-range type to be registered, because find in C walks the uninitialised list head of a slot never registered. With the as-written decode, the POSIX methods need the same of the type they unpack; this is their requirement `Reachable`.
- `HalDac.WriteMv` requires a nonzero verf_mv when mv is 0. The C code then divides by zero; for any other mv, the range check has already returned.
- `HalSpi.SetGpio`: a NULL pin set is not modelled; the pin set is a value.
- The getters return XF_ERR_UNINIT, converted to their result type, for a missing device: HalGpio.GetLevel gives true, and HalUart.GetBaudrate, HalTim.GetRawTicks and HalAdc.ReadRaw give 0x10E. The model states this behaviour as written. It is not listed as a finding, because the headers document no other value.
- The DAC stub driver returns 0 from write, while the kernel documents a count. Drivers are abstract here, so this makes no difference to the model.
- Strings are sequences of characters without a terminating NUL. The end of the sequence plays the NUL's part.
- The callback and ISR pointers and their user data are opaque values, which are stored and compared but never called.

## Findings

| source | as written | input that shows it | evidently intended | confidence | as-written member | corrected member |
|---|---|---|---|---|---|---|
| src/device/xf_hal_adc.c:124, src/device/xf_hal_dac.c:125 | The resolution guard rejects only values above 32, but the record's resolution field is five bits wide. | resolution 32 passes the guard and is stored as 0 | reject 32 and above, as the message "must less than 32" says | not executed | HalConfigs.ResolutionGuardAdmitsLoss, HalAdc.SetResolution, HalDac.SetResolution | HalConfigs.ResolutionGuardFixedExact, HalAdc.SetResolutionFixed, HalDac.SetResolutionFixed |
| src/device/xf_hal_dac.c:171 | set_speed stores the speed but sends the ioctl under CMD_RESOLUTION. | any accepted speed, e.g. 1000 | send CMD_SPEED | not executed | HalDac.SetSpeed, HalDac.SpeedSentUnderResolution | HalDac.SetSpeedFixed |
| src/device/xf_hal_dac.c:219 | `value_max * mv` is computed in 32 bits and wraps before the division. | value_max 0xFFFFFF, mv 3300, verf_mv 3300 gives 1159152 instead of 0xFFFFFF | compute the product wide, so the result is at most value_max | not executed | HalDac.MvValue, HalDac.MvValueWraps | HalDac.MvValueWide, HalDac.MvValueWideFloor |
| src/kernel/xf_hal_posix.c:111-112, 136-137, 157-158, 178-179 | ioctl, write, read and close take the type from `FD_TO_ID` and the id from `FD_TO_TYPE`. | the descriptor open returns for "PWM2" (0x10002) is looked up as TIM 1 | unpack the type from the high half and the id from the low half | not executed | HalPosix.DecodeAsWritten, HalPosix.DecodeAsWrittenCounterexample | HalPosix.Decode, HalPosix.DecodeRoundTrip |
