/**
 * The pattern every peripheral front end follows, written once.
 *
 * A front operation names a device by its peripheral number. It looks the
 * handle up in the kernel, edits members of the record that follows the
 * handle's header, and hands the whole record to the driver with an ioctl
 * whose command bits name the edited members. The driver may leave a
 * different record behind, and that is what the handle holds afterwards.
 */
module HalFront {
  import opened Common
  import opened HalConfigs
  import opened HalDevTypes
  import opened HalDev

  /** A driver whose ioctl leaves every record exactly as it was handed over. */
  ghost predicate KeepsRecords(ops: DriverOps)
  {
    forall info, cmd, c :: ops.ioctl(info, cmd, c).config == c
  }

  /** Edit `d`'s record and send it: the step shared by init and every setter. */
  method Configure(k: Kernel, d: Device, cmd: bv32, edit: Edit) returns (err: int)
    requires k.Valid() && k.Registered(d.devType)
    modifies k, d`config
    ensures k.Valid() && k.Lookup(d.devType, d.id) == old(k.Lookup(d.devType, d.id))
    ensures var sent := Apply(edit, old(d.config));
      var out := k.OpsOf(d.devType).ioctl(d.Info(), cmd, sent);
      && err == out.err && d.config == out.config
      && k.trace == old(k.trace) + [IoctlCall(d.Info(), cmd, sent)]
    ensures KeepsRecords(k.OpsOf(d.devType)) ==> d.config == Apply(edit, old(d.config)) && Settled(edit, d.config)
  {
    d.config := Apply(edit, d.config);
    var after;
    err, after := k.Ioctl(d, cmd, Some(d.config));
    d.config := after.value;
  }

  /**
   * What a setter on `(t, n)` did, where `found` is the handle find returned
   * for it beforehand: with no handle it returned `absent` and called no
   * driver; otherwise it sent the handle's record with `edit` made, under
   * `cmd`, returned the driver's error and left the handle holding what the
   * driver left behind.
   */
  twostate predicate Reconfigured(k: Kernel, t: int, n: u32, found: Device?, absent: int, cmd: bv32, edit: Edit, err: int)
    reads k, k.table, k.Devices()`id, found
  {
    && k.Registered(t)
    && if found == null then err == absent && k.trace == old(k.trace)
       else
         var sent := Apply(edit, old(found.config));
         var out := k.OpsOf(t).ioctl(found.Info(), cmd, sent);
         && k.Lookup(t, n) == found
         && err == out.err && found.config == out.config
         && k.trace == old(k.trace) + [IoctlCall(found.Info(), cmd, sent)]
  }

  /** A setter: find `(t, n)`, then make `edit` and send it with `cmd`. */
  method Reconfigure(k: Kernel, t: int, n: u32, absent: int, cmd: bv32, edit: Edit) returns (err: int)
    requires k.Valid() && k.Registered(t)
    modifies k, k.Handle(t, n)`config
    ensures k.Valid() && Reconfigured(k, t, n, old(k.Lookup(t, n)), absent, cmd, edit, err)
  {
    var d := k.Find(t, n);
    if d == null {
      return absent;
    }
    err := Configure(k, d, cmd, edit);
  }

  /**
   * What a deinit of `(t, n)` did, `found` being the handle find returned:
   * with no handle it returned `absent` and changed nothing; otherwise it
   * returned the driver's close result, and only when that was XF_OK is the
   * handle unlinked and `t`'s count one lower, every other handle staying
   * where it was.
   */
  twostate predicate Released(k: Kernel, t: int, n: u32, found: Device?, absent: int, err: int)
    reads k, k.table, k.Devices()`id, found
  {
    && old(k.Registered(t)) && 0 <= t < k.table.Length
    && if found == null then err == absent && k.trace == old(k.trace) && unchanged(k.table)
       else
         && err == old(k.OpsOf(t)).close(found.Info())
         && k.trace == old(k.trace) + [CloseCall(found.Info())]
         && (err != XF_OK ==> unchanged(k.table))
         && (err == XF_OK ==>
               && k.Lookup(t, n) == null
               && k.GetEnableCount(t) == Dec16(old(k.table[t].count)) as nat
               && (forall id: u32 | id != n :: k.Lookup(t, id) == old(k.Lookup(t, id)))
               && forall u | 0 <= u < k.table.Length && u != t :: k.table[u] == old(k.table[u]))
  }

  /** A deinit: find `(t, n)`, then close it. */
  method Release(k: Kernel, t: int, n: u32, absent: int) returns (err: int)
    requires k.Valid() && k.Registered(t)
    modifies k, k.table
    ensures k.Valid() && Released(k, t, n, old(k.Lookup(t, n)), absent, err)
  {
    var d := k.Find(t, n);
    if d == null {
      return absent;
    }
    err := k.Close(d);
  }

  /**
   * What an init of `(t, n)` that only creates the handle did, `found` being
   * the handle find returned beforehand: an existing handle makes create
   * return NULL and so does a failed open, both giving `failed`; otherwise
   * the created handle is the one find now returns, holding the record
   * create's two passes left, and the result is XF_OK.
   */
  twostate predicate Instantiated(k: Kernel, t: int, n: u32, found: Device?, failed: int, err: int)
    reads k, k.table, k.Slot(t)`devType, k.Slot(t)`id, k.Slot(t)`platformData, k.Slot(t)`config, k.Devices()`id
  {
    && old(k.Registered(t)) && old(k.table[t].ctor.Some?)
    && if found != null then err == failed && k.trace == old(k.trace) && unchanged(k.table)
       else
         && k.Created(t, n)
         && var ops, blank, d := old(k.OpsOf(t)), old(k.table[t].ctor.value), k.Newest(t);
            var afterOpen := old(k.trace) + [OpenCall(DevInfo(t, n, 0))];
            if !old(k.OpenSucceeds(t, n)) then err == failed && k.trace == afterOpen
            else
              && err == XF_OK && k.Lookup(t, n) == d
              && d.config == CreatedConfig(ops, d.Info(), blank)
              && k.trace == afterOpen + CreateCalls(ops, d.Info(), blank)
  }

  /** An init that only creates `(t, n)`, giving `failed` when create returns NULL. */
  method Instantiate(k: Kernel, t: int, n: u32, failed: int) returns (err: int)
    requires k.Valid() && k.Registered(t) && k.table[t].ctor.Some?
    modifies k, k.table
    ensures k.Valid() && Instantiated(k, t, n, old(k.Lookup(t, n)), failed, err)
  {
    var d := k.Create(t, n);
    if d == null {
      return failed;
    }
    FirstByIdAppend(old(k.table[t].devs), d, n);
    return XF_OK;
  }

  /**
   * What an init of `(t, n)` that creates the handle and then sends `edit`
   * under `cmd` did: as for `Instantiated` up to the created record, on which
   * the edit is made and sent; the result is the driver's error.
   */
  twostate predicate Initialised(k: Kernel, t: int, n: u32, found: Device?, failed: int, cmd: bv32, edit: Edit, err: int)
    reads k, k.table, k.Slot(t)`devType, k.Slot(t)`id, k.Slot(t)`platformData, k.Slot(t)`config, k.Devices()`id
  {
    && old(k.Registered(t)) && old(k.table[t].ctor.Some?)
    && if found != null then err == failed && k.trace == old(k.trace) && unchanged(k.table)
       else
         && k.Created(t, n)
         && var ops, blank, d := old(k.OpsOf(t)), old(k.table[t].ctor.value), k.Newest(t);
            var afterOpen := old(k.trace) + [OpenCall(DevInfo(t, n, 0))];
            if !old(k.OpenSucceeds(t, n)) then err == failed && k.trace == afterOpen
            else
              var sent := Apply(edit, CreatedConfig(ops, d.Info(), blank));
              var out := ops.ioctl(d.Info(), cmd, sent);
              && k.Lookup(t, n) == d
              && err == out.err && d.config == out.config
              && k.trace == afterOpen + CreateCalls(ops, d.Info(), blank) + [IoctlCall(d.Info(), cmd, sent)]
  }

  /** An init: create `(t, n)`, then make `edit` on the created record and send it with `cmd`. */
  method Setup(k: Kernel, t: int, n: u32, failed: int, cmd: bv32, edit: Edit) returns (err: int)
    requires k.Valid() && k.Registered(t) && k.table[t].ctor.Some?
    modifies k, k.table
    ensures k.Valid() && Initialised(k, t, n, old(k.Lookup(t, n)), failed, cmd, edit, err)
  {
    var d := k.Create(t, n);
    if d == null {
      return failed;
    }
    FirstByIdAppend(old(k.table[t].devs), d, n);
    err := Configure(k, d, cmd, edit);
  }

  /**
   * The first half of an I2C or SPI transfer: when `d`'s record does not
   * already hold what `edit` stores, make the edit and send it with `cmd`.
   */
  method Retarget(k: Kernel, d: Device, cmd: bv32, edit: Edit) returns (err: int)
    requires k.Valid() && k.Registered(d.devType)
    modifies k, d`config
    ensures k.Valid() && k.Lookup(d.devType, d.id) == old(k.Lookup(d.devType, d.id))
    ensures Settled(edit, old(d.config)) ==> err == XF_OK && d.config == old(d.config) && k.trace == old(k.trace)
    ensures !Settled(edit, old(d.config)) ==>
      var sent := Apply(edit, old(d.config));
      var out := k.OpsOf(d.devType).ioctl(d.Info(), cmd, sent);
      && err == out.err && d.config == out.config
      && k.trace == old(k.trace) + [IoctlCall(d.Info(), cmd, sent)]
    ensures KeepsRecords(k.OpsOf(d.devType)) ==> Settled(edit, d.config)
  {
    if Settled(edit, d.config) {
      return XF_OK;
    }
    err := Configure(k, d, cmd, edit);
  }

  /**
   * What an I2C or SPI transfer on the found handle `d` did, where `io` is
   * the kernel's read or write on it: the record was brought in line with
   * `edit` first unless it already was, and a failed reconfiguration ended
   * the transfer with the driver's error.
   */
  twostate predicate Transferred(k: Kernel, d: Device, cmd: bv32, edit: Edit, io: Outcome, ret: int, got: seq<int>)
    reads k, k.table, d
  {
    && k.Registered(d.devType)
    && if Settled(edit, old(d.config)) then
         d.config == old(d.config) && ret == io.ret && got == io.data && k.trace == old(k.trace) + io.calls
       else
         var sent := Apply(edit, old(d.config));
         var out := k.OpsOf(d.devType).ioctl(d.Info(), cmd, sent);
         && d.config == out.config
         && if out.err != XF_OK then
              ret == out.err && got == [] && k.trace == old(k.trace) + [IoctlCall(d.Info(), cmd, sent)]
            else
              ret == io.ret && got == io.data && k.trace == old(k.trace) + [IoctlCall(d.Info(), cmd, sent)] + io.calls
  }

  /** The kernel's read or write on `d`, which changes no handle. */
  method Pass(k: Kernel, d: Device, write: bool, data: seq<int>, count: nat) returns (ret: int, got: seq<int>)
    requires k.Valid() && k.Registered(d.devType)
    modifies k
    ensures k.Valid() && k.Lookup(d.devType, d.id) == old(k.Lookup(d.devType, d.id))
    ensures var io := if write then k.WriteOutcome(d, data, count) else k.ReadOutcome(d, count);
      ret == io.ret && got == io.data && k.trace == old(k.trace) + io.calls
  {
    if write {
      ret := k.Write(d, data, count);
      got := [];
    } else {
      ret, got := k.Read(d, count);
    }
  }

  /** The transfer on a handle already found. */
  method TransferOn(k: Kernel, d: Device, cmd: bv32, edit: Edit, write: bool, data: seq<int>, count: nat)
    returns (ret: int, got: seq<int>)
    requires k.Valid() && k.Registered(d.devType)
    modifies k, d`config
    ensures k.Valid() && k.Lookup(d.devType, d.id) == old(k.Lookup(d.devType, d.id))
    ensures Transferred(k, d, cmd, edit, if write then k.WriteOutcome(d, data, count) else k.ReadOutcome(d, count), ret, got)
    ensures KeepsRecords(k.OpsOf(d.devType)) ==> Settled(edit, d.config)
  {
    var err := Retarget(k, d, cmd, edit);
    if err != XF_OK {
      return err, [];
    }
    ret, got := Pass(k, d, write, data, count);
  }

  /**
   * What an I2C or SPI transfer on `(t, n)` did, `found` being the handle
   * find returned: XF_ERR_UNINIT without a driver call when there is none,
   * otherwise `Transferred` on that handle, which find still returns.
   */
  twostate predicate TransferredAt(k: Kernel, t: int, n: u32, found: Device?, cmd: bv32, edit: Edit,
                                   write: bool, data: seq<int>, count: nat, ret: int, got: seq<int>)
    reads k, k.table, k.Devices()`id, found
  {
    && k.Registered(t)
    && if found == null then ret == XF_ERR_UNINIT && got == [] && k.trace == old(k.trace)
       else
         && found.devType == t && k.Lookup(t, n) == found
         && Transferred(k, found, cmd, edit, if write then k.WriteOutcome(found, data, count) else k.ReadOutcome(found, count), ret, got)
  }

  /**
   * An I2C or SPI transfer: find `(t, n)`, then bring its record in line
   * with `edit` and read or write through the kernel. With a driver that
   * keeps the records it is handed, the record holds what `edit` stores
   * afterwards.
   */
  method RetargetAndTransfer(k: Kernel, t: int, n: u32, cmd: bv32, edit: Edit, write: bool, data: seq<int>, count: nat)
    returns (ret: int, got: seq<int>)
    requires k.Valid() && k.Registered(t)
    modifies k, k.Handle(t, n)`config
    ensures k.Valid()
    ensures TransferredAt(k, t, n, old(k.Lookup(t, n)), cmd, edit, write, data, count, ret, got)
    ensures old(k.Lookup(t, n)) != null && KeepsRecords(k.OpsOf(t)) ==> Settled(edit, k.Lookup(t, n).config)
  {
    var d := k.Find(t, n);
    if d == null {
      return XF_ERR_UNINIT, [];
    }
    ret, got := TransferOn(k, d, cmd, edit, write, data, count);
  }

  /**
   * A plain transfer: find `(t, n)`, then read or write through the kernel.
   * `found` is the handle find returned; without one the result is
   * XF_ERR_UNINIT and no driver is called.
   */
  method Exchange(k: Kernel, t: int, n: u32, write: bool, data: seq<int>, count: nat)
    returns (found: Device?, ret: int, got: seq<int>)
    requires k.Valid() && k.Registered(t)
    modifies k
    ensures k.Valid() && found == k.Lookup(t, n) && found == old(k.Lookup(t, n))
    ensures found == null ==> ret == XF_ERR_UNINIT && got == [] && k.trace == old(k.trace)
    ensures found != null ==>
      var io := if write then k.WriteOutcome(found, data, count) else k.ReadOutcome(found, count);
      found.devType == t && ret == io.ret && got == io.data && k.trace == old(k.trace) + io.calls
  {
    found := k.Find(t, n);
    if found == null {
      return null, XF_ERR_UNINIT, [];
    }
    ret, got := Pass(k, found, write, data, count);
  }

  /** The value a `uint32_t` variable holds after a read stored `data` into it, having been 0 before. */
  function StoredWord(data: seq<int>): (w: u32)
    ensures data == [] ==> w == 0
    ensures data != [] && 0 <= data[0] < U32_LIMIT ==> w == data[0]
  {
    if data == [] then 0 else ToU32(data[0])
  }

  /**
   * The positive error code GPIO's set_level and the timer's set_raw_ticks
   * return: a negative driver result negated, anything else unchanged.
   */
  function Positive(r: int): (p: int)
    ensures p >= 0 && (p == r || p == -r)
    ensures r >= 0 ==> p == r
  {
    if r < XF_OK then -r else r
  }
}
