/**
 * The device kernel: a table with one slot per device type holding the
 * registered driver, its capability flags, a 16-bit count of opened devices,
 * the constructor the front end registered, and the list of open devices.
 *
 * The list of a slot is a sequence of device handles in insertion order (the
 * kernel appends at the tail and searches from the head). The ghost `trace`
 * records every call the kernel makes into a driver, so contracts can say
 * which driver calls an operation makes and that it makes no other.
 */
module HalDev {
  import opened Common
  import opened HalConfigs
  import opened HalDevTypes

  /**
   * One slot of the driver table. `ctor` is the record the registered
   * constructor allocates its handles with (`None` is a NULL constructor);
   * the constructor opens the handle under the type it is registered for.
   */
  datatype Entry = Entry(ops: Option<DriverOps>, flag: u16, count: u16, ctor: Option<Config>, devs: seq<Device>)

  /** The zero-initialised slot. */
  const Unused: Entry := Entry(None, 0, 0, None, [])

  /** The 16-bit counter after `++` and after `--`. */
  function Inc16(c: u16): (r: u16)
    ensures c < U16_LIMIT - 1 ==> r == c + 1
    ensures c == U16_LIMIT - 1 ==> r == 0
  {
    (c as int + 1) % U16_LIMIT
  }

  function Dec16(c: u16): (r: u16)
    ensures c > 0 ==> r == c - 1
    ensures c == 0 ==> r == U16_LIMIT - 1
  {
    (c as int + U16_LIMIT - 1) % U16_LIMIT
  }

  lemma IncDec16(c: u16)
    ensures Dec16(Inc16(c)) == c
    ensures Inc16(Dec16(c)) == c
    ensures c == 0 ==> Dec16(c) == U16_LIMIT - 1
  {
  }

  ghost predicate UniqueIds(s: seq<Device>)
    reads (set i | 0 <= i < |s| :: s[i])`id
  {
    forall i, j | 0 <= i < j < |s| :: s[i].id != s[j].id
  }

  /** The device a walk of `s` from the head stops at when looking for `id`. */
  ghost function FirstById(s: seq<Device>, id: u32): (d: Device?)
    reads (set i | 0 <= i < |s| :: s[i])`id
    ensures d != null ==> d in s && d.id == id
    ensures d == null <==> forall i | 0 <= i < |s| :: s[i].id != id
  {
    if s == [] then null
    else if s[0].id == id then s[0]
    else FirstById(s[1..], id)
  }

  /** In a list without repeated ids the walk finds the one device with that id. */
  lemma {:induction false} FirstByIdUnique(s: seq<Device>, k: nat)
    requires k < |s| && UniqueIds(s)
    ensures FirstById(s, s[k].id) == s[k]
  {
    if k > 0 {
      assert s[0].id != s[k].id;
      assert UniqueIds(s[1..]) by {
        forall i, j | 0 <= i < j < |s| - 1 ensures s[1..][i].id != s[1..][j].id {
          assert s[1..][i] == s[i + 1] && s[1..][j] == s[j + 1];
        }
      }
      FirstByIdUnique(s[1..], k - 1);
    }
  }

  /** Appending a device whose id is not yet used keeps the walk's answers. */
  lemma {:induction false} FirstByIdAppend(s: seq<Device>, d: Device, id: u32)
    ensures FirstById(s + [d], id) == if FirstById(s, id) != null then FirstById(s, id) else if d.id == id then d else null
  {
    if s != [] {
      assert (s + [d])[1..] == s[1..] + [d];
      FirstByIdAppend(s[1..], d, id);
    } else {
      assert (s + [d])[1..] == [];
    }
  }

  /** `s` with every occurrence of `d` unlinked. */
  function Without(s: seq<Device>, d: Device): (r: seq<Device>)
    ensures forall x | x in r :: x in s && x != d
    ensures forall x | x in s && x != d :: x in r
    ensures d !in s ==> r == s
  {
    if s == [] then []
    else if s[0] == d then Without(s[1..], d)
    else [s[0]] + Without(s[1..], d)
  }

  /** Unlinking keeps a list's ids distinct and its type tags. */
  lemma {:induction false} WithoutKeepsList(s: seq<Device>, d: Device, t: int)
    requires UniqueIds(s) && forall i | 0 <= i < |s| :: s[i].devType == t
    ensures UniqueIds(Without(s, d)) && forall i | 0 <= i < |Without(s, d)| :: Without(s, d)[i].devType == t
  {
    if s != [] {
      assert UniqueIds(s[1..]) by {
        forall i, j | 0 <= i < j < |s| - 1 ensures s[1..][i].id != s[1..][j].id {
          assert s[1..][i] == s[i + 1] && s[1..][j] == s[j + 1];
        }
      }
      WithoutKeepsList(s[1..], d, t);
      var w := Without(s[1..], d);
      if s[0] != d {
        forall j | 0 <= j < |w| ensures s[0].id != w[j].id {
          assert w[j] in s[1..];
          var k :| 0 <= k < |s[1..]| && s[1..][k] == w[j];
          assert s[k + 1] == w[j];
        }
        assert Without(s, d) == [s[0]] + w;
      }
    }
  }

  /** After unlinking `s[k]`, no device with its id is left in a list without repeated ids. */
  lemma WithoutDropsId(s: seq<Device>, k: nat)
    requires k < |s| && UniqueIds(s)
    ensures FirstById(Without(s, s[k]), s[k].id) == null
  {
    var w := Without(s, s[k]);
    forall i | 0 <= i < |w| ensures w[i].id != s[k].id {
      assert w[i] in s;
      var j :| 0 <= j < |s| && s[j] == w[i];
      assert j != k;
    }
  }

  /** Unlinking a device keeps the answers for every other id. */
  lemma {:induction false} WithoutKeepsOthers(s: seq<Device>, d: Device, id: u32)
    requires id != d.id
    ensures FirstById(Without(s, d), id) == FirstById(s, id)
  {
    if s != [] {
      WithoutKeepsOthers(s[1..], d, id);
      if s[0] != d {
        assert ([s[0]] + Without(s[1..], d))[1..] == Without(s[1..], d);
      }
    }
  }

  /** Unlinking the handle just appended to a list it was not in gives the list back. */
  lemma {:induction false} WithoutAppended(s: seq<Device>, d: Device)
    requires d !in s
    ensures Without(s + [d], d) == s
  {
    if s == [] {
      assert Without([d], d) == Without([d][1..], d);
    } else {
      assert (s + [d])[1..] == s[1..] + [d];
      WithoutAppended(s[1..], d);
      assert s == [s[0]] + s[1..];
    }
  }

  /** The record a new handle holds once create has sent the default pass and the full pass. */
  function CreatedConfig(ops: DriverOps, info: DevInfo, blank: Config): Config
  {
    ops.ioctl(info, XF_HAL_DEV_CMD_ALL, ops.ioctl(info, XF_HAL_DEV_CMD_DEFAULT, blank).config).config
  }

  /** The two configuration calls create makes after a successful open. */
  function CreateCalls(ops: DriverOps, info: DevInfo, blank: Config): seq<Call>
  {
    [IoctlCall(info, XF_HAL_DEV_CMD_DEFAULT, blank),
     IoctlCall(info, XF_HAL_DEV_CMD_ALL, ops.ioctl(info, XF_HAL_DEV_CMD_DEFAULT, blank).config)]
  }

  /** What a read or write through the kernel returned, the words it read, and the driver calls it made. */
  datatype Outcome = Outcome(ret: int, data: seq<int>, calls: seq<Call>)

  class Kernel {
    /** The driver table, one slot per device type. */
    const table: array<Entry>
    /** Every driver call made so far, oldest first. */
    ghost var trace: seq<Call>

    /** Every device handle linked into some slot's list. */
    ghost function Devices(): set<Device>
      reads table
    {
      set t, i | 0 <= t < table.Length && 0 <= i < |table[t].devs| :: table[t].devs[i]
    }

    ghost predicate EntryValid(t: int, e: Entry)
      reads (set i | 0 <= i < |e.devs| :: e.devs[i])`devType, (set i | 0 <= i < |e.devs| :: e.devs[i])`id
    {
      && (e.ops.None? ==> e.flag == 0 && e.count == 0 && e.ctor.None? && e.devs == [])
      && (forall i | 0 <= i < |e.devs| :: e.devs[i].devType == t)
      && UniqueIds(e.devs)
    }

    /**
     * The table has one slot per type; an unregistered slot is still zero;
     * a slot lists only devices of its own type, and no id twice.
     */
    ghost predicate Valid()
      reads table, Devices()`devType, Devices()`id
    {
      && table.Length == XF_HAL_TYPE_MAX
      && forall t | 0 <= t < table.Length :: EntryValid(t, table[t])
    }

    predicate Registered(t: int)
      reads table
    {
      0 <= t < table.Length && table[t].ops.Some?
    }

    function OpsOf(t: int): DriverOps
      reads table
      requires Registered(t)
    {
      table[t].ops.value
    }

    /** The device find returns for `(t, id)`. */
    ghost function Lookup(t: int, id: u32): Device?
      reads table, Devices()`id
    {
      if 0 <= t < table.Length then FirstById(table[t].devs, id) else null
    }

    /** The handle a front end's operation on `(t, id)` may change. */
    ghost function Handle(t: int, id: u32): set<Device>
      reads table, Devices()`id
    {
      if Lookup(t, id) == null then {} else {Lookup(t, id)}
    }

    constructor ()
      ensures Valid() && fresh(table) && trace == []
      ensures forall t :: !Registered(t)
      ensures forall t | 0 <= t < table.Length :: table[t].devs == []
      ensures forall t :: GetFlag(t) == XF_HAL_FLAG_NOT_USE && GetEnableCount(t) == 0
    {
      table := new Entry[XF_HAL_TYPE_MAX](_ => Unused);
      trace := [];
    }

    /** `xf_hal_driver_get_flag`: the registered flags; NOT_USE outside the table. */
    function GetFlag(t: int): (f: nat)
      reads table
      ensures f < U16_LIMIT
      ensures !(0 <= t < table.Length) ==> f == XF_HAL_FLAG_NOT_USE
    {
      if 0 <= t < table.Length then table[t].flag as nat else XF_HAL_FLAG_NOT_USE
    }

    /** `xf_hal_driver_get_enable_count`: the 16-bit open count; 0 outside the table. */
    function GetEnableCount(t: int): (c: nat)
      reads table
      ensures c < U16_LIMIT
      ensures !(0 <= t < table.Length) ==> c == 0
    {
      if 0 <= t < table.Length then table[t].count as nat else 0
    }

    /** `xf_hal_driver_register`. */
    method Register(t: int, flag: nat, ctor: Option<Config>, ops: Option<DriverOps>) returns (err: int)
      requires Valid()
      modifies table
      ensures Valid()
      ensures err == (if ops.Some? && 0 <= t < table.Length then XF_OK else XF_ERR_INVALID_ARG)
      ensures err == XF_OK ==> Registered(t) && table[t] == Entry(ops, flag % U16_LIMIT, 0, ctor, [])
      ensures err == XF_OK ==> GetFlag(t) == flag % U16_LIMIT && GetEnableCount(t) == 0
      ensures forall u | 0 <= u < table.Length && (err != XF_OK || u != t) :: table[u] == old(table[u])
    {
      if ops.None? {
        return XF_ERR_INVALID_ARG;
      }
      if !(0 <= t < table.Length) {
        return XF_ERR_INVALID_ARG;
      }
      table[t] := Entry(ops, flag % U16_LIMIT, 0, ctor, []);
      return XF_OK;
    }

    /** `xf_hal_device_find`: walks the slot's list from the head. */
    method Find(t: int, id: u32) returns (d: Device?)
      requires Valid()
      requires 0 <= t < table.Length ==> Registered(t)
      ensures d == Lookup(t, id)
      ensures d != null ==> d.id == id && d.devType == t && d in Devices()
    {
      if !(0 <= t < table.Length) {
        return null;
      }
      var devs := table[t].devs;
      var i := 0;
      while i < |devs|
        invariant 0 <= i <= |devs|
        invariant FirstById(devs, id) == FirstById(devs[i..], id)
      {
        if devs[i].id == id {
          return devs[i];
        }
        assert devs[i..][1..] == devs[i + 1..];
        i := i + 1;
      }
      return null;
    }

    /** `xf_hal_device_add`: links a handle at the tail of its type's list. */
    method Add(dev: Device?) returns (err: int)
      requires Valid()
      requires dev != null ==> Registered(dev.devType)
      modifies table
      ensures Valid()
      ensures err == (if dev != null && old(Lookup(dev.devType, dev.id)) == null then XF_OK else XF_ERR_INVALID_ARG)
      ensures err == XF_OK ==> table[dev.devType] == old(table[dev.devType]).(devs := old(table[dev.devType].devs) + [dev])
      ensures forall u | 0 <= u < table.Length && (err != XF_OK || u != dev.devType) :: table[u] == old(table[u])
    {
      if dev == null {
        return XF_ERR_INVALID_ARG;
      }
      var found := Find(dev.devType, dev.id);
      if found != null {
        return XF_ERR_INVALID_ARG;
      }
      var t := dev.devType;
      var e := table[t];
      table[t] := e.(devs := e.devs + [dev]);
      assert EntryValid(t, table[t]);
      assert forall u | 0 <= u < table.Length && u != t :: table[u] == old(table[u]);
      return XF_OK;
    }

    /** Whether `xf_hal_driver_open` gets past its argument checks. */
    ghost predicate OpenAdmits(dev: Device?, t: int, id: u32)
      reads table, Devices()`id
    {
      dev != null && 0 <= t < table.Length && Lookup(t, id) == null
    }

    /** The part of open that fills in the handle's header and links it. */
    method Link(dev: Device, t: int, id: u32)
      requires Valid() && Registered(t) && dev !in Devices() && Lookup(t, id) == null
      modifies table, dev
      ensures Valid()
      ensures dev.devType == t && dev.id == id && dev.platformData == 0 && dev.config == old(dev.config)
      ensures table[t] == old(table[t]).(devs := old(table[t].devs) + [dev])
      ensures forall u | 0 <= u < table.Length && u != t :: table[u] == old(table[u])
    {
      dev.devType, dev.id, dev.platformData := t, id, 0;
      assert Valid() && Lookup(t, id) == null;
      var err := Add(dev);
      if err != XF_OK {
        // add repeats the duplicate check that has just passed
        assert false;
      }
    }

    /** The part of open that runs the driver's open on a linked handle and counts it. */
    method Activate(dev: Device) returns (err: int)
      requires Valid() && Registered(dev.devType) && dev.platformData == 0
      modifies this, table, dev`platformData
      ensures Valid()
      ensures var out := old(OpsOf(dev.devType)).open(DevInfo(dev.devType, dev.id, 0));
        && err == out.err && dev.platformData == out.platformData
        && trace == old(trace) + [OpenCall(DevInfo(dev.devType, dev.id, 0))]
        && table[dev.devType] == old(table[dev.devType]).(count := if out.err == XF_OK then Inc16(old(table[dev.devType].count)) else old(table[dev.devType].count))
        && forall u | 0 <= u < table.Length && u != dev.devType :: table[u] == old(table[u])
    {
      var t := dev.devType;
      var out := table[t].ops.value.open(dev.Info());
      trace := trace + [OpenCall(dev.Info())];
      dev.platformData := out.platformData;
      if out.err != XF_OK {
        return out.err;
      }
      var e := table[t];
      table[t] := e.(count := Inc16(e.count));
      assert EntryValid(t, table[t]);
      return XF_OK;
    }

    /**
     * `xf_hal_driver_open`. Once the checks pass the handle is linked before
     * the driver's open runs, so a driver failure leaves it linked; only a
     * successful open counts.
     */
    method Open(dev: Device?, t: int, id: u32) returns (err: int)
      requires Valid()
      requires 0 <= t < table.Length ==> Registered(t)
      requires dev != null ==> dev !in Devices()
      modifies this, table, dev
      ensures Valid()
      ensures !old(OpenAdmits(dev, t, id)) ==>
        && err == XF_ERR_INVALID_ARG && trace == old(trace) && unchanged(table)
        && (dev != null ==> unchanged(dev))
      ensures old(OpenAdmits(dev, t, id)) ==>
        var out := old(OpsOf(t)).open(DevInfo(t, id, 0));
        && err == out.err
        && dev.devType == t && dev.id == id && dev.platformData == out.platformData
        && dev.config == old(dev.config)
        && trace == old(trace) + [OpenCall(DevInfo(t, id, 0))]
        && table[t] == old(table[t]).(devs := old(table[t].devs) + [dev],
                                      count := if out.err == XF_OK then Inc16(old(table[t].count)) else old(table[t].count))
        && forall u | 0 <= u < table.Length && u != t :: table[u] == old(table[u])
    {
      if dev == null {
        return XF_ERR_INVALID_ARG;
      }
      if !(0 <= t < table.Length) {
        return XF_ERR_INVALID_ARG;
      }
      var found := Find(t, id);
      if found != null {
        return XF_ERR_INVALID_ARG;
      }
      Link(dev, t, id);
      err := Activate(dev);
    }

    /** The handles in `t`'s list. */
    ghost function Slot(t: int): set<Device>
      reads table
    {
      if 0 <= t < table.Length then set i | 0 <= i < |table[t].devs| :: table[t].devs[i] else {}
    }

    /** The last handle in `t`'s list. */
    ghost function Newest(t: int): Device
      reads table
      requires 0 <= t < table.Length && table[t].devs != []
    {
      table[t].devs[|table[t].devs| - 1]
    }

    /** Whether the driver of `t` accepts a fresh handle for `id`. */
    ghost predicate OpenSucceeds(t: int, id: u32)
      reads table
      requires Registered(t)
    {
      OpsOf(t).open(DevInfo(t, id, 0)).err == XF_OK
    }

    /**
     * What constructing a handle for a free `(t, id)` did to the table: a
     * fresh handle, its header set and holding the platform data the
     * driver's open handed back, is the new tail of `t`'s list; `t`'s count
     * went up exactly when that open succeeded; no other slot changed.
     */
    twostate predicate Created(t: int, id: u32)
      reads table, Slot(t)`devType, Slot(t)`id, Slot(t)`platformData
    {
      && 0 <= t < table.Length && old(Registered(t)) && table[t].devs != []
      && var d, out := Newest(t), old(OpsOf(t)).open(DevInfo(t, id, 0));
      && fresh(d) && d.devType == t && d.id == id && d.platformData == out.platformData
      && table[t] == old(table[t]).(devs := old(table[t].devs) + [d],
                                    count := if out.err == XF_OK then Inc16(old(table[t].count)) else old(table[t].count))
      && forall u | 0 <= u < table.Length && u != t :: table[u] == old(table[u])
    }

    /**
     * The constructor every front end registers: allocate a handle whose
     * record starts as `blank` and open it. On failure the handle is freed
     * and NULL returned; a handle the open had already linked stays in the
     * list.
     */
    method Construct(t: int, id: u32, blank: Config) returns (dev: Device?)
      requires Valid() && Registered(t)
      modifies this, table
      ensures Valid()
      ensures old(Lookup(t, id)) != null ==> dev == null && trace == old(trace) && unchanged(table)
      ensures old(Lookup(t, id)) == null ==>
        && Created(t, id) && Newest(t).config == blank
        && trace == old(trace) + [OpenCall(DevInfo(t, id, 0))]
        && dev == (if old(OpenSucceeds(t, id)) then Newest(t) else null)
    {
      var d := new Device(blank);
      var err := Open(d, t, id);
      if err != XF_OK {
        return null;
      }
      return d;
    }

    /**
     * `xf_hal_driver_create`: construct a handle, then let the driver fill in
     * its defaults and apply them. Failures of the two configuration passes
     * are only logged.
     */
    method Create(t: int, id: u32) returns (dev: Device?)
      requires Valid()
      requires 0 <= t < table.Length ==> Registered(t) && table[t].ctor.Some?
      modifies this, table
      ensures Valid()
      ensures !(0 <= t < table.Length) || old(Lookup(t, id)) != null ==>
        dev == null && trace == old(trace) && unchanged(table)
      ensures 0 <= t < table.Length && old(Lookup(t, id)) == null ==>
        && Created(t, id)
        && dev == (if old(OpenSucceeds(t, id)) then Newest(t) else null)
        && var ops, blank := old(OpsOf(t)), old(table[t].ctor.value);
           (if dev == null then trace == old(trace) + [OpenCall(DevInfo(t, id, 0))]
            else
              && dev.config == CreatedConfig(ops, dev.Info(), blank)
              && trace == old(trace) + [OpenCall(DevInfo(t, id, 0))] + CreateCalls(ops, dev.Info(), blank))
    {
      if !(0 <= t < table.Length) {
        return null;
      }
      dev := Construct(t, id, table[t].ctor.value);
      if dev == null {
        return null;
      }
      ApplyDefaults(dev);
    }

    /** The two configuration passes create makes on a handle it opened. */
    method ApplyDefaults(dev: Device)
      requires Valid() && Registered(dev.devType)
      modifies this, dev`config
      ensures Valid()
      ensures dev.config == CreatedConfig(OpsOf(dev.devType), dev.Info(), old(dev.config))
      ensures trace == old(trace) + CreateCalls(OpsOf(dev.devType), dev.Info(), old(dev.config))
    {
      var err, after := Ioctl(dev, XF_HAL_DEV_CMD_DEFAULT, Some(dev.config));
      dev.config := after.value;
      err, after := Ioctl(dev, XF_HAL_DEV_CMD_ALL, Some(dev.config));
      dev.config := after.value;
    }

    /** `xf_hal_driver_ioctl`: `config` is the pointer handed over, `after` what it points at afterwards. */
    method Ioctl(dev: Device?, cmd: bv32, config: Option<Config>) returns (err: int, after: Option<Config>)
      requires dev != null ==> Registered(dev.devType)
      modifies this
      ensures dev == null || config.None? ==>
        err == XF_ERR_INVALID_ARG && after == config && trace == old(trace)
      ensures dev != null && config.Some? ==>
        var out := OpsOf(dev.devType).ioctl(dev.Info(), cmd, config.value);
        && err == out.err && after == Some(out.config)
        && trace == old(trace) + [IoctlCall(dev.Info(), cmd, config.value)]
    {
      if dev == null || config.None? {
        return XF_ERR_INVALID_ARG, config;
      }
      var out := table[dev.devType].ops.value.ioctl(dev.Info(), cmd, config.value);
      trace := trace + [IoctlCall(dev.Info(), cmd, config.value)];
      if out.err != XF_OK {
        return out.err, Some(out.config);
      }
      return XF_OK, Some(out.config);
    }

    /**
     * What the kernel's read on `dev` returns, the words it leaves in the
     * caller's buffer and the driver calls it makes: NOT_SUPPORTED without a
     * call when the type lacks the read capability, otherwise whatever the
     * driver's read returns.
     */
    function ReadOutcome(dev: Device, count: nat): (o: Outcome)
      reads table, dev
      requires Registered(dev.devType)
      ensures BitsCheck(table[dev.devType].flag, XF_HAL_FLAG_ONLY_READ) <==> o.calls == [ReadCall(dev.Info(), count)]
      ensures o.calls == [] ==> o.ret == XF_ERR_NOT_SUPPORTED && o.data == []
    {
      if !BitsCheck(table[dev.devType].flag, XF_HAL_FLAG_ONLY_READ) then Outcome(XF_ERR_NOT_SUPPORTED, [], [])
      else
        var r := OpsOf(dev.devType).read(dev.Info(), count);
        Outcome(r.ret, r.data, [ReadCall(dev.Info(), count)])
    }

    /** The same for the kernel's write, gated on the write capability. */
    function WriteOutcome(dev: Device, data: seq<int>, count: nat): (o: Outcome)
      reads table, dev
      requires Registered(dev.devType)
      ensures BitsCheck(table[dev.devType].flag, XF_HAL_FLAG_ONLY_WRITE) <==> o.calls == [WriteCall(dev.Info(), data, count)]
      ensures o.calls == [] ==> o.ret == XF_ERR_NOT_SUPPORTED
      ensures o.data == []
    {
      if !BitsCheck(table[dev.devType].flag, XF_HAL_FLAG_ONLY_WRITE) then Outcome(XF_ERR_NOT_SUPPORTED, [], [])
      else Outcome(OpsOf(dev.devType).write(dev.Info(), data, count), [], [WriteCall(dev.Info(), data, count)])
    }

    /** `xf_hal_driver_read`: `data` is what the driver stored into the buffer. */
    method Read(dev: Device?, count: nat) returns (ret: int, data: seq<int>)
      requires dev != null ==> Registered(dev.devType)
      modifies this
      ensures dev == null ==> ret == XF_ERR_INVALID_ARG && data == [] && trace == old(trace)
      ensures dev != null ==>
        var o := ReadOutcome(dev, count);
        ret == o.ret && data == o.data && trace == old(trace) + o.calls
    {
      if dev == null {
        return XF_ERR_INVALID_ARG, [];
      }
      if !BitsCheck(table[dev.devType].flag, XF_HAL_FLAG_ONLY_READ) {
        return XF_ERR_NOT_SUPPORTED, [];
      }
      var out := table[dev.devType].ops.value.read(dev.Info(), count);
      trace := trace + [ReadCall(dev.Info(), count)];
      return out.ret, out.data;
    }

    /** `xf_hal_driver_write`. */
    method Write(dev: Device?, data: seq<int>, count: nat) returns (ret: int)
      requires dev != null ==> Registered(dev.devType)
      modifies this
      ensures dev == null ==> ret == XF_ERR_INVALID_ARG && trace == old(trace)
      ensures dev != null ==>
        var o := WriteOutcome(dev, data, count);
        ret == o.ret && trace == old(trace) + o.calls
    {
      if dev == null {
        return XF_ERR_INVALID_ARG;
      }
      if !BitsCheck(table[dev.devType].flag, XF_HAL_FLAG_ONLY_WRITE) {
        return XF_ERR_NOT_SUPPORTED;
      }
      ret := table[dev.devType].ops.value.write(dev.Info(), data, count);
      trace := trace + [WriteCall(dev.Info(), data, count)];
    }

    /**
     * `xf_hal_driver_close`. On success the handle is unlinked and the
     * 16-bit counter decremented (wrapping below zero); the handle is freed,
     * so nothing is said about it afterwards.
     */
    method Close(dev: Device?) returns (err: int)
      requires Valid()
      requires dev != null ==> Registered(dev.devType)
      modifies this, table
      ensures Valid()
      ensures dev == null ==> err == XF_ERR_INVALID_ARG && trace == old(trace) && unchanged(table)
      ensures dev != null ==>
        var t := dev.devType;
        var closed := old(OpsOf(t)).close(dev.Info());
        && err == closed
        && trace == old(trace) + [CloseCall(dev.Info())]
        && (closed != XF_OK ==> unchanged(table))
        && (closed == XF_OK ==>
              && table[t] == old(table[t]).(devs := Without(old(table[t].devs), dev), count := Dec16(old(table[t].count)))
              && forall u | 0 <= u < table.Length && u != t :: table[u] == old(table[u]))
      ensures dev != null && err == XF_OK && old(dev in table[dev.devType].devs) ==>
        Lookup(dev.devType, dev.id) == null
      ensures dev != null && err == XF_OK ==>
        forall id: u32 | id != dev.id :: Lookup(dev.devType, id) == old(Lookup(dev.devType, id))
    {
      if dev == null {
        return XF_ERR_INVALID_ARG;
      }
      var t := dev.devType;
      var closed := table[t].ops.value.close(dev.Info());
      trace := trace + [CloseCall(dev.Info())];
      if closed != XF_OK {
        return closed;
      }
      Unlink(dev);
      return XF_OK;
    }

    /**
     * A create on a free `(t, id)` followed by a close of what it returned:
     * when both succeed the slot is exactly as before, so the same id can be
     * opened again.
     */
    method CreateThenClose(t: int, id: u32) returns (dev: Device?, err: int)
      requires Valid() && 0 <= t < table.Length && Registered(t) && table[t].ctor.Some?
      requires Lookup(t, id) == null
      modifies this, table
      ensures Valid()
      ensures dev == null ==> err == XF_ERR_INVALID_ARG
      ensures dev != null && err == XF_OK ==>
        && table[t] == old(table[t]) && Lookup(t, id) == null
        && forall u | 0 <= u < table.Length :: table[u] == old(table[u])
    {
      dev := Create(t, id);
      if dev != null {
        assert dev !in old(table[t].devs);
        WithoutAppended(old(table[t].devs), dev);
        IncDec16(old(table[t].count));
      }
      err := Close(dev);
    }

    /** The part of close that unlinks the handle and decrements the counter. */
    method Unlink(dev: Device)
      requires Valid() && Registered(dev.devType)
      modifies table
      ensures Valid()
      ensures var t := dev.devType;
        && table[t] == old(table[t]).(devs := Without(old(table[t].devs), dev), count := Dec16(old(table[t].count)))
        && forall u | 0 <= u < table.Length && u != t :: table[u] == old(table[u])
      ensures old(dev in table[dev.devType].devs) ==> Lookup(dev.devType, dev.id) == null
      ensures forall id: u32 | id != dev.id :: Lookup(dev.devType, id) == old(Lookup(dev.devType, id))
    {
      var t := dev.devType;
      var e := table[t];
      WithoutKeepsList(e.devs, dev, t);
      table[t] := e.(devs := Without(e.devs, dev), count := Dec16(e.count));
      assert EntryValid(t, table[t]);
      assert forall u | 0 <= u < table.Length && u != t :: table[u] == old(table[u]);
      if dev in e.devs {
        var k :| 0 <= k < |e.devs| && e.devs[k] == dev;
        WithoutDropsId(e.devs, k);
      }
      forall id: u32 | id != dev.id ensures Lookup(t, id) == old(Lookup(t, id)) {
        WithoutKeepsOthers(e.devs, dev, id);
      }
    }
  }
}
