/**
 * The POSIX shim: device paths such as "UART1" are parsed against the table
 * of type names (one per device type, in type order), opened through the
 * kernel's create, and packed into a file descriptor holding the type in
 * bits 16-31 and the id in bits 0-15. ioctl, read, write and close unpack
 * the descriptor and forward to the kernel.
 *
 * Strings are C strings without their terminator, so they hold no NUL
 * character; the end of the sequence plays the terminator's part. `size_t`
 * is taken as 32 bits wide, and `int` as 32-bit two's complement.
 */
module HalPosix {
  import opened Common
  import opened HalConfigs
  import opened HalDevTypes
  import opened HalDev
  import opened HalFront

  type i32 = x: int | -0x8000_0000 <= x < 0x8000_0000

  const O_RDONLY: int := 0x00
  const O_WRONLY: int := 0x01
  const O_RDWR: int := 0x02

  /** The type and id a path names. */
  datatype DevName = DevName(devType: u16, id: u16)

  // ------------------------------------------------------ descriptor packing

  /**
   * `TYPE_ID_TO_FD`: the type shifted into the upper half, the id in the
   * lower half. A type of 0x8000 or more shifts into the sign bit, which is
   * taken to wrap.
   */
  function FdOf(t: u16, id: u16): (fd: i32)
    ensures t < 0x8000 ==> fd >= 0
    ensures fd % U16_LIMIT == id
  {
    var v := t * U16_LIMIT + id;
    if v < 0x8000_0000 then v else v - U32_LIMIT
  }

  /** `FD_TO_ID`: the low sixteen bits. */
  function FdToId(fd: i32): (v: u16)
    ensures (fd - v) % U16_LIMIT == 0
  {
    fd % U16_LIMIT
  }

  /** `FD_TO_TYPE`: the high sixteen bits, after an arithmetic shift. */
  function FdToType(fd: i32): (v: u16)
    ensures fd >= 0 ==> v == fd / U16_LIMIT
    ensures fd < 0 ==> v == fd / U16_LIMIT + U16_LIMIT
  {
    (fd / U16_LIMIT) % U16_LIMIT
  }

  /** Unpacking a descriptor the way `TYPE_ID_TO_FD` packed it. */
  function Decode(fd: i32): (n: DevName)
    ensures FdOf(n.devType, n.id) == fd
  {
    DevName(FdToType(fd), FdToId(fd))
  }

  /**
   * Unpacking as ioctl, read, write and close do: the type is taken from the
   * id's bits and the id from the type's bits.
   */
  function DecodeAsWritten(fd: i32): (n: DevName)
    ensures FdOf(n.id, n.devType) == fd
  {
    DevName(FdToId(fd), FdToType(fd))
  }

  /** Packing then unpacking gives back the type and the id, for every pair. */
  lemma DecodeRoundTrip(t: u16, id: u16)
    ensures Decode(FdOf(t, id)) == DevName(t, id)
  {
    var v := t * U16_LIMIT + id;
    assert v / U16_LIMIT == t && v % U16_LIMIT == id;
    if v >= 0x8000_0000 {
      assert FdOf(t, id) == (t - U16_LIMIT) * U16_LIMIT + id;
      assert FdOf(t, id) / U16_LIMIT == t - U16_LIMIT;
    }
  }

  /** Distinct pairs get distinct descriptors. */
  lemma FdOfInjective(t1: u16, id1: u16, t2: u16, id2: u16)
    requires FdOf(t1, id1) == FdOf(t2, id2)
    ensures t1 == t2 && id1 == id2
  {
    DecodeRoundTrip(t1, id1);
    DecodeRoundTrip(t2, id2);
  }

  /** The shim's own unpacking swaps the two halves of what open returned. */
  lemma DecodeAsWrittenSwaps(t: u16, id: u16)
    ensures DecodeAsWritten(FdOf(t, id)) == DevName(id, t)
    ensures DecodeAsWritten(FdOf(t, id)) == DevName(t, id) <==> t == id
  {
    DecodeRoundTrip(t, id);
  }

  /** "PWM2" opens as type 1, id 2; the descriptor is then looked up as type 2 (TIM), id 1. */
  lemma DecodeAsWrittenCounterexample()
    ensures FdOf(XF_HAL_PWM, 2) == 0x1_0002
    ensures DecodeAsWritten(FdOf(XF_HAL_PWM, 2)) == DevName(XF_HAL_TIM, 1)
    ensures Decode(FdOf(XF_HAL_PWM, 2)) == DevName(XF_HAL_PWM, 2)
  {
  }

  // ------------------------------------------------------------ path parsing

  predicate IsDigit(c: char)
  {
    '0' <= c <= '9'
  }

  function DigitValue(c: char): int
  {
    (c as int) - ('0' as int)
  }

  function DigitChar(d: nat): (c: char)
    requires d < 10
    ensures IsDigit(c) && DigitValue(c) == d
  {
    (('0' as int) + d) as char
  }

  /** The length of the run of decimal digits `s` starts with. */
  function DigitRun(s: string): (n: nat)
    ensures n <= |s|
    ensures forall j | 0 <= j < n :: IsDigit(s[j])
    ensures n < |s| ==> !IsDigit(s[n])
  {
    if s == [] || !IsDigit(s[0]) then 0 else 1 + DigitRun(s[1..])
  }

  /** The number a string of digits spells in decimal. */
  function DecimalValue(s: string): int
  {
    if s == [] then 0 else DecimalValue(s[..|s| - 1]) * 10 + DigitValue(s[|s| - 1])
  }

  /** The decimal rendering of `n`, without leading zeros. */
  function Decimal(n: nat): (s: string)
    ensures |s| >= 1 && forall j | 0 <= j < |s| :: IsDigit(s[j])
    ensures DecimalValue(s) == n
  {
    if n < 10 then [DigitChar(n)]
    else
      var s := Decimal(n / 10) + [DigitChar(n % 10)];
      assert s[..|s| - 1] == Decimal(n / 10);
      s
  }

  /** The number `_atoi` leaves in its 16-bit out-parameter: the leading digits, wrapped. */
  function AtoiNum(s: string): u16
  {
    DecimalValue(s[..DigitRun(s)]) % U16_LIMIT
  }

  /** What `_atoi` returns: whether the digits run to the end of the string. */
  predicate AtoiOk(s: string)
  {
    DigitRun(s) == |s|
  }

  /** An all-digit string is one whole digit run. */
  lemma {:induction false} AllDigitsRun(s: string)
    requires forall j | 0 <= j < |s| :: IsDigit(s[j])
    ensures DigitRun(s) == |s|
  {
    if s != [] {
      AllDigitsRun(s[1..]);
    }
  }

  /** `_atoi` reads back the decimal rendering of any 16-bit number. */
  lemma AtoiOfDecimal(n: u16)
    ensures AtoiOk(Decimal(n)) && AtoiNum(Decimal(n)) == n
  {
    AllDigitsRun(Decimal(n));
    assert Decimal(n)[..|Decimal(n)|] == Decimal(n);
  }

  /** The index of the first name in `names` that is a prefix of `path`. */
  function FirstPrefix(names: seq<string>, path: string): (r: Option<nat>)
    ensures r.Some? ==> r.value < |names| && names[r.value] <= path
    ensures r.Some? ==> forall j | 0 <= j < r.value :: !(names[j] <= path)
    ensures r.None? ==> forall j | 0 <= j < |names| :: !(names[j] <= path)
  {
    if names == [] then None
    else
      var r := FirstPrefix(names[..|names| - 1], path);
      if r.Some? then r
      else if names[|names| - 1] <= path then Some(|names| - 1)
      else None
  }

  /**
   * `name_to_type_and_id`: the first name that prefixes the path gives the
   * type (its index, as a 16-bit value); the rest of the path is read by
   * `_atoi`, whose verdict is ignored.
   */
  function Parse(names: seq<string>, path: string): (r: Option<DevName>)
    ensures r.None? <==> forall j | 0 <= j < |names| :: !(names[j] <= path)
  {
    match FirstPrefix(names, path)
    case None => None
    case Some(i) => Some(DevName(i % U16_LIMIT, AtoiNum(path[|names[i]|..])))
  }

  /** No name is a prefix of another. */
  ghost predicate PrefixFree(names: seq<string>)
  {
    forall i, j | 0 <= i < |names| && 0 <= j < |names| && i != j :: !(names[i] <= names[j])
  }

  /** With prefix-free names, the path made of a name and a 16-bit id in decimal parses back to both. */
  lemma ParseRoundTrip(names: seq<string>, t: nat, id: u16)
    requires t < |names| && t < U16_LIMIT && PrefixFree(names)
    ensures Parse(names, names[t] + Decimal(id)) == Some(DevName(t, id))
  {
    var path := names[t] + Decimal(id);
    assert names[t] <= path;
    assert path[|names[t]|..] == Decimal(id);
    AtoiOfDecimal(id);
  }

  /** Taking the 16-bit wrap at every step of a decimal accumulation gives the wrapped total. */
  lemma ModStep(a: int, d: int)
    ensures ((a % U16_LIMIT) * 10 + d) % U16_LIMIT == (a * 10 + d) % U16_LIMIT
  {
    var q, r := a / U16_LIMIT, a % U16_LIMIT;
    assert a * 10 + d == (r * 10 + d) + (q * 10) * U16_LIMIT;
  }

  // ------------------------------------------------------------- the helpers

  /** `is_prefix`: the rest of `s` after `sub` when `sub` is a prefix of it, nothing otherwise. */
  method IsPrefix(sub: string, s: string) returns (rest: Option<string>)
    ensures rest.Some? <==> sub <= s
    ensures rest.Some? ==> rest.value == s[|sub|..]
  {
    var i := 0;
    while i < |sub|
      invariant 0 <= i <= |sub| && i <= |s|
      invariant sub[..i] == s[..i]
    {
      if i == |s| || sub[i] != s[i] {
        return None;
      }
      i := i + 1;
    }
    return Some(s[i..]);
  }

  /**
   * `_atoi`: the leading digits as a 16-bit value, each step wrapping, and
   * whether the digits run to the end.
   */
  method Atoi(src: string) returns (ok: bool, num: u16)
    ensures num == AtoiNum(src)
    ensures ok <==> AtoiOk(src)
  {
    num := 0;
    var i := 0;
    while i < |src| && IsDigit(src[i])
      invariant 0 <= i <= DigitRun(src)
      invariant num == DecimalValue(src[..i]) % U16_LIMIT
    {
      assert src[..i + 1][..i] == src[..i];
      ModStep(DecimalValue(src[..i]), DigitValue(src[i]));
      num := (num * 10 + DigitValue(src[i])) % U16_LIMIT;
      i := i + 1;
    }
    ok := i == |src|;
  }

  /** `name_to_type_and_id`: a loop over the name table, stopping at the first prefix. */
  method NameToTypeAndId(names: seq<string>, path: string) returns (found: bool, devType: u16, id: u16)
    ensures found <==> Parse(names, path).Some?
    ensures found ==> Parse(names, path).value == DevName(devType, id)
  {
    var i := 0;
    while i < |names|
      invariant 0 <= i <= |names|
      invariant forall j | 0 <= j < i :: !(names[j] <= path)
    {
      var rest := IsPrefix(names[i], path);
      if rest.Some? {
        var ok;
        ok, id := Atoi(rest.value);
        return true, i % U16_LIMIT, id;
      }
      i := i + 1;
    }
    return false, 0, 0;
  }

  // ------------------------------------------------------------------- open

  /** Whether open's access mode matches the type's capability flags exactly. */
  predicate ModeMatches(flag: u16, flags: int)
  {
    var r, w := BitsCheck(flag, XF_HAL_FLAG_ONLY_READ), BitsCheck(flag, XF_HAL_FLAG_ONLY_WRITE);
    || (r && !w && flags == O_RDONLY)
    || (!r && w && flags == O_WRONLY)
    || (r && w && flags == O_RDWR)
  }

  /**
   * Each of the three capabilities admits exactly its own mode, and a type
   * with neither capability admits none.
   */
  lemma ModeMatchesCapability(flags: int)
    ensures ModeMatches(XF_HAL_FLAG_ONLY_READ, flags) <==> flags == O_RDONLY
    ensures ModeMatches(XF_HAL_FLAG_ONLY_WRITE, flags) <==> flags == O_WRONLY
    ensures ModeMatches(XF_HAL_FLAG_READ_WRITE, flags) <==> flags == O_RDWR
    ensures !ModeMatches(XF_HAL_FLAG_NOT_USE, flags)
  {
  }

  /** At most one mode matches any flags value. */
  lemma ModeMatchesOne(flag: u16, m1: int, m2: int)
    requires ModeMatches(flag, m1) && ModeMatches(flag, m2)
    ensures m1 == m2
  {
  }

  /**
   * `open`: parse the path, create the device, and return its descriptor
   * when the mode matches the type's capabilities; otherwise -1. A mode
   * mismatch leaves the device created.
   */
  method Open(k: Kernel, names: seq<string>, path: string, flags: int) returns (fd: i32)
    requires k.Valid()
    requires Parse(names, path).Some? && Parse(names, path).value.devType < XF_HAL_TYPE_MAX ==>
      k.Registered(Parse(names, path).value.devType) && k.table[Parse(names, path).value.devType].ctor.Some?
    modifies k, k.table
    ensures k.Valid()
    ensures Parse(names, path).None? ==> fd == -1 && k.trace == old(k.trace) && unchanged(k.table)
    ensures Parse(names, path).Some? ==>
      var t, i := Parse(names, path).value.devType, Parse(names, path).value.id;
      && (t >= XF_HAL_TYPE_MAX || old(k.Lookup(t, i)) != null ==>
            fd == -1 && k.trace == old(k.trace) && unchanged(k.table))
      && (t < XF_HAL_TYPE_MAX && old(k.Lookup(t, i)) == null ==>
            && k.Created(t, i)
            && (if old(k.OpenSucceeds(t, i)) then
                  && k.trace == old(k.trace) + [OpenCall(DevInfo(t, i, 0))]
                                + CreateCalls(old(k.OpsOf(t)), k.Newest(t).Info(), old(k.table[t].ctor.value))
                  && fd == (if ModeMatches(k.GetFlag(t), flags) then FdOf(t, i) else -1)
                else k.trace == old(k.trace) + [OpenCall(DevInfo(t, i, 0))] && fd == -1))
  {
    var found, t, i := NameToTypeAndId(names, path);
    if !found {
      return -1;
    }
    var dev := k.Create(t, i);
    if dev == null {
      return -1;
    }
    var fp := FdOf(t, i);
    var flag := k.GetFlag(t);
    if ModeMatches(flag, flags) {
      return fp;
    }
    return -1;
  }

  // ------------------------------------------------- ioctl, read, write, close

  /**
   * Whether the kernel's find can look a descriptor up safely: find walks the
   * list of the type the descriptor is unpacked to, and a slot inside the
   * table that was never registered has no list to walk.
   */
  predicate Reachable(k: Kernel, fd: i32)
    reads k.table
  {
    var t := DecodeAsWritten(fd).devType;
    t < k.table.Length ==> k.Registered(t)
  }

  /** The request of `ioctl`, an `unsigned long`, as the kernel's 32-bit command. */
  function Cmd(request: nat): (c: bv32)
    ensures request < U32_LIMIT ==> c == request as bv32
  {
    (request % U32_LIMIT) as bv32
  }

  /**
   * `ioctl`: unpack the descriptor the shim's way, find the device and pass
   * the request and the caller's record to the kernel, which refuses a
   * missing device or record with XF_ERR_INVALID_ARG. `found` is the handle
   * find returned.
   */
  method Ioctl(k: Kernel, fd: i32, request: nat, arg: Option<Config>)
    returns (ret: int, after: Option<Config>, found: Device?)
    requires k.Valid() && Reachable(k, fd)
    modifies k
    ensures k.Valid()
    ensures found == k.Lookup(DecodeAsWritten(fd).devType, DecodeAsWritten(fd).id)
    ensures found != null ==> found.devType == DecodeAsWritten(fd).devType && k.Registered(found.devType)
    ensures found == null || arg.None? ==> ret == XF_ERR_INVALID_ARG && after == arg && k.trace == old(k.trace)
    ensures found != null && arg.Some? ==>
      var out := k.OpsOf(found.devType).ioctl(found.Info(), Cmd(request), arg.value);
      && ret == out.err && after == Some(out.config)
      && k.trace == old(k.trace) + [IoctlCall(found.Info(), Cmd(request), arg.value)]
  {
    var n := DecodeAsWritten(fd);
    found := k.Find(n.devType, n.id);
    ret, after := k.Ioctl(found, Cmd(request), arg);
  }

  /**
   * `read`: unpack the descriptor the shim's way, find the device and read
   * through the kernel. The kernel's signed result is returned as a
   * `size_t`, so a negative error comes back as a large count.
   */
  method Read(k: Kernel, fd: i32, count: u32) returns (ret: u32, got: seq<int>, found: Device?)
    requires k.Valid() && Reachable(k, fd)
    modifies k
    ensures k.Valid()
    ensures found == k.Lookup(DecodeAsWritten(fd).devType, DecodeAsWritten(fd).id)
    ensures found != null ==> found.devType == DecodeAsWritten(fd).devType && k.Registered(found.devType)
    ensures found == null ==> ret == XF_ERR_INVALID_ARG && got == [] && k.trace == old(k.trace)
    ensures found != null ==>
      var io := k.ReadOutcome(found, count);
      && ret == ToU32(io.ret) && got == io.data
      && k.trace == old(k.trace) + io.calls
  {
    var n := DecodeAsWritten(fd);
    found := k.Find(n.devType, n.id);
    var r;
    r, got := k.Read(found, count);
    ret := ToU32(r);
  }

  /** `write`: as read, through the kernel's write. */
  method Write(k: Kernel, fd: i32, data: seq<int>, count: u32) returns (ret: u32, found: Device?)
    requires k.Valid() && Reachable(k, fd)
    modifies k
    ensures k.Valid()
    ensures found == k.Lookup(DecodeAsWritten(fd).devType, DecodeAsWritten(fd).id)
    ensures found != null ==> found.devType == DecodeAsWritten(fd).devType && k.Registered(found.devType)
    ensures found == null ==> ret == XF_ERR_INVALID_ARG && k.trace == old(k.trace)
    ensures found != null ==>
      var io := k.WriteOutcome(found, data, count);
      && ret == ToU32(io.ret)
      && k.trace == old(k.trace) + io.calls
  {
    var n := DecodeAsWritten(fd);
    found := k.Find(n.devType, n.id);
    var r := k.Write(found, data, count);
    ret := ToU32(r);
  }

  /**
   * `close`: unpack the descriptor the shim's way, find the device and close
   * it through the kernel; a missing device gives the kernel's
   * XF_ERR_INVALID_ARG.
   */
  method Close(k: Kernel, fd: i32) returns (ret: int)
    requires k.Valid() && Reachable(k, fd)
    modifies k, k.table
    ensures k.Valid()
    ensures var n := DecodeAsWritten(fd);
      && (n.devType >= XF_HAL_TYPE_MAX ==>
            ret == XF_ERR_INVALID_ARG && k.trace == old(k.trace) && unchanged(k.table))
      && (n.devType < XF_HAL_TYPE_MAX ==>
            Released(k, n.devType, n.id, old(k.Lookup(n.devType, n.id)), XF_ERR_INVALID_ARG, ret))
  {
    var n := DecodeAsWritten(fd);
    if n.devType >= XF_HAL_TYPE_MAX {
      var none := k.Find(n.devType, n.id);
      ret := k.Close(none);
      return;
    }
    ret := Release(k, n.devType, n.id, XF_ERR_INVALID_ARG);
  }
}
