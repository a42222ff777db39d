/** `COMPort`: one open Windows COM port. Every Win32 call it makes is a
    parameter of the operation that makes it: a function from the request
    the port sends to the reply the operating system gives. The model
    states what is sent and how each reply becomes the port's result. */
module Port {
  import opened Types
  import opened Ffi
  import opened Utf16
  import opened Settings

  /** The reply of a BOOL-returning Win32 call: zero, with the error code
      GetLastError then gives, or non-zero with the call's outputs. */
  datatype Reply<+T> = Failed(code: dword) | Done(out: T)

  /** The reply of CreateFileW: a handle, INVALID_HANDLE_VALUE on failure,
      and the error code GetLastError then gives. */
  datatype Opened = Opened(handle: Handle, lastError: dword)

  /** The common `0 => Err(last_os_error()), _ => Ok(())` step. */
  function Check(reply: Reply<()>): (r: Result<(), Error>)
    ensures r.Ok? <==> reply.Done?
    ensures reply.Failed? ==> r == Err(OsError(reply.code))
  {
    match reply
    case Failed(code) => Err(OsError(code))
    case Done(_) => Ok(())
  }

  // ------------------------------------------------------------ device name

  /** `\\.\`, the Win32 device namespace prefix. */
  const DevicePrefix: string := "\\\\.\\"

  /** The NUL-terminated wide name `open` passes to CreateFileW. */
  function DeviceName(port: string): seq<Unit>
  {
    EncodeWide(DevicePrefix) + EncodeWide(port) + [0]
  }

  /** The name is the four units of `\\.\`, the port name's UTF-16 units
      and one terminating 0. */
  lemma DeviceNameShape(port: string)
    ensures var name := DeviceName(port);
      && |name| == 4 + |EncodeWide(port)| + 1
      && name[..4] == [0x5C, 0x5C, 0x2E, 0x5C]
      && name[4..|name| - 1] == EncodeWide(port)
      && name[|name| - 1] == 0
  {
    PrefixUnits();
    var name := DeviceName(port);
    assert name[..4] == EncodeWide(DevicePrefix);
    assert name[4..|name| - 1] == EncodeWide(port);
  }

  /** `\\.\` is four ASCII characters, one UTF-16 unit each. */
  lemma PrefixUnits()
    ensures EncodeWide(DevicePrefix) == [0x5C, 0x5C, 0x2E, 0x5C]
  {
  }

  /** The terminator is the name's only 0 exactly when the port name has
      no NUL character. */
  lemma DeviceNameTerminator(port: string)
    ensures var name := DeviceName(port);
      (forall i | 0 <= i < |name| - 1 :: name[i] != 0) <==> '\0' !in port
  {
    var name := DeviceName(port);
    DeviceNameShape(port);
    if '\0' in port {
      assert 0 in EncodeWide(port);
      var j :| 0 <= j < |EncodeWide(port)| && EncodeWide(port)[j] == 0;
      assert name[4 + j] == 0;
    } else {
      assert 0 !in EncodeWide(port);
      forall i | 0 <= i < |name| - 1 ensures name[i] != 0 {
        if i >= 4 {
          assert name[i] == name[4..|name| - 1][i - 4];
        }
      }
    }
  }

  /** Different port names give different CreateFileW name buffers. */
  lemma DeviceNameInjective(p: string, q: string)
    requires DeviceName(p) == DeviceName(q)
    ensures p == q
  {
    DeviceNameShape(p);
    DeviceNameShape(q);
    var n := DeviceName(p);
    assert EncodeWide(p) == n[4..|n| - 1] == EncodeWide(q);
    EncodeWideInjective(p, q);
  }

  // --------------------------------------------------------------- timeouts

  /** The whole milliseconds of a duration. */
  function Millis(d: Duration): (ms: nat)
    ensures ms * 1_000_000 <= TotalNanos(d) < (ms + 1) * 1_000_000
  {
    d.secs as int * 1000 + d.nanos / 1_000_000
  }

  /** Reducing modulo 2^64 first does not change the low 32 bits. */
  lemma LowBitsOfU64Wrap(x: nat)
    ensures (x % U64_RANGE) % DWORD_RANGE == x % DWORD_RANGE
  {
    var q := x / U64_RANGE;
    assert x == q * 0x1_0000_0000 * 0x1_0000_0000 + x % U64_RANGE;
  }

  /** The COMMTIMEOUTS `set_timeout` sends: the milliseconds, computed in
      u64 (which wraps) and cast to DWORD, as the only read timeout; no
      interval, multiplier or write component. */
  function TimeoutsFor(d: Duration): (t: CommTimeouts)
    ensures t.ReadTotalTimeoutConstant as int == Millis(d) % DWORD_RANGE
    ensures Millis(d) < DWORD_RANGE ==> t.ReadTotalTimeoutConstant as int == Millis(d)
    ensures t.ReadIntervalTimeout == 0 && t.ReadTotalTimeoutMultiplier == 0
    ensures t.WriteTotalTimeoutMultiplier == 0 && t.WriteTotalTimeoutConstant == 0
  {
    var milliseconds := Millis(d) % U64_RANGE;
    LowBitsOfU64Wrap(Millis(d));
    CommTimeouts(0, 0, ToDword(milliseconds), 0, 0)
  }

  /** Milliseconds read back what `from_millis` was given. */
  lemma MillisFromMillis(ms: u64)
    ensures Millis(FromMillis(ms)) == ms as int
  {
  }

  /** The timeout a freshly opened port gets: `Duration::from_millis(100)`. */
  const DefaultTimeout: Duration := FromMillis(100)

  /** The default timeout is sent to the driver as 100 ms. */
  lemma DefaultTimeoutSent()
    ensures TimeoutsFor(DefaultTimeout).ReadTotalTimeoutConstant == 100
  {
    MillisFromMillis(100);
  }

  /** A timeout of 2^32 ms (4294967.296 s) is sent as 0 ms: the cast keeps
      only the low 32 bits, while `timeout()` still reports the full value. */
  lemma TimeoutWrapsAtDwordRange()
    ensures TimeoutsFor(Duration(4294967, 296_000_000)).ReadTotalTimeoutConstant == 0
  {
  }

  // ----------------------------------------------------------- line signals

  /** The EscapeCommFunction code `set_rts(level)` sends. */
  function RtsCommand(k: Consts, level: bool): dword
  {
    if level then k.setRts else k.clrRts
  }

  /** The EscapeCommFunction code `set_dtr(level)` sends. */
  function DtrCommand(k: Consts, level: bool): dword
  {
    if level then k.setDtr else k.clrDtr
  }

  /** Each (line, level) pair has its own command. */
  lemma LineCommandsDistinct(k: Consts, a: bool, b: bool)
    requires k.Valid()
    ensures RtsCommand(k, a) != DtrCommand(k, b)
    ensures RtsCommand(k, a) == RtsCommand(k, b) <==> a == b
    ensures DtrCommand(k, a) == DtrCommand(k, b) <==> a == b
  {
  }

  /** `status & pin != 0` */
  function AnyBitSet(status: bv32, pin: bv32): bool
  {
    status & pin != 0
  }

  /** For a one-bit mask the test says whether that very bit is set. */
  lemma SingleBitTest(status: bv32, pin: bv32)
    requires SingleBit(pin)
    ensures AnyBitSet(status, pin) <==> status & pin == pin
  {
  }

  // ------------------------------------------------------------------ port

  /** An open COM port: its Win32 handle and the read timeout last applied. */
  class COMPort {
    const k: Consts
    const handle: Handle
    var timeout: Duration

    constructor (k: Consts, handle: Handle, timeout: Duration)
      ensures this.k == k && this.handle == handle && this.timeout == timeout
    {
      this.k := k;
      this.handle := handle;
      this.timeout := timeout;
    }

    /** `open`: CreateFileW on `\\.\` + port; an invalid handle is an error
        and builds no port; otherwise the 100 ms default timeout is applied
        and its failure, if any, is the result. */
    static method Open(k: Consts, port: string,
                       createFile: seq<Unit> -> Opened,
                       setCommTimeouts: (Handle, CommTimeouts) -> Reply<()>)
      returns (r: Result<COMPort, Error>)
      ensures var created := createFile(DeviceName(port));
        if created.handle == k.invalidHandle then r == Err(OsError(created.lastError))
        else match setCommTimeouts(created.handle, TimeoutsFor(DefaultTimeout))
          case Failed(code) => r == Err(OsError(code))
          case Done(_) =>
            && r.Ok? && fresh(r.value)
            && r.value.k == k && r.value.handle == created.handle
            && r.value.timeout == DefaultTimeout
    {
      var name: seq<Unit> := [];
      name := name + EncodeWide(DevicePrefix);
      name := name + EncodeWide(port);
      name := name + [0];
      assert name == DeviceName(port);

      var created := createFile(name);
      var timeout := FromMillis(100);

      if created.handle != k.invalidHandle {
        var p := new COMPort(k, created.handle, timeout);
        var applied := p.SetTimeout(timeout, setCommTimeouts);
        if applied.Err? {
          return Err(applied.error);
        }
        return Ok(p);
      } else {
        return Err(OsError(created.lastError));
      }
    }

    /** `timeout`: the cached read timeout. */
    function Timeout(): Duration
      reads this
    {
      timeout
    }

    /** `set_timeout`: sends TimeoutsFor(d); the cached timeout becomes d
        on success and is unchanged on failure. */
    method SetTimeout(d: Duration, setCommTimeouts: (Handle, CommTimeouts) -> Reply<()>)
      returns (r: Result<(), Error>)
      modifies this`timeout
      ensures r.Ok? <==> setCommTimeouts(handle, TimeoutsFor(d)).Done?
      ensures r.Err? ==> r.error == OsError(setCommTimeouts(handle, TimeoutsFor(d)).code)
      ensures Timeout() == if r.Ok? then d else old(Timeout())
    {
      var timeouts := TimeoutsFor(d);
      var reply := setCommTimeouts(handle, timeouts);
      if reply.Failed? {
        return Err(OsError(reply.code));
      }
      timeout := d;
      return Ok(());
    }

    /** `read`: an OS failure is its error; a success that moved no byte is
        TimedOut; otherwise the number of bytes read. The request is the
        buffer length cast to DWORD. */
    method Read(bufLen: nat, readFile: (Handle, dword) -> Reply<dword>)
      returns (r: Result<nat, IoError>)
      ensures match readFile(handle, ToDword(bufLen))
        case Failed(code) => r == Err(IoOsError(code))
        case Done(len) => r == if len == 0 then Err(TimedOut) else Ok(len as nat)
      ensures r != Ok(0)
    {
      var reply := readFile(handle, ToDword(bufLen));
      match reply
      case Failed(code) =>
        r := Err(IoOsError(code));
      case Done(len) =>
        if len != 0 {
          r := Ok(len as nat);
        } else {
          r := Err(TimedOut);
        }
    }

    /** `write`: offers the first `buf.len() as DWORD` bytes and returns the
        count the OS reports written, which may be fewer. */
    method Write(buf: seq<byte>, writeFile: (Handle, seq<byte>) -> Reply<dword>)
      returns (r: Result<nat, IoError>)
      ensures match writeFile(handle, buf[..ToDword(|buf|)])
        case Failed(code) => r == Err(IoOsError(code))
        case Done(len) => r == Ok(len as nat)
    {
      var reply := writeFile(handle, buf[..ToDword(|buf|)]);
      match reply
      case Failed(code) =>
        r := Err(IoOsError(code));
      case Done(len) =>
        r := Ok(len as nat);
    }

    /** `flush`: FlushFileBuffers, its failure as an I/O error. */
    method Flush(flushFile: Handle -> Reply<()>) returns (r: Result<(), IoError>)
      ensures r.Ok? <==> flushFile(handle).Done?
      ensures r.Err? ==> r.error == IoOsError(flushFile(handle).code)
    {
      var reply := flushFile(handle);
      match reply
      case Failed(code) =>
        r := Err(IoOsError(code));
      case Done(_) =>
        r := Ok(());
    }

    /** `read_settings`: the DCB GetCommState fills in, as COMSettings. */
    method ReadSettings(getCommState: Handle -> Reply<DCB>) returns (r: Result<COMSettings, Error>)
      ensures getCommState(handle).Failed? ==> r == Err(OsError(getCommState(handle).code))
      ensures getCommState(handle).Done? ==>
        r.Ok? && fresh(r.value) && r.value.k == k && r.value.inner == getCommState(handle).out
    {
      var reply := getCommState(handle);
      match reply
      case Failed(code) =>
        r := Err(OsError(code));
      case Done(dcb) =>
        var settings := new COMSettings(k, dcb);
        r := Ok(settings);
    }

    /** `write_settings`: SetCommState with the settings' DCB, unvalidated. */
    method WriteSettings(settings: COMSettings, setCommState: (Handle, DCB) -> Reply<()>)
      returns (r: Result<(), Error>)
      ensures r.Ok? <==> setCommState(handle, settings.inner).Done?
      ensures r.Err? ==> r.error == OsError(setCommState(handle, settings.inner).code)
    {
      r := Check(setCommState(handle, settings.inner));
    }

    /** `escape_comm_function`: one EscapeCommFunction call. */
    method EscapeCommFunction(code: dword, escape: (Handle, dword) -> Reply<()>)
      returns (r: Result<(), Error>)
      ensures r.Ok? <==> escape(handle, code).Done?
      ensures r.Err? ==> r.error == OsError(escape(handle, code).code)
    {
      r := Check(escape(handle, code));
    }

    /** `set_rts`: SETRTS for a high level, CLRRTS for a low one. */
    method SetRts(level: bool, escape: (Handle, dword) -> Reply<()>) returns (r: Result<(), Error>)
      ensures r.Ok? <==> escape(handle, RtsCommand(k, level)).Done?
      ensures r.Err? ==> r.error == OsError(escape(handle, RtsCommand(k, level)).code)
    {
      if level {
        r := EscapeCommFunction(k.setRts, escape);
      } else {
        r := EscapeCommFunction(k.clrRts, escape);
      }
    }

    /** `set_dtr`: SETDTR for a high level, CLRDTR for a low one. */
    method SetDtr(level: bool, escape: (Handle, dword) -> Reply<()>) returns (r: Result<(), Error>)
      ensures r.Ok? <==> escape(handle, DtrCommand(k, level)).Done?
      ensures r.Err? ==> r.error == OsError(escape(handle, DtrCommand(k, level)).code)
    {
      if level {
        r := EscapeCommFunction(k.setDtr, escape);
      } else {
        r := EscapeCommFunction(k.clrDtr, escape);
      }
    }

    /** `read_pin`: whether the modem status word has a bit of `pin` set. */
    method ReadPin(pin: bv32, getModemStatus: Handle -> Reply<bv32>) returns (r: Result<bool, Error>)
      ensures getModemStatus(handle).Failed? ==> r == Err(OsError(getModemStatus(handle).code))
      ensures getModemStatus(handle).Done? ==> r == Ok(AnyBitSet(getModemStatus(handle).out, pin))
    {
      var reply := getModemStatus(handle);
      match reply
      case Failed(code) =>
        r := Err(OsError(code));
      case Done(status) =>
        r := Ok(AnyBitSet(status, pin));
    }

    /** `read_cts`: the MS_CTS_ON bit. */
    method ReadCts(getModemStatus: Handle -> Reply<bv32>) returns (r: Result<bool, Error>)
      ensures getModemStatus(handle).Failed? ==> r == Err(OsError(getModemStatus(handle).code))
      ensures getModemStatus(handle).Done? ==> r == Ok(AnyBitSet(getModemStatus(handle).out, k.msCtsOn))
    {
      r := ReadPin(k.msCtsOn, getModemStatus);
    }

    /** `read_dsr`: the MS_DSR_ON bit. */
    method ReadDsr(getModemStatus: Handle -> Reply<bv32>) returns (r: Result<bool, Error>)
      ensures getModemStatus(handle).Failed? ==> r == Err(OsError(getModemStatus(handle).code))
      ensures getModemStatus(handle).Done? ==> r == Ok(AnyBitSet(getModemStatus(handle).out, k.msDsrOn))
    {
      r := ReadPin(k.msDsrOn, getModemStatus);
    }

    /** `read_ri`: the MS_RING_ON bit. */
    method ReadRi(getModemStatus: Handle -> Reply<bv32>) returns (r: Result<bool, Error>)
      ensures getModemStatus(handle).Failed? ==> r == Err(OsError(getModemStatus(handle).code))
      ensures getModemStatus(handle).Done? ==> r == Ok(AnyBitSet(getModemStatus(handle).out, k.msRingOn))
    {
      r := ReadPin(k.msRingOn, getModemStatus);
    }

    /** `read_cd`: the MS_RLSD_ON (carrier detect) bit. */
    method ReadCd(getModemStatus: Handle -> Reply<bv32>) returns (r: Result<bool, Error>)
      ensures getModemStatus(handle).Failed? ==> r == Err(OsError(getModemStatus(handle).code))
      ensures getModemStatus(handle).Done? ==> r == Ok(AnyBitSet(getModemStatus(handle).out, k.msRlsdOn))
    {
      r := ReadPin(k.msRlsdOn, getModemStatus);
    }
  }
}
