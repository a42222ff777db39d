/** `COMSettings`: the translation between a Win32 DCB and the logical line
    settings. Each setting has a decoder (the getter's table) and an encoder
    (the setter's table); the lemmas relate the two. */
module Settings {
  import opened Types
  import opened Line
  import opened Ffi
  import opened Flow

  // ---------------------------------------------------------------- baud rate

  /** The `baud_rate` table: every DCB.BaudRate code has a meaning, the
      codes without a named variant becoming `BaudOther`. */
  function BaudFromCode(k: Consts, code: dword): BaudRate
  {
    if code == k.cbr110 then Baud110
    else if code == k.cbr300 then Baud300
    else if code == k.cbr600 then Baud600
    else if code == k.cbr1200 then Baud1200
    else if code == k.cbr2400 then Baud2400
    else if code == k.cbr4800 then Baud4800
    else if code == k.cbr9600 then Baud9600
    else if code == k.cbr14400 then BaudOther(14400)
    else if code == k.cbr19200 then Baud19200
    else if code == k.cbr38400 then Baud38400
    else if code == k.cbr56000 then BaudOther(56000)
    else if code == k.cbr57600 then Baud57600
    else if code == k.cbr115200 then Baud115200
    else if code == k.cbr128000 then BaudOther(128000)
    else if code == k.cbr256000 then BaudOther(256000)
    else BaudOther(code as int as usize)
  }

  /** The `set_baud_rate` table; `BaudOther(n)` is cast to a DWORD. */
  function BaudToCode(k: Consts, b: BaudRate): dword
  {
    match b
    case Baud110 => k.cbr110
    case Baud300 => k.cbr300
    case Baud600 => k.cbr600
    case Baud1200 => k.cbr1200
    case Baud2400 => k.cbr2400
    case Baud4800 => k.cbr4800
    case Baud9600 => k.cbr9600
    case Baud19200 => k.cbr19200
    case Baud38400 => k.cbr38400
    case Baud57600 => k.cbr57600
    case Baud115200 => k.cbr115200
    case BaudOther(n) => ToDword(n as int)
  }

  /** Every named rate reads back as itself once written. */
  lemma NamedBaudRoundTrip(k: Consts, b: BaudRate)
    requires k.Valid() && !b.BaudOther?
    ensures BaudFromCode(k, BaudToCode(k, b)) == b
  {
  }

  /** With Win32's codes, `BaudOther(n)` reads back unchanged exactly when n
      fits a DWORD and is not one of the eleven named rates (14400, 56000,
      128000 and 256000 have no named variant, so they do read back). */
  lemma OtherBaudRoundTrip(k: Consts, n: usize)
    requires k.StandardBaudCodes()
    ensures BaudFromCode(k, BaudToCode(k, BaudOther(n))) == BaudOther(n)
        <==> (n as int) < DWORD_RANGE && !IsNamedRate(n as int)
  {
  }

  /** With any valid codes, an unnamed rate that fits a DWORD and is no
      CBR_* code reads back unchanged. */
  lemma OtherBaudRoundTripAnyCodes(k: Consts, n: usize)
    requires k.Valid()
    requires (n as int) < DWORD_RANGE
    requires n as int !in {k.cbr110 as int, k.cbr300 as int, k.cbr600 as int, k.cbr1200 as int,
                           k.cbr2400 as int, k.cbr4800 as int, k.cbr9600 as int, k.cbr14400 as int,
                           k.cbr19200 as int, k.cbr38400 as int, k.cbr56000 as int, k.cbr57600 as int,
                           k.cbr115200 as int, k.cbr128000 as int, k.cbr256000 as int}
    ensures BaudFromCode(k, BaudToCode(k, BaudOther(n))) == BaudOther(n)
  {
  }

  /** With Win32's codes, writing back what was read leaves the code as it
      was, for every DWORD: the read direction loses nothing. */
  lemma BaudCodeRoundTrip(k: Consts, code: dword)
    requires k.StandardBaudCodes()
    ensures BaudToCode(k, BaudFromCode(k, code)) == code
  {
  }

  /** With Win32's codes the code written for a rate is that rate modulo 2^32. */
  lemma BaudCodeIsRate(k: Consts, b: BaudRate)
    requires k.StandardBaudCodes()
    ensures BaudToCode(k, b) as int == NominalRate(b) % DWORD_RANGE
  {
  }

  /** A rate of 2^32 or more is cut to its low 32 bits: BaudOther(2^32 + 9600)
      reads back as Baud9600. */
  lemma OtherBaudTruncates(k: Consts)
    requires k.StandardBaudCodes()
    ensures BaudFromCode(k, BaudToCode(k, BaudOther((DWORD_RANGE + 9600) as usize))) == Baud9600
  {
  }

  // ----------------------------------------------------- character size

  /** The `char_size` table. */
  function CharSizeFromByte(b: byte): Option<CharSize>
  {
    match b
    case 5 => Some(Bits5)
    case 6 => Some(Bits6)
    case 7 => Some(Bits7)
    case 8 => Some(Bits8)
    case _ => None
  }

  /** The `set_char_size` table. */
  function CharSizeToByte(c: CharSize): byte
  {
    match c
    case Bits5 => 5
    case Bits6 => 6
    case Bits7 => 7
    case Bits8 => 8
  }

  /** Every character size reads back as itself. */
  lemma CharSizeRoundTrip(c: CharSize)
    ensures CharSizeFromByte(CharSizeToByte(c)) == Some(c)
  {
  }

  /** `char_size` is `None` exactly for the bytes outside 5..8, and what it
      recognises it recognises faithfully. */
  lemma CharSizeDecode(b: byte)
    ensures CharSizeFromByte(b).None? <==> b !in {5, 6, 7, 8}
    ensures CharSizeFromByte(b).Some? ==> CharSizeToByte(CharSizeFromByte(b).value) == b
  {
  }

  // ----------------------------------------------------------- parity

  /** The `parity` table. */
  function ParityFromCode(k: Consts, code: byte): Option<Parity>
  {
    if code == k.oddParity then Some(ParityOdd)
    else if code == k.evenParity then Some(ParityEven)
    else if code == k.noParity then Some(ParityNone)
    else None
  }

  /** The `set_parity` table. */
  function ParityToCode(k: Consts, p: Parity): byte
  {
    match p
    case ParityNone => k.noParity
    case ParityOdd => k.oddParity
    case ParityEven => k.evenParity
  }

  /** Every parity reads back as itself, given distinct parity codes. */
  lemma ParityRoundTrip(k: Consts, p: Parity)
    requires k.Valid()
    ensures ParityFromCode(k, ParityToCode(k, p)) == Some(p)
  {
  }

  /** `parity` is `None` exactly for the codes other than the three, and
      what it recognises it recognises faithfully. */
  lemma ParityDecode(k: Consts, code: byte)
    ensures ParityFromCode(k, code).None?
        <==> code != k.noParity && code != k.oddParity && code != k.evenParity
    ensures ParityFromCode(k, code).Some? ==> ParityToCode(k, ParityFromCode(k, code).value) == code
  {
  }

  // -------------------------------------------------------- stop bits

  /** The `stop_bits` table. */
  function StopBitsFromCode(k: Consts, code: byte): Option<StopBits>
  {
    if code == k.twoStopBits then Some(Stop2)
    else if code == k.oneStopBit then Some(Stop1)
    else None
  }

  /** The `set_stop_bits` table. */
  function StopBitsToCode(k: Consts, s: StopBits): byte
  {
    match s
    case Stop1 => k.oneStopBit
    case Stop2 => k.twoStopBits
  }

  /** Every stop-bit setting reads back as itself, given distinct codes. */
  lemma StopBitsRoundTrip(k: Consts, s: StopBits)
    requires k.Valid()
    ensures StopBitsFromCode(k, StopBitsToCode(k, s)) == Some(s)
  {
  }

  /** `stop_bits` is `None` exactly for the codes other than the two
      (ONE5STOPBITS among them), and faithful on the rest. */
  lemma StopBitsDecode(k: Consts, code: byte)
    ensures StopBitsFromCode(k, code).None? <==> code != k.oneStopBit && code != k.twoStopBits
    ensures StopBitsFromCode(k, code).Some? ==> StopBitsToCode(k, StopBitsFromCode(k, code).value) == code
  {
  }

  // --------------------------------------------------------- the block

  /** The line configuration of a COM port: a DCB, read from and written
      to the driver as a whole. */
  class COMSettings {
    const k: Consts
    var inner: DCB

    constructor (k: Consts, inner: DCB)
      ensures this.k == k && this.inner == inner
    {
      this.k := k;
      this.inner := inner;
    }

    /** `baud_rate`: never `None`; an unnamed code keeps its value. */
    function BaudRate(): (r: Option<BaudRate>)
      reads this
      ensures r.Some?
      ensures k.StandardBaudCodes() ==> BaudToCode(k, r.value) == inner.BaudRate
    {
      if k.StandardBaudCodes() then BaudCodeRoundTrip(k, inner.BaudRate); Some(BaudFromCode(k, inner.BaudRate))
      else Some(BaudFromCode(k, inner.BaudRate))
    }

    /** `char_size`: `None` exactly when ByteSize is outside 5..8. */
    function CharSize(): (r: Option<CharSize>)
      reads this
      ensures r.None? <==> inner.ByteSize !in {5, 6, 7, 8}
    {
      CharSizeFromByte(inner.ByteSize)
    }

    /** `parity`: `None` for an unrecognised code. */
    function Parity(): (r: Option<Parity>)
      reads this
      ensures r.None? <==> inner.Parity != k.noParity && inner.Parity != k.oddParity && inner.Parity != k.evenParity
    {
      ParityFromCode(k, inner.Parity)
    }

    /** `stop_bits`: `None` for an unrecognised code. */
    function StopBits(): (r: Option<StopBits>)
      reads this
      ensures r.None? <==> inner.StopBits != k.oneStopBit && inner.StopBits != k.twoStopBits
    {
      StopBitsFromCode(k, inner.StopBits)
    }

    /** `flow_control`: never `None`. */
    function FlowControl(): (r: Option<FlowControl>)
      reads this
      ensures r.Some?
    {
      Some(FlowFromBits(k.HardwareFlowMask(), k.SoftwareFlowMask(), inner.fBits))
    }

    /** `set_baud_rate`: always succeeds and changes only BaudRate. */
    method SetBaudRate(baudRate: BaudRate) returns (r: Result<(), Error>)
      modifies this
      ensures r.Ok?
      ensures inner == old(inner).(BaudRate := BaudToCode(k, baudRate))
      ensures k.Valid() && !baudRate.BaudOther? ==> BaudRate() == Some(baudRate)
    {
      inner := inner.(BaudRate := BaudToCode(k, baudRate));
      if k.Valid() && !baudRate.BaudOther? {
        NamedBaudRoundTrip(k, baudRate);
      }
      r := Ok(());
    }

    /** `set_char_size`: changes only ByteSize, and reads back. */
    method SetCharSize(charSize: CharSize)
      modifies this
      ensures inner == old(inner).(ByteSize := CharSizeToByte(charSize))
      ensures CharSize() == Some(charSize)
    {
      inner := inner.(ByteSize := CharSizeToByte(charSize));
      CharSizeRoundTrip(charSize);
    }

    /** `set_parity`: changes only Parity, and reads back. */
    method SetParity(parity: Parity)
      modifies this
      ensures inner == old(inner).(Parity := ParityToCode(k, parity))
      ensures k.Valid() ==> Parity() == Some(parity)
    {
      inner := inner.(Parity := ParityToCode(k, parity));
      if k.Valid() {
        ParityRoundTrip(k, parity);
      }
    }

    /** `set_stop_bits`: changes only StopBits, and reads back. */
    method SetStopBits(stopBits: StopBits)
      modifies this
      ensures inner == old(inner).(StopBits := StopBitsToCode(k, stopBits))
      ensures k.Valid() ==> StopBits() == Some(stopBits)
    {
      inner := inner.(StopBits := StopBitsToCode(k, stopBits));
      if k.Valid() {
        StopBitsRoundTrip(k, stopBits);
      }
    }

    /** `set_flow_control`: updates fBits group by group; the result is the
        clear-then-set reference, so only the flow-control bits change and
        the mode reads back. */
    method SetFlowControl(flowControl: FlowControl)
      requires k.FlowMasksDisjoint()
      modifies this
      ensures inner == old(inner).(fBits := FlowIntoBits(k.HardwareFlowMask(), k.SoftwareFlowMask(), old(inner.fBits), flowControl))
      ensures FlowControl() == Some(flowControl)
    {
      ghost var bits, hw, sw := inner.fBits, k.HardwareFlowMask(), k.SoftwareFlowMask();
      match flowControl {
      case FlowNone =>
        inner := inner.(fBits := ClearBits(inner.fBits, k.fOutxCtsFlow | k.fRtsControl));
        inner := inner.(fBits := ClearBits(inner.fBits, k.fOutX | k.fInX));
        FlowNoneSteps(hw, sw, bits);
      case FlowSoftware =>
        inner := inner.(fBits := ClearBits(inner.fBits, k.fOutxCtsFlow | k.fRtsControl));
        inner := inner.(fBits := SetBits(inner.fBits, k.fOutX | k.fInX));
        FlowSoftwareSteps(hw, sw, bits);
      case FlowHardware =>
        inner := inner.(fBits := SetBits(inner.fBits, k.fOutxCtsFlow | k.fRtsControl));
        inner := inner.(fBits := ClearBits(inner.fBits, k.fOutX | k.fInX));
        FlowHardwareSteps(hw, sw, bits);
      }
      FlowRoundTrip(hw, sw, bits, flowControl);
    }
  }
}
