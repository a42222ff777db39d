/** The Win32 records and constants the COM port code takes from its `ffi`
    module. That module is not part of this model: the constants are the
    fields of a `Consts` value, and `Consts.Valid` states what the model
    assumes of them. `Win32` gives the Windows values: the SDK codes, and the
    positions of DCB's bit fields for the flow-control bits. */
module Ffi {
  import opened Types

  /** Win32 HANDLE, a pointer-sized value. */
  type Handle = int

  /** Win32 DCB, the device control block, field by field. `fBits` holds
      the C bit fields (fBinary, fParity, fOutxCtsFlow, ..., fAbortOnError). */
  datatype DCB = DCB(
    DCBlength: dword,
    BaudRate: dword,
    fBits: bv32,
    wReserved: word,
    XonLim: word,
    XoffLim: word,
    ByteSize: byte,
    Parity: byte,
    StopBits: byte,
    XonChar: byte,
    XoffChar: byte,
    ErrorChar: byte,
    EofChar: byte,
    EvtChar: byte,
    wReserved1: word)

  /** Win32 COMMTIMEOUTS, all in milliseconds. */
  datatype CommTimeouts = CommTimeouts(
    ReadIntervalTimeout: dword,
    ReadTotalTimeoutMultiplier: dword,
    ReadTotalTimeoutConstant: dword,
    WriteTotalTimeoutMultiplier: dword,
    WriteTotalTimeoutConstant: dword)

  /** The `ffi` constants com.rs uses. */
  datatype Consts = Consts(
    // CBR_* baud-rate codes
    cbr110: dword, cbr300: dword, cbr600: dword, cbr1200: dword,
    cbr2400: dword, cbr4800: dword, cbr9600: dword, cbr14400: dword,
    cbr19200: dword, cbr38400: dword, cbr56000: dword, cbr57600: dword,
    cbr115200: dword, cbr128000: dword, cbr256000: dword,
    // NOPARITY, ODDPARITY, EVENPARITY
    noParity: byte, oddParity: byte, evenParity: byte,
    // ONESTOPBIT, TWOSTOPBITS
    oneStopBit: byte, twoStopBits: byte,
    // bits of DCB.fBits
    fOutxCtsFlow: bv32, fRtsControl: bv32, fOutX: bv32, fInX: bv32,
    // EscapeCommFunction codes SETRTS, CLRRTS, SETDTR, CLRDTR
    setRts: dword, clrRts: dword, setDtr: dword, clrDtr: dword,
    // GetCommModemStatus bits MS_CTS_ON, MS_DSR_ON, MS_RING_ON, MS_RLSD_ON
    msCtsOn: bv32, msDsrOn: bv32, msRingOn: bv32, msRlsdOn: bv32,
    // INVALID_HANDLE_VALUE
    invalidHandle: Handle)
  {
    /** The RTS/CTS (hardware) group of flow-control bits. */
    function HardwareFlowMask(): bv32 { fOutxCtsFlow | fRtsControl }

    /** The XON/XOFF (software) group of flow-control bits. */
    function SoftwareFlowMask(): bv32 { fOutX | fInX }

    /** The CBR_* codes in increasing order, hence pairwise distinct. */
    predicate BaudCodesAscending()
    {
      cbr110 < cbr300 < cbr600 < cbr1200 < cbr2400 < cbr4800 < cbr9600 < cbr14400
      < cbr19200 < cbr38400 < cbr56000 < cbr57600 < cbr115200 < cbr128000 < cbr256000
    }

    /** Win32's own choice: CBR_n is n. */
    predicate StandardBaudCodes()
    {
      && cbr110 == 110 && cbr300 == 300 && cbr600 == 600 && cbr1200 == 1200
      && cbr2400 == 2400 && cbr4800 == 4800 && cbr9600 == 9600 && cbr14400 == 14400
      && cbr19200 == 19200 && cbr38400 == 38400 && cbr56000 == 56000 && cbr57600 == 57600
      && cbr115200 == 115200 && cbr128000 == 128000 && cbr256000 == 256000
    }

    /** Two flow-control groups, neither empty, sharing no bit. */
    predicate FlowMasksDisjoint()
    {
      HardwareFlowMask() != 0 && SoftwareFlowMask() != 0
      && HardwareFlowMask() & SoftwareFlowMask() == 0
    }

    /** What the model assumes of the `ffi` constants. */
    predicate Valid()
    {
      && BaudCodesAscending()
      && noParity != oddParity && noParity != evenParity && oddParity != evenParity
      && oneStopBit != twoStopBits
      && FlowMasksDisjoint()
      && setRts != clrRts && setRts != setDtr && setRts != clrDtr
      && clrRts != setDtr && clrRts != clrDtr && setDtr != clrDtr
      && SingleBit(msCtsOn) && SingleBit(msDsrOn) && SingleBit(msRingOn) && SingleBit(msRlsdOn)
    }
  }

  /** Exactly one bit of `m` is set. */
  predicate SingleBit(m: bv32)
  {
    m != 0 && m & (m - 1) == 0
  }

  /** The Windows values: the winbase.h codes, and for fOutxCtsFlow,
      fRtsControl, fOutX and fInX the positions of the corresponding DCB
      bit fields (the SDK declares bit fields, not masks). */
  const Win32: Consts := Consts(
    110, 300, 600, 1200, 2400, 4800, 9600, 14400,
    19200, 38400, 56000, 57600, 115200, 128000, 256000,
    0, 1, 2,
    0, 2,
    0x0000_0004, 0x0000_3000, 0x0000_0100, 0x0000_0200,
    3, 4, 5, 6,
    0x10, 0x20, 0x40, 0x80,
    -1)

  /** The assumptions are met by the real constants. */
  lemma Win32Valid()
    ensures Win32.Valid() && Win32.StandardBaudCodes()
  {
  }
}
