/** The logical line settings the crate exposes at its root (`::BaudRate`,
    `::CharSize`, `::Parity`, `::StopBits`, `::FlowControl`), with the
    variants com.rs matches on. */
module Line {
  import opened Types

  datatype BaudRate =
    | Baud110 | Baud300 | Baud600 | Baud1200 | Baud2400 | Baud4800
    | Baud9600 | Baud19200 | Baud38400 | Baud57600 | Baud115200
    | BaudOther(n: usize)

  datatype CharSize = Bits5 | Bits6 | Bits7 | Bits8

  datatype Parity = ParityNone | ParityOdd | ParityEven

  datatype StopBits = Stop1 | Stop2

  datatype FlowControl = FlowNone | FlowSoftware | FlowHardware

  /** The numeric rate a named variant stands for. */
  function NominalRate(b: BaudRate): int
  {
    match b
    case Baud110 => 110
    case Baud300 => 300
    case Baud600 => 600
    case Baud1200 => 1200
    case Baud2400 => 2400
    case Baud4800 => 4800
    case Baud9600 => 9600
    case Baud19200 => 19200
    case Baud38400 => 38400
    case Baud57600 => 57600
    case Baud115200 => 115200
    case BaudOther(n) => n as int
  }

  /** The eleven rates that have a named variant. */
  predicate IsNamedRate(n: int)
  {
    n in {110, 300, 600, 1200, 2400, 4800, 9600, 19200, 38400, 57600, 115200}
  }
}
