/** Machine integer widths, the Option/Result wrappers and std::time::Duration
    as the Windows COM port code uses them. */
module Types {

  const BYTE_RANGE: int := 0x100
  const WORD_RANGE: int := 0x1_0000
  const DWORD_RANGE: int := 0x1_0000_0000
  const U64_RANGE: int := 0x1_0000_0000_0000_0000

  /** Win32 BYTE / Rust u8 */
  newtype byte = x: int | 0 <= x < 0x100
  /** Win32 WORD / Rust u16 */
  newtype word = x: int | 0 <= x < 0x1_0000
  /** Win32 DWORD / Rust u32 */
  newtype dword = x: int | 0 <= x < 0x1_0000_0000
  /** Rust u64 */
  newtype u64 = x: int | 0 <= x < 0x1_0000_0000_0000_0000
  /** Rust usize, on a 64-bit Windows target */
  newtype usize = x: int | 0 <= x < 0x1_0000_0000_0000_0000

  /** The Rust `as DWORD` cast: keeps the low 32 bits. */
  function ToDword(x: int): (d: dword)
    requires 0 <= x
    ensures d as int == x % DWORD_RANGE
    ensures x < DWORD_RANGE ==> d as int == x
  {
    (x % DWORD_RANGE) as dword
  }

  datatype Option<+T> = None | Some(value: T)

  datatype Result<+T, +E> = Ok(value: T) | Err(error: E)

  /** The crate's error, as `error::last_os_error()` builds it from the
      thread's last Win32 error code (the mapping of codes to NoDevice,
      InvalidInput and Io lives in the error module, not part of this model). */
  datatype Error = OsError(code: dword)

  /** `std::io::Error` as the port's Read and Write produce it. */
  datatype IoError =
    | IoOsError(code: dword)   // io::Error::last_os_error()
    | TimedOut                 // io::ErrorKind::TimedOut, "Operation timed out"

  /** Sub-second part of a Duration: Rust keeps it below one second. */
  type Nanos = n: int | 0 <= n < 1_000_000_000

  /** std::time::Duration as its (seconds, nanoseconds) pair. */
  datatype Duration = Duration(secs: u64, nanos: Nanos)

  /** The whole duration in nanoseconds. */
  function TotalNanos(d: Duration): int
  {
    d.secs as int * 1_000_000_000 + d.nanos
  }

  /** `Duration::from_millis(ms)` */
  function FromMillis(ms: u64): (d: Duration)
    ensures TotalNanos(d) == ms as int * 1_000_000
  {
    Duration((ms as int / 1000) as u64, (ms as int % 1000) * 1_000_000)
  }
}
