# Windows COM port backend of serial-rs, in Dafny

This project models `src/windows/com.rs` of the `serial` crate. That file holds the Windows implementation of the crate's serial-device interface, in two parts.

- **`COMPort`** owns a Win32 file handle and a cached read timeout. Its operations are:
  - `open`;
  - `read`, `write` and `flush`;
  - `read_settings` and `write_settings`;
  - `timeout` and `set_timeout`;
  - `set_rts` and `set_dtr`, through `escape_comm_function`;
  - `read_cts`, `read_dsr`, `read_ri` and `read_cd`, through `read_pin`.
- **`COMSettings`** wraps a Win32 DCB (device control block). It translates between the DCB's numeric codes and flag bits and the crate's logical line settings: baud rate, character size, parity, stop bits and flow control.

Modules, one per concern:

- `Types` (types.dfy):
  - the machine integer widths;
  - the `as DWORD` cast;
  - `Option` and `Result`;
  - the two error types;
  - `std::time::Duration` as a (seconds, nanoseconds) pair.
- `Line` (line.dfy): the crate-level setting enums that com.rs matches on.
- `Ffi` (ffi.dfy):
  - the Win32 records (`DCB`, `COMMTIMEOUTS`);
  - the constants com.rs imports, gathered in a `Consts` value.

  `Consts.Valid` states what the model assumes of those constants:
  - the CBR_* codes are increasing, hence pairwise distinct;
  - the parity, stop-bit and escape codes are distinct;
  - the two flow-control bit groups are non-empty and disjoint;
  - each modem-status mask has exactly one bit.

  `Win32` holds the Windows values (the SDK codes, and for the flow-control bits the positions of the DCB bit fields), and `Win32Valid` proves they meet these assumptions.
- `Utf16` (utf16.dfy): `OsStr::encode_wide` as UTF-16 encoding. It is proved to have a decoder that inverts it, so it is injective.
- `Flow` (flow.dfy): the flow-control view of `DCB.fBits` and the bit updates that `set_flow_control` makes.
- `Settings` (settings.dfy):
  - the getter and setter tables, each with its round-trip lemmas;
  - the class `COMSettings`, whose setters update its `inner` DCB in place.
- `Port` (port.dfy):
  - the device name and the timeout arithmetic;
  - the class `COMPort`.

Every Win32 call becomes a function-typed parameter of the operation that makes it. This covers CreateFileW, ReadFile, WriteFile, FlushFileBuffers, Get/SetCommState, SetCommTimeouts, EscapeCommFunction and GetCommModemStatus. Each such parameter maps the request the port sends to the OS reply:
- `Reply.Failed(code)` is a zero BOOL, together with the code GetLastError would give;
- `Reply.Done(out)` is success, together with the outputs.

The contracts state exactly which request is sent and how each reply becomes the result.

Where the code departs from what its documentation or the crate's intended design suggests, the model follows the code.

- **Open errors.** `open`'s doc comment (com.rs:36-41) promises `NoDevice` for a device that cannot be opened, and `InvalidInput` for a malformed name. The code makes no such check: it returns `error::last_os_error()` whatever the case, so any classification comes from the crate's error module. The model returns `OsError(lastError)`.
- **Flow-control view.** Hardware flow control would naturally mean "RTS/CTS bits set and XON/XOFF bits clear". `flow_control` reports hardware whenever any RTS/CTS bit is set, whatever the XON/XOFF bits are (`Flow.FlowView`).
- **Empty reads.** `read` reports every successful ReadFile that moved no byte as `TimedOut`, even a read into an empty buffer; it cannot tell a timeout from a zero-byte read (`Port.COMPort.Read`).
- **The sent timeout.** Because of `milliseconds as DWORD`, the timeout sent to the driver is the millisecond count modulo 2^32. Meanwhile `timeout()` keeps returning the full duration (`Port.TimeoutWrapsAtDwordRange`).

Other modelling choices:
- `set_flow_control`'s FlowHardware branch sets the RTS/CTS group before it clears the XON/XOFF group. This equals "clear both, then set one" only because the groups are disjoint. `Settings.COMSettings.SetFlowControl` is proved against the clear-then-set reference `Flow.FlowIntoBits`.
- A `BaudOther(n)` whose n equals a named rate is read back as that named rate. An n of 2^32 or more is cut to its low 32 bits.
- `write_settings` appears twice in com.rs, as an inherent method (166-171) and as the `SerialDevice` method (239-244). The two are identical and are modelled once, as `Port.COMPort.WriteSettings`.

## Model

| member | source | states |
|---|---|---|
| Types.ToDword | src/windows/com.rs:385 | `as DWORD` keeps the value modulo 2^32; values below 2^32 are unchanged |
| Types.FromMillis | src/windows/com.rs:53 | `Duration::from_millis(ms)` is exactly ms * 10^6 nanoseconds |
| Utf16.EncodeChar | src/windows/com.rs:45-46 | a character is one unit if it is in the BMP (the unit is its code point and is not a surrogate), otherwise a high then a low surrogate; a 0 unit occurs exactly for NUL |
| Utf16.EncodeWide | src/windows/com.rs:45-46 | `encode_wide` yields between n and 2n units for n characters, and contains a 0 unit exactly when the string contains NUL |
| Utf16.DecodeAfterChar | src/windows/com.rs:45-46 | one encoded character followed by any units decodes to that character followed by the decoding of those units |
| Utf16.DecodeEncode | src/windows/com.rs:45-46 | decoding the UTF-16 units of any string gives back the string |
| Utf16.EncodeWideInjective | src/windows/com.rs:45-46 | different strings have different wide encodings |
| Port.DeviceNameShape | src/windows/com.rs:43-47 | the CreateFileW name is the four units of `\\.\`, then the port name's units, then one 0 |
| Port.PrefixUnits | src/windows/com.rs:45 | `\\.\` encodes as 0x5C 0x5C 0x2E 0x5C |
| Port.DeviceNameTerminator | src/windows/com.rs:46-47 | the pushed 0 is the only 0 in the name exactly when the port name has no NUL |
| Port.DeviceNameInjective | src/windows/com.rs:43-47 | two port names that give the same device name are the same name |
| Port.Check | src/windows/com.rs:70-73 | a zero BOOL becomes `Err(last_os_error())` with the OS code, a non-zero one `Ok(())` |
| Port.Millis | src/windows/com.rs:251 | the millisecond count is the duration floored to whole milliseconds |
| Port.LowBitsOfU64Wrap | src/windows/com.rs:251-256 | wrapping at 2^64 (release-build u64 arithmetic) before the DWORD cast does not change the low 32 bits |
| Port.TimeoutsFor | src/windows/com.rs:251-259 | the COMMTIMEOUTS sent has the millisecond count modulo 2^32 (exact below 2^32 ms) as total read timeout; the other four fields are 0 |
| Port.MillisFromMillis | src/windows/com.rs:53 | the millisecond count of `from_millis(ms)` is ms |
| Port.DefaultTimeoutSent | src/windows/com.rs:53-61 | the default 100 ms timeout is sent as ReadTotalTimeoutConstant 100 |
| Port.TimeoutWrapsAtDwordRange | src/windows/com.rs:256 | 4294967.296 s is sent as a 0 ms timeout |
| Port.LineCommandsDistinct | src/windows/com.rs:269-285 | the four (line, level) commands of `set_rts`/`set_dtr` are pairwise distinct |
| Port.SingleBitTest | src/windows/com.rs:81 | for one-bit MS_* masks, the `status & pin != 0` test says whether that bit is set |
| Port.COMPort.constructor | src/windows/com.rs:56-59 | a port holds the given handle and timeout |
| Port.COMPort.Open | src/windows/com.rs:42-67 | CreateFileW receives `DeviceName(port)`; an invalid handle gives `Err` with the last error and no port; otherwise the 100 ms timeout is sent, and its failure is the result; on success a new port has that handle and `timeout` 100 ms |
| Port.COMPort.SetTimeout | src/windows/com.rs:246-267 | sends `TimeoutsFor(d)`; Ok exactly when SetCommTimeouts succeeds; the cached timeout that `timeout()` returns becomes d only on success and is otherwise unchanged |
| Port.COMPort.Read | src/windows/com.rs:191-205 | ReadFile is asked for `buf.len() as DWORD` bytes; a failure gives the OS error; success with 0 bytes gives TimedOut; otherwise Ok(n); never Ok(0) |
| Port.COMPort.Write | src/windows/com.rs:209-216 | WriteFile is offered the first `buf.len() as DWORD` bytes; failure gives the OS error, success the count the OS reports |
| Port.COMPort.Flush | src/windows/com.rs:218-223 | Ok exactly when FlushFileBuffers succeeds, else its OS error |
| Port.COMPort.ReadSettings | src/windows/com.rs:229-237 | a failure gives the OS error; on success a new COMSettings holds exactly the DCB GetCommState filled in |
| Port.COMPort.WriteSettings | src/windows/com.rs:239-244 | SetCommState receives the settings' DCB unchanged; Ok exactly on success, else the OS error |
| Port.COMPort.EscapeCommFunction | src/windows/com.rs:69-74 | Ok exactly when EscapeCommFunction with the given code succeeds, else the OS error |
| Port.COMPort.SetRts | src/windows/com.rs:269-276 | sends SETRTS for a high level and CLRRTS for a low one; the result is that call's |
| Port.COMPort.SetDtr | src/windows/com.rs:278-285 | sends SETDTR for a high level and CLRDTR for a low one; the result is that call's |
| Port.COMPort.ReadPin | src/windows/com.rs:76-83 | a GetCommModemStatus failure gives the OS error; otherwise whether the status has a bit of the mask set |
| Port.COMPort.ReadCts | src/windows/com.rs:287-289 | `read_pin` with MS_CTS_ON |
| Port.COMPort.ReadDsr | src/windows/com.rs:291-293 | `read_pin` with MS_DSR_ON |
| Port.COMPort.ReadRi | src/windows/com.rs:295-297 | `read_pin` with MS_RING_ON |
| Port.COMPort.ReadCd | src/windows/com.rs:299-301 | `read_pin` with MS_RLSD_ON |
| Flow.FlowView | src/windows/com.rs:360-370 | hardware exactly when an RTS/CTS bit is set; software exactly when no RTS/CTS bit and some XON/XOFF bit is set; none exactly when both groups are clear |
| Flow.FlowRoundTrip | src/windows/com.rs:415-430 | with disjoint non-empty groups, any mode once set reads back as itself, whatever the previous bits |
| Flow.NoneRoundTrip | src/windows/com.rs:417-420 | clearing both groups reads back as FlowNone |
| Flow.SoftwareRoundTrip | src/windows/com.rs:421-424 | setting only the XON/XOFF group reads back as FlowSoftware |
| Flow.SoftwareInto | src/windows/com.rs:421-424 | the software update keeps the bits outside both groups and sets the XON/XOFF group |
| Flow.SoftwareView | src/windows/com.rs:360-370 | no RTS/CTS bit and some XON/XOFF bit reads as FlowSoftware |
| Flow.SoftwareGroupBits | src/windows/com.rs:421-424 | after the software update no RTS/CTS bit is set and an XON/XOFF bit is |
| Flow.HardwareRoundTrip | src/windows/com.rs:425-428 | setting the RTS/CTS group reads back as FlowHardware |
| Flow.FlowBitsExact | src/windows/com.rs:415-430 | afterwards the two groups hold exactly the chosen mode's bits |
| Flow.FlowFrame | src/windows/com.rs:415-430 | every fBits bit outside the two groups is unchanged |
| Flow.FlowIntoOutside | src/windows/com.rs:415-430 | the result depends only on the previous bits outside the two groups |
| Flow.FlowLastWins | src/windows/com.rs:415-430 | setting a mode over any earlier mode equals setting it alone (no leakage from a prior mode) |
| Flow.FlowIdempotent | src/windows/com.rs:415-430 | setting a mode twice equals setting it once |
| Flow.FlowNoneSteps | src/windows/com.rs:418-419 | the two `&=` steps are the clear-both reference |
| Flow.FlowSoftwareSteps | src/windows/com.rs:422-423 | `&=` then `|=` is the software reference |
| Flow.FlowHardwareSteps | src/windows/com.rs:426-427 | `|=` then `&=` is the hardware reference, given disjoint groups |
| Settings.NamedBaudRoundTrip | src/windows/com.rs:312-386 | with ascending (hence distinct) CBR codes, as `Consts.Valid` assumes, every named rate written reads back as itself |
| Settings.OtherBaudRoundTrip | src/windows/com.rs:312-386 | with Win32's codes, `BaudOther(n)` reads back unchanged exactly when n < 2^32 and n is not one of the eleven named rates |
| Settings.OtherBaudRoundTripAnyCodes | src/windows/com.rs:312-386 | with any valid codes, `BaudOther(n)` with n < 2^32 and no CBR code reads back unchanged |
| Settings.BaudCodeRoundTrip | src/windows/com.rs:312-386 | with Win32's codes, writing back what `baud_rate` read restores every DWORD code |
| Settings.BaudCodeIsRate | src/windows/com.rs:372-386 | with Win32's codes, the code written is the rate modulo 2^32 |
| Settings.OtherBaudTruncates | src/windows/com.rs:385 | `BaudOther(2^32 + 9600)` reads back as Baud9600 |
| Settings.CharSizeRoundTrip | src/windows/com.rs:333-398 | every character size reads back as itself |
| Settings.CharSizeDecode | src/windows/com.rs:333-341 | `char_size` is None exactly for bytes outside 5..8 and faithful on the rest |
| Settings.ParityRoundTrip | src/windows/com.rs:343-406 | with distinct codes, every parity reads back as itself |
| Settings.ParityDecode | src/windows/com.rs:343-350 | `parity` is None exactly for codes other than the three, and faithful on the rest |
| Settings.StopBitsRoundTrip | src/windows/com.rs:352-413 | with distinct codes, every stop-bit setting reads back as itself |
| Settings.StopBitsDecode | src/windows/com.rs:352-358 | `stop_bits` is None exactly for codes other than the two, and faithful on the rest |
| Settings.COMSettings.constructor | src/windows/com.rs:234 | a settings value holds the given DCB |
| Settings.COMSettings.BaudRate | src/windows/com.rs:312-331 | never None; with Win32's codes the rate read encodes back to the stored code |
| Settings.COMSettings.CharSize | src/windows/com.rs:333-341 | None exactly when ByteSize is outside 5..8 |
| Settings.COMSettings.Parity | src/windows/com.rs:343-350 | None exactly when the code is none of NOPARITY, ODDPARITY, EVENPARITY |
| Settings.COMSettings.StopBits | src/windows/com.rs:352-358 | None exactly when the code is neither ONESTOPBIT nor TWOSTOPBITS |
| Settings.COMSettings.FlowControl | src/windows/com.rs:360-370 | never None |
| Settings.COMSettings.SetBaudRate | src/windows/com.rs:372-389 | always Ok; only BaudRate changes; a named rate reads back |
| Settings.COMSettings.SetCharSize | src/windows/com.rs:391-398 | only ByteSize changes, and the size reads back |
| Settings.COMSettings.SetParity | src/windows/com.rs:400-406 | only Parity changes, and the parity reads back |
| Settings.COMSettings.SetStopBits | src/windows/com.rs:408-413 | only StopBits changes, and the setting reads back |
| Settings.COMSettings.SetFlowControl | src/windows/com.rs:415-430 | the new fBits is the clear-then-set reference applied to the old one; no other DCB field changes; the mode reads back |

## Left out

- CreateFileW reads its name only up to the first 0 unit: the `createFile` parameter of `Port.COMPort.Open` is given the whole buffer, so a port name containing NUL (`"COM1\0x"`) is not identified with its prefix (`"COM1"`). `Port.DeviceNameInjective` is about buffers; `Port.DeviceNameTerminator` says when the pushed 0 is the first one.
- Drop (com.rs:174-180): CloseHandle on drop is not modelled, nor the CloseHandle that runs when `set_timeout` fails inside `open` and the new port is dropped. Resource release has no counterpart in the model.
- AsRawHandle (com.rs:182-188): it only exposes the handle.
- `driver_properties`, `tx_buffer`, `rx_buffer`, `bytes_in` and `bytes_out` (com.rs:85-163): these project driver-owned records through raw pointers. A doc-comment slip goes with them: `tx_buffer` returns dwCurrentTxQueue although its comment says RX.
- `purge_rxabort`, `purge_rxclear`, `purge_txabort` and `purge_txclear` (com.rs:112-136): left out with the same group of driver-record operations.
- `unsafe impl Send` (com.rs:25): concurrency is not modelled.
- The bytes that `read` stores into the buffer: only the count, and the request length, are modelled.
- CreateFileW's access, sharing and creation flags are not modelled, and neither is `DCB::new()`'s initial block. GetCommState is modelled as returning the block the driver fills in.
- `OsStr` values that are not valid Unicode (unpaired surrogates): port names are Dafny strings of Unicode scalar values.
- The overflow panic a debug build raises in `as_secs() * 1000`: the model follows release-build wrap-around.
- The ffi and error modules are not part of this model, and neither are the crate-level traits or the Unix backend. The constants are `Ffi.Consts` fields. The errors carry the raw OS code.
- COMSettings' `Copy`/`Clone` semantics: the model's COMSettings is a heap object, so copies are not modelled.
- Settings.COMSettings.SetFlowControl: requires the constants' two flow-control groups to be non-empty and disjoint, which the Win32 values meet (`Ffi.Win32Valid`). Without that requirement, hardware flow control could not read back.
- Settings.COMSettings.SetBaudRate, SetParity, SetStopBits: the read-back is stated under `Consts.Valid`, and for baud rates only for the named ones. Unnamed rates are covered by `Settings.OtherBaudRoundTrip`.
- Settings.COMSettings.FlowControl: its contract says only that the result is present. What the mode says about the bits is `Flow.FlowView`.
