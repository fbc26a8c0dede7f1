# onnxruntime-rs: status translation and the `MemoryInfo` wrapper, in Dafny

This project models two pieces of the safe Rust layer over the ONNX Runtime C API.

1. **Status translation** (`onnxruntime/src/error.rs`). Every C entry point returns an
   `OrtStatus` pointer. Null means success. A non-null status carries a message, read
   through the dispatch table's `GetErrorMessage` and decoded by the crate's
   `char_p_to_string`. `status_to_result` turns the status into `Result<(), OrtApiError>`:
   `Ok(())`, `Msg(text)` or `IntoStringError(e)`. `call_ort` runs one foreign call and
   translates the status it returns. The error taxonomy (`OrtError`, `OrtApiError`,
   `OrtDownloadError`, `NonMatchingDimensionsError`) is modelled with the exact text of
   each `#[error(...)]` template.
2. **`MemoryInfo`** (`onnxruntime/src/memory.rs`). It owns one foreign memory-info handle.
   `new` starts from a null out-pointer and calls `CreateCpuMemoryInfo`. A failed status
   becomes `OrtError::CreateCpuMemoryInfo`. On success the handle must be non-null.
   `drop` asserts that the pointer is non-null, calls `ReleaseMemoryInfo` once and then
   nulls the pointer.

Files:

- `prelude.dfy` holds `Option`, `Result`, `byte` and the fixed-width integer ranges.
- `sys.dfy` models the foreign library. `OrtStatus` is `StatusNull | StatusFail(message)`.
  `OrtApi` is the dispatch table: a presence flag for each function pointer the core
  unwraps, plus the library state it acts on. `OrtRuntime` is that state. It has ghost
  logs of every create and release call, and sets of handed-out and live handles. Its
  invariant says that a handle is released at most once, and only after it was handed out.
- `fmt.dfy` models the text Rust prints for the interpolated fields. That covers
  `{}`/`{:?}` of integers, derived `Debug` of `Vec`s and `Option`s, and `{:?}` of a
  path. Each renderer has a parser and a round-trip lemma.
- `error.dfy` holds the taxonomy, its texts, the status translation and `call_ort`.
- `memory.dfy` holds the `MemoryInfo` class and the crate's constructor/destructor test.

Notes on the source:

- `CreateCpuMemoryInfo` displays as "Failed to get dimensions: {0}", the same template as
  `GetDimensions` (error.rs:54-58). The model keeps this text. A lemma shows that no
  message tells the two variants apart.
- `OrtError::NonMatchingDimensions` prints its payload with `{0:?}`. The user therefore
  sees the derived `Debug` form (`InputsCount { inference_input_count: 2, ... }`), not the
  payload's own `#[error]` text. Both texts are modelled.
- The code names the undecodable-message variant `IntoStringError` and the missing-file
  variant `FileDoesNotExists`, with the text "does not exists"; the model uses the
  code's names and text.
- The `unreachable!()` arm of the conversion (error.rs:195) is a precondition here
  (`Translatable`). The decoder may only fail with `StringConversion(IntoStringError(_))`.
- The `assert_ne!` after a successful create (memory.rs:29) is a Dafny `assert`. The
  foreign contract of `OrtRuntime.CreateCpuMemoryInfo` discharges it. The one in `drop`
  (memory.rs:41) is part of `Drop`'s precondition.

## Model

| member | source | states |
|---|---|---|
| `Sys.GetErrorMessage` | onnxruntime/src/error.rs:188 | the accessor is defined only on a non-null status and returns the message that status carries |
| `Error.NewStatusWrapper` | onnxruntime/src/error.rs:172-175 | the wrapper keeps the status unchanged and a copy of the table |
| `Error.IntoResult` | onnxruntime/src/error.rs:183-200 | Ok exactly when the status is null. For a non-null status: `Msg` exactly when the decoder succeeds, carrying exactly the decoded text. Otherwise `IntoStringError`, carrying the decoder's own error and never a `Msg`. The precondition rules out every other decoder failure (the `unreachable!` arm) and requires the `GetErrorMessage` pointer only for a non-null status |
| `Error.StatusToResult` | onnxruntime/src/error.rs:202-208 | equals the conversion of the wrapper built from the same table and status; Ok exactly when the status is null |
| `Error.NullStatusIsOk` | onnxruntime/src/error.rs:185-186 | a null status is `Ok(())` for every table and decoder, including a table without `GetErrorMessage`: the accessor is not consulted |
| `Error.CallOrt` | onnxruntime/src/error.rs:210-216 | the world after is the one a single run of the closure leaves, and the result is `status_to_result` of the status that run returned |
| `Error.ApiErrorTextDeterminesMessage` | onnxruntime/src/error.rs:136-143 | equal `OrtApiError` texts mean both are `Msg` or neither is, and equal `Msg` texts mean equal messages: the message is shown verbatim, while the undecodable variant's text is fixed |
| `Error.ApiCallTextKeepsMessage` | onnxruntime/src/error.rs:20-79 | for the variants that tag a foreign call: two errors shown with the same operation prefix and the same text agree on whether they carry a `Msg` and, if so, on the message. So the API error is shown in full after the prefix |
| `Error.CreateCpuMemoryInfoShowsAsGetDimensions` | onnxruntime/src/error.rs:53-58 | a `CreateCpuMemoryInfo` text equals a `GetDimensions` text exactly when the inner API error texts are equal: both use the "Failed to get dimensions: " prefix |
| `Error.CopyErrorTextDeterminesCounts` | onnxruntime/src/error.rs:155-162 | two `CopyError` values with the same text have the same `expected` and `io`: the message shows both counts |
| `Error.DimensionsTextDeterminesError` | onnxruntime/src/error.rs:118-131 | two `InputsCount` errors with the same display text agree on both counts and both shape lists |
| `Error.DimensionsDebugDeterminesError` | onnxruntime/src/error.rs:116-131 | the same for the derived `Debug` text of `InputsCount` |
| `Error.NonMatchingDimensionsTextDeterminesError` | onnxruntime/src/error.rs:85-87 | the `NonMatchingDimensions` text determines its whole payload |
| `Error.FileDoesNotExistsTextDeterminesPath` | onnxruntime/src/error.rs:88-93 | the `FileDoesNotExists` text determines the path it was given |
| `Fmt.ParseDecimalRoundTrip` | onnxruntime/src/error.rs:156 | a printed integer (`{expected}`, `{io}`) is read back exactly and leaves the text that follows |
| `Fmt.ParseValueRoundTrip` | onnxruntime/src/error.rs:120 | a value printed with derived `Debug` (`{inference_input:?}`, `{model_input:?}`) is read back exactly and leaves the text that follows |
| `Fmt.ParseDebugStrRoundTrip` | onnxruntime/src/error.rs:89 | a path printed with `{:?}` is read back exactly and leaves the text that follows |
| `Error.OrtErrorText` | onnxruntime/src/error.rs:17-112 | the text of every `OrtError` template. A variant that tags a foreign call shows its operation prefix and then the full text of an API error. `ApiCallTextKeepsMessage`, `NonMatchingDimensionsTextDeterminesError` and `FileDoesNotExistsTextDeterminesPath` invert it |
| `Error.ApiCallErrorText` | onnxruntime/src/error.rs:24-79 | "Failed to <operation>: {0}": the operation prefix, then the API error's text, which opens with "Error calling ONNX Runtime C function". `ApiCallTextKeepsMessage` inverts it |
| `Error.ApiCallPrefix` | onnxruntime/src/error.rs:24-79 | each prefix opens with "Failed to " and ends with ": ". `CreateCpuMemoryInfoShowsAsGetDimensions` pins down the one prefix two variants share |
| `Error.ApiErrorText` | onnxruntime/src/error.rs:136-143 | both texts open with "Error calling ONNX Runtime C function". A `Msg` text is that prefix plus ": " and then the message verbatim. `ApiErrorTextDeterminesMessage` inverts it |
| `Error.DownloadErrorText` | onnxruntime/src/error.rs:148-163 | every download-error text opens with "Error ". `CopyErrorTextDeterminesCounts` shows that the copy error keeps both counts |
| `Error.DimensionsText` | onnxruntime/src/error.rs:120 | the `InputsCount` text opens with "Non-matching number of inputs: ". `DimensionsTextDeterminesError` inverts it |
| `Error.DimensionsDebug` | onnxruntime/src/error.rs:116-131 | the derived `Debug` text opens with "InputsCount { inference_input_count: ". `DimensionsDebugDeterminesError` inverts it |
| `Fmt.Decimal` | onnxruntime/src/error.rs:156 | `{expected}`/`{io}` of an integer: non-empty and all decimal digits, and a single digit exactly for numbers below ten. `ParseDecimalRoundTrip` and `DecimalInjective` invert it |
| `Fmt.Debug` | onnxruntime/src/error.rs:120 | derived `Debug` of integers, `Option`s and `Vec`s: never empty and never opens with "]". `ParseValueRoundTrip` inverts it |
| `Fmt.DebugStr` | onnxruntime/src/error.rs:89-95 | `{:?}` of a path: opens and closes with a double quote. `ParseDebugStrRoundTrip` inverts it |
| `Sys.OrtRuntime.CreateCpuMemoryInfo` | onnxruntime/src/memory.rs:21-27 | the foreign constructor's contract. On success it returns a null status and writes a fresh non-null handle through the out-pointer. On failure it returns the message and leaves the out-pointer as it was. Each call is logged with both enumeration values and the handle the out-pointer held when the call received it |
| `Sys.OrtRuntime.ReleaseMemoryInfo` | onnxruntime/src/memory.rs:43 | appends the handle to the release log and takes it out of the live set. The library invariant holds afterwards, so the handle has been released exactly once |
| `Memory.MemoryInfo.FromParts` | onnxruntime/src/memory.rs:31-33 | the wrapper holds the handle the constructor wrote and the table it was given |
| `Memory.MemoryInfo.New` | onnxruntime/src/memory.rs:16-34 | exactly one foreign create call is logged, and it received the allocator and memory type unchanged and a null out-pointer. A failure status gives `Err(CreateCpuMemoryInfo(e))`, where `e` is `status_to_result` of that status; there is no wrapper, no new handle and no release. Success gives a fresh wrapper holding a new, live, non-null handle and the same table. The release log is unchanged either way |
| `Memory.MemoryInfo.Drop` | onnxruntime/src/memory.rs:37-47 | requires a valid (non-null, live) pointer and the release function. Releases the held handle once: the log gains exactly that entry, and it now occurs there exactly once. Afterwards the pointer is null, so a second drop fails its precondition |
| `Memory.ConstructThenDrop` | onnxruntime/src/memory.rs:54-58 | construct, unwrap and drop. One create call is logged, with the arguments and a null out-pointer. The handle is new and is the only one added to the handed-out set. The release log gains exactly one entry, for that handle, which occurs there exactly once. The live set and the library's success setting are as before, so the test can run again |
| `Memory.RepeatConstructThenDrop` | onnxruntime/src/memory.rs:54-58 | `n` rounds of the test: `n` create calls, each with a null out-pointer. The release log gains exactly the `n` new handles, in order, each not handed out before and each released exactly once, so all are distinct allocations. The live set is unchanged |

## Left out

- The other resource wrappers (environment, session, allocator, tensor) and the order in which they are released are not part of this model. Their files are not among the modelled sources.
- `char_p_to_string` lives in the crate root, which is not part of this model. It is the `Decoder` parameter: any function from C-string bytes to `Result<string, OrtError>`.
- Raw pointers and `unsafe`: handles are `NullPtr | Ptr(addr)`, and a status is a value that carries its message.
- `Option::unwrap()` on dispatch-table entries: an absent entry is a fatal configuration error. It is modelled as a precondition that the entry is present.
- The translation never releases the status object it reads, and neither does the source. The model does not track status objects.
- `AllocatorType`/`MemType` and their `.into()` conversions are defined outside the modelled files. `New` takes the C enumeration values and passes them through unchanged.
- The foreign library's choice between success and failure of `CreateCpuMemoryInfo` is set by the runtime field `createFailure`, not computed from the arguments.
- `tracing` instrumentation and `debug!` logging: side effects only.
- The `thiserror` derive, `#[non_exhaustive]` and the `#[from]` conversions.
- `io::Error` and `NulError` are known only by their display text (`OpaqueError`). `std::ffi::IntoStringError` is known only by its bytes.
- The `dynamic-loading`-only `DynamicLibraryLoadingError` variant.
- Fmt.DebugStr: escapes `"`, `'`, `\`, newline, carriage return, tab and NUL as `OsStr`'s `Debug` does. The `\u{...}` escapes Rust uses for non-printable and grapheme-extending characters (such as a combining accent) are not modelled, and a path is a string of characters (no non-UTF-8 bytes).
- Sys.OrtRuntime.CreateCpuMemoryInfo: a handle is an allocation's identity, not its address. The modelled library never returns a value twice, while the real one may reuse a released address. The release counts in `OrtRuntime.Valid()` and the distinct handles of `RepeatConstructThenDrop` are per allocation.
- `usize` is taken to be 64 bits wide.
- The crate's test calls `MemoryInfo::new` with two arguments against the three-parameter signature. `ConstructThenDrop` follows its evident intent with all three.
- Thread safety: nothing in these files is concurrent.
