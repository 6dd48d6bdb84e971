# Cepton SDK checked errors, in Dafny

This project models the checked-error discipline of the Cepton sensor SDK's
C++ header (`cepton_sdk.hpp`): the `SensorError` value that every fallible
SDK call returns, and the `SensorErrorWrapper` that adds context to an error
on its way up a call chain.

A `SensorError` holds an error code, a message and a hidden "used" flag. The
flag is mutable even through `const` access. Reading the error sets it, and
so do `ignore()`, the conversions, and being the source of a copy or a move.
Destroying a failure whose flag is still clear is a defect, reported by
`CEPTON_RUNTIME_ASSERT` ("Error not checked!"). So is constructing an error
whose code has no name ("Invalid error code!").

Files:

- `error_codes.dfy` (module `ErrorCodes`): the code type, `Success`, the C
  library's lookups as a `CodeTable`, and `get_error_data`.
- `sensor_error.dfy` (module `SensorErrors`): the defect log, `create_message`,
  the value semantics of the flag, and the `SensorError` class.
  - `ErrorState` is the value of an error: code, message and flag.
  - `Event` is what can happen to one error object during its life: it is
    checked, it is copied or moved from, or it is assigned to.
  - `Step` and `Run` give the effect of one event and of a sequence of events.
    The class's methods are proved against `Step`.
  - The lemmas about `Run` say which events discharge the obligation, and
    that checking never changes the contents.
- `error_wrapper.dfy` (module `ErrorWrappers`): `Wrapped`, the value
  `operator=` builds, and `Trail`, any number of nested wrappers. Also the
  `SensorErrorWrapper` class.

The C library is a parameter throughout. `CodeTable.name`, `isError` and
`isFault` stand for `cepton_get_error_code_name`, `cepton_is_error_code` and
`cepton_is_fault_code`, and nothing is assumed about them. `get_error` gets
the last recorded code and message from `cepton_sdk_get_error` as arguments.
A `DefectLog` object stands for the standard error stream that runtime
asserts print to.

Two details of the code decide what counts as checking:

- `is_error()` and `is_fault()` call `code()` (cepton_sdk.hpp:171-172), so
  they mark the error as checked too.
- A success starts with its flag clear and keeps the message it was given
  (cepton_sdk.hpp:135-138). It is harmless because the destructor never
  reports it (cepton_sdk.hpp:146) and `create_message` returns the empty
  text for it (cepton_sdk.hpp:177).

`SensorError` declares a destructor (cepton_sdk.hpp:145), so C++ gives it no
implicit move constructor or move assignment. `std::move` of an error, and
the assignments from temporaries in `SensorErrorWrapper::operator=`
(cepton_sdk.hpp:199, 203), use the implicit copy operations. These copy the
code, the message and the `what()` text, and leave the source's contents as
they were; only the `Used` member's copy operations set the source's flag.
`CopyOf` and `AssignFrom` model exactly this.

Two things about the code's behaviour follow from the proved contracts:

- Copy *assignment* never touches the destination's flag (`AssignFrom`).
  `SensorErrorWrapper::operator=` assigns a fresh temporary to its held error,
  so the held error keeps the flag it had before (`Assign`). A wrapper whose
  error was checked once, say by `if (wrapper)`, is never reported for a
  failure assigned to it later.
- Self-assignment `e = e` marks `e` as checked, because `Used::operator=`
  writes the flag of its argument.

## Model

| member | source | states |
|---|---|---|
| `ErrorCodes.GetErrorData` | cepton_ros/third_party/cepton_sdk/include/cepton_sdk.hpp:93-106 | the result is `nullptr` for every code, payload and size, the zero size included |
| `SensorErrors.DefectLog.Report` | cepton_ros/third_party/cepton_sdk/include/cepton_sdk.hpp:27-53 | a failed runtime assert appends exactly one report and drops none |
| `SensorErrors.CreateMessage` | cepton_ros/third_party/cepton_sdk/include/cepton_sdk.hpp:175-184 | empty for a success; for a failure the text starts with the code's name, is exactly the name iff the message is empty, and otherwise continues with `": "` and the message |
| `SensorErrors.CreateMessageEmpty` | cepton_ros/third_party/cepton_sdk/include/cepton_sdk.hpp:175-184 | when every failure code has a name, the text is empty exactly for a success (both directions) |
| `SensorErrors.CreateMessageInjective` | cepton_ros/third_party/cepton_sdk/include/cepton_sdk.hpp:175-184 | for a failure, different messages give different texts, so `what()` loses nothing of the message |
| `SensorErrors.RunAppend` | cepton_ros/third_party/cepton_sdk/include/cepton_sdk.hpp:116-131 | the effect of a life's events composes: running `a + b` is running `a`, then `b` |
| `SensorErrors.RunUsed` | cepton_ros/third_party/cepton_sdk/include/cepton_sdk.hpp:116-172 | after any sequence of events the flag is set iff it was set at the start or some event other than being assigned to occurred; once set it stays set |
| `SensorErrors.RunKeepsContents` | cepton_ros/third_party/cepton_sdk/include/cepton_sdk.hpp:149-172 | checking, ignoring and being copied or moved from never change the code or the message, over any number of events |
| `SensorErrors.LastAssignmentWins` | cepton_ros/third_party/cepton_sdk/include/cepton_sdk.hpp:116-131 | after an assignment, followed only by checks and copies, the code and message are the assigned source's |
| `SensorErrors.ReportsAfterRun` | cepton_ros/third_party/cepton_sdk/include/cepton_sdk.hpp:145-147 | destruction at the end of a life reports iff the final code is a failure, the flag was clear at the start, and every event was an assignment into the object |
| `SensorErrors.DischargedNeverReports` | cepton_ros/third_party/cepton_sdk/include/cepton_sdk.hpp:145-172 | an object that was checked, ignored or copied from at any point is safe to destroy, whatever its code |
| `SensorErrors.SensorError.constructor` | cepton_ros/third_party/cepton_sdk/include/cepton_sdk.hpp:135-141 | the new error holds the given code and message, unchecked, and its `what()` text is `create_message` of them; "Invalid error code!" is reported exactly when the code has an empty name |
| `SensorErrors.SensorError.FromCode` | cepton_ros/third_party/cepton_sdk/include/cepton_sdk.hpp:142 | as the constructor, with an empty message |
| `SensorErrors.SensorError.Default` | cepton_ros/third_party/cepton_sdk/include/cepton_sdk.hpp:143 | a success with an empty message and an empty `what()` text, unchecked; reports only if the success code itself has no name |
| `SensorErrors.SensorError.CopyOf` | cepton_ros/third_party/cepton_sdk/include/cepton_sdk.hpp:113-147 | copy construction, also reached by `std::move`: the new error has the source's code, message and `what()` text and a clear flag; the source's flag is set and its contents are unchanged |
| `SensorErrors.SensorError.AssignFrom` | cepton_ros/third_party/cepton_sdk/include/cepton_sdk.hpp:116-131 | copy assignment, also reached by a move or a temporary: the destination takes the code, message and `what()` text and keeps its own flag, the source's flag is set; self-assignment only sets the flag |
| `SensorErrors.SensorError.Ignore` | cepton_ros/third_party/cepton_sdk/include/cepton_sdk.hpp:150 | the flag is set; code and message are unchanged |
| `SensorErrors.SensorError.Msg` | cepton_ros/third_party/cepton_sdk/include/cepton_sdk.hpp:153-156 | returns the message; the flag is set; code and message are unchanged |
| `SensorErrors.SensorError.Code` | cepton_ros/third_party/cepton_sdk/include/cepton_sdk.hpp:159-164 | `code()` and `operator SensorErrorCode`: return the code; the flag is set; code and message are unchanged |
| `SensorErrors.SensorError.AsBool` | cepton_ros/third_party/cepton_sdk/include/cepton_sdk.hpp:166-167 | true iff the code is not `CEPTON_SUCCESS`; the flag is set |
| `SensorErrors.SensorError.Name` | cepton_ros/third_party/cepton_sdk/include/cepton_sdk.hpp:169 | returns the C library's name of the code; the flag is set |
| `SensorErrors.SensorError.IsError` | cepton_ros/third_party/cepton_sdk/include/cepton_sdk.hpp:171 | returns the C library's error classification of the code; the flag is set |
| `SensorErrors.SensorError.IsFault` | cepton_ros/third_party/cepton_sdk/include/cepton_sdk.hpp:172 | returns the C library's fault classification of the code; the flag is set |
| `SensorErrors.SensorError.Destroy` | cepton_ros/third_party/cepton_sdk/include/cepton_sdk.hpp:145-147 | "Error not checked!" is reported iff the code is a failure and the flag is clear; a success never reports, whatever its flag |
| `SensorErrors.GetError` | cepton_ros/third_party/cepton_sdk/include/cepton_sdk.hpp:220-224 | a fresh unchecked error with the C library's last code and message, constructed with the constructor's name check |
| `ErrorWrappers.Wrapped` | cepton_ros/third_party/cepton_sdk/include/cepton_sdk.hpp:197-205 | the value assignment builds: the inner code unchanged; for a success an empty message; for a failure exactly the context, then `"\n\t"`, then the inner message |
| `ErrorWrappers.TrailKeepsCode` | cepton_ros/third_party/cepton_sdk/include/cepton_sdk.hpp:192-205 | through any number of nested wrappers the original code comes out unchanged |
| `ErrorWrappers.TrailMessage` | cepton_ros/third_party/cepton_sdk/include/cepton_sdk.hpp:192-205 | a failure comes out of nested wrappers with every context, outermost first and each followed by `"\n\t"`, in front of its original message |
| `ErrorWrappers.TrailOfSuccess` | cepton_ros/third_party/cepton_sdk/include/cepton_sdk.hpp:197-201 | a success comes out of any non-empty chain of wrappers as a success with an empty message |
| `ErrorWrappers.SensorErrorWrapper.constructor` | cepton_ros/third_party/cepton_sdk/include/cepton_sdk.hpp:195 | the wrapper keeps the context and holds a fresh, unchecked default success |
| `ErrorWrappers.SensorErrorWrapper.Assign` | cepton_ros/third_party/cepton_sdk/include/cepton_sdk.hpp:197-205 | the same held error object gets `Wrapped(context, inner)`'s code and message and keeps its flag; the inner error ends up checked with its contents unchanged; the context is unchanged; only the temporary's name check can report |
| `ErrorWrappers.SensorErrorWrapper.AsBool` | cepton_ros/third_party/cepton_sdk/include/cepton_sdk.hpp:207 | true iff the held error is a failure; marks the held error checked |
| `ErrorWrappers.SensorErrorWrapper.AsError` | cepton_ros/third_party/cepton_sdk/include/cepton_sdk.hpp:208 | gives the held error object itself, without checking it |
| `ErrorWrappers.SensorErrorWrapper.Destroy` | cepton_ros/third_party/cepton_sdk/include/cepton_sdk.hpp:210-212 | destroying the wrapper reports iff its held error is an unchecked failure |

## Left out

- `throw_runtime_assert`: the text it prints (file, line, condition) and the `std::terminate()` of builds with exceptions enabled are I/O and process termination. A report is only an entry in a `DefectLog`, and the model always carries on, as a build without exceptions does.
- `get_error_code_name`, `is_error_code`, `is_fault_code`: these are foreign calls into the C library. They are left uninterpreted (the `CodeTable` parameter). So the model does not know that the success, error and fault codes are disjoint, nor which codes have names.
- The `std::runtime_error` base is not a separate field: `What()` is `CreateMessage` of the current code and message.
- `get_error` also clears the error the C library recorded. That happens inside the C library; the model only receives the recorded code and message.
- `SensorErrors.SensorError.AssignFrom` and `ErrorWrappers.SensorErrorWrapper.Assign` require both errors to share one `CodeTable`. That stands for the process's one C library, not a demand of the source.
- Message strings come from `const char *`, so the C++ code cuts them at an embedded NUL character. The model's strings have no such cut.
- The C-function pass-throughs have no logic of their own: each calls a C function, then returns `get_error()`. These are initialize/deinitialize, control flags, port, frame options, listen/unlisten, the sensor lookups, `clear`, `mock_network_receive`, and every `capture_replay` operation. The replay state machine, seek bounds and looping live in the C library, which is not part of this model.
- `capture_replay::get_time` and `seek_relative` are single-precision float arithmetic on values the C library returns.
- Callbacks, threads and the mutex behind the C API are concurrency outside the error type.
- Version getters and type aliases carry no logic.
