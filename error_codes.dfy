/** Error codes of the Cepton sensor SDK and the C library's lookups on them.

    The code set itself, its names and its error/fault classification live in
    the SDK's C library, which is not part of this model.  The model receives
    them as a `CodeTable`: three total functions that the C++ header forwards
    to without adding logic of its own.
 */
module ErrorCodes {

  /** `CeptonSensorErrorCode`: a C enumeration, modelled as an integer. */
  type SensorErrorCode = int

  /** `CEPTON_SUCCESS`, the one code that is not a failure. */
  const Success: SensorErrorCode := 0

  /** The C library's view of the codes:
      - `name(c)` is `cepton_get_error_code_name(c)`, the empty string when `c` is invalid;
      - `isError(c)` is `cepton_is_error_code(c)`, a name of the form `CEPTON_ERROR_*`;
      - `isFault(c)` is `cepton_is_fault_code(c)`, a name of the form `CEPTON_FAULT_*`. */
  datatype CodeTable = CodeTable(
    name: SensorErrorCode -> string,
    isError: SensorErrorCode -> bool,
    isFault: SensorErrorCode -> bool)

  /** A null-or-pointer value: `Null` is `nullptr`. */
  datatype Pointer<T> = Null | Ptr(target: T)

  /** `get_error_data<T>`: checks the type of the data attached to an error
      callback.  No code has typed data yet, so every input yields `nullptr`,
      the empty payload as well as a non-empty one. */
  function GetErrorData<T>(code: SensorErrorCode, data: Pointer<T>, size: nat): (r: Pointer<T>)
    ensures r == Null
  {
    // An empty payload is rejected first; no code has a typed payload to check against.
    Null
  }
}
