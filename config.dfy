/** Defaults and the single validator of the analyser's configuration. */
module Config {
  import opened Wrappers

  const DefaultLinesPerChunk: nat := 1000
  const DefaultMaxWorkers: nat := 4
  /** The file patterns used when none are given. */
  const LogPatterns: seq<string> := ["*.log"]

  /**
    A configuration value as Python hands it over: an `int`, a `bool` (a subclass of `int`,
    so `True` counts as 1) or anything else, shown by its `repr`.
   */
  datatype PyValue = PyInt(i: int) | PyBool(b: bool) | PyOther(repr: string)

  /** `isinstance(value, int)` */
  predicate IsInt(v: PyValue) {
    v.PyInt? || v.PyBool?
  }

  /** The integer an `int` (or `bool`) value stands for. */
  function IntValue(v: PyValue): int
    requires IsInt(v)
  {
    if v.PyInt? then v.i else if v.b then 1 else 0
  }

  /** The `ValueError`s raised by the validator, naming the offending setting. */
  datatype ValueError = NotAnInteger(name: string) | TooSmall(name: string)

  /**
    `validate_positive_int(name, value)`: an integer of at least 1 is returned unchanged;
    a non-integer and an integer below 1 each raise their own `ValueError`.
   */
  function ValidatePositiveInt(name: string, value: PyValue): (r: Result<PyValue, ValueError>)
    ensures r.Ok? <==> IsInt(value) && IntValue(value) >= 1
    ensures r.Ok? ==> r.value == value
    ensures !IsInt(value) ==> r == Err(NotAnInteger(name))
    ensures IsInt(value) && IntValue(value) < 1 ==> r == Err(TooSmall(name))
  {
    if !IsInt(value) then Err(NotAnInteger(name))
    else if IntValue(value) < 1 then Err(TooSmall(name))
    else Ok(value)
  }
}
