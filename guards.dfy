/** What an intercepted attribute write or delete turns into, shared by the
    three versions of the engine. */
module Guards {
  import opened Python

  /** Allow: the write (or delete) goes through; Drop: it is silently ignored;
      Reject: it is refused by raising `error`. */
  datatype Decision = Allow | Drop | Reject(error: Error)

  /** How a refused write ends: dropped in quiet mode, a ValueError otherwise. */
  function Refusal(quiet: bool): (d: Decision)
    ensures d != Allow
    ensures d == Drop <==> quiet
    ensures !quiet ==> d == Reject(ValueError)
  {
    if quiet then Drop else Reject(ValueError)
  }

  /** `getattr(self, name, None)`: a missing attribute reads as None. */
  function CurrentValue(attrs: map<string, Value>, name: string): Value {
    if name in attrs then attrs[name] else VNone
  }

  /** The attributes after a write of `value` to `name` that was decided `d`:
      only an allowed write reaches the underlying `__setattr__`. */
  function Stored(attrs: map<string, Value>, name: string, value: Value, d: Decision): map<string, Value> {
    if d == Allow then attrs[name := value] else attrs
  }

  /** The exception a decision raises, if any. */
  function Raised(d: Decision): Option<Error> {
    if d.Reject? then Some(d.error) else None
  }
}
