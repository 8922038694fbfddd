/** The middle engine (immutablefield/models.py): a list of immutable fields and
    an optional sign-off field, read from the model's `_meta` on every write;
    the option types are only checked when an instance is constructed. */
module ImmutableField {
  import opened Python
  import opened Guards

  const ImmutableOption := "immutable"
  const SignOffFieldOption := "immutable_sign_off_field"
  const QuietOption := "immutable_quiet"

  /** `getattr(self._meta, name, default)`. */
  function MetaOption(meta: map<string, Value>, name: string, default: Value): Value {
    if name in meta then meta[name] else default
  }

  /** The quiet flag a write consults; `quietSetting` is the IMMUTABLE_QUIET setting. */
  function Quiet(meta: map<string, Value>, quietSetting: Value): Value {
    MetaOption(meta, QuietOption, quietSetting)
  }

  /** The checks `__init__` makes once the instance is populated: `immutable`
      must be a list or None, the sign-off field a string or None, and quiet a
      bool; the first that fails raises TypeError. */
  function OptionsError(meta: map<string, Value>, quietSetting: Value): (r: Option<Error>)
    ensures r.None? <==>
              && (MetaOption(meta, ImmutableOption, VNone).VList? || MetaOption(meta, ImmutableOption, VNone).VNone?)
              && (MetaOption(meta, SignOffFieldOption, VNone).VStr? || MetaOption(meta, SignOffFieldOption, VNone).VNone?)
              && Quiet(meta, quietSetting).VBool?
    ensures r.Some? ==> r.value == TypeError
    ensures meta == map[] ==> (r.None? <==> quietSetting.VBool?)
  {
    var immutable := MetaOption(meta, ImmutableOption, VNone);
    var signOff := MetaOption(meta, SignOffFieldOption, VNone);
    if !(immutable.VList? || immutable.VNone?) then Some(TypeError)
    else if !(signOff.VStr? || signOff.VNone?) then Some(TypeError)
    else if !Quiet(meta, quietSetting).VBool? then Some(TypeError)
    else None
  }

  /** `can_change_field`: a field outside the immutable list can always change;
      a listed field never can without a sign-off field, and otherwise only
      while the sign-off attribute is absent or false. `in` on a value that is
      not a list or a string, or a sign-off field that is not a string,
      raises TypeError. */
  function CanChangeField(meta: map<string, Value>, attrs: map<string, Value>, name: string): (r: Result<bool>)
    ensures r.Failure? ==> r.error == TypeError
    ensures Contains(MetaOption(meta, ImmutableOption, VList([])), name).Failure? ==> r.Failure?
    ensures Contains(MetaOption(meta, ImmutableOption, VList([])), name) == Success(false) ==> r == Success(true)
    ensures var signOff := MetaOption(meta, SignOffFieldOption, VNone);
            Contains(MetaOption(meta, ImmutableOption, VList([])), name) == Success(true) ==>
              && (signOff == VNone ==> r == Success(false))
              && (signOff.VStr? ==> r == Success(signOff.s !in attrs || !Truthy(attrs[signOff.s])))
              && (!(signOff.VStr? || signOff.VNone?) ==> r == Failure(TypeError))
  {
    match Contains(MetaOption(meta, ImmutableOption, VList([])), name)
    case Failure(e) => Failure(e)
    case Success(listed) =>
      if !listed then Success(true)
      else
        var signOff := MetaOption(meta, SignOffFieldOption, VNone);
        if signOff == VNone then Success(false)
        else if !signOff.VStr? then Failure(TypeError)
        else if signOff.s in attrs then Success(!Truthy(attrs[signOff.s]))
        else Success(true)
  }

  /** `__setattr__`: an exception from `can_change_field` propagates; otherwise
      a write is refused exactly when the field cannot change, its current
      value is not empty and the new value differs from it, and a refusal is
      a drop when quiet and a ValueError otherwise. */
  function WriteDecision(meta: map<string, Value>, quietSetting: Value, attrs: map<string, Value>,
                         name: string, value: Value): (r: Decision)
    ensures CanChangeField(meta, attrs, name).Failure? ==> r == Reject(CanChangeField(meta, attrs, name).error)
    ensures CanChangeField(meta, attrs, name).Success? ==>
              && (r != Allow <==>
                    && !CanChangeField(meta, attrs, name).value
                    && !IsEmpty(CurrentValue(attrs, name))
                    && !PyEq(CurrentValue(attrs, name), value))
              && (r != Allow ==> r == Refusal(Truthy(Quiet(meta, quietSetting))))
  {
    match CanChangeField(meta, attrs, name)
    case Failure(e) => Reject(e)
    case Success(changeable) =>
      var current := CurrentValue(attrs, name);
      if !changeable && !IsEmpty(current) && !PyEq(current, value) then Refusal(Truthy(Quiet(meta, quietSetting)))
      else Allow
  }

  /** For options that pass the constructor's checks, a write is refused exactly
      when the field cannot change, holds a non-empty value and the new value
      differs; a refusal is a silent drop when quiet and a ValueError otherwise. */
  lemma WriteRefusedIff(meta: map<string, Value>, quietSetting: Value, attrs: map<string, Value>,
                        name: string, value: Value)
    requires MetaOption(meta, ImmutableOption, VList([])).VList?
    requires OptionsError(meta, quietSetting).None?
    ensures CanChangeField(meta, attrs, name).Success?
    ensures var d := WriteDecision(meta, quietSetting, attrs, name, value);
            var current := CurrentValue(attrs, name);
            && (d != Allow <==> !CanChangeField(meta, attrs, name).value && !IsEmpty(current) && !PyEq(current, value))
            && (d != Allow ==> d == Refusal(Quiet(meta, quietSetting).b))
  {
  }

  /** An immutable field that is still empty can be populated once even after
      sign-off (as when the sign-off flag is set first during construction); a
      later, different value is then refused. */
  lemma PopulatedOnceThenFixed(meta: map<string, Value>, quietSetting: Value, attrs: map<string, Value>,
                               name: string, first: Value, later: Value)
    requires CanChangeField(meta, attrs, name) == Success(false)
    requires MetaOption(meta, SignOffFieldOption, VNone) != VStr(name)
    requires IsEmpty(CurrentValue(attrs, name))
    requires !IsEmpty(first) && !PyEq(first, later)
    ensures WriteDecision(meta, quietSetting, attrs, name, first) == Allow
    ensures WriteDecision(meta, quietSetting, attrs[name := first], name, later) ==
              Refusal(Truthy(Quiet(meta, quietSetting)))
  {
    var after := attrs[name := first];
    var signOff := MetaOption(meta, SignOffFieldOption, VNone);
    if signOff.VStr? && signOff.s in attrs {
      assert after[signOff.s] == attrs[signOff.s];
    }
    assert CanChangeField(meta, after, name) == Success(false);
  }

  /** In this engine the sign-off is not itself protected unless it is listed:
      when the sign-off field is not in the immutable list, writing a false
      value to it is always stored, and every listed field can change again. */
  lemma SignOffRevocable(meta: map<string, Value>, quietSetting: Value, attrs: map<string, Value>,
                         field: string, off: Value, name: string)
    requires MetaOption(meta, ImmutableOption, VList([])).VList?
    requires MetaOption(meta, SignOffFieldOption, VNone) == VStr(field)
    requires field !in MetaOption(meta, ImmutableOption, VList([])).items
    requires !Truthy(off)
    ensures WriteDecision(meta, quietSetting, attrs, field, off) == Allow
    ensures CanChangeField(meta, attrs[field := off], name) == Success(true)
  {
  }

  /** `immutable = None` would pass the check on `immutable`, yet every write
      consults `name in None` and raises TypeError. */
  lemma NoneListAcceptedButEveryWriteFails(meta: map<string, Value>, quietSetting: Value,
                                           attrs: map<string, Value>, name: string, value: Value)
    requires ImmutableOption in meta && meta[ImmutableOption] == VNone
    requires OptionsError(meta, quietSetting).None?
    ensures WriteDecision(meta, quietSetting, attrs, name, value) == Reject(TypeError)
  {
  }

  /** So no instance of such a model is ever built: the first assignment that
      Django's constructor makes raises TypeError before the checks are reached,
      and nothing is stored. */
  lemma NoneListBlocksConstruction(meta: map<string, Value>, quietSetting: Value,
                                   attrs: map<string, Value>, assignments: seq<(string, Value)>)
    requires ImmutableOption in meta && meta[ImmutableOption] == VNone
    requires assignments != []
    ensures Initialised(meta, quietSetting, attrs, assignments) == (attrs, Some(TypeError))
  {
  }

  /** Some assignment in `assignments` is to `name`. */
  predicate Assigns(assignments: seq<(string, Value)>, name: string) {
    exists i | 0 <= i < |assignments| :: assignments[i].0 == name
  }

  /** Django's `Model.__init__` assigning `assignments` in order through
      `__setattr__`; the first exception aborts construction. Nothing but the
      assigned names changes, the exception is one the guard raises, and when
      none is raised every assigned name is present afterwards. */
  function Populated(meta: map<string, Value>, quietSetting: Value, attrs: map<string, Value>,
                     assignments: seq<(string, Value)>): (r: (map<string, Value>, Option<Error>))
    ensures r.1.Some? ==> r.1.value == TypeError || r.1.value == ValueError
    ensures attrs.Keys <= r.0.Keys
    ensures forall k :: k in r.0 ==> k in attrs || Assigns(assignments, k)
    ensures forall k :: k in attrs && !Assigns(assignments, k) ==> r.0[k] == attrs[k]
    ensures r.1.None? ==> forall k :: Assigns(assignments, k) ==> k in r.0
    decreases |assignments|
  {
    if assignments == [] then (attrs, None)
    else
      var (name, value) := assignments[0];
      var d := WriteDecision(meta, quietSetting, attrs, name, value);
      if d.Reject? then (attrs, Some(d.error))
      else
        var rest := Populated(meta, quietSetting, Stored(attrs, name, value, d), assignments[1..]);
        AssignsSplit(assignments);
        rest
  }

  /** A name is assigned by a non-empty sequence exactly when it is the first
      name or is assigned by the rest. */
  lemma AssignsSplit(assignments: seq<(string, Value)>)
    requires assignments != []
    ensures forall k :: Assigns(assignments, k) <==> k == assignments[0].0 || Assigns(assignments[1..], k)
  {
    forall k | Assigns(assignments, k)
      ensures k == assignments[0].0 || Assigns(assignments[1..], k)
    {
      var i :| 0 <= i < |assignments| && assignments[i].0 == k;
      if i > 0 {
        assert assignments[1..][i - 1].0 == k;
      }
    }
    forall k | Assigns(assignments[1..], k)
      ensures Assigns(assignments, k)
    {
      var i :| 0 <= i < |assignments[1..]| && assignments[1..][i].0 == k;
      assert assignments[i + 1].0 == k;
    }
  }

  /** `__init__`: populate, then check the option types. Construction succeeds
      exactly when no assignment raises and the options pass the checks; an
      exception from an assignment comes first. */
  function Initialised(meta: map<string, Value>, quietSetting: Value, attrs: map<string, Value>,
                       assignments: seq<(string, Value)>): (r: (map<string, Value>, Option<Error>))
    ensures r.0 == Populated(meta, quietSetting, attrs, assignments).0
    ensures r.1.None? <==> Populated(meta, quietSetting, attrs, assignments).1.None? && OptionsError(meta, quietSetting).None?
    ensures Populated(meta, quietSetting, attrs, assignments).1.Some? ==> r.1 == Populated(meta, quietSetting, attrs, assignments).1
    ensures r.1.None? ==> forall k :: Assigns(assignments, k) ==> k in r.0
  {
    var (populated, err) := Populated(meta, quietSetting, attrs, assignments);
    if err.Some? then (populated, err) else (populated, OptionsError(meta, quietSetting))
  }

  /** A model instance: the `_meta` options of its model and its attributes
      (absent = not set yet). */
  class Instance {
    const meta: map<string, Value>
    const quietSetting: Value
    var attrs: map<string, Value>

    /** The bare object before Django's constructor assigns its fields. */
    constructor (meta: map<string, Value>, quietSetting: Value)
      ensures this.meta == meta && this.quietSetting == quietSetting && attrs == map[]
    {
      this.meta := meta;
      this.quietSetting := quietSetting;
      attrs := map[];
    }

    /** `__setattr__`: stores the value, or leaves the attribute unchanged and
        returns quietly or raises. */
    method SetAttr(name: string, value: Value) returns (err: Option<Error>)
      modifies this
      ensures attrs == Stored(old(attrs), name, value, WriteDecision(meta, quietSetting, old(attrs), name, value))
      ensures err == Raised(WriteDecision(meta, quietSetting, old(attrs), name, value))
    {
      var changeable := CanChangeField(meta, attrs, name);
      if changeable.Failure? {
        return Some(changeable.error);
      }
      if !changeable.value {
        var current := CurrentValue(attrs, name);
        if !IsEmpty(current) && !PyEq(current, value) {
          if Truthy(Quiet(meta, quietSetting)) {
            return None;
          }
          return Some(ValueError);
        }
      }
      attrs := attrs[name := value];
      return None;
    }

    /** `__init__`: Django's constructor assigns the fields, then the option
        types are checked. */
    method Init(assignments: seq<(string, Value)>) returns (err: Option<Error>)
      modifies this
      ensures (attrs, err) == Initialised(meta, quietSetting, old(attrs), assignments)
    {
      var i := 0;
      while i < |assignments|
        invariant 0 <= i <= |assignments|
        invariant Populated(meta, quietSetting, old(attrs), assignments) ==
                  Populated(meta, quietSetting, attrs, assignments[i..])
      {
        var (name, value) := assignments[i];
        assert assignments[i..][1..] == assignments[i + 1..];
        err := SetAttr(name, value);
        if err.Some? {
          return;
        }
        i := i + 1;
      }
      err := OptionsError(meta, quietSetting);
    }
  }
}
