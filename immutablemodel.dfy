/** The newest engine (immutablemodel/models.py): per-model options collected
    from the model's `Meta` by the metaclass, checked once at class creation,
    and enforced on every attribute write and on delete. */
module ImmutableModel {
  import opened Python
  import opened Guards

  // ---------------------------------------------------------------------------
  // Options and their defaults (IMMUTABLEFIELD_OPTIONS)
  // ---------------------------------------------------------------------------

  const MutableFieldsOption := "mutable_fields"
  const ImmutableFieldsOption := "immutable_fields"
  const QuietOption := "immutable_quiet"
  const LockFieldOption := "immutable_lock_field"
  const IsDeletableOption := "immutable_is_deletable"

  /** The option of the older engine, refused here. */
  const LegacyImmutableOption := "immutable"

  const OptionNames: seq<string> :=
    [MutableFieldsOption, ImmutableFieldsOption, QuietOption, LockFieldOption, IsDeletableOption]

  const OptionSet: set<string> := set name | name in OptionNames

  /** The PK_FIELD marker class, compared by identity: "use the primary key". */
  const PkFieldMarker: Value := VObject(0)

  /** `get_default_for` of each option; `quietSetting` is the project's
      IMMUTABLE_QUIET setting, None when it is not configured. */
  function DefaultFor(name: string, quietSetting: Option<Value>): (r: Value)
    ensures name == MutableFieldsOption || name == ImmutableFieldsOption ==> r == VList([])
    ensures name == QuietOption ==> r == (if quietSetting.Some? then quietSetting.value else VBool(true))
    ensures name == LockFieldOption ==> r == PkFieldMarker
    ensures name == IsDeletableOption ==> r == VBool(true)
  {
    if name == MutableFieldsOption || name == ImmutableFieldsOption then VList([])
    else if name == QuietOption then quietSetting.GetOr(VBool(true))
    else if name == LockFieldOption then PkFieldMarker
    else if name == IsDeletableOption then VBool(true)
    else VNone
  }

  /** One entry of the dictionary `extract_options` builds: the `_Undefined`
      marker, or the value the model's Meta declared. */
  datatype Slot = Undefined | Declared(value: Value)

  // ---------------------------------------------------------------------------
  // extract_options
  // ---------------------------------------------------------------------------

  /** The model's inner `Meta` class, as its attribute dictionary. */
  class Meta {
    var attrs: map<string, Value>

    constructor (attrs: map<string, Value>)
      ensures this.attrs == attrs
    {
      this.attrs := attrs;
    }
  }

  /** The entry `extract_options` records for option `name`. */
  function SlotFor(meta: map<string, Value>, name: string): Slot {
    if name in meta then Declared(meta[name]) else Undefined
  }

  /** What `extract_options` returns for a Meta declaring `meta`. */
  function ExtractedOptions(meta: map<string, Value>): (r: Result<map<string, Slot>>)
    ensures r.Failure? <==> LegacyImmutableOption in meta
    ensures r.Failure? ==> r.error == ValueError
    ensures r.Success? ==> r.value.Keys == OptionSet
    ensures r.Success? ==> forall name :: name in r.value ==> (r.value[name].Declared? <==> name in meta)
    ensures r.Success? ==> forall name :: name in r.value && name in meta ==> r.value[name] == Declared(meta[name])
  {
    if LegacyImmutableOption in meta then Failure(ValueError)
    else Success(map name | name in OptionNames :: SlotFor(meta, name))
  }

  /** `extract_options`: refuses the old `immutable` option before touching
      anything, otherwise moves every declared option out of the Meta class. */
  method ExtractOptions(meta: Meta) returns (r: Result<map<string, Slot>>)
    modifies meta
    ensures r == ExtractedOptions(old(meta.attrs))
    ensures r.Failure? ==> meta.attrs == old(meta.attrs)
    ensures r.Success? ==> meta.attrs == old(meta.attrs) - OptionSet
  {
    if LegacyImmutableOption in meta.attrs {
      return Failure(ValueError);
    }
    ghost var declared := meta.attrs;
    var options: map<string, Slot> := map[];
    var i := 0;
    while i < |OptionNames|
      invariant 0 <= i <= |OptionNames|
      invariant forall name :: name in options <==> name in OptionNames[..i]
      invariant forall name :: name in options ==> options[name] == SlotFor(declared, name)
      invariant forall name :: name in meta.attrs <==> name in declared && name !in options
      invariant forall name :: name in meta.attrs ==> meta.attrs[name] == declared[name]
    {
      var name := OptionNames[i];
      var value := Undefined;
      if name in meta.attrs {
        value := Declared(meta.attrs[name]);
        meta.attrs := meta.attrs - {name};
      }
      assert OptionNames[..i + 1] == OptionNames[..i] + [name];
      options := options[name := value];
      i := i + 1;
    }
    assert OptionNames[..i] == OptionNames;
    ghost var expected := ExtractedOptions(declared).value;
    assert options.Keys == expected.Keys;
    assert forall name :: name in options ==> options[name] == expected[name];
    assert options == expected;
    assert declared == old(meta.attrs);
    r := Success(options);
  }

  // ---------------------------------------------------------------------------
  // reinject_options
  // ---------------------------------------------------------------------------

  /** The registered model's `_meta`: its field names, its primary key, whether
      it is abstract, and the option attributes it carries (among them any it
      already had before the options were reinjected). */
  class ModelOptions {
    const isAbstract: bool
    const fieldNames: seq<string>
    const pkName: string
    var attrs: map<string, Value>

    constructor (isAbstract: bool, fieldNames: seq<string>, pkName: string, attrs: map<string, Value>)
      ensures this.isAbstract == isAbstract && this.fieldNames == fieldNames && this.pkName == pkName
      ensures this.attrs == attrs
    {
      this.isAbstract := isAbstract;
      this.fieldNames := fieldNames;
      this.pkName := pkName;
      this.attrs := attrs;
    }
  }

  /** The value `reinject_options` sets for one option, or None when it leaves
      `_meta` alone: a declared value, else the default unless `_meta` already
      has a value. */
  function Injected(name: string, slot: Slot, existing: map<string, Value>, quietSetting: Option<Value>): Option<Value> {
    match slot
    case Declared(v) => Some(v)
    case Undefined => if name in existing then None else Some(DefaultFor(name, quietSetting))
  }

  /** `_meta`'s attributes after `reinject_options`. */
  function Reinjected(options: map<string, Slot>, existing: map<string, Value>, quietSetting: Option<Value>): (r: map<string, Value>)
    ensures r.Keys == existing.Keys + options.Keys
    ensures forall name :: name in existing && name !in options ==> r[name] == existing[name]
  {
    existing + map name | name in options && Injected(name, options[name], existing, quietSetting).Some?
                        :: Injected(name, options[name], existing, quietSetting).value
  }

  /** `reinject_options`: sets each option on `_meta` in the dictionary's
      (unspecified) order. */
  method ReinjectOptions(options: map<string, Slot>, model: ModelOptions, quietSetting: Option<Value>)
    modifies model
    ensures model.attrs == Reinjected(options, old(model.attrs), quietSetting)
  {
    ghost var existing := model.attrs;
    var pending := options.Keys;
    while pending != {}
      invariant pending <= options.Keys
      invariant forall name :: name in model.attrs <==>
                  name in existing || (name in options && name !in pending)
      invariant forall name :: name in model.attrs ==>
                  model.attrs[name] ==
                    if name in options && name !in pending && Injected(name, options[name], existing, quietSetting).Some?
                    then Injected(name, options[name], existing, quietSetting).value
                    else existing[name]
      decreases pending
    {
      var name :| name in pending;
      var value := options[name];
      if value.Undefined? && name !in model.attrs {
        // only use the default while the model has no value yet
        value := Declared(DefaultFor(name, quietSetting));
      }
      if value.Declared? {
        model.attrs := model.attrs[name := value.value];
      }
      pending := pending - {name};
    }
    ghost var r := Reinjected(options, existing, quietSetting);
    assert model.attrs.Keys == r.Keys;
    assert forall name :: name in r ==> model.attrs[name] == r[name];
  }

  // ---------------------------------------------------------------------------
  // check_options
  // ---------------------------------------------------------------------------

  /** `[f for f in fields if f not in excluded]`. */
  function Without(fields: seq<string>, excluded: seq<string>): (r: seq<string>)
    ensures forall f :: f in r <==> f in fields && f !in excluded
    ensures |r| <= |fields|
  {
    if fields == [] then []
    else if fields[0] in excluded then Without(fields[1..], excluded)
    else [fields[0]] + Without(fields[1..], excluded)
  }

  /** Excluding nothing keeps every field, in order. */
  lemma {:induction false} WithoutNothing(fields: seq<string>)
    ensures Without(fields, []) == fields
  {
    if fields != [] {
      WithoutNothing(fields[1..]);
      assert fields == [fields[0]] + fields[1..];
    }
  }

  /** The options `check_options` reads, all present after `reinject_options`. */
  predicate HasOptions(attrs: map<string, Value>) {
    OptionSet <= attrs.Keys
  }

  /** Every option has the type `check_options` demands and the two field lists
      are not both non-empty. */
  predicate WellConfigured(attrs: map<string, Value>)
    requires HasOptions(attrs)
  {
    && attrs[ImmutableFieldsOption].VList?
    && attrs[MutableFieldsOption].VList?
    && !(attrs[MutableFieldsOption].items != [] && attrs[ImmutableFieldsOption].items != [])
    && (attrs[LockFieldOption] == PkFieldMarker || attrs[LockFieldOption].VStr? || attrs[LockFieldOption].VNone?)
    && attrs[QuietOption].VBool?
    && attrs[IsDeletableOption].VBool?
  }

  /** The shape of a checked, non-abstract model's options. */
  predicate Settled(attrs: map<string, Value>) {
    && HasOptions(attrs)
    && attrs[ImmutableFieldsOption].VList?
    && attrs[MutableFieldsOption].VList?
    && (attrs[LockFieldOption].VStr? || attrs[LockFieldOption].VNone?)
    && attrs[QuietOption].VBool?
    && attrs[IsDeletableOption].VBool?
  }

  /** `_meta`'s attributes after `check_options`, and the exception it raised.
      A TypeError raised late leaves the field lists already rewritten. */
  datatype CheckResult = CheckResult(attrs: map<string, Value>, error: Option<Error>)

  /** The type checks on quiet and is-deletable that end `check_options`. */
  function CheckFlags(attrs: map<string, Value>): CheckResult
    requires HasOptions(attrs)
  {
    if !attrs[QuietOption].VBool? then CheckResult(attrs, Some(TypeError))
    else if !attrs[IsDeletableOption].VBool? then CheckResult(attrs, Some(TypeError))
    else CheckResult(attrs, None)
  }

  /** `check_options` on a model with the given abstractness, field names,
      primary key and `_meta` option values. */
  function Checked(isAbstract: bool, fields: seq<string>, pkName: string, attrs: map<string, Value>): (r: CheckResult)
    requires HasOptions(attrs)
    ensures r.error.None? <==> isAbstract || WellConfigured(attrs)
    ensures r.error == Some(ValueError) <==>
              && !isAbstract
              && attrs[ImmutableFieldsOption].VList? && attrs[MutableFieldsOption].VList?
              && attrs[MutableFieldsOption].items != [] && attrs[ImmutableFieldsOption].items != []
    ensures r.error.Some? ==> r.error.value in {TypeError, ValueError}
    ensures isAbstract ==> r.attrs == attrs
    ensures !isAbstract && r.error.None? ==> Settled(r.attrs)
    ensures r.attrs.Keys == attrs.Keys
    // a checked model: mutable_fields is derived from a declared immutable_fields,
    // immutable_fields is the complement of mutable_fields over the model's fields,
    // and the PK_FIELD marker becomes the primary key's name
    ensures !isAbstract && r.error.None? ==>
              && r.attrs[MutableFieldsOption] == (if attrs[ImmutableFieldsOption].items != []
                                                  then VList(Without(fields, attrs[ImmutableFieldsOption].items))
                                                  else attrs[MutableFieldsOption])
              && r.attrs[ImmutableFieldsOption] == VList(Without(fields, r.attrs[MutableFieldsOption].items))
              && r.attrs[LockFieldOption] == (if attrs[LockFieldOption] == PkFieldMarker then VStr(pkName)
                                              else attrs[LockFieldOption])
              && r.attrs[QuietOption] == attrs[QuietOption]
              && r.attrs[IsDeletableOption] == attrs[IsDeletableOption]
  {
    if isAbstract then CheckResult(attrs, None)
    else if !attrs[ImmutableFieldsOption].VList? then CheckResult(attrs, Some(TypeError))
    else if !attrs[MutableFieldsOption].VList? then CheckResult(attrs, Some(TypeError))
    else if attrs[MutableFieldsOption].items != [] && attrs[ImmutableFieldsOption].items != [] then
      CheckResult(attrs, Some(ValueError))
    else
      var a1 := if attrs[ImmutableFieldsOption].items != []
                then attrs[MutableFieldsOption := VList(Without(fields, attrs[ImmutableFieldsOption].items))]
                else attrs;
      // immutable_fields is kept only as the reverse of mutable_fields
      var a2 := a1[ImmutableFieldsOption := VList(Without(fields, a1[MutableFieldsOption].items))];
      var lock := a2[LockFieldOption];
      if lock == PkFieldMarker then CheckFlags(a2[LockFieldOption := VStr(pkName)])
      else if lock.VStr? || lock.VNone? then CheckFlags(a2)
      else CheckResult(a2, Some(TypeError))
  }

  /** `check_options`: validates a non-abstract model's options and rewrites the
      two field lists and the lock field in place. */
  method CheckOptions(model: ModelOptions) returns (err: Option<Error>)
    requires HasOptions(model.attrs)
    modifies model
    ensures CheckResult(model.attrs, err) == Checked(model.isAbstract, model.fieldNames, model.pkName, old(model.attrs))
  {
    if model.isAbstract {
      return None;
    }
    if !model.attrs[ImmutableFieldsOption].VList? {
      return Some(TypeError);
    }
    if !model.attrs[MutableFieldsOption].VList? {
      return Some(TypeError);
    }
    if model.attrs[MutableFieldsOption].items != [] && model.attrs[ImmutableFieldsOption].items != [] {
      return Some(ValueError);
    }
    if model.attrs[ImmutableFieldsOption].items != [] {
      var mutable := Without(model.fieldNames, model.attrs[ImmutableFieldsOption].items);
      model.attrs := model.attrs[MutableFieldsOption := VList(mutable)];
    }
    var immutable := Without(model.fieldNames, model.attrs[MutableFieldsOption].items);
    model.attrs := model.attrs[ImmutableFieldsOption := VList(immutable)];

    if model.attrs[LockFieldOption] == PkFieldMarker {
      model.attrs := model.attrs[LockFieldOption := VStr(model.pkName)];
    } else if model.attrs[LockFieldOption].VStr? || model.attrs[LockFieldOption].VNone? {
    } else {
      return Some(TypeError);
    }

    if !model.attrs[QuietOption].VBool? {
      return Some(TypeError);
    }
    if !model.attrs[IsDeletableOption].VBool? {
      return Some(TypeError);
    }
    return None;
  }

  /** After a successful check the two lists partition the model's fields:
      `immutable_fields` is exactly the fields not in `mutable_fields`; with
      neither declared every field is immutable; with `immutable_fields`
      declared it keeps exactly the declared model fields. */
  lemma CheckedFieldsPartition(fields: seq<string>, pkName: string, attrs: map<string, Value>)
    requires HasOptions(attrs)
    requires Checked(false, fields, pkName, attrs).error.None?
    ensures var a := Checked(false, fields, pkName, attrs).attrs;
            && (forall f :: f in a[ImmutableFieldsOption].items <==> f in fields && f !in a[MutableFieldsOption].items)
            && (attrs[MutableFieldsOption].items == [] && attrs[ImmutableFieldsOption].items == [] ==>
                  a[ImmutableFieldsOption].items == fields && a[MutableFieldsOption].items == [])
            && (attrs[ImmutableFieldsOption].items != [] ==>
                  forall f :: f in a[ImmutableFieldsOption].items <==> f in fields && f in attrs[ImmutableFieldsOption].items)
  {
    if attrs[MutableFieldsOption].items == [] && attrs[ImmutableFieldsOption].items == [] {
      WithoutNothing(fields);
    }
  }

  // ---------------------------------------------------------------------------
  // The metaclass (ImmutableModelMeta.__new__)
  // ---------------------------------------------------------------------------

  /** `ImmutableModelMeta.__new__` for a class whose bases include an
      ImmutableModel (`hasImmutableParent`); other classes are registered
      untouched. `model` is the `_meta` Django builds for the new class. */
  method NewModelClass(hasImmutableParent: bool, meta: Meta, model: ModelOptions, quietSetting: Option<Value>)
    returns (err: Option<Error>)
    modifies meta, model
    ensures !hasImmutableParent ==> err.None? && meta.attrs == old(meta.attrs) && model.attrs == old(model.attrs)
    ensures hasImmutableParent && ExtractedOptions(old(meta.attrs)).Failure? ==>
              err == Some(ValueError) && meta.attrs == old(meta.attrs) && model.attrs == old(model.attrs)
    ensures hasImmutableParent && ExtractedOptions(old(meta.attrs)).Success? ==>
              var c := Checked(model.isAbstract, model.fieldNames, model.pkName,
                               Reinjected(ExtractedOptions(old(meta.attrs)).value, old(model.attrs), quietSetting));
              && meta.attrs == old(meta.attrs) - OptionSet
              && model.attrs == c.attrs && err == c.error
  {
    if !hasImmutableParent {
      return None;
    }
    var options := ExtractOptions(meta);
    if options.Failure? {
      return Some(options.error);
    }
    ReinjectOptions(options.value, model, quietSetting);
    err := CheckOptions(model);
  }

  // ---------------------------------------------------------------------------
  // The resolved policy of a concrete model
  // ---------------------------------------------------------------------------

  /** A checked model's options, typed. `lockField` None means "no lock field". */
  datatype Policy = Policy(
    mutableFields: seq<string>,
    immutableFields: seq<string>,
    lockField: Option<string>,
    quiet: bool,
    isDeletable: bool)

  function PolicyOf(attrs: map<string, Value>): Policy
    requires Settled(attrs)
  {
    Policy(
      attrs[MutableFieldsOption].items,
      attrs[ImmutableFieldsOption].items,
      if attrs[LockFieldOption].VStr? then Some(attrs[LockFieldOption].s) else None,
      attrs[QuietOption].b,
      attrs[IsDeletableOption].b)
  }

  /** The policy a concrete (non-abstract) model ends up with, from the options
      its Meta declares, the option values its `_meta` already had, its field
      names and its primary key. */
  function ResolvePolicy(declared: map<string, Value>, inherited: map<string, Value>, fields: seq<string>,
                         pkName: string, quietSetting: Option<Value>): (r: Result<Policy>)
    ensures LegacyImmutableOption in declared ==> r == Failure(ValueError)
    ensures r.Success? ==> forall f :: f in fields ==> (f in r.value.immutableFields <==> f !in r.value.mutableFields)
    ensures r.Success? ==> forall f :: f in r.value.immutableFields ==> f in fields
  {
    match ExtractedOptions(declared)
    case Failure(e) => Failure(e)
    case Success(options) =>
      var c := Checked(false, fields, pkName, Reinjected(options, inherited, quietSetting));
      if c.error.Some? then Failure(c.error.value)
      else
        CheckedFieldsPartition(fields, pkName, Reinjected(options, inherited, quietSetting));
        Success(PolicyOf(c.attrs))
  }

  /** Each option: a declared value always wins; an undeclared one keeps the
      value `_meta` already had; only otherwise does it take its default. */
  lemma OptionPrecedence(declared: map<string, Value>, inherited: map<string, Value>,
                         quietSetting: Option<Value>, name: string)
    requires LegacyImmutableOption !in declared
    requires name in OptionSet
    ensures var attrs := Reinjected(ExtractedOptions(declared).value, inherited, quietSetting);
            && name in attrs
            && (name in declared ==> attrs[name] == declared[name])
            && (name !in declared && name in inherited ==> attrs[name] == inherited[name])
            && (name !in declared && name !in inherited ==> attrs[name] == DefaultFor(name, quietSetting))
  {
    var options := ExtractedOptions(declared).value;
    assert name in options;
  }

  /** A model that declares nothing and inherits nothing: every field is
      immutable, the primary key is the lock field, the model is deletable and
      quiet follows the IMMUTABLE_QUIET setting (True when unset). */
  lemma DefaultPolicy(fields: seq<string>, pkName: string, quietSetting: Option<Value>)
    requires quietSetting.None? || quietSetting.value.VBool?
    ensures var r := ResolvePolicy(map[], map[], fields, pkName, quietSetting);
            && r.Success?
            && r.value.immutableFields == fields && r.value.mutableFields == []
            && r.value.lockField == Some(pkName)
            && r.value.quiet == (quietSetting.None? || quietSetting.value.b)
            && r.value.isDeletable
  {
    var attrs := Reinjected(ExtractedOptions(map[]).value, map[], quietSetting);
    OptionPrecedence(map[], map[], quietSetting, MutableFieldsOption);
    OptionPrecedence(map[], map[], quietSetting, ImmutableFieldsOption);
    OptionPrecedence(map[], map[], quietSetting, QuietOption);
    OptionPrecedence(map[], map[], quietSetting, LockFieldOption);
    OptionPrecedence(map[], map[], quietSetting, IsDeletableOption);
    assert attrs[MutableFieldsOption] == VList([]) && attrs[ImmutableFieldsOption] == VList([]);
    assert attrs[QuietOption] == quietSetting.GetOr(VBool(true));
    assert attrs[LockFieldOption] == PkFieldMarker;
    assert attrs[IsDeletableOption] == VBool(true);
    assert WellConfigured(attrs);
    WithoutNothing(fields);
  }

  /** Declaring non-empty `mutable_fields` and `immutable_fields` together is a
      ValueError. */
  lemma BothFieldListsRejected(declared: map<string, Value>, inherited: map<string, Value>,
                               fields: seq<string>, pkName: string, quietSetting: Option<Value>)
    requires LegacyImmutableOption !in declared
    requires MutableFieldsOption in declared && declared[MutableFieldsOption].VList? && declared[MutableFieldsOption].items != []
    requires ImmutableFieldsOption in declared && declared[ImmutableFieldsOption].VList? && declared[ImmutableFieldsOption].items != []
    ensures ResolvePolicy(declared, inherited, fields, pkName, quietSetting) == Failure(ValueError)
  {
    OptionPrecedence(declared, inherited, quietSetting, MutableFieldsOption);
    OptionPrecedence(declared, inherited, quietSetting, ImmutableFieldsOption);
  }

  /** A concrete model declaring an option of the wrong type is refused: a
      field list that is not a list, a lock field that is neither a string nor
      None, a quiet or is-deletable flag that is not a bool. It is a TypeError,
      except that a ValueError for two non-empty field lists comes first. */
  lemma MistypedOptionRejected(declared: map<string, Value>, inherited: map<string, Value>,
                               fields: seq<string>, pkName: string, quietSetting: Option<Value>, name: string)
    requires LegacyImmutableOption !in declared
    requires name in declared
    requires || (name in {MutableFieldsOption, ImmutableFieldsOption} && !declared[name].VList?)
             || (name == LockFieldOption && !(declared[name].VStr? || declared[name].VNone? || declared[name] == PkFieldMarker))
             || (name in {QuietOption, IsDeletableOption} && !declared[name].VBool?)
    ensures var r := ResolvePolicy(declared, inherited, fields, pkName, quietSetting);
            && r.Failure?
            && (r.error == TypeError || r.error == ValueError)
            && (name in {MutableFieldsOption, ImmutableFieldsOption} ==> r.error == TypeError)
  {
    OptionPrecedence(declared, inherited, quietSetting, name);
  }

  /** A concrete model that does not redeclare `immutable_quiet` keeps the value
      its `_meta` already carried. */
  lemma InheritedQuietKept(declared: map<string, Value>, inherited: map<string, Value>,
                           fields: seq<string>, pkName: string, quietSetting: Option<Value>)
    requires QuietOption !in declared && QuietOption in inherited
    ensures var r := ResolvePolicy(declared, inherited, fields, pkName, quietSetting);
            r.Success? ==> inherited[QuietOption] == VBool(r.value.quiet)
  {
    if LegacyImmutableOption !in declared {
      OptionPrecedence(declared, inherited, quietSetting, QuietOption);
    }
  }

  // ---------------------------------------------------------------------------
  // The lock predicate and the guards
  // ---------------------------------------------------------------------------

  /** `is_immutable` with `has_immutable_lock_field`: with no lock field the
      instance is always locked; otherwise the lock field's truth value
      decides, and a lock attribute the instance does not have yet counts as
      locked (`getattr(..., True)`). */
  predicate IsImmutable(p: Policy, attrs: map<string, Value>): (r: bool)
    ensures p.lockField.None? ==> r
    ensures p.lockField.Some? && p.lockField.value !in attrs ==> r
    ensures p.lockField.Some? && p.lockField.value in attrs ==> (r <==> Truthy(attrs[p.lockField.value]))
  {
    match p.lockField
    case None => true
    case Some(lock) => if lock in attrs then Truthy(attrs[lock]) else true
  }

  /** `can_change_field`: a mutable field always can; any other name only
      while the instance is unlocked. */
  predicate CanChangeField(p: Policy, attrs: map<string, Value>, name: string): (r: bool)
    ensures name in p.mutableFields ==> r
    ensures name !in p.mutableFields ==> (r <==> !IsImmutable(p, attrs))
  {
    name in p.mutableFields || !IsImmutable(p, attrs)
  }

  /** `__setattr__`: a write is refused exactly when the name is not mutable,
      the instance is locked, the current value is not empty and the new value
      differs; a refusal is a drop when quiet and a ValueError otherwise. So
      writing back an equal value, or populating an empty field, is always
      allowed. */
  function WriteDecision(p: Policy, attrs: map<string, Value>, name: string, value: Value): (r: Decision)
    ensures r != Allow <==>
              && name !in p.mutableFields
              && IsImmutable(p, attrs)
              && !IsEmpty(CurrentValue(attrs, name))
              && !PyEq(CurrentValue(attrs, name), value)
    ensures r != Allow && p.quiet ==> r == Drop
    ensures r != Allow && !p.quiet ==> r == Reject(ValueError)
  {
    var current := CurrentValue(attrs, name);
    if !CanChangeField(p, attrs, name) && !IsEmpty(current) && !PyEq(current, value) then Refusal(p.quiet)
    else Allow
  }

  /** `delete`: a locked instance of a non-deletable model stays (quiet) or
      raises CantDeleteImmutableException (strict); anything else is deleted. */
  function DeleteDecision(p: Policy, attrs: map<string, Value>): (r: Decision)
    ensures !p.isDeletable && IsImmutable(p, attrs) && p.quiet ==> r == Drop
    ensures !p.isDeletable && IsImmutable(p, attrs) && !p.quiet ==> r == Reject(CantDeleteImmutable)
    ensures p.isDeletable || !IsImmutable(p, attrs) ==> r == Allow
  {
    if !p.isDeletable && IsImmutable(p, attrs) then
      (if p.quiet then Drop else Reject(CantDeleteImmutable))
    else Allow
  }

  /** With the lock field neither declared nor inherited, the primary key is
      the lock field, so an instance whose key is still None is unlocked and
      one whose key is set is locked. */
  lemma DefaultLockIsPrimaryKey(declared: map<string, Value>, inherited: map<string, Value>, fields: seq<string>,
                                pkName: string, quietSetting: Option<Value>, attrs: map<string, Value>)
    requires LockFieldOption !in declared && LockFieldOption !in inherited
    ensures var r := ResolvePolicy(declared, inherited, fields, pkName, quietSetting);
            r.Success? ==>
              && r.value.lockField == Some(pkName)
              && (pkName in attrs ==> (IsImmutable(r.value, attrs) <==> Truthy(attrs[pkName])))
              && (pkName in attrs && attrs[pkName] == VNone ==> !IsImmutable(r.value, attrs))
  {
    if LegacyImmutableOption !in declared {
      OptionPrecedence(declared, inherited, quietSetting, LockFieldOption);
    }
  }

  // ---------------------------------------------------------------------------
  // Write sequences: a locked instance stays locked
  // ---------------------------------------------------------------------------

  /** The attributes after a sequence of writes, each decided by the guard (a
      refused write raises or is dropped and leaves the value in place). */
  function AfterWrites(p: Policy, attrs: map<string, Value>, writes: seq<(string, Value)>): map<string, Value>
    decreases |writes|
  {
    if writes == [] then attrs
    else
      var (name, value) := writes[0];
      AfterWrites(p, Stored(attrs, name, value, WriteDecision(p, attrs, name, value)), writes[1..])
  }

  /** The instance is locked for good: either there is no lock field, or the
      lock field is immutable, set, not empty and true. */
  predicate Sealed(p: Policy, attrs: map<string, Value>) {
    match p.lockField
    case None => true
    case Some(lock) =>
      && lock !in p.mutableFields
      && lock in attrs && !IsEmpty(attrs[lock]) && !attrs[lock].VFile? && Truthy(attrs[lock])
  }

  /** Locked is not sealed: an instance that lacks its lock attribute counts
      as locked, yet the first write to the lock field (empty before) is
      allowed, and writing False there unlocks every immutable field. */
  lemma LockedButUnsealedCanBeUnlocked()
    ensures var p := Policy([], ["x", "l"], Some("l"), true, true);
            var attrs := map["x" := VInt(5)];
            && IsImmutable(p, attrs) && !Sealed(p, attrs)
            && AfterWrites(p, attrs, [("l", VBool(false)), ("x", VInt(6))])["x"] == VInt(6)
  {
  }

  /** An immutable field that holds a non-empty value while the instance is
      sealed keeps an equal value through any sequence of (non-file) writes,
      and the instance stays sealed. */
  lemma {:induction false} SealedFieldStaysFixed(p: Policy, attrs: map<string, Value>,
                                                 writes: seq<(string, Value)>, name: string)
    requires Sealed(p, attrs)
    requires name !in p.mutableFields && name in attrs && !IsEmpty(attrs[name]) && !attrs[name].VFile?
    requires forall i :: 0 <= i < |writes| ==> !writes[i].1.VFile?
    ensures var after := AfterWrites(p, attrs, writes);
            && Sealed(p, after)
            && name in after && PyEq(after[name], attrs[name])
    decreases |writes|
  {
    if writes != [] {
      var (n, v) := writes[0];
      var next := Stored(attrs, n, v, WriteDecision(p, attrs, n, v));
      StepKeepsSealed(p, attrs, n, v, name);
      SealedFieldStaysFixed(p, next, writes[1..], name);
      PyEqIsEquivalence(AfterWrites(p, next, writes[1..])[name], next[name], attrs[name]);
    }
  }

  /** One write keeps a sealed instance sealed and a set immutable field equal. */
  lemma StepKeepsSealed(p: Policy, attrs: map<string, Value>, n: string, v: Value, name: string)
    requires Sealed(p, attrs) && !v.VFile?
    requires name !in p.mutableFields && name in attrs && !IsEmpty(attrs[name]) && !attrs[name].VFile?
    ensures var next := Stored(attrs, n, v, WriteDecision(p, attrs, n, v));
            && Sealed(p, next)
            && name in next && !IsEmpty(next[name]) && !next[name].VFile? && PyEq(next[name], attrs[name])
  {
    var next := Stored(attrs, n, v, WriteDecision(p, attrs, n, v));
    if WriteDecision(p, attrs, n, v) == Allow && n in attrs {
      if name == n || p.lockField == Some(n) {
        // a locked, set field only accepts an equal value
        PyEqPreservesEmptinessAndTruth(attrs[n], v);
        PyEqIsEquivalence(attrs[n], v, v);
      }
    }
  }

  // ---------------------------------------------------------------------------
  // Instances
  // ---------------------------------------------------------------------------

  /** A model instance: its attributes (absent = not set yet) and whether its
      record has been deleted. */
  class Instance {
    const policy: Policy
    var attrs: map<string, Value>
    var deleted: bool

    constructor (policy: Policy)
      ensures this.policy == policy && attrs == map[] && !deleted
    {
      this.policy := policy;
      attrs := map[];
      deleted := false;
    }

    /** `__setattr__`: stores the value, or leaves the attribute unchanged and
        returns quietly or raises ValueError. */
    method SetAttr(name: string, value: Value) returns (err: Option<Error>)
      modifies this
      ensures attrs == Stored(old(attrs), name, value, WriteDecision(policy, old(attrs), name, value))
      ensures err == Raised(WriteDecision(policy, old(attrs), name, value))
      ensures deleted == old(deleted)
      ensures err.None? && WriteDecision(policy, old(attrs), name, value) != Allow ==> policy.quiet
    {
      if !CanChangeField(policy, attrs, name) {
        var current := CurrentValue(attrs, name);
        if !IsEmpty(current) && !PyEq(current, value) {
          if policy.quiet {
            return None;
          }
          return Some(ValueError);
        }
      }
      attrs := attrs[name := value];
      return None;
    }

    /** `delete`: removes the record unless the guard refuses. */
    method Delete() returns (err: Option<Error>)
      modifies this
      ensures attrs == old(attrs)
      ensures deleted == (old(deleted) || DeleteDecision(policy, old(attrs)) == Allow)
      ensures err == Raised(DeleteDecision(policy, old(attrs)))
    {
      if !policy.isDeletable && IsImmutable(policy, attrs) {
        if policy.quiet {
          return None;
        } else {
          return Some(CantDeleteImmutable);
        }
      }
      deleted := true;
      return None;
    }
  }
}
