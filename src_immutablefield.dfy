/** The oldest engine (src/immutablefield/models.py): an unconditional list of
    immutable fields declared in an `ImmutableMeta` inner class. Once such a
    field holds a value other than None or `''`, every write to it is refused. */
module SrcImmutableField {
  import opened Python
  import opened Guards

  const ImmutableOption := "immutable"
  const QuietOption := "quiet"
  const ImmutableMetaName := "ImmutableMeta"

  /** An option's value: the declared one, else the class default. */
  function OptionOr(opts: map<string, Value>, name: string, default: Value): Value {
    if name in opts then opts[name] else default
  }

  /** `ImmutableModelOptions`: the class attributes `immutable = []` and
      `quiet = IMMUTABLE_QUIET`, shadowed by whatever the instance was given. */
  class ImmutableModelOptions {
    const quietDefault: Value
    var attrs: map<string, Value>

    function Immutable(): Value
      reads this
    {
      OptionOr(attrs, ImmutableOption, VList([]))
    }

    function Quiet(): Value
      reads this
    {
      OptionOr(attrs, QuietOption, quietDefault)
    }

    /** `ImmutableModelOptions(opts)`: every attribute of the declared
        ImmutableMeta class (None when there is none) overrides the default. */
    constructor (opts: Option<map<string, Value>>, quietDefault: Value)
      ensures this.quietDefault == quietDefault
      ensures attrs == if opts.Some? then opts.value else map[]
      ensures Immutable() == if opts.Some? && ImmutableOption in opts.value then opts.value[ImmutableOption] else VList([])
      ensures Quiet() == if opts.Some? && QuietOption in opts.value then opts.value[QuietOption] else quietDefault
    {
      this.quietDefault := quietDefault;
      attrs := map[];
      new;
      if opts.Some? {
        var pending := opts.value.Keys;
        while pending != {}
          invariant pending <= opts.value.Keys
          invariant attrs == opts.value - pending
          decreases pending
        {
          var key :| key in pending;
          attrs := attrs[key := opts.value[key]];
          pending := pending - {key};
        }
        assert opts.value - pending == opts.value;
      }
    }
  }

  /** An entry of a class body: a nested class (its attributes) or a plain value. */
  datatype ClassAttr = NestedClass(body: map<string, Value>) | Attribute(value: Value)

  /** The class body handed to the metaclass. */
  class ClassBody {
    var attrs: map<string, ClassAttr>

    constructor (attrs: map<string, ClassAttr>)
      ensures this.attrs == attrs
    {
      this.attrs := attrs;
    }
  }

  /** `ImmutableModelBase.__new__`: pops `ImmutableMeta` from the class body and
      attaches the options built from it. An `ImmutableMeta` that is a true
      plain value has no `__dict__` and raises AttributeError; a false one
      counts as absent. */
  method NewModelClass(body: ClassBody, quietDefault: Value) returns (options: ImmutableModelOptions?, err: Option<Error>)
    modifies body
    ensures body.attrs == old(body.attrs) - {ImmutableMetaName}
    ensures var declared := if ImmutableMetaName in old(body.attrs) then Some(old(body.attrs)[ImmutableMetaName]) else None;
            && (err.Some? <==> declared.Some? && declared.value.Attribute? && Truthy(declared.value.value))
            && (err.Some? ==> err.value == AttributeError && options == null)
            && (err.None? ==>
                  && options != null && fresh(options) && options.quietDefault == quietDefault
                  && options.attrs == if declared.Some? && declared.value.NestedClass? then declared.value.body else map[])
  {
    var declared: Option<ClassAttr> := None;
    if ImmutableMetaName in body.attrs {
      declared := Some(body.attrs[ImmutableMetaName]);
      body.attrs := body.attrs - {ImmutableMetaName};
    }
    if declared.Some? && declared.value.Attribute? && Truthy(declared.value.value) {
      return null, Some(AttributeError);
    }
    var opts := if declared.Some? && declared.value.NestedClass? then Some(declared.value.body) else None;
    options := new ImmutableModelOptions(opts, quietDefault);
    err := None;
  }

  /** `__setattr__`: an `immutable` option given as a string makes every write
      raise TypeError, and so does one that is not iterable; a listed field
      whose current value is not None or `''` is never changed, whatever the
      new value: the write is dropped when quiet and raises ValueError
      otherwise. Any other write is stored. Only `immutable` and `quiet` are
      consulted: a `sign_off_field` option, for one, has no effect. */
  function WriteDecision(immutable: Value, quiet: Value, attrs: map<string, Value>, name: string): (r: Decision)
    ensures !immutable.VList? ==> r == Reject(TypeError)
    ensures immutable.VList? ==> (r != Allow <==> name in immutable.items && !IsNoneOrBlank(CurrentValue(attrs, name)))
    ensures immutable.VList? && r != Allow ==> r == Refusal(Truthy(quiet))
  {
    if immutable.VStr? then Reject(TypeError)
    else
      match Contains(immutable, name)
      case Failure(e) => Reject(e)
      case Success(listed) =>
        if listed && !IsNoneOrBlank(CurrentValue(attrs, name)) then Refusal(Truthy(quiet))
        else Allow
  }

  /** The sign-off scenario of the package's tests: with `sign_off_field`
      declared and the sign-off flag still false, the write to the immutable
      `special_id` is nonetheless dropped, since this engine has no sign-off. */
  lemma SignOffScenarioKeepsValue(quietDefault: Value)
    requires Truthy(quietDefault)
    ensures var opts := map[ImmutableOption := VList(["special_id"]), "sign_off_field" := VStr("sign_off")];
            var attrs := map["special_id" := VInt(1), "name" := VStr("Foo"), "sign_off" := VBool(false)];
            var d := WriteDecision(OptionOr(opts, ImmutableOption, VList([])), OptionOr(opts, QuietOption, quietDefault), attrs, "special_id");
            d == Drop && Stored(attrs, "special_id", VInt(1000), d)["special_id"] == VInt(1)
  {
  }

  /** The attributes after a sequence of writes, each decided by the guard (a
      refused write leaves the value in place). */
  function AfterWrites(immutable: Value, quiet: Value, attrs: map<string, Value>,
                       writes: seq<(string, Value)>): map<string, Value>
    decreases |writes|
  {
    if writes == [] then attrs
    else
      var (name, value) := writes[0];
      AfterWrites(immutable, quiet, Stored(attrs, name, value, WriteDecision(immutable, quiet, attrs, name)), writes[1..])
  }

  /** Once a listed field holds a value other than None or `''`, it keeps exactly
      that value for the instance's lifetime, whatever is written to it. */
  lemma {:induction false} FixedForLifetime(immutable: Value, quiet: Value, attrs: map<string, Value>,
                                            writes: seq<(string, Value)>, name: string)
    requires immutable.VList? && name in immutable.items
    requires name in attrs && !IsNoneOrBlank(attrs[name])
    ensures var after := AfterWrites(immutable, quiet, attrs, writes);
            name in after && after[name] == attrs[name]
    decreases |writes|
  {
    if writes != [] {
      var (n, v) := writes[0];
      var next := Stored(attrs, n, v, WriteDecision(immutable, quiet, attrs, n));
      assert name in next && next[name] == attrs[name];
      FixedForLifetime(immutable, quiet, next, writes[1..], name);
    }
  }

  /** A model instance: the options attached to its model and its attributes. */
  class Instance {
    const options: ImmutableModelOptions
    var attrs: map<string, Value>

    constructor (options: ImmutableModelOptions)
      ensures this.options == options && attrs == map[]
    {
      this.options := options;
      attrs := map[];
    }

    /** `__setattr__`: stores the value, or leaves the attribute unchanged and
        returns quietly or raises. */
    method SetAttr(name: string, value: Value) returns (err: Option<Error>)
      modifies this
      ensures attrs == Stored(old(attrs), name, value, WriteDecision(options.Immutable(), options.Quiet(), old(attrs), name))
      ensures err == Raised(WriteDecision(options.Immutable(), options.Quiet(), old(attrs), name))
    {
      var immutable := options.Immutable();
      if immutable.VStr? {
        return Some(TypeError);
      }
      var listed := Contains(immutable, name);
      if listed.Failure? {
        return Some(listed.error);
      }
      if listed.value {
        var current := CurrentValue(attrs, name);
        if !IsNoneOrBlank(current) {
          if Truthy(options.Quiet()) {
            return None;
          }
          return Some(ValueError);
        }
      }
      attrs := attrs[name := value];
      return None;
    }
  }
}
