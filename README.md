# django-immutablemodel: the immutability policy, in Dafny

django-immutablemodel lets a Django model declare fields that cannot change
once they hold a value. This project models the policy engine of the package
in its three generations and proves what each guard lets through.

- **`ImmutableModel`** (`immutablemodel.dfy`) is the current engine,
  `immutablemodel/models.py`. The model class's `Meta` declares up to five
  options: `mutable_fields`, `immutable_fields`, `immutable_quiet`,
  `immutable_lock_field` and `immutable_is_deletable`. When the model class is
  created, the metaclass runs three steps:
  - `extract_options` moves the options out of `Meta`
    (`Meta` and `ExtractOptions`);
  - `reinject_options` puts them on `_meta`, keeping an inherited value and
    falling back to the defaults (`ModelOptions` and `ReinjectOptions`);
  - `check_options` checks their types and turns the two field lists into a
    partition of the model's fields (`CheckOptions`).

  Each step is a method on the mutable objects, proved equal to a
  specification function: `ExtractedOptions`, `Reinjected` and `Checked`.
  `ResolvePolicy` composes the three into a typed `Policy`. At run time an
  `Instance` guards its writes (`__setattr__`) and its `delete` with the lock
  predicate `is_immutable`. Over any sequence of writes, a sealed instance
  stays sealed and each set immutable field keeps an equal (`==`) value.
  Sealed means the lock field is not mutable and is set, true and not a file.
  Merely locked is not enough: an instance that lacks its lock attribute
  counts as locked, but its first write to the lock field is allowed and can
  unlock it (`LockedButUnsealedCanBeUnlocked`).
- **`ImmutableField`** (`immutablefield.dfy`) is the middle engine,
  `immutablefield/models.py`. It has an `immutable` list and an optional
  `immutable_sign_off_field`, both read from `_meta` on every write. The option
  types are checked only after Django's constructor has assigned the fields
  (`Instance.Init`).
- **`SrcImmutableField`** (`src_immutablefield.dfy`) is the oldest engine,
  `src/immutablefield/models.py`. An `ImmutableMeta` inner class lists the
  immutable fields. A listed field that holds anything other than None or `''`
  can never be changed.

`python.dfy` holds the part of Python's value semantics these guards use:
truth values, `==`, `in`, and the "empty" tests. `guards.dfy` holds the shared
vocabulary of decisions: allow, drop quietly, or raise.

In `ImmutableModel` the IMMUTABLE_QUIET setting is a parameter, where `None`
stands for an unset setting, which means True. `ImmutableField` takes the
setting's value, and `SrcImmutableField` takes the module constant
IMMUTABLE_QUIET (see "Left out").

Notes on the code as written:
- **A missing lock attribute means locked.** In `is_immutable`
  (immutablemodel/models.py:135-146), the comment says a lock field the
  instance does not have yet allows changes. The code reads it with a default
  of True, so a missing lock attribute counts as locked. The model follows the
  code (`IsImmutable`).
- **Any attribute is guarded, not only model fields.** In the current engine,
  `can_change_field` allows a change only for names in `mutable_fields` while
  the instance is locked. A write of a different value to any other attribute
  holding a non-empty value is therefore refused too, whether or not it is a
  model field.
- **`immutable = None` in the middle engine.** It would pass the check at
  immutablefield/models.py:36, but construction never gets there: the first
  assignment Django's constructor makes evaluates `name in None` and raises
  TypeError (`ImmutableField.NoneListAcceptedButEveryWriteFails`,
  `ImmutableField.NoneListBlocksConstruction`).
- **Sign-off in the middle engine can be revoked.** When the sign-off field is
  not itself in the `immutable` list, writing False to it unlocks every listed
  field again (`ImmutableField.SignOffRevocable`).
- **The oldest engine has no sign-off.** Its tests declare `sign_off_field` and
  expect listed fields to change until sign-off. `src/immutablefield/models.py`
  ignores that option, so the model follows the code:
  `SrcImmutableField.WriteDecision` reads only `immutable` and `quiet`, and
  `SrcImmutableField.SignOffScenarioKeepsValue` replays the scenario.

## Model

| member | source | states |
|---|---|---|
| Python.Contains | immutablefield/models.py:50 | `in`: list membership for a list; for a string, true when the name equals it and false when the name is longer; TypeError exactly when the container is neither a list nor a string |
| Python.PyEqIsEquivalence | immutablemodel/models.py:127-129 | the `!=` test the write guards use comes from an equivalence relation: reflexive, symmetric, transitive |
| Python.PyEqPreservesEmptinessAndTruth | immutablemodel/models.py:127-129 | non-file values that compare equal agree on emptiness and on truth |
| Guards.Refusal | immutablemodel/models.py:130-132 | a refused write is never allowed; it is dropped exactly when quiet, and raises ValueError otherwise |
| ImmutableModel.DefaultFor | immutablemodel/models.py:10-39 | the defaults of `IMMUTABLEFIELD_OPTIONS`: empty lists for both field lists, the IMMUTABLE_QUIET setting (True when unset) for quiet, the PK_FIELD marker for the lock field, True for is-deletable |
| ImmutableModel.ExtractedOptions | immutablemodel/models.py:57-66 | a legacy `immutable` option is a ValueError; otherwise every one of the five options has a slot, declared exactly when `Meta` has it, with the declared value |
| ImmutableModel.ExtractOptions | immutablemodel/models.py:57-66 | the method returns `ExtractedOptions` of the old `Meta`; on success it deletes exactly the five option names from `Meta`, and on failure it leaves `Meta` unchanged |
| ImmutableModel.Reinjected | immutablemodel/models.py:69-75 | `_meta` gains every option and keeps every other attribute |
| ImmutableModel.ReinjectOptions | immutablemodel/models.py:69-75 | the method leaves `_meta` equal to `Reinjected` of its old attributes |
| ImmutableModel.OptionPrecedence | immutablemodel/models.py:69-75 | a declared option wins; an undeclared one keeps the value `_meta` already had; only otherwise does it take its default |
| ImmutableModel.Without | immutablemodel/models.py:91-94 | the list comprehension keeps exactly the fields not in the excluded list, and never grows |
| ImmutableModel.WithoutNothing | immutablemodel/models.py:94 | with no mutable fields, every field is immutable, in order |
| ImmutableModel.Checked | immutablemodel/models.py:78-113 | an abstract model is untouched and accepted. A concrete model is accepted exactly when both field lists are lists, not both non-empty, the lock field is PK_FIELD, a string or None, and the two flags are bools. Both lists non-empty is exactly the ValueError case; every other failure is a TypeError. On success: a declared immutable list yields the mutable list; the immutable list is the fields not mutable; the PK_FIELD marker becomes the primary key's name; quiet and is-deletable are unchanged |
| ImmutableModel.CheckOptions | immutablemodel/models.py:78-113 | the method leaves `_meta` and raises exactly as `Checked` says |
| ImmutableModel.CheckedFieldsPartition | immutablemodel/models.py:88-94 | after a successful check, each field is in exactly one of the two lists; with nothing declared all are immutable; with `immutable_fields` declared, the immutable ones are the declared ones |
| ImmutableModel.NewModelClass | immutablemodel/models.py:43-54 | a class with no immutable parent is left alone; a legacy `immutable` option raises ValueError and changes nothing; otherwise extract, reinject and check run in order |
| ImmutableModel.ResolvePolicy | immutablemodel/models.py:43-54 | a legacy option is a ValueError; a resolved policy partitions the model's fields, and its immutable fields are model fields |
| ImmutableModel.DefaultPolicy | immutablemodel/models.py:33-39 | nothing declared or inherited: all fields immutable, none mutable, the primary key is the lock field, deletable, quiet as the setting (True when unset) |
| ImmutableModel.BothFieldListsRejected | immutablemodel/models.py:88-89 | declaring both field lists non-empty is a ValueError |
| ImmutableModel.MistypedOptionRejected | immutablemodel/models.py:81-113 | a declared option of the wrong type makes resolution fail; a mistyped field list is a TypeError |
| ImmutableModel.InheritedQuietKept | immutablemodel/models.py:70-75 | when `immutable_quiet` is not declared, a successfully resolved policy's quiet flag is the value inherited on `_meta` |
| ImmutableModel.IsImmutable | immutablemodel/models.py:135-149 | with no lock field the instance is locked; a lock attribute it lacks counts as locked; otherwise the lock attribute's truth decides |
| ImmutableModel.DefaultLockIsPrimaryKey | immutablemodel/models.py:37-97 | with the lock field neither declared nor inherited, the resolved lock field is the primary key: an instance whose key is None is unlocked, and one whose key is set is locked exactly when the key is true |
| ImmutableModel.CanChangeField | immutablemodel/models.py:118-119 | a mutable field can always change; any other name exactly while the instance is unlocked |
| ImmutableModel.WriteDecision | immutablemodel/models.py:121-133 | a write is refused exactly when the name is not mutable, the instance is locked, the current value is not empty, and the new value differs; a refusal is a drop when quiet and a ValueError otherwise; so an equal value or a write to an empty field is always allowed |
| ImmutableModel.DeleteDecision | immutablemodel/models.py:151-159 | a locked instance of a non-deletable model is kept (quiet) or raises CantDeleteImmutableException (strict); anything else is deleted |
| ImmutableModel.LockedButUnsealedCanBeUnlocked | immutablemodel/models.py:121-145 | an instance lacking its lock attribute counts as locked, yet writing False to the lock field is allowed and then a different value for an immutable field is stored |
| ImmutableModel.StepKeepsSealed | immutablemodel/models.py:121-133 | one non-file write keeps a sealed instance (lock field not mutable, set, true, not a file) sealed, and a set immutable field keeps an equal (`==`) value |
| ImmutableModel.SealedFieldStaysFixed | immutablemodel/models.py:121-133 | through any sequence of non-file writes, a sealed instance stays sealed and a set, non-file immutable field keeps an equal (`==`) value |
| ImmutableModel.Instance.SetAttr | immutablemodel/models.py:121-133 | the instance stores the value exactly when the guard allows; otherwise it keeps its attributes and returns quietly or raises ValueError |
| ImmutableModel.Instance.Delete | immutablemodel/models.py:151-159 | the record is deleted exactly when the delete guard allows; otherwise it is kept and the guard's error is raised |
| ImmutableField.OptionsError | immutablefield/models.py:20-47 | the checks pass exactly when `immutable` is a list or None, the sign-off field a string or None, and quiet a bool; a failure is a TypeError |
| ImmutableField.CanChangeField | immutablefield/models.py:49-72 | an unlisted field can change; a listed one cannot without a sign-off field; with one, it can change exactly while the sign-off attribute is absent or false; `in` on a non-iterable list or a sign-off field that is not a string is a TypeError |
| ImmutableField.WriteDecision | immutablefield/models.py:74-87 | an exception from `can_change_field` propagates; otherwise a write is refused exactly when the field cannot change, holds a non-empty value and the new value differs, and the refusal follows quiet |
| ImmutableField.WriteRefusedIff | immutablefield/models.py:74-87 | under valid options, a write is refused exactly when the field cannot change, holds a non-empty value and the new value differs; the refusal follows quiet |
| ImmutableField.PopulatedOnceThenFixed | immutablefield/models.py:61-87 | an empty listed field can be populated once even after sign-off; a later, different value is refused |
| ImmutableField.SignOffRevocable | immutablefield/models.py:49-87 | when the sign-off field is not listed, writing False to it is stored and unlocks every listed field |
| ImmutableField.NoneListAcceptedButEveryWriteFails | immutablefield/models.py:36-50 | `immutable = None` would pass the check on `immutable`, but every write raises TypeError |
| ImmutableField.NoneListBlocksConstruction | immutablefield/models.py:17-50 | with `immutable = None`, construction with any assignment fails with TypeError at the first assignment, before the checks, and stores nothing |
| ImmutableField.Populated | immutablefield/models.py:17-18 | Django's constructor assigns in order through the guard and stops at the first exception, a TypeError or ValueError; only assigned names change, and without an exception every assigned name is present |
| ImmutableField.Initialised | immutablefield/models.py:17-47 | construction succeeds exactly when no assignment raises and the three option checks pass; an assignment's exception comes first |
| ImmutableField.Instance.SetAttr | immutablefield/models.py:74-87 | the instance stores the value exactly when the guard allows; otherwise it returns quietly or raises |
| ImmutableField.Instance.Init | immutablefield/models.py:17-47 | fields are assigned in order through the guard; the first exception aborts; then the option types are checked |
| SrcImmutableField.ImmutableModelOptions.constructor | src/immutablefield/models.py:9-16 | every attribute of the declared `ImmutableMeta` overrides the defaults `immutable = []` and `quiet = IMMUTABLE_QUIET` |
| SrcImmutableField.NewModelClass | src/immutablefield/models.py:19-25 | `ImmutableMeta` is popped from the class body and the options are built from it; a true plain value in its place raises AttributeError |
| SrcImmutableField.WriteDecision | src/immutablefield/models.py:56-71 | an `immutable` that is a string or not iterable makes every write a TypeError; for a list, a write is refused exactly when the field is listed and holds a value other than None or `''`, whatever the new value, and the refusal follows quiet; only `immutable` and `quiet` are read |
| SrcImmutableField.SignOffScenarioKeepsValue | src/immutablefield/tests/test_fields.py:29-46 | in the tests' sign-off scenario, the write to `special_id` is dropped and the value stays 1 |
| SrcImmutableField.FixedForLifetime | src/immutablefield/models.py:56-71 | a listed field holding a value other than None or `''` keeps exactly that value through any sequence of writes |
| SrcImmutableField.Instance.SetAttr | src/immutablefield/models.py:56-71 | the instance stores the value exactly when the guard allows; otherwise it returns quietly or raises |

## Left out

- Django itself is not modelled: model registration, fields and their descriptors, `save`, the database and `super().delete()`. Deletion is a flag on the instance. Django setting the primary key to None after a delete is not modelled.
- Settings lookup is a parameter (`quietSetting`, `quietDefault`), not a read of `django.conf.settings`.
- ImmutableField: an unset IMMUTABLE_QUIET is not modelled. In the source the setting is read eagerly as a `getattr` default, so it raises AttributeError at every construction (immutablefield/models.py:33) and on every refused write (:83).
- SrcImmutableField: `quietDefault` stands for the module constant IMMUTABLE_QUIET (src/immutablefield/models.py:4-7). As written, that import names `django.conf.settings` as a module and falls into the `except ImportError` branch, so the constant is True whatever the setting says.
- `Meta` classes that inherit options from a parent `Meta` by Python class inheritance are not modelled. Inherited values are modelled only as attributes already present on `_meta`.
- `immutablefield/admin.py` and `immutablefield/forms.py` (the admin and form integration) are not part of this model.
- Python lists are modelled as lists of field names. A field list holding other kinds of values cannot be expressed.
- Exception messages are not modelled, only the exception classes.
- `is None` is modelled as `== None`, which agrees on the values modelled here.
- `is not ''` is modelled as `== ''`. In the source, a unicode `u''` is not identical to `''`, so it counts as non-empty, and a locked field holding it cannot be populated. The model treats every empty string as empty.
- `getattr` raising an exception inside a property is modelled like an absent attribute (current value None), as the guards' `except` does.
- Python.Contains: `in` applied to a file, a number or another object is modelled as a TypeError. A FieldFile or an object that defines `__contains__` would behave differently.
- SrcImmutableField.NewModelClass: a truthy non-class `ImmutableMeta` is modelled as raising AttributeError. An object instance with its own `__dict__` would instead supply its attributes.
- ImmutableModel.SealedFieldStaysFixed: proved only for non-file values. A FieldFile compares equal to a file of the same name whose `_file` is None, so an equal write can make a file field empty.
- ImmutableModel.MistypedOptionRejected: states TypeError only for a mistyped field list. For the other options, two non-empty field lists raise ValueError first, so the lemma states only that resolution fails.
- The rejected writes in a sequence of writes (`AfterWrites`) are treated as caught by the caller: the value stays and the next write proceeds.
