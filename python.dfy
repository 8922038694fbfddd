/** The small part of Python's value semantics the immutability guards depend on:
    truth values, the "empty" tests, equality and the `in` operator. */
module Python {

  datatype Option<+T> = None | Some(value: T) {
    function GetOr(default: T): T {
      match this
      case Some(v) => v
      case None => default
    }
  }

  /** The exceptions the guards and the option checks raise. */
  datatype Error = TypeError | ValueError | AttributeError | CantDeleteImmutable

  datatype Result<+T> = Success(value: T) | Failure(error: Error)

  /** A Python value as stored in a model attribute or declared as an option.
      Lists only ever hold field names here; `VFile` is a Django FieldFile whose
      `_file` is set (`hasFile`) or None; `VObject` is any other object, told
      apart by identity. */
  datatype Value =
    | VNone
    | VBool(b: bool)
    | VInt(i: int)
    | VStr(s: string)
    | VList(items: seq<string>)
    | VFile(name: string, hasFile: bool)
    | VObject(id: nat)

  /** Python's `bool(v)`; a FieldFile is true when it has a name. */
  predicate Truthy(v: Value) {
    match v
    case VNone => false
    case VBool(b) => b
    case VInt(i) => i != 0
    case VStr(s) => s != ""
    case VList(items) => items != []
    case VFile(name, _) => name != ""
    case VObject(_) => true
  }

  /** The emptiness test of the two newer guards: the value is None, is `''`, or
      is a file whose `_file` is None. */
  predicate IsEmpty(v: Value) {
    v == VNone || v == VStr("") || (v.VFile? && !v.hasFile)
  }

  /** The emptiness test of the oldest guard, which has no file probe. */
  predicate IsNoneOrBlank(v: Value) {
    v == VNone || v == VStr("")
  }

  /** Python's `a == b`: booleans compare equal to the integers 0 and 1, and a
      FieldFile compares equal to its name and to any file of the same name. */
  predicate PyEq(a: Value, b: Value) {
    match (a, b)
    case (VBool(x), VInt(i)) => (if x then 1 else 0) == i
    case (VInt(i), VBool(x)) => (if x then 1 else 0) == i
    case (VFile(n, _), VStr(s)) => n == s
    case (VStr(s), VFile(n, _)) => n == s
    case (VFile(n, _), VFile(m, _)) => n == m
    case _ => a == b
  }

  /** `sub` occurs in `s` starting at index `i`. */
  predicate OccursAt(sub: string, s: string, i: int) {
    0 <= i && i + |sub| <= |s| && s[i..i + |sub|] == sub
  }

  /** `sub in s` for two strings: `sub` occurs somewhere in `s`. */
  predicate IsSubstring(sub: string, s: string) {
    exists i | 0 <= i <= |s| :: OccursAt(sub, s, i)
  }

  /** Python's `name in container`: membership for a list, substring search for a
      string, and a TypeError for a value that is not iterable. */
  function Contains(container: Value, name: string): (r: Result<bool>)
    ensures container.VList? ==> r == Success(name in container.items)
    ensures r.Failure? <==> !(container.VList? || container.VStr?)
    ensures r.Failure? ==> r.error == TypeError
    ensures container.VStr? && name == container.s ==> r == Success(true)
    ensures container.VStr? && |name| > |container.s| ==> r == Success(false)
  {
    match container
    case VList(items) => Success(name in items)
    case VStr(s) =>
      assert name == s ==> OccursAt(name, s, 0);
      Success(IsSubstring(name, s))
    case _ => Failure(TypeError)
  }

  /** `==` is an equivalence relation on the values modelled here. */
  lemma PyEqIsEquivalence(a: Value, b: Value, c: Value)
    ensures PyEq(a, a)
    ensures PyEq(a, b) ==> PyEq(b, a)
    ensures PyEq(a, b) && PyEq(b, c) ==> PyEq(a, c)
  {
  }

  /** Values that are equal in Python and are not files agree on emptiness and on
      truth: replacing one by the other cannot unlock or empty anything. */
  lemma PyEqPreservesEmptinessAndTruth(a: Value, b: Value)
    requires PyEq(a, b) && !a.VFile? && !b.VFile?
    ensures IsEmpty(a) <==> IsEmpty(b)
    ensures Truthy(a) <==> Truthy(b)
  {
  }
}
