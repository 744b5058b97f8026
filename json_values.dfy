/** The optional value used for absent fields, absent query arguments and failed lookups. */
module Wrappers {
  datatype Option<+T> = None | Some(value: T) {
    function GetOr(default: T): T {
      match this
      case Some(v) => v
      case None => default
    }
  }
}

/**
 * JSON values as Python's `json` module hands them to a request handler, together with the
 * few pieces of Python semantics the handlers apply to them: truthiness (`not content`),
 * membership (`"name" in content`) and `isinstance(v, int)`.
 */
module JsonValues {

  datatype Json =
    | Null
    | Bool(b: bool)
    | Int(i: int)
    | Float(f: real)
    | Str(s: string)
    | Arr(items: seq<Json>)
    | Obj(fields: map<string, Json>)

  /** Python's `bool(v)`: None, False, zero, and empty strings, lists and dicts are false. */
  predicate Truthy(v: Json) {
    match v
    case Null => false
    case Bool(b) => b
    case Int(i) => i != 0
    case Float(f) => f != 0.0
    case Str(s) => s != ""
    case Arr(items) => items != []
    case Obj(fields) => fields != map[]
  }

  /** `key in v` evaluates without a TypeError only for strings, lists and dicts. */
  predicate SupportsIn(v: Json) {
    v.Str? || v.Arr? || v.Obj?
  }

  /** `key` occurs as a contiguous substring of `s` (Python's `key in s` on strings). */
  predicate IsSubstring(key: string, s: string) {
    key <= s || (s != [] && IsSubstring(key, s[1..]))
  }

  /**
   * Python's `key in v` for a string key: a substring test on a string, an element test
   * on a list (only an equal string matches), a key test on a dict.
   */
  predicate Contains(v: Json, key: string)
    requires SupportsIn(v)
  {
    match v
    case Str(s) => IsSubstring(key, s)
    case Arr(items) => Str(key) in items
    case Obj(fields) => key in fields
  }

  /** `isinstance(v, int)`: Python's bool is a subclass of int, so both pass; floats do not. */
  predicate IsPyInt(v: Json) {
    v.Int? || v.Bool?
  }

  /** On a dict, membership is exactly key presence. */
  lemma ContainsOnObject(v: Json, key: string)
    requires v.Obj?
    ensures Contains(v, key) <==> key in v.fields
  {
  }

  /** A string holding the key anywhere, after any prefix `a` and before any suffix `b`, passes the membership test. */
  lemma {:induction false} ContainsInString(a: string, key: string, b: string)
    ensures Contains(Str(a + key + b), key)
    decreases |a|
  {
    var s := a + key + b;
    if a == [] {
      assert s == key + b;
      assert key <= s;
    } else {
      ContainsInString(a[1..], key, b);
      assert s[1..] == a[1..] + key + b;
    }
  }

  /** Conversely, a string that passes the membership test holds the key after some prefix and before some suffix. */
  lemma {:induction false} StringContainsSplits(key: string, s: string)
    requires Contains(Str(s), key)
    ensures exists a, b :: s == a + key + b
    decreases |s|
  {
    if key <= s {
      assert s == [] + key + s[|key|..];
    } else {
      StringContainsSplits(key, s[1..]);
      var a, b :| s[1..] == a + key + b;
      assert s == [s[0]] + a + key + b;
    }
  }
}
