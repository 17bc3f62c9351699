/** Python values as they appear in a plot's keyword arguments (`pargs`),
    Python truthiness and `str()`, the exceptions the trigger plots can
    raise, and the two dictionary operations they use: `pop` and
    `setdefault`. */
module Values {
  import opened Strings

  /** A configuration value: `None`, a bool, an int, a float, a string, or a
      list/tuple of values. */
  datatype Value =
    | Null
    | Bool(b: bool)
    | Int(i: int)
    | Real(r: real)
    | Str(s: string)
    | Seq(items: seq<Value>)

  /** Python's truth value: `None`, `False`, `0`, `0.0`, `''` and empty
      sequences are false, everything else is true. */
  predicate Truthy(v: Value)
  {
    match v
    case Null => false
    case Bool(b) => b
    case Int(i) => i != 0
    case Real(r) => r != 0.0
    case Str(s) => s != ""
    case Seq(items) => items != []
  }

  /** `str(v)`. Python's float formatting is not modelled: `showReal` stands
      for it. A list prints as its elements' `repr`s between brackets. */
  function ToStr(v: Value, showReal: real -> string): string
  {
    match v
    case Null => "None"
    case Bool(b) => if b then "True" else "False"
    case Int(i) => IntToString(i)
    case Real(r) => showReal(r)
    case Str(s) => s
    case Seq(items) => "[" + Join(Reprs(items, showReal), ", ") + "]"
  }

  /** `repr(v)`: like `str` but a string is quoted. A string is always put
      in single quotes as it is: Python's switch to double quotes for a
      string holding `'`, its escaping of backslashes and control
      characters, and the `u` prefix of Python 2 unicode strings are not
      modelled. */
  function Repr(v: Value, showReal: real -> string): string
  {
    match v
    case Str(s) => "'" + s + "'"
    case Seq(items) => "[" + Join(Reprs(items, showReal), ", ") + "]"
    case Null => "None"
    case Bool(b) => if b then "True" else "False"
    case Int(i) => IntToString(i)
    case Real(r) => showReal(r)
  }

  function Reprs(items: seq<Value>, showReal: real -> string): seq<string>
  {
    if items == [] then [] else [Repr(items[0], showReal)] + Reprs(items[1..], showReal)
  }

  /** The Python exceptions raised by the modelled code. */
  datatype PlotError =
    | KeyError(key: string)        // `dict.pop(key)` without a default
    | ValueError(message: string)  // a rate plot configured without `stride` or `bins`
    | TypeError                    // an operation applied to a value of the wrong type
    | StopIteration                // `next()` on a cycle over an empty list
    | NameError(name: string)      // a name that is not defined where it is used
    | ZeroDivisionError            // a float divided by zero
    | IndexError                   // the first element of an empty list

  datatype Result<+T> = Ok(value: T) | Err(error: PlotError)

  datatype Option<+T> = None | Some(value: T)

  /** Iterating over a value (`for x in v`): a list yields its items, a
      string its characters; anything else raises `TypeError`. */
  function Iterate(v: Value): (r: Result<seq<Value>>)
    ensures v.Seq? ==> r == Ok(v.items)
    ensures v.Str? ==> r.Ok? && |r.value| == |v.s| &&
                       forall i :: 0 <= i < |v.s| ==> r.value[i] == Str([v.s[i]])
    ensures !v.Seq? && !v.Str? ==> r == Err(TypeError)
  {
    match v
    case Seq(items) => Ok(items)
    case Str(s) => Ok(seq(|s|, i requires 0 <= i < |s| => Str([s[i]])))
    case _ => Err(TypeError)
  }

  /** `d.pop(key, default)`: the value under `key` if there is one, else the
      default. */
  function PopOr(d: map<string, Value>, key: string, default: Value): (r: (Value, map<string, Value>))
    ensures r.1 == d - {key}
    ensures r.0 == if key in d then d[key] else default
  {
    (if key in d then d[key] else default, d - {key})
  }

  /** `d.setdefault(key, v)`: insert only when the key is absent. */
  function SetDefault(d: map<string, Value>, key: string, v: Value): (r: map<string, Value>)
    ensures key in r && r.Keys == d.Keys + {key}
    ensures forall k :: k in d ==> r[k] == d[k]
    ensures key !in d ==> r[key] == v
  {
    if key in d then d else d[key := v]
  }

  /** `d.get(key, default)`. */
  function GetOr(d: map<string, Value>, key: string, default: Value): Value
  {
    if key in d then d[key] else default
  }

  /** Every entry of `a` is in `b` with the same value. */
  predicate Within(a: map<string, Value>, b: map<string, Value>)
  {
    forall k :: k in a ==> k in b && a[k] == b[k]
  }

  /** The length of a two-way `zip`. */
  function Min2(a: nat, b: nat): (r: nat)
    ensures r <= a && r <= b && (r == a || r == b)
  {
    if a <= b then a else b
  }

  /** Channel names as a list value of strings. */
  function Strs(names: seq<string>): (r: seq<Value>)
    ensures |r| == |names|
    ensures forall i :: 0 <= i < |names| ==> r[i] == Str(names[i])
  {
    seq(|names|, i requires 0 <= i < |names| => Str(names[i]))
  }
}
