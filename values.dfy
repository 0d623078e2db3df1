/**
 * JavaScript values as the radar chart reads them from its options: the
 * few operators it applies to them (truthiness, `||`, numeric coercion,
 * indexing, property lookup and `toLowerCase`) are modelled here.
 */
module Values {

  datatype Option<+T> = None | Some(value: T)

  datatype Result<+T, +E> = Ok(value: T) | Err(error: E)

  /** An option value supplied by the caller (plain objects and functions are not modelled). */
  datatype Value =
    | Undefined
    | Null
    | Bool(b: bool)
    | Num(n: real)
    | Str(s: string)
    | List(items: seq<Value>)

  /** JavaScript truthiness; reals have no NaN, so a number is falsy exactly when it is zero. */
  predicate Truthy(v: Value)
  {
    match v
    case Undefined => false
    case Null => false
    case Bool(b) => b
    case Num(n) => n != 0.0
    case Str(s) => s != ""
    case List(_) => true
  }

  /** `a || b`: the first operand when it is truthy, otherwise the second. */
  function Or(a: Value, b: Value): (r: Value)
    ensures Truthy(a) ==> r == a
    ensures !Truthy(a) ==> r == b
  {
    if Truthy(a) then a else b
  }

  /** Numeric coercion as `/` and `<` apply it; `None` stands for NaN. */
  function ToNumber(v: Value): (r: Option<real>)
    ensures Truthy(v) && r.Some? ==> r.value != 0.0
    ensures v.Num? ==> r == Some(v.n)
  {
    match v
    case Undefined => None
    case Null => Some(0.0)
    case Bool(b) => Some(if b then 1.0 else 0.0)
    case Num(n) => Some(n)
    case Str(_) => None
    case List(_) => None
  }

  /** `v[i]`; JavaScript throws on `undefined[i]` and `null[i]`, so those are excluded. */
  function Index(v: Value, i: nat): (r: Value)
    requires !v.Undefined? && !v.Null?
    ensures v.List? && i < |v.items| ==> r == v.items[i]
    ensures v.Str? && i < |v.s| ==> r == Str([v.s[i]])
    ensures !v.List? && !v.Str? ==> r == Undefined
  {
    match v
    case List(items) => if i < |items| then items[i] else Undefined
    case Str(s) => if i < |s| then Str([s[i]]) else Undefined
    case _ => Undefined
  }

  /** Property lookup `o[k]` on an object given as a map; a missing key reads `undefined`. */
  function Get(m: map<string, Value>, k: string): (r: Value)
    ensures k in m ==> r == m[k]
    ensures k !in m ==> r == Undefined
  {
    if k in m then m[k] else Undefined
  }

  predicate IsUpper(c: char)
  {
    'A' <= c <= 'Z'
  }

  function LowerChar(c: char): (d: char)
    ensures !IsUpper(d)
    ensures IsUpper(c) ==> d as int == c as int + 32
    ensures !IsUpper(c) ==> d == c
  {
    if IsUpper(c) then (c as int + 32) as char else c
  }

  /** `String.prototype.toLowerCase`, for the ASCII letters. */
  function Lower(s: string): (t: string)
    ensures |t| == |s|
    ensures forall i :: 0 <= i < |t| ==> !IsUpper(t[i])
    ensures forall i :: 0 <= i < |t| ==> t[i] == LowerChar(s[i])
  {
    if s == [] then [] else [LowerChar(s[0])] + Lower(s[1..])
  }
}
