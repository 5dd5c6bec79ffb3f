/** A decoded upstream JSON document and the Python operations the store
    adapters apply to it. Each operation is partial in Python (it raises on a
    value of the wrong shape); here it returns the exception as an `Err`. */
module Json {
  import opened Prelude
  import opened Text

  /** A value produced by `r.json()`. Numbers are integers (amounts in CLP);
      an object keeps its members in document order. */
  datatype Value =
    | Null
    | Bool(b: bool)
    | Int(i: int)
    | Str(s: string)
    | Array(elems: seq<Value>)
    | Object(fields: seq<(string, Value)>)

  /** Python truthiness: `None`, `False`, `0`, `""`, `[]` and `{}` are false. */
  predicate Truthy(v: Value)
  {
    match v
    case Null => false
    case Bool(b) => b
    case Int(i) => i != 0
    case Str(s) => s != []
    case Array(a) => a != []
    case Object(f) => f != []
  }

  /** The member named `key`; when a key repeats, the later member wins, as
      with Python's `json` module. */
  function Lookup(fields: seq<(string, Value)>, key: string): (r: Option<Value>)
    ensures r.None? <==> forall i :: 0 <= i < |fields| ==> fields[i].0 != key
    ensures r.Some? ==> exists i :: 0 <= i < |fields| && fields[i] == (key, r.value)
  {
    if fields == [] then None
    else if fields[|fields| - 1].0 == key then Some(fields[|fields| - 1].1)
    else Lookup(fields[..|fields| - 1], key)
  }

  /** A key held by exactly one member looks up that member's value. */
  lemma LookupUnique(fields: seq<(string, Value)>, i: nat)
    requires i < |fields|
    requires forall j :: 0 <= j < |fields| && j != i ==> fields[j].0 != fields[i].0
    ensures Lookup(fields, fields[i].0) == Some(fields[i].1)
  {
  }

  /** `v.get(key, default)`: only a dict has `.get`. A member whose value is
      JSON null yields `None`, not the default. */
  function Get(v: Value, key: string, default: Value): Result<Value, PyError>
  {
    if !v.Object? then Err(AttributeError)
    else match Lookup(v.fields, key)
      case Some(x) => Ok(x)
      case None => Ok(default)
  }

  /** `v[0]`. A dict decoded from JSON has only string keys, so `[0]` is a KeyError. */
  function First(v: Value): Result<Value, PyError>
  {
    match v
    case Array(a) => if a == [] then Err(IndexError) else Ok(a[0])
    case Str(s) => if s == [] then Err(IndexError) else Ok(Str([s[0]]))
    case Object(_) => Err(KeyError)
    case _ => Err(TypeError)
  }

  /** Length kept by the Python slice `[:n]` of a sequence of length `len`;
      a negative `n` counts from the end. */
  function SliceLength(len: nat, n: int): (r: nat)
    ensures r <= len
    ensures 0 <= n ==> r <= n
  {
    if n >= 0 then (if n < len then n else len)
    else if len + n > 0 then len + n else 0
  }

  /** `v[:n]`. */
  function SliceTo(v: Value, n: int): Result<Value, PyError>
  {
    match v
    case Array(a) => Ok(Array(a[..SliceLength(|a|, n)]))
    case Str(s) => Ok(Str(s[..SliceLength(|s|, n)]))
    case _ => Err(TypeError)
  }

  /** What `for x in v` visits: the items of a list, the one-character
      strings of a string, the keys of a dict. */
  function Elements(v: Value): Result<seq<Value>, PyError>
  {
    match v
    case Array(a) => Ok(a)
    case Str(s) => Ok(seq(|s|, i requires 0 <= i < |s| => Str([s[i]])))
    case Object(f) => Ok(seq(|f|, i requires 0 <= i < |f| => Str(f[i].0)))
    case _ => Err(TypeError)
  }

  /** `v.lower()`: only a string has it. */
  function Lower(v: Value): Result<string, PyError>
  {
    if v.Str? then Ok(LowerAscii(v.s)) else Err(AttributeError)
  }

  function Join(parts: seq<string>, sep: string): string
  {
    if parts == [] then [] else if |parts| == 1 then parts[0]
    else parts[0] + sep + Join(parts[1..], sep)
  }

  /** Python's `repr(v)` for a decoded value (strings in single quotes). */
  function Repr(v: Value): string
    decreases v
  {
    match v
    case Null => "None"
    case Bool(b) => if b then "True" else "False"
    case Int(i) => IntToString(i)
    case Str(s) => "'" + s + "'"
    case Array(a) => "[" + Join(seq(|a|, k requires 0 <= k < |a| => Repr(a[k])), ", ") + "]"
    case Object(f) =>
      "{" + Join(seq(|f|, k requires 0 <= k < |f| => "'" + f[k].0 + "': " + Repr(f[k].1)), ", ") + "}"
  }

  /** Python's `str(v)`, as used by f-strings and `str(pid)`. */
  function ToText(v: Value): (r: string)
    ensures v.Str? ==> r == v.s
    ensures v.Int? ==> r == IntToString(v.i)
  {
    if v.Str? then v.s else Repr(v)
  }

  function Pow10(n: nat): (r: real)
    ensures r >= 1.0
  {
    if n == 0 then 1.0 else 10.0 * Pow10(n - 1)
  }

  /** The number a string made of digits and at most one '.' denotes, as
      Python's `float` reads it: `"12"`, `"1.5"`, `".5"` and `"5."` are
      numbers; `""`, `"."` and `"1.2.3"` are not. */
  function Numeral(t: string): (r: Option<real>)
    ensures r.Some? ==> r.value >= 0.0
  {
    if !(forall j :: 0 <= j < |t| ==> IsDigitOrDot(t[j])) then None
    else match FindFrom(t, ".", 0)
      case None =>
        if t == [] then None
        else
          assert AllDigits(t) by {
            forall j | 0 <= j < |t| ensures IsDigit(t[j]) {
              assert !OccursAt(t, ".", j) && t[j..j + 1] == [t[j]];
            }
          }
          Some(DigitsValue(t) as real)
      case Some(k) =>
        var whole, frac := t[..k], t[k + 1..];
        if Contains(frac, ".") || (whole == [] && frac == []) then None
        else
          assert AllDigits(whole) by {
            forall j | 0 <= j < k ensures IsDigit(whole[j]) {
              assert !OccursAt(t, ".", j) && t[j..j + 1] == [t[j]];
            }
          }
          assert AllDigits(frac) by {
            ContainsIff(frac, ".");
            forall j | 0 <= j < |frac| ensures IsDigit(frac[j]) {
              assert !OccursAt(frac, ".", j) && frac[j..j + 1] == [frac[j]];
            }
          }
          Some(DecimalValue(whole, frac))
  }

  /** The number `whole.frac` denotes. */
  function DecimalValue(whole: string, frac: string): (r: real)
    requires AllDigits(whole) && AllDigits(frac)
    ensures r >= DigitsValue(whole) as real
  {
    DigitsValue(whole) as real + DigitsValue(frac) as real / Pow10(|frac|)
  }

  /** A string with digits only denotes the integer those digits spell. */
  lemma NumeralOfDigits(t: string)
    requires AllDigits(t) && t != []
    ensures Numeral(t) == Some(DigitsValue(t) as real)
  {
    forall j | 0 <= j < |t| ensures !OccursAt(t, ".", j) {
      assert t[j..j + 1] == [t[j]];
    }
  }

  /** Python's `float(s)` for a string: surrounding whitespace and one sign
      are allowed around a decimal numeral. */
  function ParseFloat(s: string): Result<real, PyError>
  {
    var t := Strip(s);
    var signed := t != [] && (t[0] == '-' || t[0] == '+');
    var sign := if signed && t[0] == '-' then -1.0 else 1.0;
    var body := if signed then t[1..] else t;
    match Numeral(body)
    case Some(x) => Ok(sign * x)
    case None => Err(ValueError("could not convert string to float: " + Repr(Str(s))))
  }

  /** Python's `float(v)`. */
  function ToFloat(v: Value): Result<real, PyError>
  {
    match v
    case Int(i) => Ok(i as real)
    case Bool(b) => Ok(if b then 1.0 else 0.0)
    case Str(s) => ParseFloat(s)
    case _ => Err(TypeError)
  }

  /** Python's `a == b` on decoded values: `True == 1` and `False == 0`. */
  predicate PyEq(a: Value, b: Value)
  {
    if (a.Int? || a.Bool?) && (b.Int? || b.Bool?) then NumberOf(a) == NumberOf(b) else a == b
  }

  function NumberOf(v: Value): int
    requires v.Int? || v.Bool?
  {
    if v.Int? then v.i else if v.b then 1 else 0
  }
}
