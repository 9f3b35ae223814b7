/**
 * The PHP values that cross the SOAP boundary, and the handful of PHP
 * built-ins the plugin applies to them: `empty()`, loose comparison with
 * null, property access on a decoded object, `trim`, `explode` and
 * `strrpos`. Strings are sequences of characters, one character per byte.
 */
module Php {

  datatype Option<+T> = None | Some(value: T)

  /**
   * A decoded PHP value: a scalar, a list-shaped array (what the SOAP
   * extension produces with SOAP_SINGLE_ELEMENT_ARRAYS), or a stdClass
   * object with its properties.
   */
  datatype Value =
    | Null
    | Bool(b: bool)
    | Int(i: int)
    | Str(s: string)
    | List(items: seq<Value>)
    | Obj(props: map<string, Value>)

  /** `empty($s)` for a string: only "" and "0" are empty. */
  predicate EmptyString(s: string)
  {
    s == "" || s == "0"
  }

  /** `empty($v)`: null, false, 0, "", "0" and the empty array; never an object. */
  predicate Empty(v: Value)
  {
    match v
    case Null => true
    case Bool(b) => !b
    case Int(i) => i == 0
    case Str(s) => EmptyString(s)
    case List(items) => items == []
    case Obj(_) => false
  }

  /**
   * The loose comparison `$v == null`. It differs from empty() on "0":
   * null is compared with a string as the empty string.
   */
  predicate IsNullish(v: Value)
  {
    match v
    case Null => true
    case Bool(b) => !b
    case Int(i) => i == 0
    case Str(s) => s == ""
    case List(items) => items == []
    case Obj(_) => false
  }

  lemma NullishIsEmpty(v: Value)
    ensures IsNullish(v) ==> Empty(v)
    ensures Empty(v) && !IsNullish(v) <==> v == Str("0")
  {
  }

  /** `$v->name`: the property of an object, null when absent or not an object. */
  function Prop(v: Value, name: string): (r: Value)
    ensures r != Null ==> v.Obj? && name in v.props && v.props[name] == r
  {
    if v.Obj? && name in v.props then v.props[name] else Null
  }

  /** `is_array($v)`. */
  predicate IsArray(v: Value)
  {
    v.List?
  }

  /**
   * The elements `foreach ($v as $x)` visits for an array; a scalar or null
   * is skipped (PHP warns and does not enter the loop). PHP would visit an
   * object's public properties; the model visits none, since the values the
   * plugin iterates are the arrays the SOAP client decodes with
   * SOAP_SINGLE_ELEMENT_ARRAYS.
   */
  function Items(v: Value): seq<Value>
  {
    if v.List? then v.items else []
  }

  /** `$v > 0` for the integer counters the service reports. */
  predicate IsPositive(v: Value)
  {
    match v
    case Int(i) => i > 0
    case Bool(b) => b
    case _ => false
  }

  /** The characters `trim()` strips by default: space, \t, \n, \r, \0 and \x0B. */
  predicate IsTrimChar(c: char)
  {
    c == ' ' || c == '\t' || c == '\n' || c == '\r' || c == '\0' || c == '\U{0B}'
  }

  /** `ltrim($s)`. */
  function TrimLeft(s: string): (r: string)
    ensures |r| <= |s| && r == s[|s| - |r|..]
    ensures forall i :: 0 <= i < |s| - |r| ==> IsTrimChar(s[i])
    ensures r == [] || !IsTrimChar(r[0])
  {
    if |s| > 0 && IsTrimChar(s[0]) then TrimLeft(s[1..]) else s
  }

  /** `rtrim($s)`. */
  function TrimRight(s: string): (r: string)
    ensures |r| <= |s| && r == s[..|r|]
    ensures forall i :: |r| <= i < |s| ==> IsTrimChar(s[i])
    ensures r == [] || !IsTrimChar(r[|r| - 1])
  {
    if |s| > 0 && IsTrimChar(s[|s| - 1]) then TrimRight(s[..|s| - 1]) else s
  }

  /** How many trimmed characters `ltrim` drops from the front of s. */
  function Leading(s: string): (n: nat)
    ensures n <= |s|
  {
    |s| - |TrimLeft(s)|
  }

  /**
   * `trim($s)`: the infix of s that starts after its leading run of trimmed
   * characters, neither starts nor ends with one, and is followed only by
   * trimmed characters.
   */
  function Trim(s: string): (r: string)
    ensures Leading(s) + |r| <= |s| && r == s[Leading(s)..Leading(s) + |r|]
    ensures forall k :: 0 <= k < Leading(s) ==> IsTrimChar(s[k])
    ensures forall k :: Leading(s) + |r| <= k < |s| ==> IsTrimChar(s[k])
    ensures r == [] || (!IsTrimChar(r[0]) && !IsTrimChar(r[|r| - 1]))
  {
    TrimRight(TrimLeft(s))
  }

  /**
   * `strrpos($s, $c)` for a one-character needle: the last index of c in s,
   * or -1 for PHP's `false`.
   */
  function LastIndexOf(s: string, c: char): (pos: int)
    ensures -1 <= pos < |s|
    ensures pos >= 0 ==> s[pos] == c
    ensures forall k :: pos < k < |s| ==> s[k] != c
  {
    if |s| == 0 then -1
    else if s[|s| - 1] == c then |s| - 1
    else LastIndexOf(s[..|s| - 1], c)
  }

  /** `explode($sep, $s)`: the pieces of s between occurrences of sep. */
  function Explode(s: string, sep: char): (parts: seq<string>)
    ensures |parts| >= 1
    ensures forall p :: p in parts ==> sep !in p
  {
    if |s| == 0 then [""]
    else
      var rest := Explode(s[1..], sep);
      if s[0] == sep then [""] + rest
      else [[s[0]] + rest[0]] + rest[1..]
  }

  /** `implode($sep, $parts)`, the inverse of explode. */
  function Implode(parts: seq<string>, sep: char): string
  {
    if |parts| == 0 then ""
    else if |parts| == 1 then parts[0]
    else parts[0] + [sep] + Implode(parts[1..], sep)
  }

  /** Exploding and then imploding with the same separator gives back the string. */
  lemma {:induction false} ImplodeExplode(s: string, sep: char)
    ensures Implode(Explode(s, sep), sep) == s
  {
    if |s| > 0 {
      var rest := Explode(s[1..], sep);
      ImplodeExplode(s[1..], sep);
      if s[0] == sep {
        assert Explode(s, sep) == [""] + rest;
      } else {
        var parts := Explode(s, sep);
        assert parts == [[s[0]] + rest[0]] + rest[1..];
        if |rest| == 1 {
          assert Implode(parts, sep) == [s[0]] + rest[0];
        } else {
          assert parts[1..] == rest[1..];
          assert Implode(rest, sep) == rest[0] + [sep] + Implode(rest[1..], sep);
        }
      }
    }
  }
}
