/**
 * The small part of JavaScript's semantics that the to-do app's logic leans on:
 * optional values, what a localStorage entry can hold once read, truthiness and
 * String() of the values a JSON body can carry, String.prototype.trim, and the
 * decimal rendering of the integers that make up generated ids.
 */
module Js {

  datatype Option<+T> = None | Some(value: T) {
    /** `x ?? d`, and `x || d` where only a missing value is falsy */
    function GetOr(default: T): T {
      match this
      case Some(v) => v
      case None => default
    }
  }

  /**
   * What reading a key from localStorage and JSON-parsing it can give:
   * no entry (or an empty string), text that JSON.parse rejects, a JSON value
   * that is not an array, or an array.
   */
  datatype Stored<+T> = Missing | Corrupt | NotAList | Present(items: seq<T>)

  /**
   * The values a parsed JSON body can put in a field. Numbers are integers;
   * `Object` is any plain object.
   */
  datatype JsValue = Undefined | Null | Bool(b: bool) | Number(n: int) | Str(s: string) | Object

  /** `!!v`: false exactly for the falsy values undefined, null, false, 0 and "". */
  function Truthy(v: JsValue): (b: bool)
    ensures !b <==> v in {Undefined, Null, Bool(false), Number(0), Str("")}
  {
    match v
    case Undefined => false
    case Null => false
    case Bool(b) => b
    case Number(n) => n != 0
    case Str(s) => s != ""
    case Object => true
  }

  /** `String(v)` */
  function ToString(v: JsValue): (r: string)
    ensures v.Str? ==> r == v.s
    ensures v.Bool? ==> r == if v.b then "true" else "false"
    ensures v.Number? ==> r == IntToString(v.n)
    ensures v == Undefined ==> r == "undefined"
    ensures v == Null ==> r == "null"
    ensures v == Object ==> r == "[object Object]"
  {
    match v
    case Undefined => "undefined"
    case Null => "null"
    case Bool(b) => if b then "true" else "false"
    case Number(n) => IntToString(n)
    case Str(s) => s
    case Object => "[object Object]"
  }

  /** The characters String.prototype.trim removes: WhiteSpace and LineTerminator of ECMAScript. */
  predicate IsWhitespace(c: char) {
    c == ' ' || c == '\t' || c == '\n' || c == '\r' || c == '\U{000B}' || c == '\U{000C}'
    || c == '\U{00A0}' || c == '\U{1680}' || ('\U{2000}' <= c <= '\U{200A}')
    || c == '\U{2028}' || c == '\U{2029}' || c == '\U{202F}' || c == '\U{205F}'
    || c == '\U{3000}' || c == '\U{FEFF}'
  }

  ghost predicate AllWhitespace(s: string) {
    forall i :: 0 <= i < |s| ==> IsWhitespace(s[i])
  }

  /** Drops leading whitespace: the result is a suffix of `s`, and what was dropped is all whitespace. */
  function TrimStart(s: string): (r: string)
    ensures |r| <= |s| && r == s[|s| - |r|..]
    ensures AllWhitespace(s[..|s| - |r|])
    ensures r == [] || !IsWhitespace(r[0])
  {
    if s != [] && IsWhitespace(s[0]) then
      var rest := s[1..];
      var r := TrimStart(rest);
      assert rest[|rest| - |r|..] == s[|s| - |r|..];
      assert AllWhitespace(s[..|s| - |r|]) by {
        forall i | 0 <= i < |s| - |r| ensures IsWhitespace(s[i]) {
          if i > 0 { assert rest[..|rest| - |r|][i - 1] == s[i]; }
        }
      }
      r
    else s
  }

  /** Drops trailing whitespace: the result is a prefix of `s`, and what was dropped is all whitespace. */
  function TrimEnd(s: string): (r: string)
    ensures |r| <= |s| && r == s[..|r|]
    ensures AllWhitespace(s[|r|..])
    ensures r == [] || !IsWhitespace(r[|r| - 1])
  {
    if s != [] && IsWhitespace(s[|s| - 1]) then
      var r := TrimEnd(s[..|s| - 1]);
      assert s[|r|..] == s[..|s| - 1][|r|..] + [s[|s| - 1]];
      r
    else s
  }

  /** `r` is a slice of `s` with only whitespace on either side of it. */
  ghost predicate IsTrimOf(r: string, s: string) {
    exists i, j :: 0 <= i <= j <= |s| && r == s[i..j] && AllWhitespace(s[..i]) && AllWhitespace(s[j..])
  }

  /**
   * `s.trim()`: the input with its leading and trailing whitespace removed, and
   * nothing else (`TrimIsSlice`).
   */
  function Trim(s: string): (r: string)
    ensures |r| <= |s|
    ensures r == [] || (!IsWhitespace(r[0]) && !IsWhitespace(r[|r| - 1]))
    ensures r == [] <==> AllWhitespace(s)
  {
    TrimShape(s);
    TrimEnd(TrimStart(s))
  }

  /**
   * The trimmed text is a slice of the input with only whitespace on either
   * side. Kept out of `Trim`'s own contract so that its callers do not carry
   * the existential.
   */
  lemma TrimIsSlice(s: string)
    ensures IsTrimOf(Trim(s), s)
  {
    var a := TrimStart(s);
    SliceBetween(s, a, TrimEnd(a));
  }

  /** A prefix `r` of a suffix `a` of `s`, with whitespace around it, is a slice of `s` with whitespace around it. */
  lemma SliceBetween(s: string, a: string, r: string)
    requires |a| <= |s| && a == s[|s| - |a|..] && AllWhitespace(s[..|s| - |a|])
    requires |r| <= |a| && r == a[..|r|] && AllWhitespace(a[|r|..])
    ensures IsTrimOf(r, s)
  {
    var i := |s| - |a|;
    var j := i + |r|;
    assert r == s[i..j];
    assert a[|r|..] == s[j..];
  }

  /** Leading whitespace is all there is exactly when nothing is left after dropping it. */
  lemma TrimStartEmpty(s: string)
    ensures TrimStart(s) == [] <==> AllWhitespace(s)
  {
    var a := TrimStart(s);
    if a == [] {
      assert s[..|s| - |a|] == s;
    } else {
      assert a[0] == s[|s| - |a|];
    }
  }

  /** Trailing whitespace is all there is exactly when nothing is left after dropping it. */
  lemma TrimEndEmpty(s: string)
    ensures TrimEnd(s) == [] <==> AllWhitespace(s)
  {
    var r := TrimEnd(s);
    if r == [] {
      assert s[|r|..] == s;
    } else {
      assert r[|r| - 1] == s[|r| - 1];
    }
  }

  /** The two passes leave nothing exactly when the input is all whitespace, and keep the first character they leave. */
  lemma TrimShape(s: string)
    ensures var a := TrimStart(s); var r := TrimEnd(a);
      (r == [] <==> AllWhitespace(s)) && (r != [] ==> r[0] == a[0])
  {
    var a := TrimStart(s);
    TrimStartEmpty(s);
    TrimEndEmpty(a);
    assert a != [] ==> !AllWhitespace(a) by {
      if a != [] { assert !IsWhitespace(a[0]); }
    }
  }

  function DigitChar(d: nat): (c: char)
    requires d < 10
    ensures '0' <= c <= '9' && c as int - '0' as int == d
  {
    "0123456789"[d]
  }

  predicate AllDigits(r: string) {
    forall i :: 0 <= i < |r| ==> '0' <= r[i] <= '9'
  }

  /** The number a string of decimal digits denotes. */
  function DecimalValue(r: string): nat
    requires AllDigits(r)
  {
    if r == [] then 0 else 10 * DecimalValue(r[..|r| - 1]) + (r[|r| - 1] as int - '0' as int)
  }

  /**
   * The decimal rendering of `n`, as a template literal `${n}` writes it:
   * digits only, with no leading zero; `NatToStringValue` shows it denotes `n`.
   */
  function NatToString(n: nat): (r: string)
    ensures |r| >= 1 && AllDigits(r)
    ensures r[0] == '0' ==> n == 0 && |r| == 1
    decreases n
  {
    if n < 10 then [DigitChar(n)] else NatToString(n / 10) + [DigitChar(n % 10)]
  }

  /** The digits `NatToString` writes denote the number it was given. */
  lemma {:induction false} NatToStringValue(n: nat)
    ensures DecimalValue(NatToString(n)) == n
    decreases n
  {
    var r := NatToString(n);
    if n < 10 {
      assert r[..0] == [];
    } else {
      NatToStringValue(n / 10);
      assert r[..|r| - 1] == NatToString(n / 10);
    }
  }

  /** `String(n)` for an integer: a minus sign exactly for negatives, then the digits of its magnitude. */
  function IntToString(n: int): (r: string)
    ensures |r| >= 1 && (r[0] == '-' <==> n < 0)
    ensures n < 0 ==> r[1..] == NatToString(-n)
    ensures n >= 0 ==> r == NatToString(n)
  {
    if n < 0 then
      var r := "-" + NatToString(-n);
      assert r[1..] == NatToString(-n);
      r
    else NatToString(n)
  }
}
