/**
 * The pieces of JavaScript's own semantics that the modelled code relies on:
 * plain values and their truthiness, object spread, the whitespace class,
 * integer-to-text conversion and `parseInt`.
 */
module Js {
  import opened Common

  /**
   * A plain JavaScript value as forms and request bodies carry it. Objects are
   * maps from property name to value; a missing property reads as Undefined.
   * Numbers are reals, plus NaN; the infinities are not represented.
   */
  datatype JsValue =
    | Undefined
    | Null
    | Bool(b: bool)
    | Num(n: real)
    | NaN
    | Str(s: string)
    | Arr(items: seq<JsValue>)
    | Obj(fields: map<string, JsValue>)

  /** `!!v`: the falsy values are undefined, null, false, 0, NaN and the empty string. */
  predicate Truthy(v: JsValue) {
    match v
    case Undefined => false
    case Null => false
    case Bool(b) => b
    case Num(n) => n != 0.0
    case NaN => false
    case Str(s) => s != ""
    case Arr(_) => true
    case Obj(_) => true
  }

  /** `v == null`, the test behind `?.` and `??`. */
  predicate Nullish(v: JsValue) {
    v.Undefined? || v.Null?
  }

  /** Property read on an object value: `o[k]`, undefined when absent. */
  function Get(o: map<string, JsValue>, k: string): JsValue {
    if k in o then o[k] else Undefined
  }

  /**
   * `v?.k`: undefined when `v` is null or undefined; a property read otherwise.
   * Only objects carry properties in this model.
   */
  function OptGet(v: JsValue, k: string): (r: JsValue)
    ensures Nullish(v) ==> r == Undefined
    ensures r != Undefined ==> v.Obj? && k in v.fields && r == v.fields[k]
  {
    match v
    case Obj(m) => Get(m, k)
    case _ => Undefined
  }

  /** `a || b`. */
  function Or(a: JsValue, b: JsValue): (r: JsValue)
    ensures Truthy(a) ==> r == a
    ensures !Truthy(a) ==> r == b
  {
    if Truthy(a) then a else b
  }

  /** A string-valued option truthy in JavaScript: present and non-empty. */
  predicate Given(o: Option<string>) {
    o.Some? && o.value != ""
  }

  // ---------------------------------------------------------------------
  // Characters

  /** JavaScript's `\s`: WhiteSpace and LineTerminator code points. */
  predicate IsSpace(c: char) {
    c == '\t' || c == '\n' || c == '\U{000B}' || c == '\U{000C}' || c == '\r' ||
    c == ' ' || c == '\U{00A0}' || c == '\U{1680}' ||
    ('\U{2000}' <= c <= '\U{200A}') ||
    c == '\U{2028}' || c == '\U{2029}' || c == '\U{202F}' || c == '\U{205F}' ||
    c == '\U{3000}' || c == '\U{FEFF}'
  }

  predicate IsDigit(c: char) {
    '0' <= c <= '9'
  }

  /** JavaScript's `\w`: ASCII letters, digits and underscore. */
  predicate IsWordChar(c: char) {
    IsDigit(c) || ('a' <= c <= 'z') || ('A' <= c <= 'Z') || c == '_'
  }

  predicate AllDigits(s: string) {
    forall i :: 0 <= i < |s| ==> IsDigit(s[i])
  }

  // ---------------------------------------------------------------------
  // Integer to text, as `${n}` and `n.toString()` print an integral number

  function DigitChar(d: nat): (c: char)
    requires d < 10
    ensures IsDigit(c)
  {
    "0123456789"[d]
  }

  /** Decimal digits of `n`, most significant first, with no leading zero. */
  function NatToString(n: nat): (s: string)
    ensures |s| > 0 && AllDigits(s)
    ensures n < 10 ==> |s| == 1
    ensures n >= 10 ==> s[0] != '0'
    decreases n
  {
    if n < 10 then [DigitChar(n)] else NatToString(n / 10) + [DigitChar(n % 10)]
  }

  function IntToString(n: int): (s: string)
    ensures |s| > 0
    ensures n >= 0 ==> AllDigits(s)
    ensures n < 0 ==> s[0] == '-' && AllDigits(s[1..])
  {
    if n < 0 then "-" + NatToString(-n) else NatToString(n)
  }

  // ---------------------------------------------------------------------
  // parseInt(text) with the radix left out

  /** Value of a digit character in radix 10 or 16, if it is one. */
  function DigitValue(c: char, radix: nat): (r: Option<nat>)
    ensures r.Some? ==> r.value < radix
  {
    if '0' <= c <= '9' && (c as int - '0' as int) < radix then Some(c as int - '0' as int)
    else if radix == 16 && 'a' <= c <= 'f' then Some(c as int - 'a' as int + 10)
    else if radix == 16 && 'A' <= c <= 'F' then Some(c as int - 'A' as int + 10)
    else None
  }

  /** Leading whitespace removed, as the first step of parseInt does. */
  function TrimStart(s: string): (r: string)
    ensures |r| <= |s| && r == s[|s| - |r|..]
    ensures r == [] || !IsSpace(r[0])
  {
    if s != [] && IsSpace(s[0]) then TrimStart(s[1..]) else s
  }

  /** The longest prefix of `s` made of digits of `radix`. */
  function DigitPrefix(s: string, radix: nat): (r: string)
    ensures |r| <= |s| && r == s[..|r|]
    ensures forall i :: 0 <= i < |r| ==> DigitValue(r[i], radix).Some?
    ensures |r| < |s| ==> DigitValue(s[|r|], radix).None?
  {
    if s != [] && DigitValue(s[0], radix).Some? then [s[0]] + DigitPrefix(s[1..], radix) else []
  }

  /** The number the digits `ds` denote in `radix`. */
  function DigitsValue(ds: string, radix: nat): nat
    requires forall i :: 0 <= i < |ds| ==> DigitValue(ds[i], radix).Some?
  {
    if ds == [] then 0
    else DigitsValue(ds[..|ds| - 1], radix) * radix + DigitValue(ds[|ds| - 1], radix).value
  }

  /** The digits at the head of `u` in `radix`; None when there is none. */
  function ParseDigits(u: string, radix: nat): (r: Option<nat>)
    ensures r.None? <==> DigitPrefix(u, radix) == []
  {
    var ds := DigitPrefix(u, radix);
    if ds == [] then None else Some(DigitsValue(ds, radix))
  }

  /** An unsigned number: hexadecimal after "0x"/"0X", decimal otherwise. */
  function ParseMagnitude(u: string): Option<nat> {
    if |u| >= 2 && u[0] == '0' && (u[1] == 'x' || u[1] == 'X') then ParseDigits(u[2..], 16)
    else ParseDigits(u, 10)
  }

  /** One optional sign, then the magnitude. */
  function ParseSigned(t: string): Option<int> {
    if t != [] && t[0] == '-' then
      match ParseMagnitude(t[1..])
      case Some(m) => Some(-(m as int))
      case None => None
    else if t != [] && t[0] == '+' then
      match ParseMagnitude(t[1..])
      case Some(m) => Some(m)
      case None => None
    else
      match ParseMagnitude(t)
      case Some(m) => Some(m)
      case None => None
  }

  /**
   * `parseInt(s)` with the radix left out: skip leading whitespace, take one
   * optional sign, read a hexadecimal number after "0x"/"0X" and a decimal one
   * otherwise, stop at the first character that is not a digit. None stands
   * for NaN (no digit at all).
   */
  function ParseInt(s: string): Option<int> {
    ParseSigned(TrimStart(s))
  }

  lemma DigitCharValue(d: nat)
    requires d < 10
    ensures DigitValue(DigitChar(d), 10) == Some(d)
  {
    if d == 0 {} else if d == 1 {} else if d == 2 {} else if d == 3 {} else if d == 4 {}
    else if d == 5 {} else if d == 6 {} else if d == 7 {} else if d == 8 {} else {}
  }

  lemma AllDigitsDecimal(s: string)
    requires AllDigits(s)
    ensures forall i :: 0 <= i < |s| ==> DigitValue(s[i], 10).Some?
  {
  }

  /** The decimal digits printed for `n` read back as `n`. */
  lemma {:induction false} NatToStringValue(n: nat)
    ensures AllDigits(NatToString(n))
    ensures DigitPrefix(NatToString(n), 10) == NatToString(n)
    ensures DigitsValue(NatToString(n), 10) == n
    decreases n
  {
    var s := NatToString(n);
    AllDigitsDecimal(s);
    DigitPrefixOfDigits(s);
    if n < 10 {
      DigitCharValue(n);
    } else {
      NatToStringValue(n / 10);
      DigitCharValue(n % 10);
      assert s[..|s| - 1] == NatToString(n / 10);
      assert s[|s| - 1] == DigitChar(n % 10);
    }
  }

  lemma {:induction false} DigitPrefixOfDigits(s: string)
    requires forall i :: 0 <= i < |s| ==> DigitValue(s[i], 10).Some?
    ensures DigitPrefix(s, 10) == s
    decreases |s|
  {
    if s != [] {
      DigitPrefixOfDigits(s[1..]);
    }
  }

  /** A printed natural number reads back as a decimal magnitude: it never starts with "0x". */
  lemma MagnitudeOfNatToString(m: nat)
    ensures ParseMagnitude(NatToString(m)) == Some(m)
  {
    var d := NatToString(m);
    NatToStringValue(m);
    assert ParseDigits(d, 10) == Some(m);
    if |d| >= 2 {
      assert m >= 10 && d[0] != '0';
    }
  }

  /** Text that does not start with white space is left alone by the trim. */
  lemma TrimStartOfNoSpace(s: string)
    requires s != [] && !IsSpace(s[0])
    ensures TrimStart(s) == s
  {
  }

  /** A leading '-' negates the magnitude that follows. */
  lemma ParseSignedMinus(d: string, m: nat)
    requires ParseMagnitude(d) == Some(m)
    ensures ParseSigned("-" + d) == Some(-(m as int))
  {
    assert ("-" + d)[1..] == d;
  }

  /** Text starting with a digit has no sign: it is read as a magnitude. */
  lemma ParseSignedDigit(d: string)
    requires d != [] && IsDigit(d[0])
    ensures ParseSigned(d) == match ParseMagnitude(d) case Some(m) => Some(m as int) case None => None
  {
  }

  /** Round trip: parseInt reads back every integer that `${n}` prints. */
  lemma ParseIntOfIntToString(n: int)
    ensures ParseInt(IntToString(n)) == Some(n)
  {
    var m: nat := if n < 0 then -n else n;
    var d := NatToString(m);
    MagnitudeOfNatToString(m);
    if n < 0 {
      assert IntToString(n) == "-" + d;
      TrimStartOfNoSpace("-" + d);
      ParseSignedMinus(d, m);
    } else {
      assert IntToString(n) == d;
      TrimStartOfNoSpace(d);
      ParseSignedDigit(d);
    }
  }
}
