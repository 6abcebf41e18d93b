/**
 * The cost field's display pair in app/components/business/MarketingRecordForm.tsx:
 * the formatter prefixes '¥ ' and inserts thousands separators with a
 * regular-expression replace, and the parser deletes the symbol, one space
 * after it, and every separator.
 *
 * The two replaces are modelled by what they do at each position rather than
 * by a regular-expression engine.
 */
module Currency {
  import opened Js

  const Yen: char := '\U{00A5}'

  /** The length of the run of decimal digits that starts at `p`. */
  function RunLength(t: string, p: nat): (n: nat)
    requires p <= |t|
    ensures p + n <= |t|
    ensures forall i :: p <= i < p + n ==> IsDigit(t[i])
    ensures p + n < |t| ==> !IsDigit(t[p + n])
    decreases |t| - p
  {
    if p < |t| && IsDigit(t[p]) then 1 + RunLength(t, p + 1) else 0
  }

  /**
   * Where `/\B(?=(\d{3})+(?!\d))/g` matches: not at a word boundary, and
   * followed by a whole number of three-digit groups that ends the digit run.
   * A non-empty run starts with a word character, so "not a boundary" means
   * the character before is one too.
   */
  predicate SeparatorAt(t: string, p: nat)
    requires p <= |t|
  {
    p > 0 && IsWordChar(t[p - 1]) && RunLength(t, p) > 0 && RunLength(t, p) % 3 == 0
  }

  /** `t[p..]` with ',' inserted at every matching position. */
  function Separated(t: string, p: nat): (r: string)
    requires p <= |t|
    ensures |t| - p <= |r| <= 2 * (|t| - p)
    decreases |t| - p
  {
    if p == |t| then ""
    else (if SeparatorAt(t, p) then "," else "") + [t[p]] + Separated(t, p + 1)
  }

  /** The formatter: `` `¥ ${value}` `` with separators inserted. */
  function Format(value: string): (r: string)
    ensures |value| + 2 <= |r| <= 2 * (|value| + 2)
    ensures r[..2] == [Yen, ' ']
  {
    var t := [Yen, ' '] + value;
    assert !SeparatorAt(t, 0) && !SeparatorAt(t, 1);
    assert Separated(t, 0) == [Yen] + Separated(t, 1) == [Yen] + [' '] + Separated(t, 2);
    Separated(t, 0)
  }

  /** The parser: `value.replace(/\¥\s?|(,*)/g, '')`. */
  function Parse(s: string): (r: string)
    ensures |r| <= |s|
    ensures ',' !in r && Yen !in r
    decreases |s|
  {
    if s == [] then ""
    else if s[0] == Yen then
      if |s| > 1 && IsSpace(s[1]) then Parse(s[2..]) else Parse(s[1..])
    else if s[0] == ',' then Parse(s[1..])
    else [s[0]] + Parse(s[1..])
  }

  /** The digit run at `p + k` of a prefixed text is the run at `p` of the text. */
  lemma {:induction false} RunLengthShift(u: string, v: string, p: nat)
    requires p <= |v|
    ensures RunLength(u + v, |u| + p) == RunLength(v, p)
    decreases |v| - p
  {
    if p < |v| {
      assert (u + v)[|u| + p] == v[p];
      RunLengthShift(u, v, p + 1);
    }
  }

  /** A separator goes at the same place of a text whether or not a prefix ending in a non-word character comes first. */
  lemma SeparatorAtShift(u: string, v: string, p: nat)
    requires p < |v|
    requires |u| > 0 && !IsWordChar(u[|u| - 1])
    ensures SeparatorAt(u + v, |u| + p) == SeparatorAt(v, p)
  {
    RunLengthShift(u, v, p);
    if p == 0 {
      assert (u + v)[|u| - 1] == u[|u| - 1];
    } else {
      assert (u + v)[|u| + p - 1] == v[p - 1];
    }
  }

  /** Separating a prefixed text after its prefix depends only on the text. */
  lemma {:induction false} SeparatedShift(u: string, v: string, p: nat)
    requires p <= |v|
    requires |u| > 0 && !IsWordChar(u[|u| - 1])
    ensures Separated(u + v, |u| + p) == Separated(v, p)
    decreases |v| - p
  {
    if p < |v| {
      var t := u + v;
      SeparatorAtShift(u, v, p);
      SeparatedShift(u, v, p + 1);
      assert t[|u| + p] == v[p];
      calc {
        Separated(t, |u| + p);
        (if SeparatorAt(t, |u| + p) then "," else "") + [t[|u| + p]] + Separated(t, |u| + p + 1);
        (if SeparatorAt(v, p) then "," else "") + [v[p]] + Separated(v, p + 1);
      }
    }
  }

  /** The formatter's output is '¥ ' followed by the separated value. */
  lemma FormatIsPrefixed(value: string)
    ensures Format(value) == [Yen, ' '] + Separated(value, 0)
  {
    var t := [Yen, ' '] + value;
    SeparatedShift([Yen, ' '], value, 0);
    assert !SeparatorAt(t, 0) && !SeparatorAt(t, 1);
    assert Separated(t, 0) == [Yen] + Separated(t, 1);
    assert Separated(t, 1) == [' '] + Separated(t, 2);
  }

  /** Parsing a separated text gives the text back when it has no '¥' and no ','. */
  lemma {:induction false} ParseSeparated(v: string, p: nat)
    requires p <= |v|
    requires Yen !in v && ',' !in v
    ensures Parse(Separated(v, p)) == v[p..]
    decreases |v| - p
  {
    if p < |v| {
      ParseSeparated(v, p + 1);
      var rest := [v[p]] + Separated(v, p + 1);
      assert v[p] != Yen && v[p] != ',';
      assert Parse(rest) == [v[p]] + Parse(Separated(v, p + 1));
      if SeparatorAt(v, p) {
        assert Parse("," + rest) == Parse(rest);
        assert Separated(v, p) == "," + rest;
      }
      assert v[p..] == [v[p]] + v[p + 1..];
    }
  }

  /**
   * The round trip: the parser undoes the formatter on every value without
   * '¥' or ',', and so on every string of decimal digits.
   */
  lemma ParseFormat(value: string)
    requires Yen !in value && ',' !in value
    ensures Parse(Format(value)) == value
  {
    FormatIsPrefixed(value);
    ParseSeparated(value, 0);
    assert IsSpace(' ');
    assert Parse(Format(value)) == Parse(Separated(value, 0));
  }

  // ---------------------------------------------------------------------
  // Grouping digits by threes, counted from the right

  /** The usual thousands grouping of a digit string, as an independent definition. */
  function Grouped(d: string): string
    decreases |d|
  {
    if |d| <= 3 then d else Grouped(d[..|d| - 3]) + "," + d[|d| - 3..]
  }

  /** On a digit string, a separator goes where a multiple of three digits remains. */
  function DigitsSeparated(d: string, p: nat): (r: string)
    requires p <= |d|
    decreases |d| - p
  {
    if p == |d| then ""
    else (if p > 0 && (|d| - p) % 3 == 0 then "," else "") + [d[p]] + DigitsSeparated(d, p + 1)
  }

  lemma {:induction false} SeparatedDigits(d: string, p: nat)
    requires p <= |d| && AllDigits(d)
    ensures Separated(d, p) == DigitsSeparated(d, p)
    decreases |d| - p
  {
    if p < |d| {
      assert SeparatorAt(d, p) <==> p > 0 && (|d| - p) % 3 == 0 by {
        RunLengthOfDigits(d, p);
        if p > 0 {
          assert IsWordChar(d[p - 1]);
        }
      }
      SeparatedDigits(d, p + 1);
      assert Separated(d, p) == (if SeparatorAt(d, p) then "," else "") + [d[p]] + Separated(d, p + 1);
    }
  }

  lemma {:induction false} RunLengthOfDigits(d: string, p: nat)
    requires p <= |d| && AllDigits(d)
    ensures RunLength(d, p) == |d| - p
    decreases |d| - p
  {
    if p < |d| {
      RunLengthOfDigits(d, p + 1);
    }
  }

  /** Fewer than three digits from `p` on, or at most three in all: no separator from `p` on. */
  lemma {:induction false} DigitsSeparatedTail(d: string, p: nat)
    requires p <= |d| && (|d| - p < 3 || |d| <= 3)
    ensures DigitsSeparated(d, p) == d[p..]
    decreases |d| - p
  {
    if p < |d| {
      DigitsSeparatedTail(d, p + 1);
      assert d[p..] == [d[p]] + d[p + 1..];
    }
  }

  /** Appending three more digits appends one separator and those digits. */
  lemma {:induction false} DigitsSeparatedAppend(a: string, b: string, p: nat)
    requires |b| == 3 && 0 < |a| && p <= |a|
    ensures DigitsSeparated(a + b, p) == DigitsSeparated(a, p) + "," + b
    decreases |a| - p
  {
    var d := a + b;
    if p == |a| {
      assert d[|a|..] == b;
      DigitsSeparatedTail(d, |a| + 1);
      assert d[|a| + 1..] == b[1..];
      assert DigitsSeparated(d, |a|) == "," + [b[0]] + b[1..];
      assert b == [b[0]] + b[1..];
    } else {
      assert d[p] == a[p];
      assert (|d| - p) % 3 == (|a| - p) % 3;
      DigitsSeparatedAppend(a, b, p + 1);
    }
  }

  lemma {:induction false} GroupedIsDigitsSeparated(d: string)
    ensures Grouped(d) == DigitsSeparated(d, 0)
    decreases |d|
  {
    if |d| <= 3 {
      DigitsSeparatedTail(d, 0);
    } else {
      var a, b := d[..|d| - 3], d[|d| - 3..];
      assert d == a + b;
      GroupedIsDigitsSeparated(a);
      DigitsSeparatedAppend(a, b, 0);
    }
  }

  /**
   * On a string of decimal digits the formatter shows '¥ ' and the digits
   * grouped by threes from the right, with no separator in front.
   */
  lemma FormatDigits(d: string)
    requires AllDigits(d)
    ensures Format(d) == [Yen, ' '] + Grouped(d)
  {
    FormatIsPrefixed(d);
    SeparatedDigits(d, 0);
    GroupedIsDigitsSeparated(d);
  }
}
