/**
 * The PHP values the package passes around: scalars, arrays and Laminas view
 * models, with the conversions PHP applies to them implicitly (truthiness,
 * `empty()`, string casts, array-key normalisation).
 *
 * View models are values here: a `ViewModel` is the state of a Laminas
 * `ViewModel` object (template, variables, children and the three rendering
 * directives). Laminas' class is not part of this package, so its defaults
 * (the initial `captureTo`, for one) are not fixed anywhere in the model.
 */
module Php {
  import opened Wrappers

  /** A PHP array key: PHP stores decimal-integer strings as integer keys. */
  datatype Key = IntKey(i: int) | StrKey(s: string)

  /** A PHP value. Floats and objects other than view models are not modelled. */
  datatype Value =
    | Null
    | Bool(b: bool)
    | Int(i: int)
    | Str(s: string)
    | Arr(entries: seq<(Key, Value)>)
    | Model(model: ViewModel)

  /** The state of a Laminas view model. */
  datatype ViewModel = ViewModel(
    template: string,
    variables: map<string, Value>,
    children: seq<ViewModel>,
    captureTo: string,
    append: bool,
    terminate: bool)

  /** PHP's conversion to bool, as in `if ($value)`: the falsy values are
    * null, false, 0, "", "0" and the empty array; every object is truthy. */
  predicate Truthy(v: Value): (b: bool)
    ensures !b <==> v in {Null, Bool(false), Int(0), Str(""), Str("0"), Arr([])}
  {
    match v
    case Null => false
    case Bool(b) => b
    case Int(i) => i != 0
    case Str(s) => s != "" && s != "0"
    case Arr(entries) => |entries| > 0
    case Model(_) => true
  }

  /** PHP's `empty()` applied to a string: true for "" and for "0". */
  predicate IsEmpty(s: string)
  {
    s == "" || s == "0"
  }

  /** `$array[$key] ?? null` without the warning: an absent key reads as null. */
  function Lookup(m: map<string, Value>, key: string): (v: Value)
    ensures key !in m ==> v == Null
    ensures key in m ==> v == m[key]
  {
    if key in m then m[key] else Null
  }

  /** How many levels of children a view model has; variables are not counted. */
  function Height(m: ViewModel): nat
    decreases m
  {
    1 + MaxHeight(m.children)
  }

  function MaxHeight(cs: seq<ViewModel>): (h: nat)
    decreases cs
    ensures forall i :: 0 <= i < |cs| ==> Height(cs[i]) <= h
  {
    if cs == [] then 0
    else
      var rest := MaxHeight(cs[1..]);
      var first := Height(cs[0]);
      assert forall i :: 1 <= i < |cs| ==> cs[i] == cs[1..][i - 1];
      if first < rest then rest else first
  }

  lemma ChildIsLower(m: ViewModel, i: nat)
    requires i < |m.children|
    ensures Height(m.children[i]) < Height(m)
  {
  }

  // ---------------------------------------------------------------------
  // Decimal strings

  predicate IsDigit(c: char)
  {
    '0' <= c <= '9'
  }

  /** A decimal numeral without sign and without leading zeros. */
  predicate IsCanonicalDigits(s: string)
  {
    |s| > 0 && (forall i :: 0 <= i < |s| ==> IsDigit(s[i])) && (s[0] == '0' ==> |s| == 1)
  }

  function DigitsValue(s: string): nat
    requires forall i :: 0 <= i < |s| ==> IsDigit(s[i])
  {
    if s == [] then 0
    else
      assert IsDigit(s[|s| - 1]);
      DigitsValue(s[..|s| - 1]) * 10 + DigitOf(s[|s| - 1])
  }

  function DigitOf(c: char): (d: nat)
    requires IsDigit(c)
    ensures d < 10
  {
    c as int - '0' as int
  }

  function DigitChar(d: nat): (c: char)
    requires d < 10
    ensures IsDigit(c) && DigitOf(c) == d
  {
    ('0' as int + d) as char
  }

  /** The decimal numeral PHP prints for a non-negative integer. */
  function NatToString(n: nat): (s: string)
    ensures IsCanonicalDigits(s)
  {
    if n < 10 then [DigitChar(n)] else NatToString(n / 10) + [DigitChar(n % 10)]
  }

  /** The decimal numeral PHP prints for an integer, as `(string) $i` does. */
  function IntToString(i: int): string
  {
    if i < 0 then "-" + NatToString(-i) else NatToString(i)
  }

  const PHP_INT_MAX: int := 0x7FFF_FFFF_FFFF_FFFF

  /** PHP's string conversion of a value, used by the `.` operator. `None`
    * is the Error PHP raises for an object that cannot be converted. */
  function StringCast(v: Value): (r: Option<string>)
    ensures r.None? <==> v.Model?
    ensures v.Str? ==> r == Some(v.s)
    ensures v.Null? ==> r == Some("")
    ensures v.Bool? ==> r == Some(if v.b then "1" else "")
    ensures v.Int? ==> r == Some(IntToString(v.i))
    ensures v.Arr? ==> r == Some("Array")
  {
    match v
    case Null => Some("")
    case Bool(b) => Some(if b then "1" else "")
    case Int(i) => Some(IntToString(i))
    case Str(s) => Some(s)
    case Arr(_) => Some("Array")
    case Model(_) => None
  }

  /**
   * The key PHP stores for a string used as an array key: a decimal integer
   * without leading zeros (and not "-0") that fits in 64 bits becomes an
   * integer key; every other string stays a string key.
   */
  function ArrayKey(s: string): (k: Key)
    ensures IsCanonicalDigits(s) && DigitsValue(s) <= PHP_INT_MAX ==> k == IntKey(DigitsValue(s))
    ensures (|s| >= 2 && s[0] == '-' && s[1] != '0' && IsCanonicalDigits(s[1..])
             && DigitsValue(s[1..]) <= PHP_INT_MAX + 1) ==>
              k == IntKey(0 - DigitsValue(s[1..]))
    ensures (!(IsCanonicalDigits(s) && DigitsValue(s) <= PHP_INT_MAX)
             && !(|s| >= 2 && s[0] == '-' && s[1] != '0' && IsCanonicalDigits(s[1..])
                  && DigitsValue(s[1..]) <= PHP_INT_MAX + 1)) ==>
              k == StrKey(s)
    ensures k.IntKey? ==> -PHP_INT_MAX - 1 <= k.i <= PHP_INT_MAX
    ensures k.StrKey? ==> k.s == s
  {
    if IsCanonicalDigits(s) && DigitsValue(s) <= PHP_INT_MAX then
      IntKey(DigitsValue(s))
    else if |s| >= 2 && s[0] == '-' && s[1] != '0' && IsCanonicalDigits(s[1..])
            && DigitsValue(s[1..]) <= PHP_INT_MAX + 1 then
      IntKey(0 - DigitsValue(s[1..]))
    else
      StrKey(s)
  }

  lemma {:induction false} DigitsValuePositive(s: string)
    requires IsCanonicalDigits(s) && s[0] != '0'
    ensures DigitsValue(s) > 0
  {
    if |s| > 1 {
      var p := s[..|s| - 1];
      assert p[0] == s[0];
      assert IsCanonicalDigits(p);
      DigitsValuePositive(p);
    }
  }

  /** A canonical numeral is exactly what PHP prints for its value. */
  lemma {:induction false} NatToStringOfDigits(s: string)
    requires IsCanonicalDigits(s)
    ensures NatToString(DigitsValue(s)) == s
  {
    var n := DigitsValue(s);
    if |s| == 1 {
      assert s[..0] == [] && DigitsValue(s[..0]) == 0;
      assert n == DigitOf(s[0]);
      assert [DigitChar(n)] == s;
    } else {
      var p := s[..|s| - 1];
      assert p[0] == s[0];
      assert IsCanonicalDigits(p);
      DigitsValuePositive(p);
      NatToStringOfDigits(p);
      var d := DigitOf(s[|s| - 1]);
      assert n == DigitsValue(p) * 10 + d;
      assert n / 10 == DigitsValue(p) && n % 10 == d;
      assert NatToString(n) == NatToString(DigitsValue(p)) + [DigitChar(d)];
      assert s == p + [s[|s| - 1]];
    }
  }

  /** An integer key prints back as the string it was made from; a string key
    * is the string itself. */
  lemma ArrayKeyRoundTrip(s: string)
    ensures ArrayKey(s).StrKey? ==> ArrayKey(s).s == s
    ensures ArrayKey(s).IntKey? ==> IntToString(ArrayKey(s).i) == s
  {
    if IsCanonicalDigits(s) && DigitsValue(s) <= PHP_INT_MAX {
      NatToStringOfDigits(s);
    } else if |s| >= 2 && s[0] == '-' && s[1] != '0' && IsCanonicalDigits(s[1..])
              && DigitsValue(s[1..]) <= PHP_INT_MAX + 1 {
      var t := s[1..];
      assert t[0] == s[1];
      NegativeRoundTrip(t);
      assert ArrayKey(s) == IntKey(0 - DigitsValue(t));
      assert s == "-" + t;
    }
  }

  /** A minus sign before a canonical numeral other than "0" prints back. */
  lemma NegativeRoundTrip(t: string)
    requires IsCanonicalDigits(t) && t[0] != '0'
    ensures IntToString(0 - DigitsValue(t)) == "-" + t
  {
    DigitsValuePositive(t);
    NatToStringOfDigits(t);
  }

  /** Distinct strings are distinct array keys. */
  lemma ArrayKeyInjective(s: string, t: string)
    requires ArrayKey(s) == ArrayKey(t)
    ensures s == t
  {
    ArrayKeyRoundTrip(s);
    ArrayKeyRoundTrip(t);
  }

  /** What `json_encode($v)` yields: its text, or `false` when it fails. */
  function JsonEncode(encode: Value -> Option<string>, v: Value): (r: Value)
    ensures r.Str? || r == Bool(false)
    ensures r.Str? <==> encode(v).Some?
    ensures encode(v).Some? ==> r == Str(encode(v).value)
  {
    match encode(v)
    case Some(text) => Str(text)
    case None => Bool(false)
  }
}
