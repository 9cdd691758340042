/**
 * The JavaScript runtime notions the application leans on: optional values,
 * the outcome of a call that may throw, dynamic values with their
 * truthiness and their template-literal rendering, and `parseInt`.
 */
module Js {
  import opened Text

  datatype Option<+T> = None | Some(value: T) {
    function GetOr(default: T): T {
      match this
      case Some(v) => v
      case None => default
    }
  }

  /** The outcome of a call into code outside the model: a value, or an error thrown with its message. */
  datatype Outcome<+T> = Done(value: T) | Threw(message: string)

  /** Dynamic values (numbers are integers: fractions, NaN and infinities are not modelled). */
  datatype Value =
    | Undefined
    | Null
    | Bool(b: bool)
    | Num(n: int)
    | Str(s: string)
    | List(items: seq<Value>)
    | Object(fields: map<string, Value>)

  /** The values `if (v)` accepts: all but undefined, null, false, 0 and the empty string. */
  predicate Truthy(v: Value): (b: bool)
    ensures !b <==> v in {Undefined, Null, Bool(false), Num(0), Str("")}
  {
    match v
    case Undefined => false
    case Null => false
    case Bool(b) => b
    case Num(n) => n != 0
    case Str(s) => s != []
    case List(_) => true
    case Object(_) => true
  }

  /** `${v}`: the text a template literal puts in place of `v`. */
  function Display(v: Value): string
    decreases v, 1
  {
    match v
    case Undefined => "undefined"
    case Null => "null"
    case Bool(b) => if b then "true" else "false"
    case Num(n) => IntToDecimal(n)
    case Str(s) => s
    case List(items) => DisplayItems(v, items)
    case Object(_) => "[object Object]"
  }

  /** `items.join(',')`, where undefined and null elements contribute the empty string. */
  function DisplayItems(whole: Value, items: seq<Value>): string
    requires forall k :: 0 <= k < |items| ==> items[k] < whole
    decreases whole, 0, |items|
  {
    if items == [] then ""
    else
      var first := if items[0].Undefined? || items[0].Null? then "" else Display(items[0]);
      if |items| == 1 then first else first + "," + DisplayItems(whole, items[1..])
  }

  /** The value of digit `c` in base `radix`, if it is one. */
  function DigitValue(c: char, radix: nat): (d: Option<nat>)
    ensures d.Some? ==> d.value < radix
  {
    var v :=
      if '0' <= c <= '9' then c as int - '0' as int
      else if 'a' <= c <= 'z' then c as int - 'a' as int + 10
      else if 'A' <= c <= 'Z' then c as int - 'A' as int + 10
      else 36;
    if v < radix then Some(v) else None
  }

  /** The longest prefix of `s` made of digits in base `radix`. */
  function DigitPrefix(s: string, radix: nat): (r: string)
    ensures |r| <= |s| && r == s[..|r|]
    ensures forall k :: 0 <= k < |r| ==> DigitValue(r[k], radix).Some?
  {
    if s != [] && DigitValue(s[0], radix).Some? then [s[0]] + DigitPrefix(s[1..], radix) else []
  }

  /** The number a run of digits denotes in base `radix`, most significant digit first. */
  function DigitsValue(ds: string, radix: nat): nat {
    if ds == [] then 0
    else DigitsValue(ds[..|ds| - 1], radix) * radix + DigitValue(ds[|ds| - 1], radix).GetOr(0)
  }

  /** A "0x" or "0X" prefix, which selects base 16. */
  predicate HexPrefixed(u: string) {
    |u| >= 2 && u[0] == '0' && (u[1] == 'x' || u[1] == 'X')
  }

  /** The unsigned part of `parseInt`: the longest run of digits, in base 16 after a hex prefix. */
  function ParseMagnitude(u: string): Option<nat> {
    var radix := if HexPrefixed(u) then 16 else 10;
    var ds := DigitPrefix(if HexPrefixed(u) then u[2..] else u, radix);
    if ds == [] then None else Some(DigitsValue(ds, radix))
  }

  /**
   * `parseInt(s)` without a radix: leading white space is skipped, one sign
   * is read, a "0x"/"0X" prefix selects base 16, and the longest run of
   * digits is read. None stands for NaN (no digit at all).
   */
  function ParseInt(s: string): (r: Option<int>)
    ensures AllSpace(s) ==> r.None?
    ensures r.Some? && r.value < 0 ==> TrimStart(s) != [] && TrimStart(s)[0] == '-'
  {
    var t := TrimStart(s);
    assert AllSpace(s) ==> t == [] by {
      if AllSpace(s) {
        TrimStartAllSpace(s);
      }
    }
    var negative := t != [] && t[0] == '-';
    var u := if t != [] && (t[0] == '-' || t[0] == '+') then t[1..] else t;
    match ParseMagnitude(u)
    case None => None
    case Some(m) =>
      var v: int := if negative then -(m as int) else m;
      Some(v)
  }

  /** `parseInt` reads back the decimal rendering of every natural number. */
  lemma ParseIntDecimal(n: nat)
    ensures ParseInt(NatToDecimal(n)) == Some(n)
  {
    var s := NatToDecimal(n);
    NoSpaceBeforeDigit(s);
    assert !(s[0] == '-' || s[0] == '+');
    MagnitudeDecimal(n);
  }

  /** `parseInt` reads back the text a template literal makes of every integer. */
  lemma ParseIntDisplay(n: int)
    ensures ParseInt(Display(Num(n))) == Some(n)
  {
    if n >= 0 {
      ParseIntDecimal(n);
    } else {
      var s := Display(Num(n));
      assert s == "-" + NatToDecimal(-n);
      TrimStartNonSpace(s);
      assert s[1..] == NatToDecimal(-n);
      MagnitudeDecimal(-n);
    }
  }

  lemma NoSpaceBeforeDigit(s: string)
    requires s != [] && '0' <= s[0] <= '9'
    ensures TrimStart(s) == s
  {
    assert !IsSpace(s[0]);
    TrimStartNonSpace(s);
  }

  lemma MagnitudeDecimal(n: nat)
    ensures ParseMagnitude(NatToDecimal(n)) == Some(n)
  {
    var s := NatToDecimal(n);
    assert !HexPrefixed(s) by {
      if |s| >= 2 {
        assert '0' <= s[1] <= '9';
      }
    }
    DigitPrefixAll(s);
    DecimalValue(n);
  }

  lemma {:induction false} DigitPrefixAll(s: string)
    requires forall k :: 0 <= k < |s| ==> '0' <= s[k] <= '9'
    ensures DigitPrefix(s, 10) == s
    decreases |s|
  {
    if s != [] {
      DigitPrefixAll(s[1..]);
      assert s == [s[0]] + s[1..];
    }
  }

  lemma {:induction false} DecimalValue(n: nat)
    ensures DigitsValue(NatToDecimal(n), 10) == n
    decreases n
  {
    var s := NatToDecimal(n);
    if n >= 10 {
      DecimalValue(n / 10);
      assert s[..|s| - 1] == NatToDecimal(n / 10);
      assert DigitValue(s[|s| - 1], 10) == Some(n % 10);
    } else {
      assert s[..0] == [];
    }
  }
}
