/**
 * The JavaScript built-ins the pages rely on, over strings as sequences of characters
 * (Unicode scalar values, where JavaScript counts UTF-16 code units):
 * `String.prototype.trim`, `toLowerCase`, `includes`, and `Number(string)`.
 */
module Js {
  import opened Wrappers

  /** The WhiteSpace and LineTerminator characters, the set `trim` and `Number` strip. */
  predicate IsSpace(c: char)
  {
    c == '\t' || c == '\n' || c == '\U{000B}' || c == '\U{000C}' || c == '\r' || c == ' '
    || c == '\U{00A0}' || c == '\U{1680}' || ('\U{2000}' <= c <= '\U{200A}')
    || c == '\U{2028}' || c == '\U{2029}' || c == '\U{202F}' || c == '\U{205F}' || c == '\U{3000}'
    || c == '\U{FEFF}'
  }

  predicate AllSpace(s: string)
  {
    forall i :: 0 <= i < |s| ==> IsSpace(s[i])
  }

  /** How many white-space characters `s` starts with. */
  function LeadingSpaces(s: string): (n: nat)
    ensures n <= |s|
    ensures forall i :: 0 <= i < n ==> IsSpace(s[i])
    ensures n < |s| ==> !IsSpace(s[n])
  {
    if |s| > 0 && IsSpace(s[0]) then 1 + LeadingSpaces(s[1..]) else 0
  }

  /** How many white-space characters `s` ends with. */
  function TrailingSpaces(s: string): (n: nat)
    ensures n <= |s|
    ensures forall i :: |s| - n <= i < |s| ==> IsSpace(s[i])
    ensures n < |s| ==> !IsSpace(s[|s| - n - 1])
  {
    if |s| > 0 && IsSpace(s[|s| - 1]) then 1 + TrailingSpaces(s[..|s| - 1]) else 0
  }

  /** `s.trim()`: the infix of `s` between its leading and trailing white space. */
  function Trim(s: string): (r: string)
    ensures |r| <= |s|
    ensures r == [] || (!IsSpace(r[0]) && !IsSpace(r[|r| - 1]))
    ensures r == [] <==> AllSpace(s)
    ensures OccursAt(s, r, LeadingSpaces(s))
    ensures forall i :: LeadingSpaces(s) + |r| <= i < |s| ==> IsSpace(s[i])
  {
    var a := LeadingSpaces(s);
    var b := TrailingSpaces(s[a..]);
    assert forall i :: a <= i < |s| ==> s[i] == s[a..][i - a];
    s[a..|s| - b]
  }

  /** `sub` occurs in `s` starting at index `k`. */
  predicate OccursAt(s: string, sub: string, k: int)
  {
    0 <= k <= |s| - |sub| && s[k..k + |sub|] == sub
  }

  /** A string is blank when `s.trim() === ""`. */
  predicate IsBlank(s: string)
  {
    Trim(s) == []
  }

  lemma {:induction false} TrimIdempotent(s: string)
    ensures Trim(Trim(s)) == Trim(s)
  {
    var r := Trim(s);
    if r != [] {
      assert !IsSpace(r[0]) && !IsSpace(r[|r| - 1]);
      assert LeadingSpaces(r) == 0;
      assert TrailingSpaces(r[0..]) == 0;
      assert r[0..|r|] == r;
    }
  }

  lemma {:induction false} TrimOfTrimmed(s: string)
    requires s == [] || (!IsSpace(s[0]) && !IsSpace(s[|s| - 1]))
    ensures Trim(s) == s
  {
  }

  /** `c.toLowerCase()` for the Basic Latin letters. */
  function LowerChar(c: char): (r: char)
  {
    if 'A' <= c <= 'Z' then (c as int - 'A' as int + 'a' as int) as char else c
  }

  /** `s.toLowerCase()`: every upper-case letter replaced by its lower-case form, nothing else changed. */
  function ToLower(s: string): (r: string)
    ensures |r| == |s|
    ensures forall i :: 0 <= i < |s| ==> r[i] == LowerChar(s[i])
    ensures forall i :: 0 <= i < |s| ==> !('A' <= r[i] <= 'Z')
  {
    if s == [] then [] else [LowerChar(s[0])] + ToLower(s[1..])
  }

  /** `s.includes(sub)`, searching left to right. */
  function Includes(s: string, sub: string): (r: bool)
    decreases |s|
  {
    (|sub| <= |s| && s[..|sub|] == sub) || (|s| > 0 && Includes(s[1..], sub))
  }

  /** `Includes` finds exactly the substrings that occur at some position. */
  lemma {:induction false} IncludesIff(s: string, sub: string)
    ensures Includes(s, sub) <==> exists i :: OccursAt(s, sub, i)
    decreases |s|
  {
    if |s| > 0 {
      IncludesIff(s[1..], sub);
      if exists i :: OccursAt(s, sub, i) {
        var i :| OccursAt(s, sub, i);
        if i > 0 {
          assert OccursAt(s[1..], sub, i - 1);
        }
      }
      if exists j :: OccursAt(s[1..], sub, j) {
        var j :| OccursAt(s[1..], sub, j);
        assert OccursAt(s, sub, j + 1);
      }
    }
    if |sub| <= |s| && s[..|sub|] == sub {
      assert OccursAt(s, sub, 0);
    }
  }

  /** The value `Number(s)` produces: a finite value (exact, without IEEE rounding), an infinity, or NaN. */
  datatype JsNumber = NaN | Finite(value: real) | Infinite(negative: bool)

  /** `x <= 0`, which is false when `x` is NaN. */
  predicate AtMostZero(x: JsNumber)
  {
    match x
    case NaN => false
    case Finite(v) => v <= 0.0
    case Infinite(negative) => negative
  }

  predicate IsDigit(c: char)
  {
    '0' <= c <= '9'
  }

  function DigitValue(c: char): (r: nat)
    requires IsDigit(c)
  {
    c as int - '0' as int
  }

  /** The value of a run of decimal digits, most significant first. */
  function DigitsValue(s: string): (r: nat)
    requires forall i :: 0 <= i < |s| ==> IsDigit(s[i])
  {
    if s == [] then 0 else DigitsValue(s[..|s| - 1]) * 10 + DigitValue(s[|s| - 1])
  }

  /** The digit value of `c` in base `radix` (2, 8 or 16), if it is one. */
  function RadixDigit(c: char, radix: nat): (r: Option<nat>)
  {
    var d :=
      if '0' <= c <= '9' then c as int - '0' as int
      else if 'a' <= c <= 'f' then c as int - 'a' as int + 10
      else if 'A' <= c <= 'F' then c as int - 'A' as int + 10
      else radix;
    if 0 <= d < radix then Some(d) else None
  }

  /** The value of a non-empty run of base-`radix` digits, or None when some character is not one. */
  function RadixValue(s: string, radix: nat): (r: Option<nat>)
  {
    if s == [] then None
    else
      var last := RadixDigit(s[|s| - 1], radix);
      if last.None? then None
      else if |s| == 1 then last
      else match RadixValue(s[..|s| - 1], radix)
        case None => None
        case Some(v) => Some(v * radix + last.value)
  }

  /** How many decimal digits `s` starts with. */
  function DigitRun(s: string): (n: nat)
    ensures n <= |s|
    ensures forall i :: 0 <= i < n ==> IsDigit(s[i])
    ensures n < |s| ==> !IsDigit(s[n])
  {
    if s != [] && IsDigit(s[0]) then 1 + DigitRun(s[1..]) else 0
  }

  /** `m` times 10 to the power `e`, one factor of ten at a time. */
  function DecimalValue(m: nat, e: int): (r: real)
    decreases if e >= 0 then e else -e
  {
    if e == 0 then m as real
    else if e > 0 then 10.0 * DecimalValue(m, e - 1)
    else DecimalValue(m, e + 1) / 10.0
  }

  /** An exponent part after `e`/`E`: an optional sign and at least one digit, and nothing else. */
  function Exponent(s: string): (r: Option<int>)
  {
    var negative := |s| > 0 && s[0] == '-';
    var digits := if |s| > 0 && (s[0] == '-' || s[0] == '+') then s[1..] else s;
    if digits != [] && DigitRun(digits) == |digits| then
      var v: int := DigitsValue(digits);
      Some(if negative then -v else v)
    else None
  }

  /** An unsigned decimal literal `ddd`, `ddd.`, `ddd.ddd` or `.ddd`, each with an optional exponent part. */
  function UnsignedDecimal(s: string): (r: Option<real>)
  {
    var i := DigitRun(s);
    var whole := s[..i];
    var afterWhole := s[i..];
    var hasPoint := afterWhole != [] && afterWhole[0] == '.';
    var fraction := if hasPoint then afterWhole[1..][..DigitRun(afterWhole[1..])] else [];
    var rest := if hasPoint then afterWhole[1..][DigitRun(afterWhole[1..])..] else afterWhole;
    if |whole| + |fraction| == 0 then None
    else
      var exponent := if rest == [] then Some(0)
                      else if rest[0] == 'e' || rest[0] == 'E' then Exponent(rest[1..])
                      else None;
      match exponent
      case None => None
      case Some(e) => Some(DecimalValue(DigitsValue(whole + fraction), e - |fraction|))
  }

  /** `Number(s)` for a string argument: white space around the literal is ignored. */
  function ToNumber(s: string): (r: JsNumber)
    ensures AllSpace(s) ==> r == Finite(0.0)
  {
    NumberOfTrimmed(Trim(s))
  }

  /** Number literals `Infinity`, `+Infinity` and `-Infinity`. */
  predicate IsInfinityLiteral(t: string)
  {
    t == "Infinity" || t == "+Infinity" || t == "-Infinity"
  }

  /** A `0x`, `0o` or `0b` prefix (either case), with something after it. */
  predicate HasRadixPrefix(t: string)
  {
    |t| > 2 && t[0] == '0' && t[1] in "xXoObB"
  }

  /** `Number` of a string with no white space around it. */
  function NumberOfTrimmed(t: string): (r: JsNumber)
  {
    if t == [] then Finite(0.0)
    else if IsInfinityLiteral(t) then Infinite(t[0] == '-')
    else if HasRadixPrefix(t) then
      var radix := if t[1] in "xX" then 16 else if t[1] in "oO" then 8 else 2;
      match RadixValue(t[2..], radix)
      case None => NaN
      case Some(v) => Finite(v as real)
    else SignedDecimal(t)
  }

  /** An optionally signed decimal literal; anything else is NaN. */
  function SignedDecimal(t: string): (r: JsNumber)
    requires t != []
  {
    var negative := t[0] == '-';
    var unsigned := if t[0] == '-' || t[0] == '+' then t[1..] else t;
    match UnsignedDecimal(unsigned)
    case None => NaN
    case Some(v) => Finite(if negative then -v else v)
  }

  /** The decimal numeral of `n`, with no leading zeros: what `String(n)` gives. */
  function NatToString(n: nat): (s: string)
    ensures |s| >= 1
    ensures forall i :: 0 <= i < |s| ==> IsDigit(s[i])
    ensures |s| > 1 ==> s[0] != '0'
  {
    if n < 10 then [('0' as int + n) as char]
    else NatToString(n / 10) + [('0' as int + n % 10) as char]
  }

  lemma {:induction false} DigitsOfNatToString(n: nat)
    ensures DigitsValue(NatToString(n)) == n
  {
    if n >= 10 {
      DigitsOfNatToString(n / 10);
      var s := NatToString(n);
      assert s[..|s| - 1] == NatToString(n / 10);
    }
  }

  /** A non-empty run of decimal digits reads as its value. */
  lemma UnsignedDecimalOfDigits(s: string)
    requires s != [] && forall i :: 0 <= i < |s| ==> IsDigit(s[i])
    ensures UnsignedDecimal(s) == Some(DigitsValue(s) as real)
  {
    DigitRunAll(s);
    var afterWhole := s[DigitRun(s)..];
    assert s[..DigitRun(s)] == s;
    assert afterWhole == [];
    assert s + [] == s;
  }

  /** A string of decimal digits is neither an infinity literal nor a radix literal. */
  lemma DigitsAreDecimal(t: string)
    requires t != [] && forall i :: 0 <= i < |t| ==> IsDigit(t[i])
    ensures !IsInfinityLiteral(t) && !HasRadixPrefix(t)
  {
    assert IsDigit(t[0]);
    if |t| > 2 { assert IsDigit(t[1]); }
  }

  /** `Number(String(n)) === n` for every natural number. */
  lemma {:induction false} NumberOfNatToString(n: nat)
    ensures ToNumber(NatToString(n)) == Finite(n as real)
  {
    var s := NatToString(n);
    assert IsDigit(s[0]) && IsDigit(s[|s| - 1]);
    TrimOfTrimmed(s);
    DigitsAreDecimal(s);
    UnsignedDecimalOfDigits(s);
    DigitsOfNatToString(n);
    assert NumberOfTrimmed(s) == SignedDecimal(s);
  }

  lemma {:induction false} DigitRunAll(s: string)
    requires forall i :: 0 <= i < |s| ==> IsDigit(s[i])
    ensures DigitRun(s) == |s|
  {
    if s != [] {
      DigitRunAll(s[1..]);
    }
  }

  /** Trimming keeps a string free of digits. */
  lemma TrimKeepsNoDigits(s: string)
    requires forall i :: 0 <= i < |s| ==> !IsDigit(s[i])
    ensures forall i :: 0 <= i < |Trim(s)| ==> !IsDigit(Trim(s)[i])
  {
    var t := Trim(s);
    var k := LeadingSpaces(s);
    assert OccursAt(s, t, k);
    forall i | 0 <= i < |t| ensures !IsDigit(t[i]) {
      assert t[i] == s[k..k + |t|][i] == s[k + i];
    }
  }

  /** Without any digit there is no unsigned decimal literal. */
  lemma UnsignedDecimalNeedsDigits(u: string)
    requires forall i :: 0 <= i < |u| ==> !IsDigit(u[i])
    ensures UnsignedDecimal(u) == None
  {
    assert DigitRun(u) == 0;
    if u != [] && u[0] == '.' {
      assert forall i :: 0 <= i < |u[1..]| ==> u[1..][i] == u[i + 1];
      assert DigitRun(u[1..]) == 0;
    }
  }

  /** A string with no digit anywhere, other than blank or an infinity, is not a number. */
  lemma NumberWithoutDigits(s: string)
    requires forall i :: 0 <= i < |s| ==> !IsDigit(s[i])
    requires !AllSpace(s)
    requires !IsInfinityLiteral(Trim(s))
    ensures ToNumber(s) == NaN
  {
    var t := Trim(s);
    TrimKeepsNoDigits(s);
    assert t != [] && !IsDigit(t[0]);
    assert !HasRadixPrefix(t);
    var u := if t[0] == '-' || t[0] == '+' then t[1..] else t;
    UnsignedDecimalNeedsDigits(u);
    assert SignedDecimal(t) == NaN;
  }
}
