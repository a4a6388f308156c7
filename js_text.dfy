/**
 * The JavaScript string and number primitives the forms and views rely on:
 * `String.prototype.trim`, `toUpperCase`/`toLowerCase`, `replace(/_/g, ' ')`,
 * `Number.prototype.toString()` for integers and `parseInt(s, 10)`.
 */
module JsText {
  import opened Wrappers

  /** WhiteSpace and LineTerminator code points: the characters `trim` removes and `parseInt` skips. */
  predicate IsWhiteSpace(c: char) {
    var u := c as int;
    u == 0x09 || u == 0x0A || u == 0x0B || u == 0x0C || u == 0x0D || u == 0x20 || u == 0xA0
    || u == 0x1680 || (0x2000 <= u <= 0x200A) || u == 0x2028 || u == 0x2029
    || u == 0x202F || u == 0x205F || u == 0x3000 || u == 0xFEFF
  }

  predicate IsDigit(c: char) {
    '0' <= c <= '9'
  }

  predicate AllWhiteSpace(s: string) {
    forall i :: 0 <= i < |s| ==> IsWhiteSpace(s[i])
  }

  predicate AllDigits(s: string) {
    forall i :: 0 <= i < |s| ==> IsDigit(s[i])
  }

  /** The number of white-space characters at the front of `s`. */
  function LeadingWhiteSpace(s: string): (k: nat)
    ensures k <= |s| && AllWhiteSpace(s[..k])
    ensures k < |s| ==> !IsWhiteSpace(s[k])
  {
    if |s| > 0 && IsWhiteSpace(s[0]) then 1 + LeadingWhiteSpace(s[1..]) else 0
  }

  /** The number of white-space characters at the back of `s`. */
  function TrailingWhiteSpace(s: string): (k: nat)
    ensures k <= |s| && AllWhiteSpace(s[|s| - k..])
    ensures k < |s| ==> !IsWhiteSpace(s[|s| - 1 - k])
  {
    if |s| > 0 && IsWhiteSpace(s[|s| - 1]) then 1 + TrailingWhiteSpace(s[..|s| - 1]) else 0
  }

  /** `s.trim()`: `s` without its leading and trailing white space. */
  function Trim(s: string): (r: string)
    ensures r == "" <==> AllWhiteSpace(s)
    ensures r != "" ==> !IsWhiteSpace(r[0]) && !IsWhiteSpace(r[|r| - 1])
    ensures LeadingWhiteSpace(s) + |r| <= |s|
    ensures r == s[LeadingWhiteSpace(s)..LeadingWhiteSpace(s) + |r|]
    ensures AllWhiteSpace(s[LeadingWhiteSpace(s) + |r|..])
  {
    var a := LeadingWhiteSpace(s);
    var t := s[a..];
    var b := TrailingWhiteSpace(t);
    TrimParts(s, a, t, b);
    t[..|t| - b]
  }

  /**
   * The text between `a` white-space characters at the front of `s` and `b` at the
   * back of the rest, when neither run can be extended.
   */
  lemma {:induction false} TrimParts(s: string, a: nat, t: string, b: nat)
    requires a <= |s| && AllWhiteSpace(s[..a]) && (a < |s| ==> !IsWhiteSpace(s[a]))
    requires t == s[a..]
    requires b <= |t| && AllWhiteSpace(t[|t| - b..]) && (b < |t| ==> !IsWhiteSpace(t[|t| - 1 - b]))
    ensures var r := t[..|t| - b];
      && (r == "" <==> AllWhiteSpace(s))
      && (r != "" ==> !IsWhiteSpace(r[0]) && !IsWhiteSpace(r[|r| - 1]))
      && a + |r| <= |s| && r == s[a..a + |r|] && AllWhiteSpace(s[a + |r|..])
  {
    var r := t[..|t| - b];
    assert t[|t| - b..] == s[a + |r|..];
    assert r == s[a..a + |r|];
    if r == "" {
      assert t[|t| - b..] == t;
      assert a == |s|;
      assert s[..a] == s;
    } else {
      assert r[0] == s[a];
      assert r[|r| - 1] == t[|t| - 1 - b];
    }
  }

  /** JavaScript's `!s.trim()`: the text is empty once trimmed. */
  predicate IsBlank(s: string)
    ensures IsBlank(s) <==> AllWhiteSpace(s)
  {
    Trim(s) == ""
  }

  function UpperChar(c: char): char {
    if 'a' <= c <= 'z' then (c as int - 32) as char else c
  }

  function LowerChar(c: char): char {
    if 'A' <= c <= 'Z' then (c as int + 32) as char else c
  }

  /** `s.toUpperCase()`, restricted to the ASCII letters. */
  function ToUpper(s: string): (r: string)
    ensures |r| == |s|
    ensures forall i :: 0 <= i < |r| ==> !('a' <= r[i] <= 'z')
    ensures forall i :: 0 <= i < |r| ==> LowerChar(r[i]) == LowerChar(s[i])
  {
    seq(|s|, i requires 0 <= i < |s| => UpperChar(s[i]))
  }

  /** `s.toLowerCase()`, restricted to the ASCII letters. */
  function ToLower(s: string): (r: string)
    ensures |r| == |s|
    ensures forall i :: 0 <= i < |r| ==> !('A' <= r[i] <= 'Z')
    ensures forall i :: 0 <= i < |r| ==> UpperChar(r[i]) == UpperChar(s[i])
  {
    seq(|s|, i requires 0 <= i < |s| => LowerChar(s[i]))
  }

  /** Lower-casing does not see how a text was cased before. */
  lemma ToLowerOfToUpper(s: string)
    ensures ToLower(ToUpper(s)) == ToLower(s)
  {
    assert forall i :: 0 <= i < |s| ==> ToLower(ToUpper(s))[i] == ToLower(s)[i];
  }

  /** `a` reads as `b` once its ASCII capitals are lower-cased. */
  predicate SameUpToCase(a: string, b: string) {
    |a| == |b| && forall i :: 0 <= i < |a| ==> LowerChar(a[i]) == b[i]
  }

  /** Lower-casing gives `n` exactly when the text is `n` up to the case of its letters. */
  lemma {:induction false} ToLowerIs(s: string, n: string)
    ensures ToLower(s) == n <==> SameUpToCase(s, n)
  {
    if SameUpToCase(s, n) {
      assert forall i :: 0 <= i < |n| ==> ToLower(s)[i] == n[i];
    }
  }

  /** `s.replace(/_/g, ' ')`. */
  function UnderscoresToSpaces(s: string): (r: string)
    ensures |r| == |s|
    ensures forall i :: 0 <= i < |r| ==> r[i] != '_'
    ensures forall i :: 0 <= i < |r| && s[i] != '_' ==> r[i] == s[i]
    ensures forall i :: 0 <= i < |r| && s[i] == '_' ==> r[i] == ' '
  {
    seq(|s|, i requires 0 <= i < |s| => if s[i] == '_' then ' ' else s[i])
  }

  function DigitChar(d: nat): (c: char)
    requires d < 10
    ensures IsDigit(c)
  {
    ('0' as int + d) as char
  }

  function DigitValue(c: char): (d: nat)
    requires IsDigit(c)
    ensures d < 10 && DigitChar(d) == c
  {
    c as int - '0' as int
  }

  /** The decimal text of a natural number, as `toString()` writes it: digits only, no leading zero. */
  function NatToString(n: nat): (s: string)
    ensures |s| > 0 && AllDigits(s)
    ensures s[0] == '0' ==> n == 0
  {
    if n < 10 then [DigitChar(n)] else NatToString(n / 10) + [DigitChar(n % 10)]
  }

  /** `n.toString()` for an integral Number. */
  function IntToString(n: int): (s: string)
    ensures |s| > 0
    ensures s[0] == '-' <==> n < 0
    ensures n >= 0 ==> AllDigits(s)
    ensures n < 0 ==> AllDigits(s[1..]) && |s| > 1
  {
    if n < 0 then "-" + NatToString(-n) else NatToString(n)
  }

  /** The value of a run of decimal digits. */
  function DigitsValue(ds: string): nat
    requires AllDigits(ds)
  {
    if ds == [] then 0 else DigitsValue(ds[..|ds| - 1]) * 10 + DigitValue(ds[|ds| - 1])
  }

  /** The length of the run of decimal digits at the front of `s`. */
  function DigitRun(s: string): (k: nat)
    ensures k <= |s| && AllDigits(s[..k])
    ensures k < |s| ==> !IsDigit(s[k])
  {
    if |s| > 0 && IsDigit(s[0]) then
      var k := 1 + DigitRun(s[1..]);
      assert s[..k] == [s[0]] + s[1..][..k - 1];
      k
    else 0
  }

  /** The value of the run of decimal digits at the front of `u`; `None` when `u` does not start with a digit. */
  function ReadDigits(u: string): (r: Option<nat>)
    ensures r.None? <==> u == "" || !IsDigit(u[0])
  {
    var n := DigitRun(u);
    if n == 0 then None else Some(DigitsValue(u[..n]))
  }

  /**
   * `parseInt(s, 10)`: skip leading white space, read an optional sign and then the
   * longest run of decimal digits; `None` stands for NaN (no digit at that point).
   */
  function ParseInt(s: string): (r: Option<int>)
    ensures var t := s[LeadingWhiteSpace(s)..];
      var u := if |t| > 0 && (t[0] == '-' || t[0] == '+') then t[1..] else t;
      && (r.None? <==> u == "" || !IsDigit(u[0]))
      && (r.Some? && r.value < 0 ==> t[0] == '-')
      && (r.Some? && t[0] == '-' ==> r.value <= 0)
  {
    var t := s[LeadingWhiteSpace(s)..];
    var negative := |t| > 0 && t[0] == '-';
    var u := if |t| > 0 && (t[0] == '-' || t[0] == '+') then t[1..] else t;
    match ReadDigits(u)
    case None => None
    case Some(magnitude) => if negative then Some(-(magnitude as int)) else Some(magnitude)
  }

  /** Reading a number's own decimal text gives the number back. */
  lemma {:induction false} DigitsValueOfNatToString(n: nat)
    ensures DigitsValue(NatToString(n)) == n
  {
    if n >= 10 {
      var s := NatToString(n);
      assert s[..|s| - 1] == NatToString(n / 10);
      DigitsValueOfNatToString(n / 10);
    }
  }

  /** The run of digits at the front of `ds + rest` is exactly `ds` when `rest` does not start with a digit. */
  lemma {:induction false} DigitRunOfDigitsThen(ds: string, rest: string)
    requires AllDigits(ds)
    requires rest == "" || !IsDigit(rest[0])
    ensures DigitRun(ds + rest) == |ds|
    ensures (ds + rest)[..|ds|] == ds
  {
    var s := ds + rest;
    assert s[..|ds|] == ds;
    assert |ds| < |s| ==> s[|ds|] == rest[0];
    var k := DigitRun(s);
    assert forall i :: 0 <= i < |ds| ==> IsDigit(s[i]) by {
      forall i | 0 <= i < |ds| ensures IsDigit(s[i]) { assert s[i] == ds[i]; }
    }
    assert forall i :: 0 <= i < k ==> IsDigit(s[i]) by {
      forall i | 0 <= i < k ensures IsDigit(s[i]) { assert s[i] == s[..k][i]; }
    }
  }

  /** A digit run followed by non-digit text is read as the run's value. */
  lemma {:induction false} ReadDigitsThen(ds: string, rest: string)
    requires |ds| > 0 && AllDigits(ds)
    requires rest == "" || !IsDigit(rest[0])
    ensures ReadDigits(ds + rest) == Some(DigitsValue(ds))
  {
    DigitRunOfDigitsThen(ds, rest);
  }

  /** `parseInt` of a digit run followed by non-digit text reads the run's value. */
  lemma {:induction false} ParseIntOfDigitsThen(ds: string, rest: string)
    requires |ds| > 0 && AllDigits(ds)
    requires rest == "" || !IsDigit(rest[0])
    ensures ParseInt(ds + rest) == Some(DigitsValue(ds))
  {
    var s := ds + rest;
    assert s[0] == ds[0];
    assert LeadingWhiteSpace(s) == 0;
    assert s[0..] == s;
    ReadDigitsThen(ds, rest);
  }

  /** `parseInt` of `-` and a digit run followed by non-digit text reads the run's value negated. */
  lemma {:induction false} ParseIntOfNegatedDigitsThen(ds: string, rest: string)
    requires |ds| > 0 && AllDigits(ds)
    requires rest == "" || !IsDigit(rest[0])
    ensures ParseInt("-" + ds + rest) == Some(-(DigitsValue(ds) as int))
  {
    ReadDigitsThen(ds, rest);
    ParseIntOfMinus(ds + rest, DigitsValue(ds));
    MinusThen(ds, rest);
  }

  /** `parseInt` of `+` and a digit run followed by non-digit text reads the run's value. */
  lemma {:induction false} ParseIntOfPlusDigitsThen(ds: string, rest: string)
    requires |ds| > 0 && AllDigits(ds)
    requires rest == "" || !IsDigit(rest[0])
    ensures ParseInt("+" + ds + rest) == Some(DigitsValue(ds))
  {
    ReadDigitsThen(ds, rest);
    var s := "+" + ds + rest;
    assert s == "+" + (ds + rest);
    assert s[0] == '+';
    assert LeadingWhiteSpace(s) == 0;
    assert s[0..] == s;
    assert s[1..] == ds + rest;
  }

  /** After a leading `-`, `parseInt` negates the digits it reads. */
  lemma {:induction false} ParseIntOfMinus(u: string, m: nat)
    requires ReadDigits(u) == Some(m)
    ensures ParseInt("-" + u) == Some(-(m as int))
  {
    var s := "-" + u;
    assert s[0] == '-';
    assert LeadingWhiteSpace(s) == 0;
    assert s[0..] == s;
    assert s[1..] == u;
  }

  /**
   * `parseInt` reads back what `toString()` wrote, and ignores whatever non-digit
   * text follows it: `parseInt("42abc", 10) == 42`.
   */
  lemma {:induction false} ParseIntOfIntToString(n: int, rest: string)
    requires rest == "" || !IsDigit(rest[0])
    ensures ParseInt(IntToString(n) + rest) == Some(n)
  {
    if n < 0 {
      ParseIntOfNegativeToString(n, rest);
    } else {
      DigitsValueOfNatToString(n);
      ParseIntOfDigitsThen(NatToString(n), rest);
    }
  }

  lemma {:induction false} ParseIntOfNegativeToString(n: int, rest: string)
    requires n < 0
    requires rest == "" || !IsDigit(rest[0])
    ensures ParseInt(IntToString(n) + rest) == Some(n)
  {
    var ds := NatToString(-n);
    DigitsValueOfNatToString(-n);
    ParseIntOfNegatedValue(ds, rest, n);
    assert IntToString(n) == "-" + ds;
  }

  lemma {:induction false} ParseIntOfNegatedValue(ds: string, rest: string, n: int)
    requires |ds| > 0 && AllDigits(ds) && DigitsValue(ds) == -n
    requires rest == "" || !IsDigit(rest[0])
    ensures ParseInt("-" + ds + rest) == Some(n)
  {
    ParseIntOfNegatedDigitsThen(ds, rest);
  }

  lemma MinusThen(ds: string, rest: string)
    ensures "-" + ds + rest == "-" + (ds + rest)
  {
  }

  /** Leading white space does not change what `parseInt` reads. */
  lemma {:induction false} ParseIntSkipsWhiteSpace(w: string, s: string)
    requires AllWhiteSpace(w)
    ensures ParseInt(w + s) == ParseInt(s)
  {
    var k := LeadingWhiteSpace(s);
    var ws := w + s;
    var j := LeadingWhiteSpace(ws);
    assert AllWhiteSpace(ws[..|w| + k]) by {
      forall i | 0 <= i < |w| + k ensures IsWhiteSpace(ws[i]) {
        if i < |w| { assert ws[i] == w[i]; } else { assert ws[i] == s[..k][i - |w|]; }
      }
    }
    assert |w| + k < |ws| ==> ws[|w| + k] == s[k];
    assert j == |w| + k;
    assert ws[j..] == s[k..];
  }

  /** The canonical numeral of an array index (`"0"`, `"1"`, ..., no leading zeros), as property keys name array elements. */
  function ArrayIndex(key: string): (r: Option<nat>)
    ensures r.Some? ==> AllDigits(key) && |key| > 0
  {
    if |key| > 0 && DigitRun(key) == |key| && (key[0] != '0' || key == "0") then
      assert key[..|key|] == key;
      Some(DigitsValue(key))
    else None
  }

  /** An index's own numeral names that index. */
  lemma ArrayIndexOfNatToString(i: nat)
    ensures ArrayIndex(NatToString(i)) == Some(i)
  {
    var s := NatToString(i);
    DigitRunOfDigitsThen(s, "");
    assert s + "" == s;
    DigitsValueOfNatToString(i);
  }
}
