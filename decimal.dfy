/**
 * Integer text as the settings store reads it (Python's `int(s)` on a config
 * value) and writes it back (the text ConfigParser writes for an integer).
 */
module Decimal {
  import opened Wrappers

  predicate IsDigit(c: char) {
    '0' <= c <= '9'
  }

  predicate AllDigits(s: string) {
    forall i :: 0 <= i < |s| ==> IsDigit(s[i])
  }

  /** The characters C's `isspace` accepts, which Python 2's `int()` skips. */
  predicate IsBlank(c: char) {
    c == ' ' || c == '\t' || c == '\n' || c == '\r' || c == '\U{0B}' || c == '\U{0C}'
  }

  /** `s` without its leading blanks. */
  function DropBlanks(s: string): (r: string)
    ensures |r| <= |s|
    ensures |r| == 0 || !IsBlank(r[0])
  {
    if |s| > 0 && IsBlank(s[0]) then DropBlanks(s[1..]) else s
  }

  /** `s` without its trailing blanks. */
  function DropTrailingBlanks(s: string): (r: string)
    ensures r <= s
    ensures |r| == 0 || !IsBlank(r[|r| - 1])
  {
    if |s| > 0 && IsBlank(s[|s| - 1]) then DropTrailingBlanks(s[..|s| - 1]) else s
  }

  /** `s` without blanks at either end. */
  function Trim(s: string): string {
    DropTrailingBlanks(DropBlanks(s))
  }

  predicate IsSign(c: char) {
    c == '+' || c == '-'
  }

  /**
   * What Python 2's `int()` accepts in base 10: blanks, an optional '+' or '-' sign
   * followed by more optional blanks, at least one digit, then blanks.
   */
  predicate IsIntLiteral(s: string) {
    var t := Trim(s);
    if |t| > 0 && IsSign(t[0]) then
      var digits := DropBlanks(t[1..]);
      |digits| > 0 && AllDigits(digits)
    else |t| > 0 && AllDigits(t)
  }

  /** The value of a string of digits, most significant first. */
  function DigitsValue(s: string): nat
    requires AllDigits(s)
  {
    if |s| == 0 then 0
    else DigitsValue(s[..|s| - 1]) * 10 + (s[|s| - 1] as int - '0' as int)
  }

  /** `int(s)`: the value of the literal, or None where Python raises ValueError. */
  function ParseInt(s: string): (r: Option<int>)
    ensures r.Some? <==> IsIntLiteral(s)
    ensures r.Some? && Trim(s)[0] == '-' ==> r.value <= 0
    ensures r.Some? && Trim(s)[0] != '-' ==> r.value >= 0
  {
    var t := Trim(s);
    if |t| > 0 && IsSign(t[0]) then
      var digits := DropBlanks(t[1..]);
      if |digits| > 0 && AllDigits(digits) then
        Some(if t[0] == '-' then -(DigitsValue(digits) as int) else DigitsValue(digits) as int)
      else None
    else if |t| > 0 && AllDigits(t) then Some(DigitsValue(t))
    else None
  }

  /** Text with no blank at either end is its own trimmed form. */
  lemma TrimUnblanked(s: string)
    requires |s| > 0 && !IsBlank(s[0]) && !IsBlank(s[|s| - 1])
    ensures DropBlanks(s) == s && Trim(s) == s
  {
  }

  predicate AllBlanks(s: string) {
    forall i :: 0 <= i < |s| ==> IsBlank(s[i])
  }

  lemma {:induction false} DropBlanksPrefix(pre: string, s: string)
    requires AllBlanks(pre)
    ensures DropBlanks(pre + s) == DropBlanks(s)
  {
    if |pre| > 0 {
      assert (pre + s)[0] == pre[0];
      assert (pre + s)[1..] == pre[1..] + s;
      DropBlanksPrefix(pre[1..], s);
    } else {
      assert pre + s == s;
    }
  }

  lemma {:induction false} DropTrailingBlanksSuffix(s: string, post: string)
    requires AllBlanks(post)
    ensures DropTrailingBlanks(s + post) == DropTrailingBlanks(s)
  {
    if |post| > 0 {
      assert (s + post)[|s + post| - 1] == post[|post| - 1];
      assert (s + post)[..|s + post| - 1] == s + post[..|post| - 1];
      DropTrailingBlanksSuffix(s, post[..|post| - 1]);
    } else {
      assert s + post == s;
    }
  }

  lemma {:induction false} DropAllBlanks(s: string)
    requires AllBlanks(s)
    ensures DropBlanks(s) == ""
  {
    if |s| > 0 {
      DropAllBlanks(s[1..]);
    }
  }

  lemma {:induction false} TrimAppend(s: string, post: string)
    requires AllBlanks(post)
    ensures Trim(s + post) == Trim(s)
  {
    if |s| == 0 {
      assert s + post == post;
      DropAllBlanks(post);
    } else if IsBlank(s[0]) {
      assert (s + post)[1..] == s[1..] + post;
      TrimAppend(s[1..], post);
    } else {
      DropTrailingBlanksSuffix(s, post);
    }
  }

  /** Blanks before and after the text do not change what `int()` reads. */
  lemma BlanksAround(pre: string, s: string, post: string)
    requires AllBlanks(pre) && AllBlanks(post)
    ensures ParseInt(pre + s + post) == ParseInt(s)
  {
    assert pre + s + post == pre + (s + post);
    DropBlanksPrefix(pre, s + post);
    TrimAppend(s, post);
    assert Trim(pre + s + post) == Trim(s);
  }

  /** A run of digits reads as its decimal value. */
  lemma UnsignedValue(d: string)
    requires |d| > 0 && AllDigits(d)
    ensures ParseInt(d) == Some(DigitsValue(d) as int)
  {
    TrimUnblanked(d);
  }

  lemma SignedTrim(sign: char, rest: string)
    requires IsSign(sign) && |rest| > 0 && !IsBlank(rest[|rest| - 1])
    ensures Trim([sign] + rest) == [sign] + rest
    ensures ([sign] + rest)[1..] == rest
  {
    var s := [sign] + rest;
    assert s[0] == sign && s[|s| - 1] == rest[|rest| - 1];
    TrimUnblanked(s);
    assert s[1..] == rest;
  }

  lemma ParseSigned(t: string, d: string)
    requires |t| > 0 && IsSign(t[0]) && Trim(t) == t && DropBlanks(t[1..]) == d && |d| > 0 && AllDigits(d)
    ensures ParseInt(t) == Some(if t[0] == '-' then -(DigitsValue(d) as int) else DigitsValue(d) as int)
  {
  }

  /** A sign, optional blanks and a run of digits read as the digits' value, negated for '-'. */
  lemma SignedValue(sign: char, blanks: string, d: string)
    requires IsSign(sign) && AllBlanks(blanks) && |d| > 0 && AllDigits(d)
    ensures ParseInt([sign] + blanks + d) == Some(if sign == '-' then -(DigitsValue(d) as int) else DigitsValue(d) as int)
  {
    var rest := blanks + d;
    assert rest[|rest| - 1] == d[|d| - 1];
    var s := [sign] + rest;
    assert [sign] + blanks + d == s;
    SignedTrim(sign, rest);
    DropBlanksPrefix(blanks, d);
    TrimUnblanked(d);
    ParseSigned(s, d);
  }

  /** A leading '+' does not change the value. */
  lemma PlusSign(d: string)
    requires |d| > 0 && AllDigits(d)
    ensures ParseInt("+" + d) == ParseInt(d)
  {
    SignedValue('+', "", d);
    assert ['+'] + "" + d == "+" + d;
    UnsignedValue(d);
  }

  function Pow10(k: nat): nat {
    if k == 0 then 1 else 10 * Pow10(k - 1)
  }

  lemma AllDigitsAppend(a: string, b: string)
    requires AllDigits(a) && AllDigits(b)
    ensures AllDigits(a + b)
  {
    forall i | 0 <= i < |a + b| ensures IsDigit((a + b)[i]) {
      if i < |a| {
        assert (a + b)[i] == a[i];
      } else {
        assert (a + b)[i] == b[i - |a|];
      }
    }
  }

  lemma Regroup(x: int, p: int, y: int, last: int)
    ensures (x * p + y) * 10 + last == x * (10 * p) + (y * 10 + last)
  {
  }

  /** The value of two runs of digits written one after the other. */
  lemma {:induction false} DigitsValueAppend(a: string, b: string)
    requires AllDigits(a) && AllDigits(b)
    ensures AllDigits(a + b)
    ensures DigitsValue(a + b) == DigitsValue(a) * Pow10(|b|) + DigitsValue(b)
  {
    AllDigitsAppend(a, b);
    if |b| == 0 {
      assert a + b == a;
    } else {
      var init := b[..|b| - 1];
      var last := b[|b| - 1] as int - '0' as int;
      assert (a + b)[..|a + b| - 1] == a + init;
      assert (a + b)[|a + b| - 1] == b[|b| - 1];
      AllDigitsAppend(a, init);
      DigitsValueAppend(a, init);
      var x, p, y := DigitsValue(a), Pow10(|init|), DigitsValue(init);
      var front := DigitsValue(a + init);
      assert front == x * p + y;
      assert DigitsValue(a + b) == front * 10 + last;
      assert DigitsValue(b) == y * 10 + last;
      assert Pow10(|b|) == 10 * p;
      Regroup(x, p, y, last);
    }
  }

  lemma {:induction false} ZerosValue(z: string)
    requires forall i :: 0 <= i < |z| ==> z[i] == '0'
    ensures AllDigits(z) && DigitsValue(z) == 0
  {
    if |z| > 0 {
      ZerosValue(z[..|z| - 1]);
    }
  }

  /** Leading zeros do not change the value. */
  lemma LeadingZeros(z: string, d: string)
    requires forall i :: 0 <= i < |z| ==> z[i] == '0'
    requires |d| > 0 && AllDigits(d)
    ensures ParseInt(z + d) == ParseInt(d)
  {
    ZerosValue(z);
    DigitsValueAppend(z, d);
    assert (z + d)[|z + d| - 1] == d[|d| - 1];
    assert (z + d)[0] == if |z| > 0 then z[0] else d[0];
    UnsignedValue(z + d);
    UnsignedValue(d);
  }

  lemma PortDigits()
    ensures ParseInt("8080") == Some(8080)
  {
    assert DigitsValue("8080") == 8080 by {
      assert "8080"[..3] == "808" && "808"[..2] == "80" && "80"[..1] == "8" && "8"[..0] == "";
    }
    UnsignedValue("8080");
  }

  lemma PortShown()
    ensures ShowInt(8080) == "8080"
  {
    assert ShowNat(8) == "8";
    assert ShowNat(80) == ShowNat(8) + "0";
    assert ShowNat(808) == ShowNat(80) + "8";
    assert ShowNat(8080) == ShowNat(808) + "0";
  }

  lemma PlusPort()
    ensures ParseInt("+8080") == Some(8080)
  {
    PortDigits();
    PlusSign("8080");
    assert "+8080" == "+" + "8080";
  }

  lemma ZeroPort()
    ensures ParseInt("08080") == Some(8080)
  {
    PortDigits();
    LeadingZeros("0", "8080");
    assert "08080" == "0" + "8080";
  }

  lemma BlankPort()
    ensures ParseInt(" 8080 ") == Some(8080)
  {
    PortDigits();
    BlanksAround(" ", "8080", " ");
    assert " 8080 " == " " + "8080" + " ";
  }

  /** The port spellings `+8080`, `08080` and ` 8080 ` all read as 8080, which `str()` writes as `8080`. */
  lemma PortSpellings()
    ensures ParseInt("+8080") == Some(8080)
    ensures ParseInt("08080") == Some(8080)
    ensures ParseInt(" 8080 ") == Some(8080)
    ensures ShowInt(8080) == "8080"
  {
    PlusPort();
    ZeroPort();
    BlankPort();
    PortShown();
  }

  function DigitChar(d: nat): (c: char)
    requires d < 10
    ensures IsDigit(c) && c as int - '0' as int == d
  {
    ('0' as int + d) as char
  }

  /** The shortest decimal spelling of n, without sign or leading zeros. */
  function ShowNat(n: nat): (s: string)
    ensures |s| >= 1 && AllDigits(s)
    ensures s[0] == '0' ==> n == 0
  {
    if n < 10 then [DigitChar(n)]
    else ShowNat(n / 10) + [DigitChar(n % 10)]
  }

  /** `str(n)`: a '-' sign for negative numbers, then the digits. */
  function ShowInt(n: int): (s: string)
    ensures IsIntLiteral(s)
    ensures s[0] != '+' && !IsBlank(s[0]) && !IsBlank(s[|s| - 1])
  {
    if n < 0 then
      var s := "-" + ShowNat(-n);
      TrimUnblanked(s);
      assert s[1..] == ShowNat(-n);
      TrimUnblanked(ShowNat(-n));
      s
    else
      TrimUnblanked(ShowNat(n));
      ShowNat(n)
  }

  lemma {:induction false} DigitsValueShowNat(n: nat)
    ensures DigitsValue(ShowNat(n)) == n
  {
    var s := ShowNat(n);
    if n >= 10 {
      DigitsValueShowNat(n / 10);
      assert s[..|s| - 1] == ShowNat(n / 10);
    }
  }

  /** Writing an integer and reading it back gives the same integer. */
  lemma ParseShow(n: int)
    ensures ParseInt(ShowInt(n)) == Some(n)
  {
    var s := ShowInt(n);
    TrimUnblanked(s);
    if n < 0 {
      var digits := ShowNat(-n);
      DigitsValueShowNat(-n);
      assert s[1..] == digits;
      TrimUnblanked(digits);
      assert IsSign(s[0]) && DropBlanks(s[1..]) == digits;
    } else {
      DigitsValueShowNat(n);
      assert !IsSign(s[0]);
    }
  }

  /** Python 2 reads `- 8080`, a blank between the sign and the digits, as -8080... */
  lemma BlankAfterSign()
    ensures ParseInt("- 8080") == Some(-8080)
  {
    var s := "- 8080";
    TrimUnblanked(s);
    assert s[1..] == " 8080";
    assert DropBlanks(" 8080") == DropBlanks("8080");
    TrimUnblanked("8080");
    assert DigitsValue("8080") == 8080 by {
      assert "8080"[..3] == "808" && "808"[..2] == "80" && "80"[..1] == "8" && "8"[..0] == "";
    }
  }

  /** ... but refuses a blank between two digits. */
  lemma BlankInsideDigits()
    ensures ParseInt("80 80") == None
  {
    var s := "80 80";
    TrimUnblanked(s);
    assert !IsSign(s[0]);
    assert !IsDigit(s[2]);
  }
}
