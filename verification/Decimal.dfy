/** Decimal integers as fmt's %d prints them and strconv's ParseInt and Atoi read them back. */
module Decimal {
  import opened Common

  const MAX_INT64: int := 0x7FFF_FFFF_FFFF_FFFF
  const MIN_INT64: int := -0x8000_0000_0000_0000

  predicate InInt64(n: int) {
    MIN_INT64 <= n <= MAX_INT64
  }

  function Digit(d: nat): char
    requires d < 10
  {
    '0' + d as char
  }

  predicate IsDigit(c: char) {
    '0' <= c <= '9'
  }

  function FormatNat(n: nat): string {
    if n < 10 then [Digit(n)] else FormatNat(n / 10) + [Digit(n % 10)]
  }

  function Format(n: int): string {
    if n < 0 then "-" + FormatNat(-n) else FormatNat(n)
  }

  function ParseNat(s: string): Option<nat> {
    if s == "" || !IsDigit(s[|s| - 1]) then None
    else
      var d := (s[|s| - 1] - '0') as nat;
      if |s| == 1 then Some(d)
      else
        match ParseNat(s[..|s| - 1])
        case Some(n) => Some(10 * n + d)
        case None => None
  }

  /** Base 10, 64 bits: an optional sign, digits only, and in range. */
  function ParseInt(s: string): Option<int> {
    var signed := s != "" && (s[0] == '-' || s[0] == '+');
    match ParseNat(if signed then s[1..] else s)
    case None => None
    case Some(n) =>
      var v: int := if signed && s[0] == '-' then -(n as int) else n;
      if InInt64(v) then Some(v) else None
  }

  lemma {:induction false} ParseFormatNat(n: nat)
    ensures ParseNat(FormatNat(n)) == Some(n)
    ensures FormatNat(n) != "" && forall c :: c in FormatNat(n) ==> IsDigit(c)
  {
    if n >= 10 {
      ParseFormatNat(n / 10);
      var s := FormatNat(n);
      assert s[..|s| - 1] == FormatNat(n / 10) && s[|s| - 1] == Digit(n % 10);
    }
  }

  /** Reading back a printed number gives it, within the 64-bit range and only there. */
  lemma ParseFormat(n: int)
    ensures ParseInt(Format(n)) == if InInt64(n) then Some(n) else None
    ensures Format(n) != "" && forall c :: c in Format(n) ==> IsDigit(c) || c == '-'
  {
    ParseFormatNat(if n < 0 then -n else n);
    if n < 0 {
      assert Format(n)[1..] == FormatNat(-n);
    } else {
      assert Format(n)[0] in Format(n);
    }
  }

  lemma FormatInjective(m: int, n: int)
    requires Format(m) == Format(n)
    ensures m == n
  {
    ParseFormatNat(if m < 0 then -m else m);
    ParseFormatNat(if n < 0 then -n else n);
    assert Format(m)[0] in Format(m);
    if m < 0 {
      assert Format(m)[1..] == FormatNat(-m);
      assert n < 0 ==> Format(n)[1..] == FormatNat(-n);
    }
  }

  /** tail ends the text, and all before it are zeros. */
  ghost predicate Padded(s: string, tail: string) {
    |tail| <= |s| && s[|s| - |tail|..] == tail && forall k :: 0 <= k < |s| - |tail| ==> s[k] == '0'
  }

  lemma PaddedSnoc(init: string, c: char, g: string, d: char)
    ensures Padded(init + [c], g + [d]) <==> c == d && Padded(init, g)
  {
    var s, tail := init + [c], g + [d];
    if |g| <= |init| {
      assert s[|s| - |tail|..] == init[|init| - |g|..] + [c];
      SnocSame(init[|init| - |g|..], c, g, d);
      assert forall k :: 0 <= k < |init| ==> s[k] == init[k];
    }
  }

  lemma SnocSame(x: string, c: char, y: string, d: char)
    ensures x + [c] == y + [d] <==> x == y && c == d
  {
    if x + [c] == y + [d] {
      assert (x + [c])[..|x|] == x && (y + [d])[..|y|] == y;
      assert (x + [c])[|x|] == c && (y + [d])[|y|] == d;
    }
  }

  lemma PaddedDigit(init: string, c: char, d: char)
    requires init != ""
    ensures Padded(init + [c], [d]) <==> c == d && Padded(init, "0")
  {
    var s := init + [c];
    assert s[|s| - 1..] == [c] && init[|init| - 1..] == [init[|init| - 1]];
    assert forall k :: 0 <= k < |init| ==> s[k] == init[k];
    if Padded(s, [d]) {
      assert s[|init| - 1] == '0';
      assert [c][0] == [d][0];
    }
    if Padded(init, "0") { assert [init[|init| - 1]][0] == '0'; }
  }

  lemma PaddedOne(c: char, n: nat)
    requires IsDigit(c)
    ensures Padded([c], FormatNat(n)) <==> n == (c - '0') as nat
  {
    ParseFormatNat(n);
    if n >= 10 {
      ParseFormatNat(n / 10);
    } else {
      assert [c][0..] == [c];
      assert [c] == [Digit(n)] <==> c == Digit(n) by { assert [c][0] == c && [Digit(n)][0] == Digit(n); }
    }
  }

  lemma PaddedMore(init: string, c: char, n: nat)
    requires init != ""
    ensures Padded(init + [c], FormatNat(n)) <==> Padded(init, FormatNat(n / 10)) && c == Digit(n % 10)
  {
    if n < 10 {
      PaddedDigit(init, c, Digit(n));
      assert FormatNat(0) == "0" && n / 10 == 0;
    } else {
      PaddedSnoc(init, c, FormatNat(n / 10), Digit(n % 10));
    }
  }

  lemma TenTimes(m: nat, d: nat, n: nat)
    requires d < 10
    ensures 10 * m + d == n <==> m == n / 10 && d == n % 10
  {
  }

  lemma EndsInDigit(s: string, n: nat)
    requires Padded(s, FormatNat(n))
    ensures s != "" && IsDigit(s[|s| - 1])
  {
    ParseFormatNat(n);
    var f := FormatNat(n);
    assert s[|s| - |f|..][|f| - 1] == s[|s| - 1] && f[|f| - 1] in f;
  }

  /** Digits read as the number whose print they are, leading zeros aside, and nothing else reads as one. */
  lemma {:induction false} ParseNatIff(s: string, n: nat)
    ensures ParseNat(s) == Some(n) <==> Padded(s, FormatNat(n))
    decreases |s|
  {
    hide FormatNat;
    hide Padded;
    if Padded(s, FormatNat(n)) { EndsInDigit(s, n); }
    if s != "" && IsDigit(s[|s| - 1]) {
      var init, last := s[..|s| - 1], s[|s| - 1];
      assert s == init + [last];
      if init == "" {
        PaddedOne(last, n);
      } else {
        ParseNatIff(init, n / 10);
        PaddedMore(init, last, n);
        if ParseNat(init).Some? { TenTimes(ParseNat(init).value, (last - '0') as nat, n); }
      }
    }
  }

  lemma {:induction false} OnlyDigitsParse(s: string)
    ensures ParseNat(s).Some? <==> s != "" && forall c :: c in s ==> IsDigit(c)
    decreases |s|
  {
    if s != "" {
      var init, last := s[..|s| - 1], s[|s| - 1];
      assert s == init + [last];
      OnlyDigitsParse(init);
      if init == "" { assert s == [last]; }
    }
  }

  /** The text prints the number, up to a plus sign and leading zeros. */
  ghost predicate Prints(s: string, v: int) {
    || (v >= 0 && Padded(s, FormatNat(v)))
    || (v >= 0 && s != "" && s[0] == '+' && Padded(s[1..], FormatNat(v)))
    || (v <= 0 && s != "" && s[0] == '-' && Padded(s[1..], FormatNat(-v)))
  }

  /** A sign or none, then digits, within 64 bits. */
  lemma ParseIntIff(s: string, v: int)
    ensures ParseInt(s) == Some(v) <==> -0x8000_0000_0000_0000 <= v < 0x8000_0000_0000_0000 && Prints(s, v)
  {
    var n := if v < 0 then -v else v;
    ParseNatIff(s, n);
    OnlyDigitsParse(s);
    hide ParseNat;
    hide FormatNat;
    hide Padded;
    if s != "" {
      assert s[0] in s;
      if s[0] == '-' || s[0] == '+' {
        assert !IsDigit(s[0]);
        ParseNatIff(s[1..], n);
      }
    }
  }

  /** What a printed number looks like. */
  lemma PrintsPlainly()
    ensures Format(1203) == "1203" && Format(-45678) == "-45678" && Format(9) == "9" && Format(0) == "0"
  {
    assert FormatNat(1) == "1" && FormatNat(12) == "12" && FormatNat(120) == "120" && FormatNat(1203) == "1203";
    assert FormatNat(4) == "4" && FormatNat(45) == "45" && FormatNat(456) == "456" && FormatNat(4567) == "4567";
    assert FormatNat(45678) == "45678";
  }

  /** strings.Cut around a single character. */
  function Cut(s: string, sep: char): Option<(string, string)> {
    if s == "" then None
    else if s[0] == sep then Some(("", s[1..]))
    else
      match Cut(s[1..], sep)
      case Some((a, b)) => Some(([s[0]] + a, b))
      case None => None
  }

  /** The first separator is where the text is cut; without one it is not. */
  lemma {:induction false} CutParts(s: string, sep: char)
    ensures Cut(s, sep).None? <==> sep !in s
    ensures Cut(s, sep).Some? ==> var (a, b) := Cut(s, sep).value; s == a + [sep] + b && sep !in a
    decreases |s|
  {
    if s != "" && s[0] != sep {
      CutParts(s[1..], sep);
      assert s == [s[0]] + s[1..];
    }
  }

  lemma {:induction false} CutFirst(a: string, sep: char, b: string)
    requires sep !in a
    ensures Cut(a + [sep] + b, sep) == Some((a, b))
    decreases |a|
  {
    if a == "" {
      assert (a + [sep] + b)[1..] == b;
    } else {
      assert (a + [sep] + b)[1..] == a[1..] + [sep] + b;
      CutFirst(a[1..], sep, b);
      assert [a[0]] + a[1..] == a;
    }
  }
}
