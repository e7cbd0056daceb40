/** The string operations several components share, over the characters as Go classifies them. */
module Text {
  predicate IsSpace(c: char) {
    var n := c as int;
    9 <= n <= 13 || 0x2000 <= n <= 0x200A || n in {0x20, 0x85, 0xA0, 0x1680, 0x2028, 0x2029, 0x202F, 0x205F, 0x3000}
  }

  /** The white space of the Unicode standard's White_Space property, which Go's unicode.IsSpace follows. */
  const SPACES: string :=
    "\t\n\U{0B}\U{0C}\r \U{85}\U{A0}\U{1680}\U{2000}\U{2001}\U{2002}\U{2003}\U{2004}\U{2005}\U{2006}\U{2007}"
    + "\U{2008}\U{2009}\U{200A}\U{2028}\U{2029}\U{202F}\U{205F}\U{3000}"

  lemma SpacesAre(c: char)
    ensures IsSpace(c) <==> c in SPACES
  {
  }

  function TrimLeft(s: string): string {
    if s != [] && IsSpace(s[0]) then TrimLeft(s[1..]) else s
  }

  function TrimRight(s: string): string {
    if s != [] && IsSpace(s[|s| - 1]) then TrimRight(s[..|s| - 1]) else s
  }

  /** strings.TrimSpace */
  function Trim(s: string): string {
    TrimRight(TrimLeft(s))
  }

  predicate Blank(s: string) {
    forall c :: c in s ==> IsSpace(c)
  }

  lemma {:induction false} TrimLeftBlank(s: string)
    ensures Blank(s) <==> TrimLeft(s) == ""
    decreases |s|
  {
    if s != [] && IsSpace(s[0]) {
      TrimLeftBlank(s[1..]);
      assert s == [s[0]] + s[1..];
    } else if s != [] {
      assert s[0] in s;
    }
  }

  lemma {:induction false} TrimRightBlank(s: string)
    ensures Blank(s) <==> TrimRight(s) == ""
    decreases |s|
  {
    if s != [] && IsSpace(s[|s| - 1]) {
      TrimRightBlank(s[..|s| - 1]);
      assert s == s[..|s| - 1] + [s[|s| - 1]];
    } else if s != [] {
      assert s[|s| - 1] in s;
    }
  }

  lemma TrimBlank(s: string)
    ensures Blank(s) <==> Trim(s) == ""
  {
    TrimLeftBlank(s);
    TrimRightBlank(TrimLeft(s));
    TrimLeftBlankInside(s);
  }

  lemma {:induction false} TrimLeftBlankInside(s: string)
    ensures Blank(TrimLeft(s)) ==> TrimLeft(s) == ""
    decreases |s|
  {
    if s != [] && IsSpace(s[0]) { TrimLeftBlankInside(s[1..]); }
    else if s != [] { assert s[0] in TrimLeft(s); }
  }

  function LowerChar(c: char): char {
    if 'A' <= c <= 'Z' then ((c as int) + 32) as char else c
  }

  function Lower(s: string): string {
    seq(|s|, k requires 0 <= k < |s| => LowerChar(s[k]))
  }

  predicate Contains(s: string, part: string) {
    part <= s || (s != [] && Contains(s[1..], part))
  }

  predicate StandsAt(s: string, part: string, i: int) {
    0 <= i <= |s| - |part| && s[i..i + |part|] == part
  }

  /** A part is contained where it stands in the text, and only then. */
  lemma {:induction false} ContainsAt(s: string, part: string)
    ensures Contains(s, part) <==> exists i :: StandsAt(s, part, i)
    decreases |s|
  {
    if part <= s {
      assert StandsAt(s, part, 0);
    } else if s != [] {
      ContainsAt(s[1..], part);
      forall i | StandsAt(s, part, i) ensures StandsAt(s[1..], part, i - 1) {
        if i == 0 { assert false; }
        assert s[1..][i - 1..i - 1 + |part|] == part;
      }
      forall i | StandsAt(s[1..], part, i) ensures StandsAt(s, part, i + 1) {
        assert s[i + 1..i + 1 + |part|] == part;
      }
    }
  }

  /** Lower-casing keeps length and every character but the capitals A to Z, which become a to z. */
  lemma LowerAt(s: string, k: nat)
    requires k < |s|
    ensures |Lower(s)| == |s|
    ensures s[k] in "ABCDEFGHIJKLMNOPQRSTUVWXYZ" ==>
              exists n :: 0 <= n < 26 && s[k] == "ABCDEFGHIJKLMNOPQRSTUVWXYZ"[n]
                          && Lower(s)[k] == "abcdefghijklmnopqrstuvwxyz"[n]
    ensures s[k] !in "ABCDEFGHIJKLMNOPQRSTUVWXYZ" ==> Lower(s)[k] == s[k]
  {
    var upper, lower := "ABCDEFGHIJKLMNOPQRSTUVWXYZ", "abcdefghijklmnopqrstuvwxyz";
    if 'A' <= s[k] <= 'Z' {
      var n := (s[k] as int) - ('A' as int);
      assert upper[n] == s[k] && lower[n] == LowerChar(s[k]);
    }
  }

  /** Trimming takes the spaces off both ends and nothing else. */
  lemma TrimTakes(s: string) returns (before: string, after: string)
    ensures s == before + Trim(s) + after && Blank(before) && Blank(after)
    ensures Trim(s) != [] ==> !IsSpace(Trim(s)[0]) && !IsSpace(Trim(s)[|Trim(s)| - 1])
  {
    before := TrimLeftTakes(s);
    after := TrimRightTakes(TrimLeft(s));
  }

  lemma {:induction false} TrimLeftTakes(s: string) returns (before: string)
    ensures s == before + TrimLeft(s) && Blank(before) && (TrimLeft(s) != [] ==> !IsSpace(TrimLeft(s)[0]))
    decreases |s|
  {
    if s != [] && IsSpace(s[0]) {
      before := TrimLeftTakes(s[1..]);
      before := [s[0]] + before;
    } else {
      before := [];
    }
  }

  lemma {:induction false} TrimRightTakes(s: string) returns (after: string)
    ensures s == TrimRight(s) + after && Blank(after)
    ensures TrimRight(s) != [] ==> !IsSpace(TrimRight(s)[|TrimRight(s)| - 1]) && TrimRight(s)[0] == s[0]
    decreases |s|
  {
    if s != [] && IsSpace(s[|s| - 1]) {
      after := TrimRightTakes(s[..|s| - 1]);
      after := after + [s[|s| - 1]];
    } else {
      after := [];
    }
  }
}
