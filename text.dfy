/** The Python string operations the services rely on (`lower`, `in`,
    `startswith`, `strip`, `split('\n')`, `'\n'.join`, `replace`, slicing,
    `str(int)`), on `seq<char>`. White space is Python's; the other character
    classes are the ASCII ones. */
module Text {

  /** `c.lower()` for one character. */
  function LowerChar(c: char): char
  {
    if 'A' <= c <= 'Z' then (c as int + 32) as char else c
  }

  /** `s.lower()`. */
  function Lower(s: string): (r: string)
    ensures |r| == |s|
    ensures forall i :: 0 <= i < |s| ==> r[i] == LowerChar(s[i])
  {
    seq(|s|, i requires 0 <= i < |s| => LowerChar(s[i]))
  }

  lemma LowerAppend(a: string, b: string)
    ensures Lower(a + b) == Lower(a) + Lower(b)
  {
  }

  /** A lower-case letter absent from `s` in both cases is absent from `Lower(s)`. */
  lemma LowerLacks(s: string, c: char, upper: char)
    requires 'a' <= c <= 'z' && upper as int == c as int - 32
    requires c !in s && upper !in s
    ensures c !in Lower(s)
  {
    forall i | 0 <= i < |s|
      ensures Lower(s)[i] != c
    {
      assert s[i] != c && s[i] != upper;
    }
  }

  /** `s.startswith(p)`. */
  predicate IsPrefix(p: string, s: string)
  {
    |p| <= |s| && s[..|p|] == p
  }

  /** `p in s` for strings: `p` occurs somewhere in `s`. */
  predicate Contains(s: string, p: string)
  {
    exists i :: 0 <= i <= |s| && IsPrefix(p, s[i..])
  }

  lemma ContainsAt(s: string, p: string, i: nat)
    requires i + |p| <= |s| && s[i..i + |p|] == p
    ensures Contains(s, p)
  {
    assert IsPrefix(p, s[i..]);
  }

  /** Every character of a contained string occurs in the container. */
  lemma ContainedChars(s: string, p: string)
    requires Contains(s, p)
    ensures forall k :: 0 <= k < |p| ==> p[k] in s
  {
    var i :| 0 <= i <= |s| && IsPrefix(p, s[i..]);
    forall k | 0 <= k < |p|
      ensures p[k] in s
    {
      assert s[i..][k] == p[k];
      assert s[i + k] == p[k];
    }
  }

  /** A string cannot occur where one of its characters is missing. */
  lemma NotContainedWithout(s: string, p: string, c: char)
    requires c in p && c !in s
    ensures !Contains(s, p)
  {
  }

  /** What occurs in `s` occurs in `a + s`. */
  lemma ContainsAfter(a: string, s: string, p: string)
    requires Contains(s, p)
    ensures Contains(a + s, p)
  {
    var i :| 0 <= i <= |s| && IsPrefix(p, s[i..]);
    assert (a + s)[|a| + i..] == s[i..];
    assert IsPrefix(p, (a + s)[|a| + i..]);
  }

  /** `b` occurs in `a + b + c`. */
  lemma ContainsMiddle(a: string, b: string, c: string)
    ensures Contains(a + b + c, b)
  {
    var s := a + b + c;
    assert s[|a|..|a| + |b|] == b;
    ContainsAt(s, b, |a|);
  }

  /** `s[:n]` for a non-negative `n`. */
  function Take<T>(s: seq<T>, n: nat): (r: seq<T>)
    ensures |r| == if |s| <= n then |s| else n
    ensures r == s[..|r|]
  {
    if |s| <= n then s else s[..n]
  }

  /** `s[:n]` for any integer `n`: a negative bound counts from the end. */
  function SliceTo<T>(s: seq<T>, n: int): (r: seq<T>)
    ensures n >= 0 ==> r == Take(s, n)
    ensures |r| <= |s| && r == s[..|r|]
  {
    if n >= 0 then Take(s, n) else if |s| + n <= 0 then [] else s[..|s| + n]
  }

  /** `str.isspace()` on one character, which is also what `strip()` drops
      and `\s` matches: tab to carriage return, the separators 0x1C to 0x1F,
      the space, and the Unicode spaces. */
  predicate IsSpace(c: char)
  {
    var n := c as int;
    9 <= n <= 13 || 28 <= n <= 32 || n == 0x85 || n == 0xA0 || n == 0x1680
    || 0x2000 <= n <= 0x200A || n == 0x2028 || n == 0x2029 || n == 0x202F || n == 0x205F || n == 0x3000
  }

  function StripLeft(s: string): (r: string)
    ensures r == [] || !IsSpace(r[0])
    ensures |r| <= |s| && r == s[|s| - |r|..]
  {
    if s != [] && IsSpace(s[0]) then StripLeft(s[1..]) else s
  }

  function StripRight(s: string): (r: string)
    ensures r == [] || !IsSpace(r[|r| - 1])
    ensures |r| <= |s| && r == s[..|r|]
  {
    if s != [] && IsSpace(s[|s| - 1]) then StripRight(s[..|s| - 1]) else s
  }

  /** `s.strip()`: the result is a slice of `s` that neither starts nor ends
      with white space. */
  function Strip(s: string): (r: string)
    ensures r == [] || (!IsSpace(r[0]) && !IsSpace(r[|r| - 1]))
    ensures |r| <= |s|
  {
    var l := StripLeft(s);
    var r := StripRight(l);
    assert r != [] ==> r[0] == l[0];
    r
  }

  /** What `strip` keeps is one contiguous slice of its input. */
  lemma StripIsSlice(s: string)
    ensures var a := |s| - |StripLeft(s)|;
      a + |Strip(s)| <= |s| && Strip(s) == s[a..a + |Strip(s)|]
  {
  }

  /** `s.split('\n')`: at least one piece, none holding a newline. */
  function SplitLines(s: string): (r: seq<string>)
    ensures |r| >= 1
    ensures forall k :: 0 <= k < |r| ==> '\n' !in r[k]
  {
    if s == [] then [""]
    else
      var rest := SplitLines(s[1..]);
      if s[0] == '\n' then [""] + rest
      else [[s[0]] + rest[0]] + rest[1..]
  }

  /** `'\n'.join(ls)`. */
  function JoinLines(ls: seq<string>): string
  {
    if |ls| == 0 then ""
    else if |ls| == 1 then ls[0]
    else ls[0] + "\n" + JoinLines(ls[1..])
  }

  /** Joining the pieces of a split gives the text back. */
  lemma {:induction false} JoinSplit(s: string)
    ensures JoinLines(SplitLines(s)) == s
  {
    if s != [] {
      var rest := SplitLines(s[1..]);
      JoinSplit(s[1..]);
      if s[0] == '\n' {
        assert SplitLines(s) == [""] + rest;
        assert JoinLines(SplitLines(s)) == "" + "\n" + JoinLines(rest);
      } else if |rest| == 1 {
        assert SplitLines(s) == [[s[0]] + rest[0]];
      } else {
        JoinConsFirst(s[0], rest);
        assert s == [s[0]] + s[1..];
      }
    }
  }

  /** Putting a character in front of the first line puts it in front of the
      joined text. */
  lemma JoinConsFirst(c: char, rest: seq<string>)
    requires |rest| > 1
    ensures JoinLines([[c] + rest[0]] + rest[1..]) == [c] + JoinLines(rest)
  {
    var ls := [[c] + rest[0]] + rest[1..];
    assert ls[0] == [c] + rest[0] && ls[1..] == rest[1..];
    AppendAssoc([c], rest[0], "\n", JoinLines(rest[1..]));
  }

  lemma AppendAssoc<T>(a: seq<T>, b: seq<T>, c: seq<T>, d: seq<T>)
    ensures ((a + b) + c) + d == a + ((b + c) + d)
  {
  }

  /** Text without a newline is one line. */
  lemma {:induction false} SplitSingleLine(s: string)
    requires '\n' !in s
    ensures SplitLines(s) == [s]
  {
    if s != [] {
      assert '\n' !in s[1..];
      SplitSingleLine(s[1..]);
      assert s == [s[0]] + s[1..];
    }
  }

  /** Splitting at a newline splits the pieces apart. */
  lemma {:induction false} SplitAtNewline(a: string, b: string)
    ensures SplitLines(a + "\n" + b) == SplitLines(a) + SplitLines(b)
  {
    if a == [] {
      assert a + "\n" + b == ['\n'] + b;
      SplitCons('\n', b);
    } else {
      var t := a[1..] + "\n" + b;
      assert a + "\n" + b == [a[0]] + t;
      assert a == [a[0]] + a[1..];
      SplitAtNewline(a[1..], b);
      SplitCons(a[0], t);
      SplitCons(a[0], a[1..]);
      ConsLineAppend(a[0], SplitLines(a[1..]), SplitLines(b));
    }
  }

  /** The lines of `[c] + t`, given the lines of `t`. */
  function ConsLine(c: char, ls: seq<string>): seq<string>
    requires |ls| >= 1
  {
    if c == '\n' then [""] + ls else [[c] + ls[0]] + ls[1..]
  }

  lemma SplitCons(c: char, t: string)
    ensures SplitLines([c] + t) == ConsLine(c, SplitLines(t))
  {
    assert ([c] + t)[1..] == t;
  }

  lemma ConsLineAppend(c: char, x: seq<string>, y: seq<string>)
    requires |x| >= 1
    ensures ConsLine(c, x + y) == ConsLine(c, x) + y
  {
    if c != '\n' {
      assert (x + y)[1..] == x[1..] + y;
    }
  }

  /** Python's `s.replace(pat, rep)`: occurrences are replaced left to right,
      without overlap. */
  function ReplaceAll(s: string, pat: string, rep: string): string
    requires |pat| > 0
    decreases |s|
  {
    if |s| < |pat| then s
    else if s[..|pat|] == pat then rep + ReplaceAll(s[|pat|..], pat, rep)
    else [s[0]] + ReplaceAll(s[1..], pat, rep)
  }

  /** Replacing a character by a text without it removes it and brings in
      nothing but the text's characters. */
  lemma {:induction false} ReplaceCharGone(s: string, a: char, rep: string)
    requires a !in rep
    ensures a !in ReplaceAll(s, [a], rep)
    ensures forall c :: c in ReplaceAll(s, [a], rep) ==> c in s || c in rep
    decreases |s|
  {
    if |s| >= 1 {
      ReplaceCharGone(s[1..], a, rep);
    }
  }

  /** Independent description of `s.replace(',' + c, c)`: every comma that
      stands directly before a `c` in `s` is dropped, nothing else changes. */
  function DropCommaBefore(s: string, c: char): string
    decreases |s|
  {
    if s == [] then []
    else if s[0] == ',' && |s| > 1 && s[1] == c then DropCommaBefore(s[1..], c)
    else [s[0]] + DropCommaBefore(s[1..], c)
  }

  lemma {:induction false} ReplaceCommaBefore(s: string, c: char)
    requires c != ','
    ensures ReplaceAll(s, [',', c], [c]) == DropCommaBefore(s, c)
    decreases |s|
  {
    var pat := [',', c];
    if |s| < 2 {
      if |s| == 1 {
        assert DropCommaBefore(s, c) == [s[0]] + DropCommaBefore(s[1..], c);
      }
    } else if s[..2] == pat {
      ReplaceCommaBefore(s[2..], c);
      assert s[1..][1..] == s[2..];
      assert DropCommaBefore(s[1..], c) == [c] + DropCommaBefore(s[2..], c);
    } else {
      ReplaceCommaBefore(s[1..], c);
    }
  }

  function DigitChar(d: nat): char
    requires d < 10
  {
    ('0' as int + d) as char
  }

  predicate IsDigit(c: char)
  {
    '0' <= c <= '9'
  }

  /** A non-empty run of decimal digits. */
  predicate IsDigits(s: string)
  {
    |s| > 0 && forall i :: 0 <= i < |s| ==> IsDigit(s[i])
  }

  /** The value of a run of decimal digits. */
  function DigitsValue(s: string): nat
    requires forall i :: 0 <= i < |s| ==> IsDigit(s[i])
    decreases |s|
  {
    if s == [] then 0
    else
      assert IsDigit(s[|s| - 1]);
      DigitsValue(s[..|s| - 1]) * 10 + (s[|s| - 1] as int - '0' as int)
  }

  /** `str(n)` for a non-negative integer. */
  function NatToString(n: nat): (r: string)
    ensures |r| > 0
    decreases n
  {
    if n < 10 then [DigitChar(n)] else NatToString(n / 10) + [DigitChar(n % 10)]
  }

  /** Reading back what `str(n)` wrote gives `n`. */
  lemma {:induction false} NatToStringRoundTrip(n: nat)
    ensures IsDigits(NatToString(n)) && DigitsValue(NatToString(n)) == n
    decreases n
  {
    if n >= 10 {
      NatToStringRoundTrip(n / 10);
      var s := NatToString(n);
      assert s[..|s| - 1] == NatToString(n / 10);
    }
  }

  /** `str(i)` for any integer. */
  function IntToString(i: int): string
  {
    if i < 0 then "-" + NatToString(-i) else NatToString(i)
  }
}
