/** The Python `str` builtins the follow-up code relies on: `strip`, `lstrip`,
    `startswith`, `replace`, `split`, `join`, `lower`, `isdigit` and `int()`.
    Whitespace is CPython's exact set; digits are ASCII only. */
module PyStr {
  import opened Wrappers

  /** `c.isspace()`: the characters CPython's `str.split()` and `str.strip()` treat as whitespace. */
  predicate IsSpace(c: char) {
    || c == ' ' || c == '\t' || c == '\n' || c == '\r' || c == '\U{000B}' || c == '\U{000C}'
    || c == '\U{001C}' || c == '\U{001D}' || c == '\U{001E}' || c == '\U{001F}' || c == '\U{0085}'
    || c == '\U{00A0}' || c == '\U{1680}' || c == '\U{2000}' || c == '\U{2001}' || c == '\U{2002}'
    || c == '\U{2003}' || c == '\U{2004}' || c == '\U{2005}' || c == '\U{2006}' || c == '\U{2007}'
    || c == '\U{2008}' || c == '\U{2009}' || c == '\U{200A}' || c == '\U{2028}' || c == '\U{2029}'
    || c == '\U{202F}' || c == '\U{205F}' || c == '\U{3000}'
  }

  predicate IsDigit(c: char) {
    '0' <= c <= '9'
  }

  predicate AllDigits(s: string) {
    forall i :: 0 <= i < |s| ==> IsDigit(s[i])
  }

  /** `s.isdigit()`. */
  predicate IsDigitString(s: string) {
    |s| > 0 && AllDigits(s)
  }

  /** `s.startswith(prefix)`. */
  predicate StartsWith(s: string, prefix: string) {
    |prefix| <= |s| && s[..|prefix|] == prefix
  }

  lemma NotStartsWith(s: string, prefix: string, k: nat)
    requires k < |prefix|
    requires k >= |s| || s[k] != prefix[k]
    ensures !StartsWith(s, prefix)
  {
    if |prefix| <= |s| {
      assert s[..|prefix|][k] == s[k];
    }
  }

  lemma StartsWithConcat(prefix: string, t: string)
    ensures StartsWith(prefix + t, prefix)
  {
    assert (prefix + t)[..|prefix|] == prefix;
  }

  predicate NoSpace(s: string) {
    forall i :: 0 <= i < |s| ==> !IsSpace(s[i])
  }

  /** A maximal run of non-whitespace, as `str.split()` returns them. */
  predicate IsWord(w: string) {
    |w| > 0 && NoSpace(w)
  }

  // ---------------------------------------------------------------- strip

  function StripLeading(s: string): string
    decreases |s|
  {
    if |s| > 0 && IsSpace(s[0]) then StripLeading(s[1..]) else s
  }

  function StripTrailing(s: string): string
    decreases |s|
  {
    if |s| > 0 && IsSpace(s[|s| - 1]) then StripTrailing(s[..|s| - 1]) else s
  }

  /** `s.strip()`. */
  function Strip(s: string): string {
    StripTrailing(StripLeading(s))
  }

  /** `lstrip()` removes exactly the leading whitespace: what remains is a suffix that
      does not start with whitespace, and everything before it is whitespace. */
  lemma {:induction false} StripLeadingShape(s: string)
    ensures var r := StripLeading(s);
            |r| <= |s| && r == s[|s| - |r|..] && (r == [] || !IsSpace(r[0])) &&
            forall i :: 0 <= i < |s| - |r| ==> IsSpace(s[i])
    decreases |s|
  {
    if |s| > 0 && IsSpace(s[0]) {
      StripLeadingShape(s[1..]);
    }
  }

  /** `rstrip()` removes exactly the trailing whitespace. */
  lemma {:induction false} StripTrailingShape(s: string)
    ensures var r := StripTrailing(s);
            |r| <= |s| && r == s[..|r|] && (r == [] || !IsSpace(r[|r| - 1])) &&
            forall i :: |r| <= i < |s| ==> IsSpace(s[i])
    decreases |s|
  {
    if |s| > 0 && IsSpace(s[|s| - 1]) {
      StripTrailingShape(s[..|s| - 1]);
    }
  }

  /** After `strip()` neither end is whitespace. */
  lemma StripEnds(s: string)
    ensures var t := Strip(s); t == [] || (!IsSpace(t[0]) && !IsSpace(t[|t| - 1]))
  {
    var l := StripLeading(s);
    StripLeadingShape(s);
    StripTrailingShape(l);
    var t := Strip(s);
    if t != [] {
      assert t[0] == l[0];
    }
  }

  lemma StripIdempotent(s: string)
    ensures Strip(Strip(s)) == Strip(s)
  {
    StripEnds(s);
    StripUnchanged(Strip(s));
  }

  lemma StripUnchanged(s: string)
    requires s == [] || (!IsSpace(s[0]) && !IsSpace(s[|s| - 1]))
    ensures Strip(s) == s
  {
  }

  /** `s.lstrip(c)` for a single character `c`. */
  function LStripChar(s: string, c: char): (r: string)
    ensures |r| <= |s| && r == s[|s| - |r|..]
    ensures r == [] || r[0] != c
    ensures forall i :: 0 <= i < |s| - |r| ==> s[i] == c
    decreases |s|
  {
    if |s| > 0 && s[0] == c then LStripChar(s[1..], c) else s
  }

  // ---------------------------------------------------------------- split('?')[0]

  /** `s.split(c)[0]`: everything before the first `c`. */
  function BeforeFirst(s: string, c: char): (r: string)
    ensures |r| <= |s| && r == s[..|r|]
    ensures c !in r
    ensures |r| < |s| ==> s[|r|] == c
    decreases |s|
  {
    if s == [] then []
    else if s[0] == c then []
    else [s[0]] + BeforeFirst(s[1..], c)
  }

  lemma {:induction false} BeforeFirstOf(a: string, c: char, b: string)
    requires c !in a
    ensures BeforeFirst(a, c) == a
    ensures BeforeFirst(a + [c] + b, c) == a
    decreases |a|
  {
    if a == [] {
      assert (a + [c] + b)[0] == c;
    } else {
      assert (a + [c] + b)[1..] == a[1..] + [c] + b;
      BeforeFirstOf(a[1..], c, b);
    }
  }

  // ---------------------------------------------------------------- replace

  /** `s.replace(pat, rep)`: every leftmost, non-overlapping occurrence of `pat`
      is replaced, scanning left to right. */
  function ReplaceAll(s: string, pat: string, rep: string): string
    requires |pat| > 0
    decreases |s|
  {
    if StartsWith(s, pat) then rep + ReplaceAll(s[|pat|..], pat, rep)
    else if s == [] then []
    else [s[0]] + ReplaceAll(s[1..], pat, rep)
  }

  /** A string in which the last character of `pat` only occurs before index
      |pat| - 1 holds no occurrence of `pat`, and `replace` leaves it alone. */
  lemma {:induction false} ReplaceWithoutMatch(s: string, pat: string, rep: string)
    requires |pat| > 0
    requires forall m :: |pat| - 1 <= m < |s| ==> s[m] != pat[|pat| - 1]
    ensures ReplaceAll(s, pat, rep) == s
    decreases |s|
  {
    if |pat| <= |s| {
      assert s[..|pat|][|pat| - 1] != pat[|pat| - 1];
    }
    if s != [] {
      ReplaceWithoutMatch(s[1..], pat, rep);
    }
  }

  /** Text before the first possible start of `pat` passes through unchanged. */
  lemma {:induction false} ReplaceAfterPlainPrefix(p: string, t: string, pat: string, rep: string)
    requires |pat| > 0 && pat[0] !in p
    ensures ReplaceAll(p + t, pat, rep) == p + ReplaceAll(t, pat, rep)
    decreases |p|
  {
    if p == [] {
      assert p + t == t;
    } else {
      if |pat| <= |p + t| {
        assert (p + t)[..|pat|][0] != pat[0];
      }
      assert (p + t)[1..] == p[1..] + t;
      ReplaceAfterPlainPrefix(p[1..], t, pat, rep);
      assert [p[0]] + (p[1..] + ReplaceAll(t, pat, rep)) == p + ReplaceAll(t, pat, rep);
    }
  }

  lemma ReplaceAtStart(pat: string, t: string, rep: string)
    requires |pat| > 0
    ensures ReplaceAll(pat + t, pat, rep) == rep + ReplaceAll(t, pat, rep)
  {
    assert (pat + t)[..|pat|] == pat;
    assert (pat + t)[|pat|..] == t;
  }

  /** Every separator of a joined text is replaced, and nothing else changes,
      when no part contains the separator's first character. */
  lemma {:induction false} ReplaceJoined(parts: seq<string>, pat: string, rep: string)
    requires |pat| > 0
    requires forall j :: 0 <= j < |parts| ==> pat[0] !in parts[j]
    ensures ReplaceAll(Join(parts, pat), pat, rep) == Join(parts, rep)
    decreases |parts|
  {
    if |parts| == 1 {
      ReplaceAfterPlainPrefix(parts[0], [], pat, rep);
      assert parts[0] + [] == parts[0];
    } else if |parts| > 1 {
      var p, rest := parts[0], Join(parts[1..], pat);
      assert p + pat + rest == p + (pat + rest);
      ReplaceAfterPlainPrefix(p, pat + rest, pat, rep);
      ReplaceAtStart(pat, rest, rep);
      ReplaceJoined(parts[1..], pat, rep);
      assert p + (rep + Join(parts[1..], rep)) == p + rep + Join(parts[1..], rep);
    }
  }

  // ---------------------------------------------------------------- split() and join

  /** Length of the leading run of non-whitespace. */
  function WordLen(s: string): (k: nat)
    ensures k <= |s|
    ensures forall i :: 0 <= i < k ==> !IsSpace(s[i])
    ensures k < |s| ==> IsSpace(s[k])
    decreases |s|
  {
    if s == [] || IsSpace(s[0]) then 0 else 1 + WordLen(s[1..])
  }

  /** `s.split()` with no separator: the maximal runs of non-whitespace, in order. */
  function Split(s: string): (ws: seq<string>)
    ensures forall j :: 0 <= j < |ws| ==> IsWord(ws[j])
    decreases |s|
  {
    if s == [] then []
    else if IsSpace(s[0]) then Split(s[1..])
    else
      var k := WordLen(s);
      [s[..k]] + Split(s[k..])
  }

  /** `sep.join(ws)`. */
  function Join(ws: seq<string>, sep: string): string
    decreases |ws|
  {
    if ws == [] then []
    else if |ws| == 1 then ws[0]
    else ws[0] + sep + Join(ws[1..], sep)
  }

  lemma {:induction false} WordLenOfWord(w: string, t: string)
    requires NoSpace(w)
    requires t == [] || IsSpace(t[0])
    ensures WordLen(w + t) == |w|
    decreases |w|
  {
    if w == [] {
      assert w + t == t;
    } else {
      assert (w + t)[1..] == w[1..] + t;
      WordLenOfWord(w[1..], t);
    }
  }

  /** `WordLen` is the index of the first whitespace character, or the length. */
  lemma WordLenAt(s: string, k: nat)
    requires k <= |s|
    requires forall i :: 0 <= i < k ==> !IsSpace(s[i])
    requires k < |s| ==> IsSpace(s[k])
    ensures WordLen(s) == k
  {
  }

  /** Whitespace alone splits into no words. */
  lemma {:induction false} SplitOfSpaces(s: string)
    requires forall i :: 0 <= i < |s| ==> IsSpace(s[i])
    ensures Split(s) == []
    decreases |s|
  {
    if s != [] {
      SplitOfSpaces(s[1..]);
    }
  }

  /** A word splits into itself. */
  lemma SplitOfWord(w: string)
    requires IsWord(w)
    ensures Split(w) == [w]
  {
    WordLenAt(w, |w|);
    assert w[..|w|] == w && w[|w|..] == [];
  }

  /** Two texts that meet at whitespace split into the words of the first, then those of the second. */
  lemma {:induction false} SplitConcat(a: string, b: string)
    requires a == [] || b == [] || IsSpace(a[|a| - 1]) || IsSpace(b[0])
    ensures Split(a + b) == Split(a) + Split(b)
    decreases |a|
  {
    var s := a + b;
    if a == [] {
      assert s == b;
    } else if b == [] {
      assert s == a;
    } else if IsSpace(a[0]) {
      assert s[0] == a[0];
      assert s[1..] == a[1..] + b;
      SplitConcat(a[1..], b);
    } else {
      assert s[0] == a[0];
      var k := WordLen(a);
      if k < |a| {
        WordLenAt(s, k);
        assert s[..k] == a[..k];
        assert s[k..] == a[k..] + b;
        SplitConcat(a[k..], b);
      } else {
        WordLenAt(s, k);
        assert s[..k] == a;
        assert s[k..] == b;
        assert a[..k] == a && a[k..] == [];
      }
    }
  }

  /** Splitting words joined by single spaces gives the words back. */
  lemma {:induction false} SplitOfJoin(ws: seq<string>)
    requires forall j :: 0 <= j < |ws| ==> IsWord(ws[j])
    ensures Split(Join(ws, " ")) == ws
    decreases |ws|
  {
    if |ws| == 1 {
      var w := ws[0];
      WordLenOfWord(w, []);
      assert w + [] == w;
      assert w[|w|..] == [];
    } else if |ws| > 1 {
      var w, rest := ws[0], Join(ws[1..], " ");
      var s := w + " " + rest;
      WordLenOfWord(w, " " + rest);
      assert w + (" " + rest) == s;
      assert s[..|w|] == w;
      assert s[|w|..] == " " + rest;
      assert (" " + rest)[1..] == rest;
      SplitOfJoin(ws[1..]);
    }
  }

  /** No leading, trailing or doubled whitespace, and every whitespace character is a plain space. */
  predicate SingleSpaced(r: string) {
    && (|r| > 0 ==> !IsSpace(r[0]) && !IsSpace(r[|r| - 1]))
    && forall i :: 0 <= i < |r| && IsSpace(r[i]) ==> r[i] == ' ' && i + 1 < |r| && !IsSpace(r[i + 1])
  }

  lemma {:induction false} JoinSingleSpaced(ws: seq<string>)
    requires forall j :: 0 <= j < |ws| ==> IsWord(ws[j])
    ensures SingleSpaced(Join(ws, " "))
    ensures |ws| > 0 ==> |Join(ws, " ")| > 0
    decreases |ws|
  {
    if |ws| > 1 {
      var w, rest := ws[0], Join(ws[1..], " ");
      JoinSingleSpaced(ws[1..]);
      var r := w + " " + rest;
      assert r == Join(ws, " ");
      forall i | 0 <= i < |r|
        ensures IsSpace(r[i]) ==> r[i] == ' ' && i + 1 < |r| && !IsSpace(r[i + 1])
      {
        if i < |w| {
          assert r[i] == w[i];
        } else if i > |w| {
          assert r[i] == rest[i - |w| - 1];
          if i + 1 < |r| {
            assert r[i + 1] == rest[i - |w|];
          }
        }
      }
    }
  }

  // ---------------------------------------------------------------- lower

  function LowerChar(c: char): char {
    if 'A' <= c <= 'Z' then (c as int - 'A' as int + 'a' as int) as char else c
  }

  /** `s.lower()` on ASCII letters. */
  function Lower(s: string): (r: string)
    ensures |r| == |s|
    ensures forall i :: 0 <= i < |s| ==> r[i] == LowerChar(s[i])
  {
    seq(|s|, i requires 0 <= i < |s| => LowerChar(s[i]))
  }

  /** `lower()` leaves no upper-case ASCII letter, maps each one to its lower-case
      letter, keeps every other character, and applying it twice changes nothing more. */
  lemma LowerIsLowerCase(s: string)
    ensures forall i :: 0 <= i < |s| ==> !('A' <= Lower(s)[i] <= 'Z')
    ensures forall i :: 0 <= i < |s| && 'A' <= s[i] <= 'Z' ==> Lower(s)[i] as int == s[i] as int + 32
    ensures forall i :: 0 <= i < |s| && !('A' <= s[i] <= 'Z') ==> Lower(s)[i] == s[i]
    ensures Lower(Lower(s)) == Lower(s)
  {
  }

  // ---------------------------------------------------------------- integers

  function DigitValue(c: char): nat
    requires IsDigit(c)
  {
    c as int - '0' as int
  }

  function DigitChar(d: nat): (c: char)
    requires d < 10
    ensures IsDigit(c) && DigitValue(c) == d
  {
    ('0' as int + d) as char
  }

  /** The value of a string of decimal digits. */
  function DigitsValue(s: string): nat
    requires AllDigits(s)
    decreases |s|
  {
    if s == [] then 0 else DigitsValue(s[..|s| - 1]) * 10 + DigitValue(s[|s| - 1])
  }

  /** `str(n)` for a natural number. */
  function NatToString(n: nat): (s: string)
    ensures IsDigitString(s)
    ensures DigitsValue(s) == n
    decreases n
  {
    if n < 10 then [DigitChar(n)]
    else
      var p := NatToString(n / 10);
      var s := p + [DigitChar(n % 10)];
      assert s[..|s| - 1] == p;
      s
  }

  /** `str(n)`. */
  function IntToString(n: int): string {
    if n < 0 then "-" + NatToString(-n) else NatToString(n)
  }

  /** The body of an integer literal as `int()` accepts it: digits, with single
      underscores allowed between two digits. */
  predicate IsDigitGroups(b: string) {
    && |b| > 0
    && IsDigit(b[0])
    && DigitsOrUnderscores(b)
    && forall i :: 0 <= i < |b| && b[i] == '_' ==> i + 1 < |b| && IsDigit(b[i + 1])
  }

  predicate DigitsOrUnderscores(b: string) {
    forall i :: 0 <= i < |b| ==> IsDigit(b[i]) || b[i] == '_'
  }

  function WithoutUnderscores(b: string): (r: string)
    requires DigitsOrUnderscores(b)
    ensures AllDigits(r)
    ensures AllDigits(b) ==> r == b
    decreases |b|
  {
    if b == [] then []
    else (if b[0] == '_' then [] else [b[0]]) + WithoutUnderscores(b[1..])
  }

  /** `int(s)` in base 10; `None` where Python raises ValueError. */
  function IntLiteral(s: string): Option<int> {
    var t := Strip(s);
    if |t| > 0 && (t[0] == '-' || t[0] == '+') then
      if IsDigitGroups(t[1..]) then
        var v: int := DigitsValue(WithoutUnderscores(t[1..]));
        Some(if t[0] == '-' then -v else v)
      else None
    else if IsDigitGroups(t) then Some(DigitsValue(WithoutUnderscores(t)))
    else None
  }

  /** `str(n)`: digits, after a `-` when n is negative. */
  lemma IntToStringShape(n: int)
    ensures var s := IntToString(n);
            |s| > 0 && !IsSpace(s[0]) && IsDigit(s[|s| - 1]) &&
            (n < 0 ==> s[0] == '-' && s[1..] == NatToString(-n)) &&
            (n >= 0 ==> s == NatToString(n))
  {
    if n < 0 {
      var s := IntToString(n);
      var d := NatToString(-n);
      assert s[1..] == d;
      assert s[|s| - 1] == d[|d| - 1];
    }
  }

  lemma DigitGroupsOfDigits(d: string)
    requires IsDigitString(d)
    ensures IsDigitGroups(d) && WithoutUnderscores(d) == d
  {
  }

  /** `int(t)` for a stripped text of digit groups with no sign. */
  lemma IntLiteralUnsigned(t: string)
    requires Strip(t) == t && IsDigitGroups(t)
    ensures IntLiteral(t) == Some(DigitsValue(WithoutUnderscores(t)))
  {
  }

  /** `int(t)` for a stripped text of `-` and digit groups. */
  lemma IntLiteralNegative(t: string)
    requires Strip(t) == t && |t| > 0 && t[0] == '-' && IsDigitGroups(t[1..])
    ensures var v: int := DigitsValue(WithoutUnderscores(t[1..])); IntLiteral(t) == Some(-v)
  {
    var t' := Strip(t);
    assert |t'| > 0 && t'[0] == '-' && IsDigitGroups(t'[1..]);
  }

  /** `int("-" + w)` for a text that `strip()` keeps: w must be digit groups. */
  lemma IntLiteralSigned(w: string, t: string)
    requires t == "-" + w && Strip(t) == t
    ensures IntLiteral(t) == if IsDigitGroups(w) then Some(0 - DigitsValue(WithoutUnderscores(w))) else None
  {
    assert t[0] == '-' && t[1..] == w;
    if IsDigitGroups(w) {
      IntLiteralNegative(t);
    } else {
      IntLiteralBadSign(t);
    }
  }

  lemma IntLiteralBadSign(t: string)
    requires Strip(t) == t && |t| > 0 && t[0] == '-' && !IsDigitGroups(t[1..])
    ensures IntLiteral(t) == None
  {
  }

  /** `int(str(n)) == n`. */
  lemma IntLiteralOfIntToString(n: int)
    ensures IntLiteral(IntToString(n)) == Some(n)
    ensures |IntToString(n)| > 0 && !IsSpace(IntToString(n)[0]) && IsDigit(IntToString(n)[|IntToString(n)| - 1])
  {
    var s := IntToString(n);
    IntToStringShape(n);
    StripUnchanged(s);
    var d := NatToString(if n < 0 then -n else n);
    DigitGroupsOfDigits(d);
    if n < 0 {
      IntLiteralNegative(s);
    } else {
      IntLiteralUnsigned(s);
    }
  }
}
