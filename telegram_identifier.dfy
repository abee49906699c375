/** `TelegramMessenger.parse_telegram_identifier`: maps web-client URLs,
    `t.me` links, numeric ids and `@handles` to a chat id or a bare username.
    `int()` raising ValueError is the `Err` result. */
module TelegramIdentifier {
  import opened Wrappers
  import opened PyStr

  const WEB_PREFIX := "https://web.telegram.org/"
  const TME_HTTPS_PREFIX := "https://t.me/"
  const TME_PREFIX := "t.me/"
  const INVALID_INT := "invalid literal for int() with base 10"

  datatype TelegramId = ChatId(id: int) | Username(name: string)

  /** End of the run of digits that starts at j. */
  function DigitRunEnd(s: string, j: nat): (e: nat)
    requires j <= |s|
    ensures j <= e <= |s|
    ensures AllDigits(s[j..e])
    ensures e < |s| ==> !IsDigit(s[e])
    decreases |s| - j
  {
    if j < |s| && IsDigit(s[j]) then
      var e := DigitRunEnd(s, j + 1);
      assert s[j..e] == [s[j]] + s[j + 1..e];
      e
    else j
  }

  /** The group of `#(-?\d+)` when the pattern matches at position i. */
  function HashNumberAt(s: string, i: nat): Option<int>
    requires i < |s|
  {
    if s[i] != '#' then None
    else if i + 1 < |s| && IsDigit(s[i + 1]) then
      Some(DigitsValue(s[i + 1..DigitRunEnd(s, i + 1)]))
    else if i + 2 < |s| && s[i + 1] == '-' && IsDigit(s[i + 2]) then
      Some(0 - DigitsValue(s[i + 2..DigitRunEnd(s, i + 2)]))
    else None
  }

  /** `re.search(r'#(-?\d+)', s)` from position i on: the leftmost match's group as an int. */
  function SearchHashNumber(s: string, i: nat): Option<int>
    requires i <= |s|
    decreases |s| - i
  {
    if i == |s| then None
    else if HashNumberAt(s, i).Some? then HashNumberAt(s, i)
    else SearchHashNumber(s, i + 1)
  }

  /** `parse_telegram_identifier(identifier)` for `str(identifier)`. */
  function ParseTelegramIdentifier(identifier: string): (r: Result<TelegramId>)
    ensures r.Err? ==> StartsWith(Strip(identifier), "-") && r.error == INVALID_INT
    ensures r.Ok? && r.value.Username? ==> r.value.name == [] || r.value.name[0] != '@'
  {
    RulesFrom(identifier, 0)
  }

  /** The rules of the parser, applied to the whitespace-stripped text `s`. */
  function ParseStripped(s: string): (r: Result<TelegramId>)
    ensures r.Err? ==> StartsWith(s, "-") && r.error == INVALID_INT
    ensures r.Ok? && r.value.Username? ==> r.value.name == [] || r.value.name[0] != '@'
  {
    RulesFrom(s, 1)
  }

  /** The steps of the parser from step `k` on, in the order the code takes them: 0 strips
      the whitespace, then the rules on the stripped text, 1 the web-client URL with a
      `#<id>`, 2 the `t.me` link, 3 the number, 4 the handle. A rule that does not apply
      falls through to the next. */
  function RulesFrom(s: string, k: nat): (r: Result<TelegramId>)
    requires k <= 4
    ensures k == 0 && r.Err? ==> StartsWith(Strip(s), "-") && r.error == INVALID_INT
    ensures k >= 1 && r.Err? ==> StartsWith(s, "-") && r.error == INVALID_INT
    ensures r.Ok? && r.value.Username? ==> r.value.name == [] || r.value.name[0] != '@'
    decreases 4 - k
  {
    if k == 0 then RulesFrom(Strip(s), 1)
    else if k == 1 then
      if StartsWith(s, WEB_PREFIX) && SearchHashNumber(s, 0).Some? then Ok(ChatId(SearchHashNumber(s, 0).value))
      else RulesFrom(s, 2)
    else if k == 2 then
      if StartsWith(s, TME_HTTPS_PREFIX) || StartsWith(s, TME_PREFIX) then Ok(Username(TmePath(s)))
      else RulesFrom(s, 3)
    else if k == 3 then
      if StartsWith(s, "-") || IsDigitString(s) then IntIdentifier(s)
      else RulesFrom(s, 4)
    else Ok(Username(LStripChar(s, '@')))
  }

  /** The `t.me` rule: drop the link prefixes, the query and leading `@`s. */
  function TmePath(s: string): (r: string)
    ensures r == [] || r[0] != '@'
  {
    var path := ReplaceAll(ReplaceAll(s, TME_HTTPS_PREFIX, ""), TME_PREFIX, "");
    LStripChar(BeforeFirst(path, '?'), '@')
  }

  /** The numeric rule: `int(s)` for a text that starts with `-` or is all digits. */
  function IntIdentifier(s: string): (r: Result<TelegramId>)
    requires StartsWith(s, "-") || IsDigitString(s)
    ensures r.Err? ==> StartsWith(s, "-") && r.error == INVALID_INT
    ensures r.Ok? ==> r.value.ChatId?
  {
    DigitStringIsIntLiteral(s);
    match IntLiteral(s)
    case Some(v) => Ok(ChatId(v))
    case None => Err(INVALID_INT)
  }

  lemma DigitStringIsIntLiteral(s: string)
    ensures IsDigitString(s) ==> IntLiteral(s) == Some(DigitsValue(s))
  {
    if IsDigitString(s) {
      StripUnchanged(s);
      assert IsDigitGroups(s) && WithoutUnderscores(s) == s;
    }
  }

  // ---------------------------------------------------------------- search helpers

  lemma {:induction false} SearchSkipsPlainText(s: string, i: nat, k: nat)
    requires i <= k <= |s|
    requires forall m :: i <= m < k ==> s[m] != '#'
    ensures SearchHashNumber(s, i) == SearchHashNumber(s, k)
    decreases k - i
  {
    if i < k {
      SearchSkipsPlainText(s, i + 1, k);
    }
  }

  /** The digit run from j ends at e when s[j..e] is digits and s[e] is not one. */
  lemma {:induction false} DigitRunTo(s: string, j: nat, e: nat)
    requires j <= e <= |s|
    requires AllDigits(s[j..e])
    requires e < |s| ==> !IsDigit(s[e])
    ensures DigitRunEnd(s, j) == e
    decreases e - j
  {
    if j < e {
      assert s[j..e][0] == s[j];
      assert s[j + 1..e] == s[j..e][1..];
      DigitRunTo(s, j + 1, e);
    }
  }

  /** `#` followed by `str(n)` and then a non-digit, or the end, matches with group n. */
  lemma HashNumberBefore(s: string, k: nat, n: int, rest: string)
    requires k < |s| && s[k] == '#' && s[k + 1..] == IntToString(n) + rest
    requires rest == [] || !IsDigit(rest[0])
    ensures HashNumberAt(s, k) == Some(n)
  {
    IntToStringShape(n);
    if n < 0 {
      var d := NatToString(-n);
      assert s[k + 1..] == "-" + d + rest;
      HashDigitsAfterSign(s, k, d, rest);
    } else {
      HashDigits(s, k, NatToString(n), rest);
    }
  }

  lemma HashDigits(s: string, k: nat, d: string, rest: string)
    requires k < |s| && s[k] == '#' && s[k + 1..] == d + rest
    requires IsDigitString(d)
    requires rest == [] || !IsDigit(rest[0])
    ensures HashNumberAt(s, k) == Some(DigitsValue(d))
  {
    DigitRunThen(s, k + 1, d, rest);
  }

  lemma HashDigitsAfterSign(s: string, k: nat, d: string, rest: string)
    requires k < |s| && s[k] == '#' && s[k + 1..] == "-" + d + rest
    requires IsDigitString(d)
    requires rest == [] || !IsDigit(rest[0])
    ensures HashNumberAt(s, k) == Some(0 - DigitsValue(d))
  {
    assert s[k + 1] == '-';
    assert s[k + 2..] == d + rest;
    DigitRunThen(s, k + 2, d, rest);
  }

  /** Digits d at j, then a non-digit or the end: the run is d. */
  lemma DigitRunThen(s: string, j: nat, d: string, rest: string)
    requires j <= |s| && s[j..] == d + rest
    requires IsDigitString(d)
    requires rest == [] || !IsDigit(rest[0])
    ensures j < |s| && IsDigit(s[j])
    ensures DigitRunEnd(s, j) == j + |d| && s[j..DigitRunEnd(s, j)] == d
  {
    var e := j + |d|;
    assert s[j] == d[0];
    assert s[j..e] == d;
    if e < |s| {
      assert s[e] == rest[0];
    }
    DigitRunTo(s, j, e);
  }

  // ---------------------------------------------------------------- the input forms

  /** A Telegram handle: ASCII letters, digits and underscores. */
  predicate IsHandle(u: string) {
    |u| > 0 && forall i :: 0 <= i < |u| ==> HandleChar(u[i])
  }

  // The four rules of `ParseStripped`, one lemma each, on an abstract text.

  lemma ParseOfStripped(x: string)
    requires Strip(x) == x
    ensures ParseTelegramIdentifier(x) == ParseStripped(x)
  {
  }

  lemma WebRule(s: string)
    requires StartsWith(s, WEB_PREFIX) && SearchHashNumber(s, 0).Some?
    ensures ParseStripped(s) == Ok(ChatId(SearchHashNumber(s, 0).value))
  {
  }

  lemma TmeRule(s: string)
    requires !StartsWith(s, WEB_PREFIX)
    requires StartsWith(s, TME_HTTPS_PREFIX) || StartsWith(s, TME_PREFIX)
    ensures ParseStripped(s) == Ok(Username(TmePath(s)))
  {
    assert RulesFrom(s, 1) == RulesFrom(s, 2);
  }

  lemma NumberRule(s: string)
    requires !StartsWith(s, WEB_PREFIX) && !StartsWith(s, TME_HTTPS_PREFIX) && !StartsWith(s, TME_PREFIX)
    requires StartsWith(s, "-") || IsDigitString(s)
    ensures ParseStripped(s) == IntIdentifier(s)
  {
    assert RulesFrom(s, 1) == RulesFrom(s, 2);
    assert RulesFrom(s, 2) == RulesFrom(s, 3);
  }

  lemma HandleRule(s: string)
    requires !StartsWith(s, TME_HTTPS_PREFIX) && !StartsWith(s, TME_PREFIX)
    requires !StartsWith(s, "-") && !IsDigitString(s)
    requires !StartsWith(s, WEB_PREFIX) || SearchHashNumber(s, 0).None?
    ensures ParseStripped(s) == Ok(Username(LStripChar(s, '@')))
  {
    assert RulesFrom(s, 1) == RulesFrom(s, 2);
    assert RulesFrom(s, 2) == RulesFrom(s, 3);
    assert RulesFrom(s, 3) == RulesFrom(s, 4);
  }

  /** No link prefix matches a text whose first character is neither `h` nor `t`. */
  lemma NoLinkPrefix(s: string)
    requires s == [] || (s[0] != 'h' && s[0] != 't')
    ensures !StartsWith(s, WEB_PREFIX) && !StartsWith(s, TME_HTTPS_PREFIX) && !StartsWith(s, TME_PREFIX)
  {
    NotStartsWith(s, WEB_PREFIX, 0);
    NotStartsWith(s, TME_HTTPS_PREFIX, 0);
    NotStartsWith(s, TME_PREFIX, 0);
  }

  /** A numeric id, `str(n)`, parses to n, negative or not. */
  lemma ParseNumericId(n: int)
    ensures ParseTelegramIdentifier(IntToString(n)) == Ok(ChatId(n))
  {
    var s := IntToString(n);
    IntLiteralOfIntToString(n);
    StripUnchanged(s);
    assert s[0] == '-' || IsDigit(s[0]);
    NoLinkPrefix(s);
    if n < 0 {
      assert s == "-" + NatToString(-n);
      StartsWithConcat("-", NatToString(-n));
    } else {
      assert IsDigitString(s);
    }
    NumberRule(s);
    ParseOfStripped(s);
  }

  /** A web-client URL whose first `#` is followed by `str(n)` parses to n, whatever
      follows the number as long as it does not continue the digits; trailing whitespace
      would be stripped first, so `rest` does not end in it. */
  lemma ParseWebClientUrl(path: string, n: int, rest: string)
    requires '#' !in path
    requires rest == [] || (!IsDigit(rest[0]) && !IsSpace(rest[|rest| - 1]))
    ensures ParseTelegramIdentifier(WEB_PREFIX + path + "#" + IntToString(n) + rest) == Ok(ChatId(n))
  {
    var t := "#" + IntToString(n) + rest;
    var s := WEB_PREFIX + path + t;
    ConcatAssoc(WEB_PREFIX + path, "#", IntToString(n), rest);
    WebUrlIsStripped(path, n, rest, t, s);
    WebUrlStartsWith(path + t, s);
    WebUrlFindsNumber(path, n, rest, t, s);
    WebUrlParses(s, n);
  }

  lemma WebUrlIsStripped(path: string, n: int, rest: string, t: string, s: string)
    requires rest == [] || !IsSpace(rest[|rest| - 1])
    requires t == "#" + IntToString(n) + rest && s == WEB_PREFIX + path + t
    ensures Strip(s) == s
  {
    IntToStringEnds(n);
    HashTail(IntToString(n), rest, t);
    WebUrlStripped(path, t, s);
  }

  lemma WebUrlFindsNumber(path: string, n: int, rest: string, t: string, s: string)
    requires '#' !in path
    requires rest == [] || !IsDigit(rest[0])
    requires t == "#" + IntToString(n) + rest && s == WEB_PREFIX + path + t
    ensures SearchHashNumber(s, 0) == Some(n)
  {
    assert t[0] == '#' && t[1..] == IntToString(n) + rest;
    WebUrlSearch(path, t, s);
    HashNumberBefore(s, |WEB_PREFIX + path|, n, rest);
  }

  lemma ConcatAssoc(a: string, b: string, c: string, e: string)
    ensures a + b + c + e == a + (b + c + e)
  {
  }

  /** A stripped web-client URL whose first `#<id>` match is n parses to n. */
  lemma WebUrlParses(s: string, n: int)
    requires Strip(s) == s && StartsWith(s, WEB_PREFIX) && SearchHashNumber(s, 0) == Some(n)
    ensures ParseTelegramIdentifier(s) == Ok(ChatId(n))
  {
    WebRule(s);
    ParseOfStripped(s);
  }

  lemma IntToStringEnds(n: int)
    ensures |IntToString(n)| > 0 && !IsSpace(IntToString(n)[|IntToString(n)| - 1])
  {
    IntToStringShape(n);
  }

  lemma HashTail(d: string, rest: string, t: string)
    requires t == "#" + d + rest
    requires |d| > 0 && !IsSpace(d[|d| - 1])
    requires rest == [] || !IsSpace(rest[|rest| - 1])
    ensures |t| > 1 && t[0] == '#' && t[1..] == d + rest
    ensures !IsSpace(t[|t| - 1])
  {
    assert t[|t| - 1] == if rest == [] then d[|d| - 1] else rest[|rest| - 1];
  }

  lemma WebUrlStripped(path: string, t: string, s: string)
    requires |t| > 0 && !IsSpace(t[|t| - 1])
    requires s == WEB_PREFIX + path + t
    ensures Strip(s) == s
  {
    assert s[|s| - 1] == t[|t| - 1];
    assert s[0] == 'h';
    StripUnchanged(s);
  }

  lemma WebUrlStartsWith(u: string, s: string)
    requires s == WEB_PREFIX + u
    ensures StartsWith(s, WEB_PREFIX)
  {
    StartsWithConcat(WEB_PREFIX, u);
  }

  /** The first `#` of a `#`-free path followed by t is t's own. */
  lemma WebUrlSearch(path: string, t: string, s: string)
    requires '#' !in path
    requires |t| > 0 && t[0] == '#'
    requires s == WEB_PREFIX + path + t
    ensures var k := |WEB_PREFIX + path|;
            SearchHashNumber(s, 0) == SearchHashNumber(s, k) && k < |s| && s[k] == '#' && s[k + 1..] == t[1..]
  {
    var p := WEB_PREFIX + path;
    NoHashInWebPrefix(path, p);
    SearchAfterPlainPrefix(p, t, s);
    assert s[|p|..] == t;
  }

  lemma NoHashInWebPrefix(path: string, p: string)
    requires '#' !in path
    requires p == WEB_PREFIX + path
    ensures forall m :: 0 <= m < |p| ==> p[m] != '#'
  {
    forall m | |WEB_PREFIX| <= m < |p| ensures p[m] != '#' {
      assert p[m] == path[m - |WEB_PREFIX|];
    }
  }

  lemma SearchAfterPlainPrefix(p: string, t: string, s: string)
    requires s == p + t
    requires forall m :: 0 <= m < |p| ==> p[m] != '#'
    ensures SearchHashNumber(s, 0) == SearchHashNumber(s, |p|)
  {
    forall m | 0 <= m < |p| ensures s[m] != '#' {
      assert s[m] == p[m];
    }
    SearchSkipsPlainText(s, 0, |p|);
  }

  /** A web-client URL in which `#(-?\d+)` finds no match (no `#`, or none followed by
      an optionally signed digit) falls through to the handle rule and is kept whole. */
  lemma ParseWebClientUrlWithoutId(s: string)
    requires StartsWith(s, WEB_PREFIX) && SearchHashNumber(s, 0).None? && !IsSpace(s[|s| - 1])
    ensures ParseTelegramIdentifier(s) == Ok(Username(s))
  {
    WebUrlIsPlain(s);
    HandleRule(s);
    ParseOfStripped(s);
  }

  /** A web-client URL not ending in whitespace is stripped, matches none of the later
      rules' prefixes, and keeps its text under `lstrip('@')`. */
  lemma WebUrlIsPlain(s: string)
    requires StartsWith(s, WEB_PREFIX) && !IsSpace(s[|s| - 1])
    ensures Strip(s) == s && LStripChar(s, '@') == s && !IsDigitString(s)
    ensures !StartsWith(s, TME_HTTPS_PREFIX) && !StartsWith(s, TME_PREFIX) && !StartsWith(s, "-")
  {
    WebPrefixChars(s);
    PlainHead(s);
    NotLaterPrefixes(s);
  }

  lemma PlainHead(s: string)
    requires |s| > 0 && s[0] == 'h' && !IsSpace(s[|s| - 1])
    ensures Strip(s) == s && LStripChar(s, '@') == s && !IsDigitString(s)
  {
    StripUnchanged(s);
  }

  lemma NotLaterPrefixes(s: string)
    requires |s| > 8 && s[0] == 'h' && s[8] == 'w'
    ensures !StartsWith(s, TME_HTTPS_PREFIX) && !StartsWith(s, TME_PREFIX) && !StartsWith(s, "-")
  {
    assert TME_HTTPS_PREFIX[8] == 't';
    NotStartsWith(s, TME_HTTPS_PREFIX, 8);
    NotStartsWith(s, TME_PREFIX, 0);
    NotStartsWith(s, "-", 0);
  }

  lemma WebPrefixChars(s: string)
    requires StartsWith(s, WEB_PREFIX)
    ensures |s| > 8 && s[0] == 'h' && s[8] == 'w'
  {
    assert s[0] == s[..|WEB_PREFIX|][0];
    assert s[8] == s[..|WEB_PREFIX|][8];
  }

  /** A `t.me` link, with or without the scheme and with or without a query,
      parses to the handle in its path; leading `@`s are dropped. */
  lemma ParseTmeLink(prefix: string, at: string, u: string, query: string)
    requires prefix == TME_HTTPS_PREFIX || prefix == TME_PREFIX
    requires at == "" || at == "@"
    requires IsHandle(u)
    requires forall i :: 0 <= i < |query| ==> query[i] != '/' && !IsSpace(query[i])
    ensures ParseTelegramIdentifier(prefix + at + u) == Ok(Username(u))
    ensures ParseTelegramIdentifier(prefix + at + u + "?" + query) == Ok(Username(u))
  {
    ParseTmeLinkBare(prefix, at, u);
    ParseTmeLinkQuery(prefix, at, u, query);
  }

  lemma ParseTmeLinkBare(prefix: string, at: string, u: string)
    requires prefix == TME_HTTPS_PREFIX || prefix == TME_PREFIX
    requires at == "" || at == "@"
    requires IsHandle(u)
    ensures ParseTelegramIdentifier(prefix + at + u) == Ok(Username(u))
  {
    assert prefix + at + u + "" == prefix + at + u;
    ParseTmeLinkTail(prefix, at, u, "", prefix + at + u);
  }

  lemma ParseTmeLinkQuery(prefix: string, at: string, u: string, query: string)
    requires prefix == TME_HTTPS_PREFIX || prefix == TME_PREFIX
    requires at == "" || at == "@"
    requires IsHandle(u)
    requires forall i :: 0 <= i < |query| ==> query[i] != '/' && !IsSpace(query[i])
    ensures ParseTelegramIdentifier(prefix + at + u + "?" + query) == Ok(Username(u))
  {
    var tail := "?" + query;
    QueryTail(query);
    assert prefix + at + u + tail == prefix + at + u + "?" + query;
    ParseTmeLinkTail(prefix, at, u, tail, prefix + at + u + "?" + query);
  }

  lemma QueryTail(query: string)
    requires forall i :: 0 <= i < |query| ==> query[i] != '/' && !IsSpace(query[i])
    ensures forall i :: 0 <= i < |"?" + query| ==> ("?" + query)[i] != '/' && !IsSpace(("?" + query)[i])
  {
    forall i | 0 <= i < |"?" + query| ensures ("?" + query)[i] != '/' && !IsSpace(("?" + query)[i]) {
      if i > 0 {
        assert ("?" + query)[i] == query[i - 1];
      }
    }
  }

  lemma ParseTmeLinkTail(prefix: string, at: string, u: string, tail: string, s: string)
    requires prefix == TME_HTTPS_PREFIX || prefix == TME_PREFIX
    requires at == "" || at == "@"
    requires IsHandle(u)
    requires tail == [] || tail[0] == '?'
    requires forall i :: 0 <= i < |tail| ==> tail[i] != '/' && !IsSpace(tail[i])
    requires s == prefix + at + u + tail
    ensures ParseTelegramIdentifier(s) == Ok(Username(u))
  {
    var w := at + u + tail;
    assert s == prefix + w;
    StripTmeLink(prefix, w);
    TmeLinkPrefixes(prefix, w);
    TmeRule(s);
    NoSlashInPath(at, u, tail);
    ReplaceLinkPrefixes(prefix, w);
    BeforeQuery(at, u, tail);
    StripAt(at, u);
    ParseOfStripped(s);
  }

  lemma NoSlashInPath(at: string, u: string, tail: string)
    requires at == "" || at == "@"
    requires IsHandle(u)
    requires forall i :: 0 <= i < |tail| ==> tail[i] != '/'
    ensures forall i :: 0 <= i < |at + u + tail| ==> (at + u + tail)[i] != '/'
  {
    var w := at + u + tail;
    forall i | 0 <= i < |w| ensures w[i] != '/' {
      if i < |at| {
      } else if i < |at| + |u| {
        assert w[i] == u[i - |at|];
      } else {
        assert w[i] == tail[i - |at| - |u|];
      }
    }
  }

  lemma StripTmeLink(prefix: string, w: string)
    requires prefix == TME_HTTPS_PREFIX || prefix == TME_PREFIX
    requires w != [] && !IsSpace(w[|w| - 1])
    ensures Strip(prefix + w) == prefix + w
  {
    var s := prefix + w;
    assert s[|s| - 1] == w[|w| - 1];
    assert s[0] == prefix[0];
    StripUnchanged(s);
  }

  lemma TmeLinkPrefixes(prefix: string, w: string)
    requires prefix == TME_HTTPS_PREFIX || prefix == TME_PREFIX
    ensures !StartsWith(prefix + w, WEB_PREFIX)
    ensures StartsWith(prefix + w, prefix)
  {
    var s := prefix + w;
    StartsWithConcat(prefix, w);
    if prefix == TME_HTTPS_PREFIX {
      assert s[8] == prefix[8];
      NotStartsWith(s, WEB_PREFIX, 8);
    } else {
      assert s[0] == prefix[0];
      NotStartsWith(s, WEB_PREFIX, 0);
    }
  }

  /** Removing the link prefixes from `prefix + w` leaves w when w has no `/`. */
  lemma ReplaceLinkPrefixes(prefix: string, w: string)
    requires prefix == TME_HTTPS_PREFIX || prefix == TME_PREFIX
    requires forall i :: 0 <= i < |w| ==> w[i] != '/'
    ensures ReplaceAll(ReplaceAll(prefix + w, TME_HTTPS_PREFIX, ""), TME_PREFIX, "") == w
  {
    ReplaceWithoutMatch(w, TME_PREFIX, "");
    if prefix == TME_HTTPS_PREFIX {
      ReplaceAtStart(TME_HTTPS_PREFIX, w, "");
      ReplaceWithoutMatch(w, TME_HTTPS_PREFIX, "");
      assert "" + w == w;
    } else {
      var s := prefix + w;
      forall m | |TME_HTTPS_PREFIX| - 1 <= m < |s| ensures s[m] != '/' {
        assert s[m] == w[m - |prefix|];
      }
      ReplaceWithoutMatch(s, TME_HTTPS_PREFIX, "");
      ReplaceAtStart(TME_PREFIX, w, "");
      assert "" + w == w;
    }
  }

  lemma BeforeQuery(at: string, u: string, tail: string)
    requires at == "" || at == "@"
    requires IsHandle(u)
    requires tail == [] || tail[0] == '?'
    ensures BeforeFirst(at + u + tail, '?') == at + u
  {
    forall i | 0 <= i < |at + u| ensures (at + u)[i] != '?' {
      if i >= |at| {
        assert (at + u)[i] == u[i - |at|];
      }
    }
    if tail == [] {
      assert at + u + tail == at + u;
      BeforeFirstOf(at + u, '?', []);
    } else {
      assert at + u + tail == at + u + ['?'] + tail[1..];
      BeforeFirstOf(at + u, '?', tail[1..]);
    }
  }

  lemma StripAt(at: string, u: string)
    requires at == "" || at == "@"
    requires IsHandle(u)
    ensures LStripChar(at + u, '@') == u
  {
    assert u[0] != '@';
    if at == "@" {
      assert (at + u)[0] == '@';
      assert (at + u)[1..] == u;
    } else {
      assert at + u == u;
    }
  }

  /** `@handle` and a bare handle that is not all digits parse to the handle. */
  lemma ParseHandle(u: string)
    requires IsHandle(u)
    ensures ParseTelegramIdentifier("@" + u) == Ok(Username(u))
    ensures !AllDigits(u) ==> ParseTelegramIdentifier(u) == Ok(Username(u))
  {
    ParseAtHandle(u);
    if !AllDigits(u) {
      ParseBareHandle(u);
    }
  }

  lemma ParseAtHandle(u: string)
    requires IsHandle(u)
    ensures ParseTelegramIdentifier("@" + u) == Ok(Username(u))
  {
    var s := "@" + u;
    assert s[|s| - 1] == u[|u| - 1];
    assert s[0] == '@';
    StripUnchanged(s);
    NoLinkPrefix(s);
    NotStartsWith(s, "-", 0);
    assert !IsDigitString(s);
    HandleRule(s);
    StripAt("@", u);
    ParseOfStripped(s);
  }

  lemma ParseBareHandle(u: string)
    requires IsHandle(u) && !AllDigits(u)
    ensures ParseTelegramIdentifier(u) == Ok(Username(u))
  {
    HandleStripped(u);
    HandleNoPrefix(u);
    HandleRule(u);
    StripAt("", u);
    assert "" + u == u;
    ParseOfStripped(u);
  }

  lemma HandleStripped(u: string)
    requires IsHandle(u)
    ensures Strip(u) == u
  {
    assert HandleChar(u[0]) && HandleChar(u[|u| - 1]);
    HandleCharNotSpace(u[0]);
    HandleCharNotSpace(u[|u| - 1]);
    StripUnchanged(u);
  }

  predicate HandleChar(c: char) {
    'a' <= c <= 'z' || 'A' <= c <= 'Z' || IsDigit(c) || c == '_'
  }

  lemma HandleCharNotSpace(c: char)
    requires HandleChar(c)
    ensures !IsSpace(c)
  {
  }

  lemma HandleNoPrefix(u: string)
    requires IsHandle(u)
    ensures !StartsWith(u, "-") && !StartsWith(u, WEB_PREFIX)
    ensures !StartsWith(u, TME_HTTPS_PREFIX) && !StartsWith(u, TME_PREFIX)
  {
    assert HandleChar(u[0]);
    NotStartsWith(u, "-", 0);
    if |u| > 5 {
      assert HandleChar(u[5]);
    }
    NotStartsWith(u, WEB_PREFIX, 5);
    NotStartsWith(u, TME_HTTPS_PREFIX, 5);
    if |u| > 1 {
      assert HandleChar(u[1]);
    }
    NotStartsWith(u, TME_PREFIX, 1);
  }

  /** A text that starts with `-` goes to `int()`: it is an id exactly when the rest is
      digit groups (single underscores between digits), and otherwise `int()` raises. */
  lemma ParseNegative(w: string)
    requires w == [] || !IsSpace(w[|w| - 1])
    ensures ParseTelegramIdentifier("-" + w).Err? <==> !IsDigitGroups(w)
    ensures !IsDigitGroups(w) ==> ParseTelegramIdentifier("-" + w) == Err(INVALID_INT)
    ensures IsDigitGroups(w) ==> ParseTelegramIdentifier("-" + w) == Ok(ChatId(0 - DigitsValue(WithoutUnderscores(w))))
  {
    var s := "-" + w;
    NegativeNumber(w, s);
    IntIdentifierSigned(w, s);
  }

  /** A text that starts with `-` and that `strip()` keeps goes to the numeric rule. */
  lemma NegativeNumber(w: string, s: string)
    requires w == [] || !IsSpace(w[|w| - 1])
    requires s == "-" + w
    ensures Strip(s) == s
    ensures ParseTelegramIdentifier(s) == IntIdentifier(s)
  {
    assert s[|s| - 1] == if w == [] then '-' else w[|w| - 1];
    assert s[0] == '-';
    StripUnchanged(s);
    StartsWithConcat("-", w);
    NoLinkPrefix(s);
    NumberRule(s);
    ParseOfStripped(s);
  }

  /** The numeric rule on `-` and w: `int()` accepts exactly digit groups after the sign. */
  lemma IntIdentifierSigned(w: string, s: string)
    requires s == "-" + w && Strip(s) == s
    ensures IntIdentifier(s) ==
            if IsDigitGroups(w) then Ok(ChatId(0 - DigitsValue(WithoutUnderscores(w)))) else Err(INVALID_INT)
  {
    StartsWithConcat("-", w);
    IntLiteralSigned(w, s);
  }

  /** The parser raises exactly when the stripped text starts with `-` and what follows
      the sign is not digit groups. */
  lemma ParseRaises(identifier: string)
    ensures ParseTelegramIdentifier(identifier).Err? <==>
            StartsWith(Strip(identifier), "-") && !IsDigitGroups(Strip(identifier)[1..])
  {
    var t := Strip(identifier);
    StripIdempotent(identifier);
    assert ParseTelegramIdentifier(identifier) == ParseStripped(t);
    if StartsWith(t, "-") {
      assert t == "-" + t[1..];
      NoLinkPrefix(t);
      NumberRule(t);
      IntIdentifierSigned(t[1..], t);
    }
  }

  /** A text of ASCII digits is an id with that decimal value. */
  lemma ParseDigits(s: string)
    requires IsDigitString(s)
    ensures ParseTelegramIdentifier(s) == Ok(ChatId(DigitsValue(s)))
  {
    assert IsDigit(s[0]) && IsDigit(s[|s| - 1]);
    StripUnchanged(s);
    NoLinkPrefix(s);
    DigitStringIsIntLiteral(s);
    NumberRule(s);
    ParseOfStripped(s);
  }
}
