/** Recognising Vimeo sources (src/js/plugins/vimeo.js): `parseId`, which pulls
    the video ID out of a URL, and the provider's `test`, which recognises a
    player URL. Both are regular expressions in the source; each is written here
    as the search the expression performs, and the lemmas say what it finds. */
module VimeoUrls {
  import opened JsValues

  /** The characters `.` in a regular expression does not match. */
  predicate IsLineTerminator(c: char) {
    c == '\n' || c == '\r' || c == '\U{2028}' || c == '\U{2029}'
  }

  predicate NoLineTerminator(s: string) {
    forall i :: 0 <= i < |s| ==> !IsLineTerminator(s[i])
  }

  /** The prefixes the ID lemmas below start from are free of line terminators. */
  lemma PrefixesAreOneLine()
    ensures NoLineTerminator("https://player.vimeo.com/video/")
    ensures NoLineTerminator("https://vimeo.com/")
    ensures NoLineTerminator("https://vimeo.com/1/video/")
  {
  }

  /** s holds lit at position p. */
  predicate LiteralAt(s: string, p: nat, lit: string) {
    p + |lit| <= |s| && s[p..p + |lit|] == lit
  }

  lemma LiteralAtChar(s: string, p: nat, lit: string, i: nat)
    requires LiteralAt(s, p, lit) && i < |lit|
    ensures s[p + i] == lit[i]
  {
    assert s[p..p + |lit|][i] == s[p + i];
  }

  // ---------------------------------------------------------------------
  // parseId: /^.*(vimeo.com\/|video\/)(\d+).*/ and RegExp.$2
  // ---------------------------------------------------------------------

  /** Length of the text `(vimeo.com\/|video\/)` matches at p, or 0. The `.` in
      `vimeo.com` is not escaped, so any character but a line terminator fits. */
  function MarkerLength(s: string, p: nat): (n: nat)
    ensures n == 0 || n == 6 || n == 10
    ensures n > 0 ==> p + n <= |s| && s[p] == 'v'
  {
    if LiteralAt(s, p, "vimeo") && p + 10 <= |s| && !IsLineTerminator(s[p + 5]) && LiteralAt(s, p + 6, "com/")
    then LiteralAtChar(s, p, "vimeo", 0); 10
    else if LiteralAt(s, p, "video/") then LiteralAtChar(s, p, "video/", 0); 6
    else 0
  }

  /** The expression matches with its first group starting at p: the leading
      `.*` covers s[..p], then the group, then at least one digit. */
  predicate MatchAt(s: string, p: nat) {
    && p <= |s|
    && NoLineTerminator(s[..p])
    && MarkerLength(s, p) > 0
    && p + MarkerLength(s, p) < |s|
    && IsDigit(s[p + MarkerLength(s, p)])
  }

  /** The greedy leading `.*` tries the longest prefix first: the largest match
      position at most `bound`. */
  function LastMatch(s: string, bound: nat): (r: Option<nat>)
    ensures r.Some? ==> r.value <= bound && MatchAt(s, r.value)
    ensures r.Some? ==> forall q :: r.value < q <= bound ==> !MatchAt(s, q)
    ensures r.None? ==> forall q :: 0 <= q <= bound ==> !MatchAt(s, q)
    decreases bound
  {
    if MatchAt(s, bound) then Some(bound)
    else if bound == 0 then None
    else LastMatch(s, bound - 1)
  }

  /** d is the whole run of digits in s starting at i. */
  predicate IsDigitRunAt(s: string, i: nat, d: string) {
    && i + |d| <= |s| && s[i..i + |d|] == d && AllDigits(d)
    && (i + |d| == |s| || !IsDigit(s[i + |d|]))
  }

  /** The greedy `(\d+)`: the longest run of digits starting at i. */
  function DigitRun(s: string, i: nat): (d: string)
    requires i <= |s|
    ensures IsDigitRunAt(s, i, d)
    decreases |s| - i
  {
    if i < |s| && IsDigit(s[i]) then [s[i]] + DigitRun(s, i + 1) else []
  }

  /** `parseId(url)`: no ID for an empty source; a numeric source unchanged;
      the digits after the last `vimeo?com/` or `video/` that is followed by a
      digit; otherwise the source unchanged. */
  function ParseId(url: Option<string>): (r: Option<string>)
    ensures url.None? || url.value == "" ==> r.None?
    ensures url.Some? && url.value != "" && NumericLiteral(url.value) ==> r == url
    ensures url.Some? && url.value != "" && LastMatch(url.value, |url.value|).None? ==> r == url
    ensures url.Some? && url.value != "" && !NumericLiteral(url.value) && LastMatch(url.value, |url.value|).Some? ==>
      var s := url.value;
      var q := LastMatch(s, |s|).value + MarkerLength(s, LastMatch(s, |s|).value);
      r.Some? && |r.value| > 0 && IsDigitRunAt(s, q, r.value)
  {
    if url.None? || url.value == "" then None
    else if IsNumber(ToNumber(Str(url.value))) then url
    else
      match LastMatch(url.value, |url.value|)
      case None => url
      case Some(p) => Some(DigitRun(url.value, p + MarkerLength(url.value, p)))
  }

  /** A numeric string holds no `v`, so the expression never matches it: the
      numeric short cut in `parseId` gives the answer the expression would. */
  lemma NumericSourceNeverMatches(s: string)
    requires NumericLiteral(s)
    ensures LastMatch(s, |s|).None?
  {
    forall i | 0 <= i < |s| ensures s[i] != 'v' {
      NumericLiteralAlphabet(s, i);
    }
    NoMatchWithoutV(s, 0);
  }

  /** No match can start inside a stretch of s that holds no `v`. */
  lemma NoMatchWithoutV(s: string, from: nat)
    requires forall i :: from <= i < |s| ==> s[i] != 'v'
    ensures forall q :: from <= q <= |s| ==> !MatchAt(s, q)
  {
  }

  /** The digit run from q when digits fill the rest of s. */
  lemma DigitRunToEnd(s: string, q: nat)
    requires q <= |s| && AllDigits(s[q..])
    ensures DigitRun(s, q) == s[q..]
  {
  }

  /** What the expression finds when a known prefix ends in the group at p and
      the rest of the string is the ID. */
  lemma {:induction false} ParseIdAfterPrefix(prefix: string, p: nat, id: string)
    requires |id| > 0 && AllDigits(id)
    requires p <= |prefix| && NoLineTerminator(prefix)
    requires MarkerLength(prefix + id, p) > 0 && p + MarkerLength(prefix + id, p) == |prefix|
    requires forall i :: p < i < |prefix| ==> prefix[i] != 'v'
    requires prefix[0] == 'h'
    ensures ParseId(Some(prefix + id)) == Some(id)
  {
    var s := prefix + id;
    LastMatchAfterPrefix(prefix, p, id);
    assert !NumericLiteral(s) by {
      if NumericLiteral(s) {
        NumericLiteralAlphabet(s, 0);
        assert false;
      }
    }
    assert s[|prefix|..] == id;
    DigitRunToEnd(s, |prefix|);
  }

  /** The group at p is the last place the expression matches. */
  lemma LastMatchAfterPrefix(prefix: string, p: nat, id: string)
    requires |id| > 0 && AllDigits(id)
    requires p <= |prefix| && NoLineTerminator(prefix)
    requires MarkerLength(prefix + id, p) > 0 && p + MarkerLength(prefix + id, p) == |prefix|
    requires forall i :: p < i < |prefix| ==> prefix[i] != 'v'
    ensures LastMatch(prefix + id, |prefix + id|) == Some(p)
  {
    var s := prefix + id;
    assert s[..p] == prefix[..p];
    assert s[|prefix|] == id[0];
    assert MatchAt(s, p);
    NoVAfterPrefix(prefix, p, id);
    NoMatchWithoutV(s, p + 1);
  }

  /** Past p, neither the rest of the prefix nor the digits hold a `v`. */
  lemma NoVAfterPrefix(prefix: string, p: nat, id: string)
    requires AllDigits(id)
    requires forall i :: p < i < |prefix| ==> prefix[i] != 'v'
    ensures forall i :: p < i < |prefix + id| ==> (prefix + id)[i] != 'v'
  {
    forall i | p < i < |prefix + id| ensures (prefix + id)[i] != 'v' {
      if i >= |prefix| {
        assert (prefix + id)[i] == id[i - |prefix|];
        assert IsDigit(id[i - |prefix|]);
      }
    }
  }

  /** A player URL yields its numeric ID. */
  lemma ParseIdOfPlayerUrl(id: string)
    requires |id| > 0 && AllDigits(id)
    ensures ParseId(Some("https://player.vimeo.com/video/" + id)) == Some(id)
  {
    var prefix := "https://player.vimeo.com/video/";
    var s := prefix + id;
    assert prefix[..1] == "h";
    assert s[25..31] == "video/";
    assert s[27] == 'd';
    assert !LiteralAt(s, 25, "vimeo") by {
      if LiteralAt(s, 25, "vimeo") {
        LiteralAtChar(s, 25, "vimeo", 2);
        assert false;
      }
    }
    PrefixesAreOneLine();
    ParseIdAfterPrefix(prefix, 25, id);
  }

  /** A page URL yields its numeric ID. */
  lemma ParseIdOfPageUrl(id: string)
    requires |id| > 0 && AllDigits(id)
    ensures ParseId(Some("https://vimeo.com/" + id)) == Some(id)
  {
    var prefix := "https://vimeo.com/";
    var s := prefix + id;
    assert s[8..13] == "vimeo" && s[14..18] == "com/";
    assert MarkerLength(s, 8) == 10;
    PrefixesAreOneLine();
    ParseIdAfterPrefix(prefix, 8, id);
  }

  /** The greedy `.*` makes the last marker win: a page URL whose path holds a
      later `video/` yields the later ID. */
  lemma ParseIdTakesLastMarker()
    ensures ParseId(Some("https://vimeo.com/1/video/2")) == Some("2")
  {
    var prefix := "https://vimeo.com/1/video/";
    var s := prefix + "2";
    assert s[20..26] == "video/";
    assert s[22] == 'd';
    assert !LiteralAt(s, 20, "vimeo") by {
      if LiteralAt(s, 20, "vimeo") {
        LiteralAtChar(s, 20, "vimeo", 2);
        assert false;
      }
    }
    assert s == "https://vimeo.com/1/video/2";
    PrefixesAreOneLine();
    ParseIdAfterPrefix(prefix, 20, "2");
  }

  // ---------------------------------------------------------------------
  // test: /^https?:\/\/player.vimeo.com\/video\/\d{0,9}(?=\b|\/)/
  // ---------------------------------------------------------------------

  /** Where `^https?:\/\/player.vimeo.com\/video\/` ends, if it matches. The
      optional `s` is taken when present; without it `://` would have to follow
      `http` directly, so there is nothing to backtrack to. */
  function PlayerPrefixEnd(url: string): (e: Option<nat>)
    ensures e.Some? ==> 27 <= e.value <= |url| && url[e.value - 1] == '/'
  {
    if !LiteralAt(url, 0, "http") then None
    else
      var k := if 4 < |url| && url[4] == 's' then 5 else 4;
      if && LiteralAt(url, k, "://player")
         && k + 9 < |url| && !IsLineTerminator(url[k + 9])
         && LiteralAt(url, k + 10, "vimeo")
         && k + 15 < |url| && !IsLineTerminator(url[k + 15])
         && LiteralAt(url, k + 16, "com/video/")
      then LiteralAtChar(url, k + 16, "com/video/", 9); Some(k + 26)
      else None
  }

  predicate IsWordChar(c: char) {
    'a' <= c <= 'z' || 'A' <= c <= 'Z' || IsDigit(c) || c == '_'
  }

  /** `\b` at position i. */
  predicate WordBoundary(s: string, i: nat)
    requires i <= |s|
  {
    (i > 0 && IsWordChar(s[i - 1])) != (i < |s| && IsWordChar(s[i]))
  }

  /** `(?=\b|\/)` at position i. */
  predicate LookaheadAt(s: string, i: nat)
    requires i <= |s|
  {
    WordBoundary(s, i) || (i < |s| && s[i] == '/')
  }

  /** `\d{0,9}(?=\b|\/)` taking j digits from position e. */
  predicate DigitsThenLookahead(url: string, e: nat, j: nat) {
    j <= 9 && e + j <= |url| && AllDigits(url[e..e + j]) && LookaheadAt(url, e + j)
  }

  /** `VimeoProvider.test(url)`: the prefix, then up to nine digits followed by
      a word boundary or a slash. */
  function Test(url: string): bool {
    match PlayerPrefixEnd(url)
    case None => false
    case Some(e) => exists j: nat :: j <= 9 && DigitsThenLookahead(url, e, j)
  }

  /** The digit count does not matter: a player URL passes exactly when the
      character after `video/` is a letter, digit, underscore or slash. */
  lemma TestCharacterization(url: string)
    ensures Test(url) <==>
      && PlayerPrefixEnd(url).Some?
      && PlayerPrefixEnd(url).value < |url|
      && (IsWordChar(url[PlayerPrefixEnd(url).value]) || url[PlayerPrefixEnd(url).value] == '/')
  {
    var pe := PlayerPrefixEnd(url);
    if pe.Some? {
      var e := pe.value;
      if e < |url| && (IsWordChar(url[e]) || url[e] == '/') {
        assert url[e..e] == [];
        assert DigitsThenLookahead(url, e, 0);
      }
      if Test(url) {
        var j: nat :| j <= 9 && DigitsThenLookahead(url, e, j);
        if j > 0 {
          assert url[e..e + j][0] == url[e];
        }
      }
    }
  }

  /** Only `http://` and `https://` sources can pass. */
  lemma TestNeedsHttp(url: string)
    requires Test(url)
    ensures LiteralAt(url, 0, "http://") || LiteralAt(url, 0, "https://")
  {
    var k := if 4 < |url| && url[4] == 's' then 5 else 4;
    var lit := if k == 5 then "https://" else "http://";
    assert LiteralAt(url, 0, "http") && LiteralAt(url, k, "://player");
    forall i | 0 <= i < k + 3 ensures url[..k + 3][i] == lit[i] {
      if i < 4 {
        LiteralAtChar(url, 0, "http", i);
      } else if i >= k {
        LiteralAtChar(url, k, "://player", i - k);
      }
    }
    assert url[..k + 3] == lit;
  }

  /** The player URL prefix is recognised whatever follows it. */
  lemma PlayerPrefixOfPlayerUrl(rest: string)
    ensures PlayerPrefixEnd("https://player.vimeo.com/video/" + rest) == Some(31)
  {
    var url := "https://player.vimeo.com/video/" + rest;
    assert url[..4] == "http";
    assert url[4] == 's';
    assert url[..14] == "https://player";
    assert url[5..14] == "://player";
    assert url[..20] == "https://player.vimeo";
    assert url[15..20] == "vimeo";
    assert url[..31] == "https://player.vimeo.com/video/";
    assert url[21..31] == "com/video/";
  }

  /** The ID part is not checked for digits: `test` accepts any player URL whose
      ID starts with a letter, digit, underscore or slash. */
  lemma TestIgnoresIdDigits(rest: string)
    requires |rest| > 0 && (IsWordChar(rest[0]) || rest[0] == '/')
    ensures Test("https://player.vimeo.com/video/" + rest)
  {
    var url := "https://player.vimeo.com/video/" + rest;
    PlayerPrefixOfPlayerUrl(rest);
    assert url[31] == rest[0];
    TestCharacterization(url);
  }
}
