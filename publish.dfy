/** The publishing workflow of the front end (`prompt_fill/src/services/publish.js`):
    the scan of a prompt for strings that look like API keys, and the
    confirmation that can stop a publication. Each key pattern is a global
    regular expression, represented by its matcher. */
module Publish {
  import opened Wrappers
  import opened Text
  import opened Scanner

  /** The matcher of `/sk-[a-zA-Z0-9]{32,}/g`: the greedy run of at least 32. */
  function OpenAiKeyMatch(t: string): nat {
    if StartsWith(t, "sk-") then
      var k := Run(t[3..], IsAlnum);
      if k >= 32 then 3 + k else 0
    else 0
  }

  /** `[0-9A-Za-z-_]`: a `-` after a range is a literal hyphen. */
  predicate IsGoogleKeyChar(c: char) {
    IsAlnum(c) || c == '-' || c == '_'
  }

  /** The matcher of `/AIza[0-9A-Za-z-_]{35}/g`. */
  function GoogleKeyMatch(t: string): nat {
    if StartsWith(t, "AIza") && RunOf(t[4..], IsGoogleKeyChar, 35) then 39 else 0
  }

  predicate IsLowerHex(c: char) {
    IsDigit(c) || 'a' <= c <= 'f'
  }

  /** The matcher of `/[0-9a-f]{32}/g`. */
  function HexKeyMatch(t: string): nat {
    if RunOf(t, IsLowerHex, 32) then 32 else 0
  }

  /** The patterns `detectSensitiveInfo` tries, in order. */
  const KeyPatterns: seq<Matcher> := [OpenAiKeyMatch, GoogleKeyMatch, HexKeyMatch]

  predicate IsOpenAiKey(h: string) {
    |h| >= 35 && StartsWith(h, "sk-") && forall i :: 3 <= i < |h| ==> IsAlnum(h[i])
  }

  predicate IsGoogleKey(h: string) {
    |h| == 39 && StartsWith(h, "AIza") && forall i :: 4 <= i < |h| ==> IsGoogleKeyChar(h[i])
  }

  predicate IsHexKey(h: string) {
    |h| == 32 && forall i :: 0 <= i < |h| ==> IsLowerHex(h[i])
  }

  /** The matches of the first `n` patterns, pattern after pattern, each
      pattern's matches left to right (`found.push(...matches)`). */
  function FoundBy(content: string, patterns: seq<Matcher>): seq<string> {
    if patterns == [] then []
    else FoundBy(content, patterns[..|patterns| - 1]) + Hits(Scan(content, patterns[|patterns| - 1]))
  }

  /** `detectSensitiveInfo(content)`: for each pattern, `content.match(p)`
      (no match gives nothing) appended to the result. */
  method DetectSensitiveInfo(content: string) returns (found: seq<string>)
    ensures found == FoundBy(content, KeyPatterns)
  {
    found := [];
    var i := 0;
    while i < |KeyPatterns|
      invariant 0 <= i <= |KeyPatterns|
      invariant found == FoundBy(content, KeyPatterns[..i])
    {
      assert KeyPatterns[..i + 1][..i] == KeyPatterns[..i];
      var matches := Hits(Scan(content, KeyPatterns[i]));
      found := found + matches;
      i := i + 1;
    }
    assert KeyPatterns[..i] == KeyPatterns;
  }

  /** The result is grouped by pattern: the `sk-` keys, then the `AIza` keys,
      then the 32-digit hexadecimal strings, each group in the order the
      matches occur. */
  lemma FoundGrouped(content: string)
    ensures FoundBy(content, KeyPatterns) ==
            Hits(Scan(content, OpenAiKeyMatch)) + Hits(Scan(content, GoogleKeyMatch)) + Hits(Scan(content, HexKeyMatch))
  {
    var p := KeyPatterns;
    assert p[..1][..0] == [] && p[..1][0] == OpenAiKeyMatch;
    assert FoundBy(content, p[..1]) == Hits(Scan(content, OpenAiKeyMatch));
    assert p[..2][..1] == p[..1] && p[..2][1] == GoogleKeyMatch;
    assert FoundBy(content, p[..2]) == Hits(Scan(content, OpenAiKeyMatch)) + Hits(Scan(content, GoogleKeyMatch));
    assert p[..3] == p && p[..2] == p[..|p| - 1];
  }

  /** Every reported string has the shape of its pattern. */
  lemma FoundShapes(content: string)
    ensures forall h :: h in Hits(Scan(content, OpenAiKeyMatch)) ==> IsOpenAiKey(h)
    ensures forall h :: h in Hits(Scan(content, GoogleKeyMatch)) ==> IsGoogleKey(h)
    ensures forall h :: h in Hits(Scan(content, HexKeyMatch)) ==> IsHexKey(h)
  {
    forall t | MatchAt(OpenAiKeyMatch, t) > 0
      ensures IsOpenAiKey(t[..MatchAt(OpenAiKeyMatch, t)])
    {
      var k := Run(t[3..], IsAlnum);
      assert MatchAt(OpenAiKeyMatch, t) == 3 + k;
      var h := t[..3 + k];
      forall i | 3 <= i < |h|
        ensures IsAlnum(h[i])
      {
        assert h[i] == t[3..][i - 3];
      }
    }
    ScanHits(content, OpenAiKeyMatch, IsOpenAiKey);
    forall t | MatchAt(GoogleKeyMatch, t) > 0
      ensures IsGoogleKey(t[..MatchAt(GoogleKeyMatch, t)])
    {
      var h := t[..39];
      forall i | 4 <= i < |h|
        ensures IsGoogleKeyChar(h[i])
      {
        assert h[i] == t[4..][i - 4];
      }
    }
    ScanHits(content, GoogleKeyMatch, IsGoogleKey);
    ScanHits(content, HexKeyMatch, IsHexKey);
  }

  /** Text where no pattern matches anywhere yields nothing. */
  lemma NothingFound(content: string)
    requires forall j :: 0 <= j < |content| ==>
               MatchAt(OpenAiKeyMatch, content[j..]) == 0 && MatchAt(GoogleKeyMatch, content[j..]) == 0 &&
               MatchAt(HexKeyMatch, content[j..]) == 0
    ensures FoundBy(content, KeyPatterns) == []
  {
    FoundGrouped(content);
    ScanNoMatchIn(content, OpenAiKeyMatch);
    ScanNoMatchIn(content, GoogleKeyMatch);
    ScanNoMatchIn(content, HexKeyMatch);
  }

  /** What `publish` does. */
  datatype PublishOutcome =
    | Withheld   // `return null`: nothing is published
    | Submitted  // handed to the market service

  /** `publish(promptData, onSensitiveFound)`: the prompt is withheld exactly
      when sensitive strings are found and the callback, when there is one,
      answers falsy; without a callback the prompt is always submitted. */
  method PublishPrompt(content: string, onSensitiveFound: Option<seq<string> -> bool>) returns (r: PublishOutcome)
    ensures r == Withheld <==>
              FoundBy(content, KeyPatterns) != [] && onSensitiveFound.Some? &&
              !onSensitiveFound.value(FoundBy(content, KeyPatterns))
  {
    var sensitive := DetectSensitiveInfo(content);
    if |sensitive| > 0 && onSensitiveFound.Some? {
      var proceed := onSensitiveFound.value(sensitive);
      if !proceed {
        return Withheld;
      }
    }
    r := Submitted;
  }
}
