/** The two template-variable syntaxes of the prompt editor:
    `{{key}}` with `key` in `[a-zA-Z0-9_]+` (substitution, copying, parsing,
    variable extraction) and the looser `{{[^{}\n]+}}` used to highlight. */
module Placeholders {
  import opened Text
  import opened Scanner

  predicate NotBraceOrNewline(c: char) {
    c != '{' && c != '}' && c != '\n'
  }

  /** The matcher of `/\{\{([a-zA-Z0-9_]+)\}\}/g`. */
  function VarMatch(t: string): nat {
    if StartsWith(t, "{{") then
      var k := Run(t[2..], IsWordChar);
      if k > 0 && StartsWith(t[2 + k..], "}}") then k + 4 else 0
    else 0
  }

  /** The matcher of `/\{\{[^{}\n]+\}\}/g`. */
  function HighlightMatch(t: string): nat {
    if StartsWith(t, "{{") then
      var k := Run(t[2..], NotBraceOrNewline);
      if k > 0 && StartsWith(t[2 + k..], "}}") then k + 4 else 0
    else 0
  }

  predicate IsKey(key: string) {
    key != [] && forall i :: 0 <= i < |key| ==> IsWordChar(key[i])
  }

  /** `h` is `{{key}}` for a key of word characters. */
  predicate IsVar(h: string) {
    |h| >= 5 && StartsWith(h, "{{") && EndsWith(h, "}}") && IsKey(h[2..|h| - 2])
  }

  /** The key captured by the group of a `{{key}}` match. */
  function KeyOf(h: string): string
    requires |h| >= 4
  {
    h[2..|h| - 2]
  }

  /** The key of a `{{key}}` match, for a match of any length. */
  function HitKey(h: string): string {
    if |h| >= 4 then KeyOf(h) else h
  }

  function Placeholder(key: string): string {
    "{{" + key + "}}"
  }

  lemma VarMatchIsVar(t: string)
    ensures MatchAt(VarMatch, t) > 0 ==> IsVar(t[..MatchAt(VarMatch, t)])
  {
    var k := MatchAt(VarMatch, t);
    if k > 0 {
      var n := Run(t[2..], IsWordChar);
      assert k == n + 4;
      var h := t[..k];
      assert h[2..|h| - 2] == t[2..][..n];
    }
  }

  /** A `{{key}}` match spells the placeholder of its key. */
  lemma PlaceholderOfVar(h: string)
    requires IsVar(h)
    ensures Placeholder(HitKey(h)) == h && IsKey(HitKey(h))
  {
    assert h[..2] == "{{" && h[|h| - 2..] == "}}";
    assert h == h[..2] + h[2..|h| - 2] + h[|h| - 2..];
  }

  /** Every hit of the `{{key}}` scan is a well-formed placeholder. */
  lemma VarHitsAreVars(s: string)
    ensures forall h :: h in Hits(Scan(s, VarMatch)) ==> IsVar(h)
  {
    forall t
      ensures MatchAt(VarMatch, t) > 0 ==> IsVar(t[..MatchAt(VarMatch, t)])
    {
      VarMatchIsVar(t);
    }
    ScanHits(s, VarMatch, IsVar);
  }

  /** A placeholder written out as `{{key}}` is matched whole, whatever follows it. */
  lemma VarMatchOfPlaceholder(key: string, rest: string)
    requires IsKey(key)
    ensures MatchAt(VarMatch, Placeholder(key) + rest) == |key| + 4
  {
    var t := Placeholder(key) + rest;
    assert t[2..] == key + "}}" + rest;
    RunPrefix(key, "}}" + rest);
    assert t[2 + |key|..] == "}}" + rest;
  }

  lemma RunPrefix(key: string, rest: string)
    requires IsKey(key) && (rest == [] || !IsWordChar(rest[0]))
    ensures Run(key + rest, IsWordChar) == |key|
    decreases |key|
  {
    if |key| > 1 {
      assert (key + rest)[1..] == key[1..] + rest;
      RunPrefix(key[1..], rest);
    } else {
      assert (key + rest)[1..] == rest;
    }
  }
}
