/** Global (`/g`) regular-expression scanning, as `String.prototype.match`,
    `replace` and `split` with a capturing group perform it: the input is cut,
    left to right, into literal characters and non-overlapping matches, each
    match being the one the expression finds at the leftmost position where it
    finds any. A regular expression is represented by its matcher. */
module Scanner {
  import opened Wrappers
  import opened Text

  /** `m(t)` is the length of the match that the expression finds at the first
      character of `t`, or 0 when none starts there. */
  type Matcher = string -> nat

  /** The matcher's answer, clamped to the input (a length past the end or 0 is no match). */
  function MatchAt(m: Matcher, t: string): (k: nat)
    ensures k <= |t|
  {
    if m(t) <= |t| then m(t) else 0
  }

  datatype Piece = Lit(c: char) | Hit(text: string)

  function PieceText(p: Piece): string {
    match p
    case Lit(c) => [c]
    case Hit(t) => t
  }

  /** The input cut into literal characters and matches. */
  function Scan(s: string, m: Matcher): (ps: seq<Piece>)
    decreases |s|
  {
    if s == [] then []
    else
      var k := MatchAt(m, s);
      if k > 0 then [Hit(s[..k])] + Scan(s[k..], m) else [Lit(s[0])] + Scan(s[1..], m)
  }

  function Flatten(ps: seq<Piece>): string {
    if ps == [] then "" else PieceText(ps[0]) + Flatten(ps[1..])
  }

  /** Scanning loses, adds and reorders nothing: the pieces spell the input. */
  lemma {:induction false} ScanFlatten(s: string, m: Matcher)
    ensures Flatten(Scan(s, m)) == s
    decreases |s|
  {
    if s != [] {
      var k := MatchAt(m, s);
      if k > 0 {
        ScanFlatten(s[k..], m);
        FlattenCons(Hit(s[..k]), Scan(s[k..], m));
        assert s[..k] + s[k..] == s;
      } else {
        ScanFlatten(s[1..], m);
        FlattenCons(Lit(s[0]), Scan(s[1..], m));
        assert [s[0]] + s[1..] == s;
      }
    }
  }

  lemma FlattenCons(p: Piece, ps: seq<Piece>)
    ensures Flatten([p] + ps) == PieceText(p) + Flatten(ps)
  {
    assert ([p] + ps)[1..] == ps;
  }

  /** A text in which no match starts anywhere scans without a match. */
  lemma {:induction false} ScanNoMatchIn(s: string, m: Matcher)
    requires forall j :: 0 <= j < |s| ==> MatchAt(m, s[j..]) == 0
    ensures Hits(Scan(s, m)) == []
    decreases |s|
  {
    if s != [] {
      assert s[0..] == s;
      forall j | 0 <= j < |s[1..]|
        ensures MatchAt(m, s[1..][j..]) == 0
      {
        assert s[1..][j..] == s[j + 1..];
      }
      ScanNoMatchIn(s[1..], m);
    }
  }

  /** The matched texts, in order (`s.match(re)`, with `[]` for `null`). */
  function Hits(ps: seq<Piece>): seq<string> {
    if ps == [] then []
    else if ps[0].Hit? then [ps[0].text] + Hits(ps[1..])
    else Hits(ps[1..])
  }

  /** Whatever holds of every match the matcher reports holds of every hit. */
  lemma {:induction false} ScanHits(s: string, m: Matcher, p: string -> bool)
    requires forall t :: MatchAt(m, t) > 0 ==> p(t[..MatchAt(m, t)])
    ensures forall h :: h in Hits(Scan(s, m)) ==> p(h)
    decreases |s|
  {
    if s != [] {
      var k := MatchAt(m, s);
      if k > 0 {
        ScanHits(s[k..], m, p);
      } else {
        ScanHits(s[1..], m, p);
      }
    }
  }

  /** A matcher that finds nothing leaves only literal characters. */
  lemma {:induction false} ScanNoMatch(s: string, m: Matcher)
    requires forall t :: MatchAt(m, t) == 0
    ensures Hits(Scan(s, m)) == []
    decreases |s|
  {
    if s != [] {
      ScanNoMatch(s[1..], m);
    }
  }

  /** `s.split(re)` where the whole expression is one capturing group: text
      between matches at even positions, the matches at odd positions. */
  function SplitParts(ps: seq<Piece>): (parts: seq<string>)
    ensures |parts| % 2 == 1
  {
    if ps == [] then [""]
    else
      var rest := SplitParts(ps[1..]);
      match ps[0]
      case Lit(c) => [[c] + rest[0]] + rest[1..]
      case Hit(t) => ["", t] + rest
  }

  /** The split parts spell the input again. */
  lemma {:induction false} SplitPartsConcat(ps: seq<Piece>)
    ensures Concat(SplitParts(ps)) == Flatten(ps)
  {
    if ps != [] {
      var rest := SplitParts(ps[1..]);
      SplitPartsConcat(ps[1..]);
      FlattenCons(ps[0], ps[1..]);
      assert ps == [ps[0]] + ps[1..];
      match ps[0]
      case Lit(c) => LitPartConcat(c, rest);
      case Hit(t) => HitPartConcat(t, rest);
    }
  }

  lemma LitPartConcat(c: char, rest: seq<string>)
    requires |rest| >= 1
    ensures Concat([[c] + rest[0]] + rest[1..]) == [c] + Concat(rest)
  {
    var head, tail := rest[0], rest[1..];
    assert Concat(rest) == head + Concat(tail);
    ConcatCons([c] + head, tail);
    SeqAssoc([c], head, Concat(tail));
  }

  lemma HitPartConcat(t: string, rest: seq<string>)
    ensures Concat(["", t] + rest) == t + Concat(rest)
  {
    assert ["", t] + rest == [""] + ([t] + rest);
    ConcatCons("", [t] + rest);
    ConcatCons(t, rest);
  }

  /** The odd-position parts are exactly the matches. */
  lemma {:induction false} SplitPartsHits(ps: seq<Piece>, i: nat)
    requires i < |SplitParts(ps)| && i % 2 == 1
    ensures SplitParts(ps)[i] in Hits(ps)
  {
    var rest := SplitParts(ps[1..]);
    match ps[0]
    case Lit(c) =>
      SplitPartsHits(ps[1..], i);
    case Hit(t) =>
      if i > 1 {
        SplitPartsHits(ps[1..], i - 2);
      }
  }

  /** `s.replace(re, f)`: every match replaced by `f` of its text, the rest kept. */
  function Replace(ps: seq<Piece>, f: string -> string): string {
    if ps == [] then ""
    else
      match ps[0]
      case Lit(c) => [c] + Replace(ps[1..], f)
      case Hit(t) => f(t) + Replace(ps[1..], f)
  }

  /** A replacement that returns each match unchanged changes nothing. */
  lemma {:induction false} ReplaceIdentity(ps: seq<Piece>, f: string -> string)
    requires forall t :: f(t) == t
    ensures Replace(ps, f) == Flatten(ps)
  {
    if ps != [] {
      ReplaceIdentity(ps[1..], f);
    }
  }

  /** A replacement that gives every match of the text back unchanged changes nothing. */
  lemma {:induction false} ReplaceFixes(ps: seq<Piece>, f: string -> string)
    requires forall h :: h in Hits(ps) ==> f(h) == h
    ensures Replace(ps, f) == Flatten(ps)
  {
    if ps != [] {
      assert forall h :: h in Hits(ps[1..]) ==> h in Hits(ps);
      ReplaceFixes(ps[1..], f);
    }
  }

  /** The length of the run at the start of `t` of characters satisfying `p`. */
  function Run(t: string, p: char -> bool): (k: nat)
    ensures k <= |t| && forall i :: 0 <= i < k ==> p(t[i])
    ensures k < |t| ==> !p(t[k])
  {
    if t != [] && p(t[0]) then 1 + Run(t[1..], p) else 0
  }

  /** `[class]{n}` at the start of `t` */
  predicate RunOf(t: string, p: char -> bool, n: nat) {
    n <= |t| && forall i :: 0 <= i < n ==> p(t[i])
  }

  /** `re.exec(s)` with `re.lastIndex == from`: the start of the leftmost
      match at or after `from`, or `None` (`exec` returning `null`). */
  function NextMatch(m: Matcher, s: string, from: nat): (r: Option<nat>)
    requires from <= |s|
    ensures r.Some? ==> from <= r.value < |s| && MatchAt(m, s[r.value..]) > 0
    decreases |s| - from
  {
    if from == |s| then None
    else if MatchAt(m, s[from..]) > 0 then Some(from)
    else NextMatch(m, s, from + 1)
  }

  /** `exec` finds the leftmost match: none starts between `from` and it,
      and when it finds nothing none starts anywhere after `from`. */
  lemma {:induction false} NextMatchLeftmost(m: Matcher, s: string, from: nat)
    requires from <= |s|
    ensures NextMatch(m, s, from).Some? ==> forall j :: from <= j < NextMatch(m, s, from).value ==> MatchAt(m, s[j..]) == 0
    ensures NextMatch(m, s, from).None? ==> forall j :: from <= j < |s| ==> MatchAt(m, s[j..]) == 0
    decreases |s| - from
  {
    if from < |s| && MatchAt(m, s[from..]) == 0 {
      NextMatchLeftmost(m, s, from + 1);
    }
  }

  /** `exec` from `from` stops at `j` when a match starts there and none before it. */
  lemma {:induction false} NextMatchAt(m: Matcher, s: string, from: nat, j: nat)
    requires from <= j < |s| && MatchAt(m, s[j..]) > 0
    requires forall i :: from <= i < j ==> MatchAt(m, s[i..]) == 0
    ensures NextMatch(m, s, from) == Some(j)
    decreases j - from
  {
    if from < j {
      NextMatchAt(m, s, from + 1, j);
    }
  }

  /** `exec` finds nothing when no match starts at or after `from`. */
  lemma {:induction false} NextMatchNone(m: Matcher, s: string, from: nat)
    requires from <= |s|
    requires forall i :: from <= i < |s| ==> MatchAt(m, s[i..]) == 0
    ensures NextMatch(m, s, from).None?
    decreases |s| - from
  {
    if from < |s| {
      NextMatchNone(m, s, from + 1);
    }
  }

  /** The characters of `t`, each as a literal piece. */
  function Lits(t: string): seq<Piece> {
    if t == [] then [] else [Lit(t[0])] + Lits(t[1..])
  }

  /** What `exec` finds from `from` is where the scan of the rest puts its
      first match: literal characters up to it, then the match. */
  lemma {:induction false} ScanUpTo(m: Matcher, s: string, from: nat, j: nat, k: nat)
    requires from <= |s| && NextMatch(m, s, from) == Some(j) && k == MatchAt(m, s[j..])
    ensures Scan(s[from..], m) == Lits(s[from..j]) + ([Hit(s[j..j + k])] + Scan(s[j + k..], m))
    decreases |s| - from
  {
    if MatchAt(m, s[from..]) > 0 {
      assert j == from;
      ScanHitAt(m, s, from, k);
      LitsEmpty(s, from, [Hit(s[j..j + k])] + Scan(s[j + k..], m));
    } else {
      assert from < |s| && NextMatch(m, s, from + 1) == Some(j);
      ScanUpTo(m, s, from + 1, j, k);
      ScanLitAt(m, s, from);
      LitsCons(s, from, j, [Hit(s[j..j + k])] + Scan(s[j + k..], m));
    }
  }

  lemma LitsEmpty(s: string, from: nat, rest: seq<Piece>)
    requires from <= |s|
    ensures Lits(s[from..from]) + rest == rest
  {
    assert s[from..from] == [];
  }

  /** The literals from `from` are the one at `from`, then those after it. */
  lemma LitsCons(s: string, from: nat, j: nat, rest: seq<Piece>)
    requires from < j <= |s|
    ensures Lits(s[from..j]) + rest == [Lit(s[from])] + (Lits(s[from + 1..j]) + rest)
  {
    assert s[from..j][1..] == s[from + 1..j];
    assert Lits(s[from..j]) == [Lit(s[from])] + Lits(s[from + 1..j]);
  }

  /** A match at `from` is the first piece of the scan from there. */
  lemma ScanHitAt(m: Matcher, s: string, from: nat, k: nat)
    requires from < |s| && k == MatchAt(m, s[from..]) > 0
    ensures from + k <= |s|
    ensures Scan(s[from..], m) == [Hit(s[from..from + k])] + Scan(s[from + k..], m)
  {
    var t := s[from..];
    assert t[..k] == s[from..from + k];
    assert t[k..] == s[from + k..];
  }

  /** No match at `from`: the character there is the first piece. */
  lemma ScanLitAt(m: Matcher, s: string, from: nat)
    requires from < |s| && MatchAt(m, s[from..]) == 0
    ensures Scan(s[from..], m) == [Lit(s[from])] + Scan(s[from + 1..], m)
  {
    var t := s[from..];
    assert t[1..] == s[from + 1..];
  }

  /** When `exec` finds nothing from `from`, the rest scans as literals. */
  lemma {:induction false} ScanNoMore(m: Matcher, s: string, from: nat)
    requires from <= |s| && NextMatch(m, s, from).None?
    ensures Scan(s[from..], m) == Lits(s[from..])
    decreases |s| - from
  {
    if from < |s| {
      var t := s[from..];
      ScanNoMore(m, s, from + 1);
      assert t[1..] == s[from + 1..];
      assert Scan(t, m) == [Lit(t[0])] + Scan(t[1..], m);
    }
  }

  /** Every match piece's text is among the hits. */
  lemma {:induction false} HitsContain(ps: seq<Piece>, i: nat)
    requires i < |ps| && ps[i].Hit?
    ensures ps[i].text in Hits(ps)
  {
    if i > 0 {
      HitsContain(ps[1..], i - 1);
    }
  }
}
