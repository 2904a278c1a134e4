/** The two conversions of the plain-text editor
    (`prompt_fill/src/components/PlainTextEditor.jsx`): `parseTextToContent`
    turns raw text into paragraph HTML with a variable span for each
    `{{key}}`, and `serializeToText` turns the editor's node tree back into
    text. The DOM's `escapeHtml` is a parameter (`escape`); the node tree is
    the editor document's list of top-level nodes. */
module PlainTextEditor {
  import opened Wrappers
  import opened Text
  import opened JsonValues
  import opened Scanner
  import opened Placeholders

  // ----- parseTextToContent -----

  /** One run of a line: text outside the placeholders, or a variable. */
  datatype Segment = TextSegment(text: string) | VarSegment(key: string)

  /** The source text a segment stands for. */
  function SegmentText(g: Segment): string {
    match g
    case TextSegment(t) => t
    case VarSegment(k) => Placeholder(k)
  }

  function SegmentsText(gs: seq<Segment>): string {
    if gs == [] then "" else SegmentText(gs[0]) + SegmentsText(gs[1..])
  }

  /** The scanned pieces with each maximal run of literal characters joined
      into one text segment. */
  function Group(ps: seq<Piece>): (gs: seq<Segment>)
    ensures ps == [] <==> gs == []
  {
    if ps == [] then []
    else
      var rest := Group(ps[1..]);
      match ps[0]
      case Lit(c) =>
        if rest != [] && rest[0].TextSegment? then [TextSegment([c] + rest[0].text)] + rest[1..]
        else [TextSegment([c])] + rest
      case Hit(h) => [VarSegment(HitKey(h))] + rest
  }

  /** A line cut at its `{{key}}` placeholders. */
  function Segments(line: string): seq<Segment> {
    Group(Scan(line, VarMatch))
  }

  /** `<span data-variable-key="${escapeHtml(key)}"></span>` */
  function VariableSpan(key: string, escape: string -> string): string {
    "<span data-variable-key=\"" + escape(key) + "\"></span>"
  }

  /** The HTML of the segments: text escaped, each variable an empty span
      carrying its key. */
  function Html(gs: seq<Segment>, escape: string -> string): string {
    if gs == [] then ""
    else
      (match gs[0]
       case TextSegment(t) => escape(t)
       case VarSegment(k) => VariableSpan(k, escape)) + Html(gs[1..], escape)
  }

  lemma {:induction false} HtmlAppend(a: seq<Segment>, b: seq<Segment>, escape: string -> string)
    ensures Html(a + b, escape) == Html(a, escape) + Html(b, escape)
  {
    if a == [] {
      assert a + b == b;
    } else {
      assert (a + b)[1..] == a[1..] + b;
      HtmlAppend(a[1..], b, escape);
    }
  }

  /** `t` as a text segment, or nothing when it is empty. */
  function TextOf(t: string): seq<Segment> {
    if t == [] then [] else [TextSegment(t)]
  }

  /** Literal characters in front of anything that does not start with
      text join into a single text segment. */
  lemma {:induction false} GroupLits(t: string, rest: seq<Piece>)
    requires Group(rest) == [] || Group(rest)[0].VarSegment?
    ensures Group(Lits(t) + rest) == TextOf(t) + Group(rest)
    decreases |t|
  {
    if t != [] {
      LitsCons(t, rest);
      GroupLits(t[1..], rest);
      GroupLit(t[0], Lits(t[1..]) + rest);
      HeadTail(t);
      if t[1..] == [] {
        assert TextOf(t[1..]) + Group(rest) == Group(rest);
        assert [t[0]] == t;
      } else {
        assert (TextOf(t[1..]) + Group(rest))[0] == TextSegment(t[1..]);
        assert (TextOf(t[1..]) + Group(rest))[1..] == Group(rest);
      }
    } else {
      assert Lits(t) + rest == rest;
    }
  }

  lemma LitsCons(t: string, rest: seq<Piece>)
    requires t != []
    ensures Lits(t) + rest == [Lit(t[0])] + (Lits(t[1..]) + rest)
  {
  }

  /** A literal joins the text segment that follows it, if any. */
  lemma GroupLit(c: char, rest: seq<Piece>)
    ensures Group([Lit(c)] + rest) ==
              if Group(rest) != [] && Group(rest)[0].TextSegment? then [TextSegment([c] + Group(rest)[0].text)] + Group(rest)[1..]
              else [TextSegment([c])] + Group(rest)
  {
    assert ([Lit(c)] + rest)[1..] == rest;
  }

  lemma HeadTail(t: string)
    requires t != []
    ensures [t[0]] + t[1..] == t
  {
  }

  /** One `exec` step from `from`: the segments of the rest are the text
      before the next match, the match's variable, and the segments after it. */
  lemma ExecStep(m: Matcher, line: string, from: nat, j: nat, k: nat)
    requires from <= |line| && NextMatch(m, line, from) == Some(j) && k == MatchAt(m, line[j..])
    ensures Group(Scan(line[from..], m)) ==
              TextOf(line[from..j]) + [VarSegment(HitKey(line[j..j + k]))] + Group(Scan(line[j + k..], m))
  {
    ScanUpTo(m, line, from, j, k);
    GroupHit(line[j..j + k], Scan(line[j + k..], m));
    GroupLits(line[from..j], [Hit(line[j..j + k])] + Scan(line[j + k..], m));
    SeqAssoc(TextOf(line[from..j]), [VarSegment(HitKey(line[j..j + k]))], Group(Scan(line[j + k..], m)));
  }

  lemma GroupHit(h: string, rest: seq<Piece>)
    ensures Group([Hit(h)] + rest) == [VarSegment(HitKey(h))] + Group(rest)
  {
    assert ([Hit(h)] + rest)[1..] == rest;
  }

  /** Past the last match the rest of the line is one text segment, or none. */
  lemma ExecEnd(m: Matcher, line: string, from: nat)
    requires from <= |line| && NextMatch(m, line, from).None?
    ensures Group(Scan(line[from..], m)) == TextOf(line[from..])
  {
    ScanNoMore(m, line, from);
    GroupLits(line[from..], []);
    assert Lits(line[from..]) + [] == Lits(line[from..]);
  }

  /** A line's text segments and variables spell the line again, in order,
      and every variable's key is a word-character key. */
  lemma {:induction false} GroupSpells(ps: seq<Piece>)
    requires forall i :: 0 <= i < |ps| && ps[i].Hit? ==> IsVar(ps[i].text)
    ensures SegmentsText(Group(ps)) == Flatten(ps)
  {
    if ps != [] {
      var rest := Group(ps[1..]);
      TailVars(ps);
      GroupSpells(ps[1..]);
      match ps[0]
      case Lit(c) =>
        if rest != [] && rest[0].TextSegment? {
          SegmentsTextCons(TextSegment([c] + rest[0].text), rest[1..]);
          SegmentsTextCons(rest[0], rest[1..]);
          SeqHeadTail(rest);
        } else {
          SegmentsTextCons(TextSegment([c]), rest);
        }
      case Hit(h) =>
        PlaceholderOfVar(h);
        SegmentsTextCons(VarSegment(HitKey(h)), rest);
    }
  }

  /** The keys of the variable segments are word-character keys, and no
      text segment is empty. */
  lemma {:induction false} GroupWellFormed(ps: seq<Piece>)
    requires forall i :: 0 <= i < |ps| && ps[i].Hit? ==> IsVar(ps[i].text)
    ensures forall i :: 0 <= i < |Group(ps)| && Group(ps)[i].VarSegment? ==> IsKey(Group(ps)[i].key)
    ensures forall i :: 0 <= i < |Group(ps)| && Group(ps)[i].TextSegment? ==> Group(ps)[i].text != []
  {
    if ps != [] {
      TailVars(ps);
      GroupWellFormed(ps[1..]);
      if ps[0].Hit? {
        PlaceholderOfVar(ps[0].text);
      }
    }
  }

  lemma TailVars(ps: seq<Piece>)
    requires ps != [] && forall i :: 0 <= i < |ps| && ps[i].Hit? ==> IsVar(ps[i].text)
    ensures forall i :: 0 <= i < |ps[1..]| && ps[1..][i].Hit? ==> IsVar(ps[1..][i].text)
  {
    forall i | 0 <= i < |ps[1..]| && ps[1..][i].Hit?
      ensures IsVar(ps[1..][i].text)
    {
      assert ps[1..][i] == ps[i + 1];
    }
  }

  lemma SegmentsTextCons(g: Segment, rest: seq<Segment>)
    ensures SegmentsText([g] + rest) == SegmentText(g) + SegmentsText(rest)
  {
    assert ([g] + rest)[1..] == rest;
  }

  lemma SeqHeadTail<T>(s: seq<T>)
    requires s != []
    ensures s == [s[0]] + s[1..]
  {
  }

  /** What a line is made of: its segments spell it, variables have
      word-character keys, text segments are not empty. */
  lemma SegmentsSpellLine(line: string)
    ensures SegmentsText(Segments(line)) == line
    ensures forall i :: 0 <= i < |Segments(line)| && Segments(line)[i].VarSegment? ==> IsKey(Segments(line)[i].key)
    ensures forall i :: 0 <= i < |Segments(line)| && Segments(line)[i].TextSegment? ==> Segments(line)[i].text != []
  {
    var ps := Scan(line, VarMatch);
    VarHitsAreVars(line);
    forall i | 0 <= i < |ps| && ps[i].Hit?
      ensures IsVar(ps[i].text)
    {
      HitsContain(ps, i);
    }
    GroupSpells(ps);
    GroupWellFormed(ps);
    ScanFlatten(line, VarMatch);
  }

  /** The `<p>…</p>` of a non-blank line. */
  function ParagraphOf(line: string, escape: string -> string): string {
    "<p>" + Html(Segments(line), escape) + "</p>"
  }

  /** The `exec` loop over one line: text before each match escaped, each
      match a variable span, then the rest of the line. */
  method ParagraphHtml(line: string, escape: string -> string) returns (paragraphHtml: string)
    ensures paragraphHtml == ParagraphOf(line, escape)
  {
    var body := ExecLoop(line, VarMatch, escape);
    paragraphHtml := "<p>" + body + "</p>";
  }

  /** The HTML the `exec` loop produces from `from` on: the escaped text
      before each match followed by the match's variable span, and the
      escaped rest after the last match. */
  function ExecHtml(m: Matcher, line: string, from: nat, escape: string -> string): string
    requires from <= |line|
    decreases |line| - from
  {
    match NextMatch(m, line, from)
    case None => if from < |line| then escape(line[from..]) else ""
    case Some(j) =>
      EscapedBefore(line, from, j, escape) + VariableSpan(HitKey(line[j..j + MatchAt(m, line[j..])]), escape) +
      ExecHtml(m, line, j + MatchAt(m, line[j..]), escape)
  }

  /** The loop's output is the HTML of the line's segments. */
  lemma {:induction false} ExecHtmlSegments(m: Matcher, line: string, from: nat, escape: string -> string)
    requires from <= |line|
    ensures ExecHtml(m, line, from, escape) == Html(Group(Scan(line[from..], m)), escape)
    decreases |line| - from, 1
  {
    var next := NextMatch(m, line, from);
    if next.None? {
      ExecHtmlLast(m, line, from, escape);
    } else {
      var j := next.value;
      ExecHtmlMatch(m, line, from, j, MatchAt(m, line[j..]), escape);
    }
  }

  lemma ExecHtmlLast(m: Matcher, line: string, from: nat, escape: string -> string)
    requires from <= |line| && NextMatch(m, line, from).None?
    ensures ExecHtml(m, line, from, escape) == Html(Group(Scan(line[from..], m)), escape)
  {
    ExecEnd(m, line, from);
    if from < |line| {
      HtmlSingle(TextSegment(line[from..]), escape);
    }
  }

  lemma ExecHtmlMatch(m: Matcher, line: string, from: nat, j: nat, k: nat, escape: string -> string)
    requires from <= |line| && NextMatch(m, line, from) == Some(j) && k == MatchAt(m, line[j..])
    ensures ExecHtml(m, line, from, escape) == Html(Group(Scan(line[from..], m)), escape)
    decreases |line| - from, 0
  {
    ExecHtmlUnfold(m, line, from, j, k, escape);
    ExecHtmlSegments(m, line, j + k, escape);
    ExecStep(m, line, from, j, k);
    HtmlThree(TextOf(line[from..j]), VarSegment(HitKey(line[j..j + k])), Group(Scan(line[j + k..], m)), escape);
    HtmlSingle(VarSegment(HitKey(line[j..j + k])), escape);
    EscapedBeforeHtml(line, from, j, escape);
  }

  lemma ExecHtmlUnfold(m: Matcher, line: string, from: nat, j: nat, k: nat, escape: string -> string)
    requires from <= |line| && NextMatch(m, line, from) == Some(j) && k == MatchAt(m, line[j..])
    ensures from < j + k <= |line|
    ensures ExecHtml(m, line, from, escape) ==
              EscapedBefore(line, from, j, escape) + VariableSpan(HitKey(line[j..j + k]), escape) + ExecHtml(m, line, j + k, escape)
  {
  }

  lemma EscapedBeforeHtml(line: string, from: nat, j: nat, escape: string -> string)
    requires from <= j <= |line|
    ensures EscapedBefore(line, from, j, escape) == Html(TextOf(line[from..j]), escape)
  {
    if j > from {
      HtmlSingle(TextSegment(line[from..j]), escape);
    }
  }

  lemma HtmlThree(a: seq<Segment>, g: Segment, c: seq<Segment>, escape: string -> string)
    ensures Html(a + [g] + c, escape) == Html(a, escape) + Html([g], escape) + Html(c, escape)
  {
    HtmlAppend(a + [g], c, escape);
    HtmlAppend(a, [g], escape);
  }

  /** The body of that loop for the expression's matcher `m`: `lastIndex`
      moves from one match's end to the next `exec` result. */
  method ExecLoop(line: string, m: Matcher, escape: string -> string) returns (paragraphHtml: string)
    ensures paragraphHtml == Html(Group(Scan(line, m)), escape)
  {
    paragraphHtml := "";
    var lastIndex := 0;
    var next := NextMatch(m, line, lastIndex);
    while next.Some?
      invariant lastIndex <= |line|
      invariant next == NextMatch(m, line, lastIndex)
      invariant paragraphHtml + ExecHtml(m, line, lastIndex, escape) == ExecHtml(m, line, 0, escape)
      decreases |line| - lastIndex
    {
      var index := next.value;
      var k := MatchAt(m, line[index..]);
      var key := HitKey(line[index..index + k]);
      ghost var before, from := paragraphHtml, lastIndex;
      paragraphHtml := paragraphHtml + EscapedBefore(line, lastIndex, index, escape);
      paragraphHtml := paragraphHtml + VariableSpan(key, escape);
      lastIndex := index + k;
      ExecLoopStep(m, line, from, index, k, lastIndex, key, before, paragraphHtml, escape);
      next := NextMatch(m, line, lastIndex);
    }
    if lastIndex < |line| {
      paragraphHtml := paragraphHtml + escape(line[lastIndex..]);
    }
    ExecHtmlSegments(m, line, 0, escape);
    SliceFromZero(line);
  }

  /** `if (match.index > lastIndex) paragraphHtml += escapeHtml(beforeText)`:
      the escaped text between `lastIndex` and the match, or nothing. */
  function EscapedBefore(line: string, lastIndex: nat, index: nat, escape: string -> string): string
    requires lastIndex <= index <= |line|
  {
    if index > lastIndex then escape(line[lastIndex..index]) else ""
  }

  /** One turn of the loop keeps its invariant. */
  lemma ExecLoopStep(m: Matcher, line: string, from: nat, j: nat, k: nat, to: nat, key: string,
                     before: string, after: string, escape: string -> string)
    requires from <= |line| && NextMatch(m, line, from) == Some(j) && k == MatchAt(m, line[j..])
    requires to == j + k && key == HitKey(line[j..j + k])
    requires before + ExecHtml(m, line, from, escape) == ExecHtml(m, line, 0, escape)
    requires after == before + EscapedBefore(line, from, j, escape) + VariableSpan(key, escape)
    ensures to <= |line| && after + ExecHtml(m, line, to, escape) == ExecHtml(m, line, 0, escape)
  {
    ExecHtmlUnfold(m, line, from, j, k, escape);
    AppendThree(before, EscapedBefore(line, from, j, escape), VariableSpan(key, escape),
                ExecHtml(m, line, to, escape), ExecHtml(m, line, 0, escape));
  }

  lemma AppendThree<T>(done: seq<T>, a: seq<T>, b: seq<T>, rest: seq<T>, total: seq<T>)
    requires done + (a + b + rest) == total
    ensures done + a + b + rest == total
  {
  }

  lemma SliceFromZero(line: string)
    ensures line[0..] == line
  {
  }

  lemma HtmlSingle(g: Segment, escape: string -> string)
    ensures Html([g], escape) == match g
            case TextSegment(t) => escape(t)
            case VarSegment(k) => VariableSpan(k, escape)
  {
    assert [g][1..] == [];
  }

  predicate Blank(line: string) {
    Trim(line) == []
  }

  /** What a line gives once some paragraph exists: an empty paragraph
      when blank, its own paragraph otherwise. */
  function LineParagraph(line: string, render: string -> string): string {
    if Blank(line) then "<p></p>" else render(line)
  }

  /** The paragraphs of the lines: a non-blank line gives its paragraph, a
      blank line an empty paragraph once some paragraph exists. */
  function Paragraphs(lines: seq<string>, render: string -> string): (r: seq<string>)
  {
    if lines == [] then []
    else
      var previous := Paragraphs(lines[..|lines| - 1], render);
      var line := lines[|lines| - 1];
      if Blank(line) && |previous| == 0 then previous
      else previous + [LineParagraph(line, render)]
  }

  /** `ParagraphOf` with the escaping fixed. */
  function Renderer(escape: string -> string): string -> string {
    line => ParagraphOf(line, escape)
  }

  /** How many blank lines come before the first non-blank one. */
  function LeadingBlank(lines: seq<string>): (n: nat)
    ensures n <= |lines|
  {
    if lines == [] || !Blank(lines[0]) then 0 else 1 + LeadingBlank(lines[1..])
  }

  lemma {:induction false} LeadingBlankSnoc(lines: seq<string>, line: string)
    ensures LeadingBlank(lines + [line]) ==
              if LeadingBlank(lines) == |lines| && Blank(line) then |lines| + 1 else LeadingBlank(lines)
  {
    if lines != [] {
      assert (lines + [line])[1..] == lines[1..] + [line];
      LeadingBlankSnoc(lines[1..], line);
    }
  }

  /** Leading blank lines are dropped; after them every line makes exactly
      one paragraph, empty for a blank line, in order. */
  lemma {:induction false} ParagraphsShape(lines: seq<string>, render: string -> string)
    ensures Shaped(lines, Paragraphs(lines, render), render)
  {
    if lines != [] {
      var init := lines[..|lines| - 1];
      var line := lines[|lines| - 1];
      var previous := Paragraphs(init, render);
      ParagraphsShape(init, render);
      LeadingBlankSnoc(init, line);
      assert init + [line] == lines;
      var n := LeadingBlank(init);
      if !(Blank(line) && |previous| == 0) {
        ShapedAppend(init, line, previous, n, render);
      }
    }
  }

  /** `ps` holds one paragraph per line after the leading blank ones. */
  ghost predicate Shaped(lines: seq<string>, ps: seq<string>, render: string -> string) {
    ShapedFrom(lines, LeadingBlank(lines), ps, render)
  }

  /** `ps` holds one paragraph per line from index `n` on. */
  ghost predicate ShapedFrom(lines: seq<string>, n: nat, ps: seq<string>, render: string -> string) {
    n <= |lines| && |ps| == |lines| - n &&
    forall i :: 0 <= i < |ps| ==> ps[i] == LineParagraph(lines[n + i], render)
  }

  lemma ShapedAppend(init: seq<string>, line: string, previous: seq<string>, n: nat, render: string -> string)
    requires ShapedFrom(init, n, previous, render)
    ensures ShapedFrom(init + [line], n, previous + [LineParagraph(line, render)], render)
  {
    var lines := init + [line];
    var ps := previous + [LineParagraph(line, render)];
    forall i | 0 <= i < |ps|
      ensures ps[i] == LineParagraph(lines[n + i], render)
    {
      if i < |previous| {
        assert lines[n + i] == init[n + i];
      }
    }
  }

  /** `parseTextToContent(text)`, as a value. */
  function ContentHtml(text: string, escape: string -> string): string {
    if text == [] then "<p></p>"
    else
      var paragraphs := Paragraphs(SplitOn(text, '\n'), Renderer(escape));
      if paragraphs == [] then "<p></p>" else Concat(paragraphs)
  }

  /** The loops of `parseTextToContent`. */
  method ParseTextToContent(text: string, escape: string -> string) returns (r: string)
    ensures r == ContentHtml(text, escape)
  {
    if text == [] {
      return "<p></p>";
    }
    var lines := SplitOn(text, '\n');
    var paragraphs: seq<string> := [];
    var i := 0;
    while i < |lines|
      invariant 0 <= i <= |lines|
      invariant paragraphs == Paragraphs(lines[..i], Renderer(escape))
    {
      var line := lines[i];
      ParagraphsStep(lines, i, Renderer(escape));
      if Blank(line) && |paragraphs| > 0 {
        paragraphs := paragraphs + ["<p></p>"];
      } else if !Blank(line) {
        var paragraphHtml := ParagraphHtml(line, escape);
        RendererApply(escape, line);
        paragraphs := paragraphs + [paragraphHtml];
      }
      i := i + 1;
    }
    assert lines[..i] == lines;
    if paragraphs == [] {
      return "<p></p>";
    }
    r := Concat(paragraphs);
  }

  lemma ParagraphsStep(lines: seq<string>, i: nat, render: string -> string)
    requires i < |lines|
    ensures Paragraphs(lines[..i + 1], render) ==
              if Blank(lines[i]) && |Paragraphs(lines[..i], render)| == 0 then Paragraphs(lines[..i], render)
              else Paragraphs(lines[..i], render) + [LineParagraph(lines[i], render)]
  {
    assert lines[..i + 1][..i] == lines[..i];
  }

  lemma RendererApply(escape: string -> string, line: string)
    ensures Renderer(escape)(line) == ParagraphOf(line, escape)
  {
  }

  /** The result is never empty: it always starts with a paragraph. */
  lemma ContentStartsWithParagraph(text: string, escape: string -> string)
    ensures StartsWith(ContentHtml(text, escape), "<p>")
  {
    var lines := SplitOn(text, '\n');
    var paragraphs := Paragraphs(lines, Renderer(escape));
    if text != [] && paragraphs != [] {
      assert ContentHtml(text, escape) == Concat(paragraphs);
      JoinedParagraphsStart(lines, escape);
    } else {
      assert ContentHtml(text, escape) == "<p></p>";
      PrefixStarts("<p>", "</p>");
    }
  }

  lemma JoinedParagraphsStart(lines: seq<string>, escape: string -> string)
    requires Paragraphs(lines, Renderer(escape)) != []
    ensures StartsWith(Concat(Paragraphs(lines, Renderer(escape))), "<p>")
  {
    RendererStarts(escape);
    ParagraphsStart(lines, Renderer(escape));
    ConcatStartsWith(Paragraphs(lines, Renderer(escape)), "<p>");
  }

  lemma RendererStarts(escape: string -> string)
    ensures forall l :: StartsWith(Renderer(escape)(l), "<p>")
  {
    forall l
      ensures StartsWith(Renderer(escape)(l), "<p>")
    {
      RendererApply(escape, l);
      PrefixStarts("<p>", Html(Segments(l), escape) + "</p>");
    }
  }

  lemma PrefixStarts(p: string, rest: string)
    ensures StartsWith(p + rest, p)
  {
    assert (p + rest)[..|p|] == p;
  }

  /** When every rendered line starts with "<p>", so does every paragraph. */
  lemma {:induction false} ParagraphsStart(lines: seq<string>, render: string -> string)
    requires forall l :: StartsWith(render(l), "<p>")
    ensures forall i :: 0 <= i < |Paragraphs(lines, render)| ==> StartsWith(Paragraphs(lines, render)[i], "<p>")
  {
    if lines != [] {
      var init := lines[..|lines| - 1];
      var line := lines[|lines| - 1];
      ParagraphsStart(init, render);
      PrefixStarts("<p>", "</p>");
      assert StartsWith(LineParagraph(line, render), "<p>");
      SnocAll(Paragraphs(init, render), LineParagraph(line, render));
    }
  }

  /** Every element of `q + [x]` starts with "<p>" when those of `q` and `x` do. */
  lemma SnocAll(q: seq<string>, x: string)
    requires forall i :: 0 <= i < |q| ==> StartsWith(q[i], "<p>")
    requires StartsWith(x, "<p>")
    ensures forall i :: 0 <= i < |q + [x]| ==> StartsWith((q + [x])[i], "<p>")
  {
    forall i | 0 <= i < |q + [x]|
      ensures StartsWith((q + [x])[i], "<p>")
    {
      if i < |q| {
        assert (q + [x])[i] == q[i];
      }
    }
  }

  lemma ConcatStartsWith(parts: seq<string>, p: string)
    requires parts != [] && StartsWith(parts[0], p)
    ensures StartsWith(Concat(parts), p)
  {
    assert Concat(parts) == parts[0] + Concat(parts[1..]);
    assert (parts[0] + Concat(parts[1..]))[..|p|] == parts[0][..|p|];
  }

  /** A one-line text that is not blank is that line's paragraph alone. */
  lemma SingleLine(line: string, escape: string -> string)
    requires !Blank(line) && '\n' !in line
    ensures ContentHtml(line, escape) == ParagraphOf(line, escape)
  {
    SplitOnAbsent(line, '\n');
    ParagraphsSingle(line, Renderer(escape));
    ConcatSingle(ParagraphOf(line, escape));
  }

  lemma ParagraphsSingle(line: string, render: string -> string)
    requires !Blank(line)
    ensures Paragraphs([line], render) == [render(line)]
  {
    assert [line][..0] == [];
  }

  lemma ConcatSingle(x: string)
    ensures Concat([x]) == x
  {
    assert [x][1..] == [];
  }

  lemma {:induction false} SplitOnAbsent(s: string, c: char)
    requires c !in s
    ensures SplitOn(s, c) == [s]
  {
    if s != [] {
      SplitOnAbsent(s[1..], c);
      assert [s[0]] + s[1..] == s;
    }
  }

  // ----- serializeToText -----

  /** A node of the editor document. A variable node carries its
      `data-variable-key` attribute, if it has one; `Element` stands for
      any other node with content. */
  datatype Node =
    | TextNode(text: string)
    | VariableNode(attr: Option<Json>)
    | HardBreak
    | Paragraph(content: seq<Node>)
    | Element(isBlock: bool, content: seq<Node>)

  /** Node sizes in document positions: a text node counts its UTF-16
      units, a leaf counts 1 and a node with content counts its content
      plus its two boundaries. */
  function NodeSize(n: Node): nat
    decreases n, 1
  {
    match n
    case TextNode(t) => |Utf16(t)|
    case VariableNode(_) => 1
    case HardBreak => 1
    case Paragraph(c) => 2 + Size(c)
    case Element(_, c) => 2 + Size(c)
  }

  /** `content.size`: the sizes of the nodes together. */
  function Size(c: seq<Node>): nat
    decreases c, 0
  {
    if c == [] then 0 else Size(c[..|c| - 1]) + NodeSize(c[|c| - 1])
  }

  function IsBlock(n: Node): bool {
    match n
    case Paragraph(_) => true
    case Element(b, _) => b
    case _ => false
  }

  /** `node.attrs?.['data-variable-key'] || ''` as the template literal
      renders it. */
  function KeyText(attr: Option<Json>): string {
    if attr.None? || !JsTruthy(attr.value) then "" else JsString(attr.value)
  }

  /** `processNode(node)`: text as is, a variable as `{{key}}`, a hard
      break as a newline, and a node with content as its children's text. */
  function NodeText(n: Node): string
    decreases n, 1
  {
    match n
    case TextNode(t) => t
    case VariableNode(attr) => "{{" + KeyText(attr) + "}}"
    case HardBreak => "\n"
    case Paragraph(c) => if Size(c) == 0 then "" else ChildrenText(c)
    case Element(_, c) => if Size(c) == 0 then "" else ChildrenText(c)
  }

  function ChildrenText(c: seq<Node>): string
    decreases c, 0
  {
    if c == [] then "" else ChildrenText(c[..|c| - 1]) + NodeText(c[|c| - 1])
  }

  /** The `forEach` loops of `processNode`. */
  method ProcessNode(n: Node) returns (r: string)
    ensures r == NodeText(n)
    decreases n
  {
    match n
    case TextNode(t) => r := t;
    case VariableNode(attr) => r := "{{" + KeyText(attr) + "}}";
    case HardBreak => r := "\n";
    case Paragraph(c) =>
      if Size(c) == 0 {
        return "";
      }
      r := ProcessChildren(n, c);
    case Element(_, c) =>
      if Size(c) == 0 {
        return "";
      }
      r := ProcessChildren(n, c);
  }

  method ProcessChildren(parent: Node, c: seq<Node>) returns (result: string)
    requires parent.Paragraph? || parent.Element?
    requires c == parent.content
    ensures result == ChildrenText(c)
    decreases parent, 0
  {
    result := "";
    var i := 0;
    while i < |c|
      invariant 0 <= i <= |c|
      invariant result == ChildrenText(c[..i])
    {
      assert c[..i + 1][..i] == c[..i];
      var child := ProcessNode(c[i]);
      result := result + child;
      i := i + 1;
    }
    assert c[..i] == c;
  }

  /** What the top-level loop adds for node `n` at position `offset` of a
      document of size `total`: its text and, for a block, "\n\n" when
      `offset < total - 1`. */
  function Contribution(n: Node, offset: nat, total: nat): string {
    var content := NodeText(n);
    if content == [] then ""
    else if IsBlock(n) && offset < total - 1 then content + "\n\n"
    else content
  }

  /** The text of the top-level nodes before the clean-up, each node at its
      position inside a document of size `total`. */
  function RawText(doc: seq<Node>, total: nat): string {
    if doc == [] then ""
    else
      var init := doc[..|doc| - 1];
      RawText(init, total) + Contribution(doc[|doc| - 1], Size(init), total)
  }

  predicate IsNewline(c: char) {
    c == '\n'
  }

  /** The matcher of `/\n{3,}/g`: a run of three or more newlines, whole. */
  function NewlineRuns(t: string): nat {
    var k := Run(t, IsNewline);
    if k >= 3 then k else 0
  }

  /** `text.replace(/\n{3,}/g, '\n\n')` */
  function CollapseNewlines(s: string): string {
    Replace(Scan(s, NewlineRuns), (h: string) => "\n\n")
  }

  /** `serializeToText(editor)`, as a value; `None` is a missing editor. */
  function Serialized(editor: Option<seq<Node>>): string {
    if editor.None? then "" else CollapseNewlines(RawText(editor.value, Size(editor.value)))
  }

  /** The top-level loop of `serializeToText`; `offset` is what the
      document's `forEach` passes as its second argument. */
  method SerializeToText(editor: Option<seq<Node>>) returns (text: string)
    ensures text == Serialized(editor)
  {
    if editor.None? {
      return "";
    }
    var doc := editor.value;
    text := "";
    var offset := 0;
    var i := 0;
    while i < |doc|
      invariant 0 <= i <= |doc|
      invariant offset == Size(doc[..i])
      invariant text == RawText(doc[..i], Size(doc))
    {
      var node := doc[i];
      assert doc[..i + 1][..i] == doc[..i];
      var content := ProcessNode(node);
      if content != "" {
        text := text + content;
        if IsBlock(node) && offset < Size(doc) - 1 {
          text := text + "\n\n";
        }
      }
      offset := offset + NodeSize(node);
      i := i + 1;
    }
    assert doc[..i] == doc;
    text := CollapseNewlines(text);
  }

  /** No three newlines in a row. */
  predicate NoTripleNewline(s: string) {
    forall i :: 0 <= i < |s| - 2 ==> !(s[i] == '\n' && s[i + 1] == '\n' && s[i + 2] == '\n')
  }

  lemma CollapseUnfold(s: string)
    requires s != []
    ensures NewlineRuns(s) > 0 ==> CollapseNewlines(s) == "\n\n" + CollapseNewlines(s[NewlineRuns(s)..])
    ensures NewlineRuns(s) == 0 ==> CollapseNewlines(s) == [s[0]] + CollapseNewlines(s[1..])
  {
  }

  /** After the clean-up no run of newlines is longer than two, and the
      text starts with as many newlines as before, but at most two. */
  lemma {:induction false} CollapseBounds(s: string)
    ensures NoTripleNewline(CollapseNewlines(s))
    ensures Run(CollapseNewlines(s), IsNewline) == if Run(s, IsNewline) >= 2 then 2 else Run(s, IsNewline)
    decreases |s|, 1
  {
    if s != [] {
      CollapseUnfold(s);
      if NewlineRuns(s) > 0 {
        CollapseRun(s);
      } else {
        CollapseOther(s);
      }
    }
  }

  /** A run of three or more newlines becomes two. */
  lemma {:induction false} CollapseRun(s: string)
    requires s != [] && NewlineRuns(s) > 0
    ensures NoTripleNewline(CollapseNewlines(s))
    ensures Run(CollapseNewlines(s), IsNewline) == if Run(s, IsNewline) >= 2 then 2 else Run(s, IsNewline)
    decreases |s|, 0
  {
    var k := NewlineRuns(s);
    CollapseUnfold(s);
    CollapseBounds(s[k..]);
    TwoNewlines(CollapseNewlines(s[k..]));
  }

  /** Any other character is kept. */
  lemma {:induction false} CollapseOther(s: string)
    requires s != [] && NewlineRuns(s) == 0
    ensures NoTripleNewline(CollapseNewlines(s))
    ensures Run(CollapseNewlines(s), IsNewline) == if Run(s, IsNewline) >= 2 then 2 else Run(s, IsNewline)
    decreases |s|, 0
  {
    var u := CollapseNewlines(s[1..]);
    CollapseUnfold(s);
    CollapseBounds(s[1..]);
    RunCons(s[0], u);
    RunCons(s[0], s[1..]);
    assert [s[0]] + s[1..] == s;
    NoTripleCons(s[0], u);
  }

  lemma TwoNewlines(u: string)
    requires NoTripleNewline(u) && Run(u, IsNewline) == 0
    ensures NoTripleNewline("\n\n" + u) && Run("\n\n" + u, IsNewline) == 2
  {
    RunCons('\n', "\n" + u);
    RunCons('\n', u);
    assert "\n\n" + u == ['\n'] + (['\n'] + u);
    NoTripleCons('\n', u);
    NoTripleCons('\n', "\n" + u);
  }

  lemma RunCons(c: char, u: string)
    ensures Run([c] + u, IsNewline) == if c == '\n' then 1 + Run(u, IsNewline) else 0
  {
    assert ([c] + u)[1..] == u;
  }

  lemma NoTripleCons(c: char, u: string)
    requires NoTripleNewline(u)
    requires c == '\n' ==> Run(u, IsNewline) < 2
    ensures NoTripleNewline([c] + u)
  {
    var s := [c] + u;
    forall i | 0 <= i < |s| - 2
      ensures !(s[i] == '\n' && s[i + 1] == '\n' && s[i + 2] == '\n')
    {
      if i > 0 {
        assert s[i] == u[i - 1] && s[i + 1] == u[i] && s[i + 2] == u[i + 1];
      } else if c == '\n' && u[0] == '\n' {
        assert Run(u, IsNewline) == 1 + Run(u[1..], IsNewline);
      }
    }
  }

  /** The serialized text never holds three newlines in a row. */
  lemma SerializedNoTriple(editor: Option<seq<Node>>)
    ensures NoTripleNewline(Serialized(editor))
  {
    if editor.Some? {
      CollapseBounds(RawText(editor.value, Size(editor.value)));
    }
  }

  // ----- the separator after the last paragraph -----

  /** Every node of a document of paragraphs lies before position
      `total - 1`, the last one included, so each non-empty paragraph is
      followed by "\n\n". */
  lemma {:induction false} RawTextOfParagraphs(doc: seq<Node>, total: nat)
    requires forall i :: 0 <= i < |doc| ==> doc[i].Paragraph?
    requires Size(doc) <= total
    ensures RawText(doc, total) == Concat(Separated(doc))
  {
    if doc != [] {
      var init := doc[..|doc| - 1];
      var last := doc[|doc| - 1];
      RawTextOfParagraphs(init, total);
      assert Size(init) + NodeSize(last) == Size(doc);
      ConcatAppend(Separated(init), [if NodeText(last) == [] then "" else NodeText(last) + "\n\n"]);
    }
  }

  /** Each node's text followed by "\n\n", or nothing for an empty text. */
  function Separated(doc: seq<Node>): (r: seq<string>)
    ensures |r| == |doc|
  {
    if doc == [] then []
    else
      var last := doc[|doc| - 1];
      Separated(doc[..|doc| - 1]) + [if NodeText(last) == [] then "" else NodeText(last) + "\n\n"]
  }

  /** A document of one paragraph "a" serializes to "a\n\n": the separator
      meant to go between paragraphs also follows the last one. */
  lemma TrailingSeparator()
    ensures Serialized(Some([Paragraph([TextNode("a")])])) == "a\n\n"
  {
    var doc := [Paragraph([TextNode("a")])];
    assert Utf16("a") == [97];
    assert Size([TextNode("a")]) == 1;
    assert ChildrenText([TextNode("a")]) == "a";
    assert RawText(doc, Size(doc)) == "a\n\n";
    var s := "a\n\n";
    assert NewlineRuns(s) == 0;
    assert NewlineRuns(s[1..]) == 0;
    assert NewlineRuns(s[2..]) == 0;
    assert CollapseNewlines(s) == [s[0]] + CollapseNewlines(s[1..]);
    assert CollapseNewlines(s[1..]) == [s[1]] + CollapseNewlines(s[2..]);
    assert CollapseNewlines(s[2..]) == [s[2]] + CollapseNewlines(s[3..]);
    assert s[3..] == [];
  }

  /** The separator as the comment describes it, between paragraphs: after
      a non-empty block unless it is the document's last node (the child
      index compared with the child count). */
  function IntendedRawText(doc: seq<Node>, count: nat): string {
    if doc == [] then ""
    else
      var init := doc[..|doc| - 1];
      var n := doc[|doc| - 1];
      var content := NodeText(n);
      IntendedRawText(init, count) +
        (if content == [] then "" else if IsBlock(n) && |init| < count - 1 then content + "\n\n" else content)
  }

  function IntendedSerialized(editor: Option<seq<Node>>): string {
    if editor.None? then "" else CollapseNewlines(IntendedRawText(editor.value, |editor.value|))
  }

  /** With the separator between paragraphs, a document of non-empty
      paragraphs gives their texts joined by "\n\n", with nothing after
      the last. */
  lemma {:induction false} IntendedJoins(doc: seq<Node>)
    requires forall i :: 0 <= i < |doc| ==> doc[i].Paragraph? && NodeText(doc[i]) != []
    ensures IntendedRawText(doc, |doc|) == JoinWith(Texts(doc), "\n\n")
  {
    IntendedPrefix(doc, |doc|);
  }

  /** The texts of the nodes. */
  function Texts(doc: seq<Node>): (r: seq<string>)
    ensures |r| == |doc| && forall i :: 0 <= i < |doc| ==> r[i] == NodeText(doc[i])
  {
    seq(|doc|, i requires 0 <= i < |doc| => NodeText(doc[i]))
  }

  lemma {:induction false} IntendedPrefix(doc: seq<Node>, count: nat)
    requires forall i :: 0 <= i < |doc| ==> doc[i].Paragraph? && NodeText(doc[i]) != []
    requires |doc| <= count
    ensures doc != [] && |doc| < count ==> IntendedRawText(doc, count) == JoinWith(Texts(doc), "\n\n") + "\n\n"
    ensures |doc| == count ==> IntendedRawText(doc, count) == JoinWith(Texts(doc), "\n\n")
  {
    if doc != [] {
      var init := doc[..|doc| - 1];
      IntendedPrefix(init, count);
      JoinSnoc(Texts(init), NodeText(doc[|doc| - 1]), "\n\n");
      assert Texts(init) + [NodeText(doc[|doc| - 1])] == Texts(doc);
    }
  }

  lemma {:induction false} JoinSnoc(parts: seq<string>, x: string, sep: string)
    ensures JoinWith(parts + [x], sep) == if parts == [] then x else JoinWith(parts, sep) + sep + x
  {
    if |parts| == 1 {
      assert (parts + [x])[1..] == [x];
    } else if |parts| > 1 {
      assert (parts + [x])[1..] == parts[1..] + [x];
      JoinSnoc(parts[1..], x, sep);
    }
  }

  /** With the intended separator a single paragraph serializes to its own
      text. */
  lemma IntendedSingleParagraph()
    ensures IntendedSerialized(Some([Paragraph([TextNode("a")])])) == "a"
  {
    var doc := [Paragraph([TextNode("a")])];
    assert Utf16("a") == [97];
    assert ChildrenText([TextNode("a")]) == "a";
    assert IntendedRawText(doc, 1) == "a";
    var s := "a";
    assert NewlineRuns(s) == 0;
    assert CollapseNewlines(s) == [s[0]] + CollapseNewlines(s[1..]);
  }
}
