/** The dialog that turns the active template into an MCP skill
    (`prompt_fill/src/components/PromptToSkillModal.jsx`): `analyzePrompt`
    collects the template's `{{key}}` variables, asks the model for a skill
    and reads its answer; `handleSave` posts the skill to the gateway and
    reports it to the caller. The model call, the gateway request and the
    caller's callback are parameters. */
module PromptToSkill {
  import opened Wrappers
  import opened Text
  import opened Dicts
  import opened Lists
  import opened JsonValues
  import opened Scanner
  import opened Placeholders
  import opened Helpers

  // Variable extraction

  /** The keys `varRegex.exec(content)` captures, one per match, from
      `lastIndex == from` to the end. */
  function ExecKeys(m: Matcher, s: string, from: nat): seq<string>
    requires from <= |s|
    decreases |s| - from
  {
    match NextMatch(m, s, from)
    case None => []
    case Some(j) =>
      var k := MatchAt(m, s[j..]);
      [HitKey(s[j..j + k])] + ExecKeys(m, s, j + k)
  }

  /** The elements of `s` at their first occurrence, later repeats dropped. */
  function Dedup<T(==)>(s: seq<T>): seq<T>
    decreases |s|
  {
    if s == [] then []
    else
      var init := s[..|s| - 1];
      Dedup(init) + (if s[|s| - 1] in init then [] else [s[|s| - 1]])
  }

  /** The first position of `x` in `s`. */
  function IndexOf<T(==)>(s: seq<T>, x: T): (r: Option<nat>)
    ensures r.Some? ==> r.value < |s| && s[r.value] == x && x !in s[..r.value]
    ensures r.None? ==> x !in s
    decreases |s|
  {
    if s == [] then None
    else if s[0] == x then Some(0)
    else
      match IndexOf(s[1..], x)
      case None => None
      case Some(i) =>
        assert s[..i + 1] == [s[0]] + s[1..][..i];
        Some(i + 1)
  }

  /** The last position of `x` in `s`. */
  function LastIndexOf<T(==)>(s: seq<T>, x: T): (r: Option<nat>)
    ensures r.Some? ==> r.value < |s| && s[r.value] == x && forall k :: r.value < k < |s| ==> s[k] != x
    ensures r.None? ==> forall k :: 0 <= k < |s| ==> s[k] != x
    decreases |s|
  {
    if s == [] then None
    else if s[|s| - 1] == x then Some(|s| - 1)
    else LastIndexOf(s[..|s| - 1], x)
  }

  /** The collecting loop of `analyzePrompt`: each captured key is pushed
      unless `variables` already holds it. */
  method ExtractVariables(content: string) returns (variables: seq<string>)
    ensures variables == Dedup(ExecKeys(VarMatch, content, 0))
  {
    variables := CollectKeys(VarMatch, content);
  }

  /** That loop for the expression's matcher `m`. */
  method CollectKeys(m: Matcher, content: string) returns (variables: seq<string>)
    ensures variables == Dedup(ExecKeys(m, content, 0))
  {
    variables := [];
    ghost var seen: seq<string> := [];
    var lastIndex := 0;
    var next := NextMatch(m, content, lastIndex);
    while next.Some?
      invariant lastIndex <= |content|
      invariant next == NextMatch(m, content, lastIndex)
      invariant Collected(m, content, seen, lastIndex)
      invariant variables == Dedup(seen)
      decreases |content| - lastIndex
    {
      var index := next.value;
      var k := MatchAt(m, content[index..]);
      var key := HitKey(content[index..index + k]);
      ghost var from, before, listed := lastIndex, seen, variables;
      if key !in variables {
        variables := variables + [key];
      }
      seen := seen + [key];
      lastIndex := index + k;
      PushStep(before, listed, key, variables, seen);
      ExecKeysStep(m, content, from, index, k, before, seen);
      next := NextMatch(m, content, lastIndex);
    }
    assert seen + [] == seen;
  }

  /** The keys collected before `lastIndex` followed by those the loop
      still finds make up all the keys. */
  ghost predicate Collected(m: Matcher, s: string, seen: seq<string>, lastIndex: nat) {
    lastIndex <= |s| && seen + ExecKeys(m, s, lastIndex) == ExecKeys(m, s, 0)
  }

  lemma ExecKeysStep(m: Matcher, s: string, from: nat, j: nat, k: nat, seen: seq<string>, seen': seq<string>)
    requires from <= |s| && NextMatch(m, s, from) == Some(j) && k == MatchAt(m, s[j..])
    requires Collected(m, s, seen, from) && seen' == seen + [HitKey(s[j..j + k])]
    ensures Collected(m, s, seen', j + k)
  {
    SeqAssoc(seen, [HitKey(s[j..j + k])], ExecKeys(m, s, j + k));
  }

  /** `if (!variables.includes(key)) variables.push(key)` deduplicates one more key. */
  lemma PushStep(seen: seq<string>, variables: seq<string>, key: string, variables': seq<string>, seen': seq<string>)
    requires variables == Dedup(seen) && seen' == seen + [key]
    requires variables' == if key in variables then variables else variables + [key]
    ensures variables' == Dedup(seen')
  {
    DedupMembers(seen);
    DedupSnoc(seen, key);
  }

  lemma DedupSnoc<T>(s: seq<T>, x: T)
    ensures Dedup(s + [x]) == Dedup(s) + (if x in s then [] else [x])
  {
    assert (s + [x])[..|s|] == s;
  }

  /** Deduplication keeps exactly the elements of its input. */
  lemma {:induction false} DedupMembers<T>(s: seq<T>)
    ensures forall x :: x in Dedup(s) <==> x in s
    decreases |s|
  {
    if s != [] {
      var init := s[..|s| - 1];
      DedupMembers(init);
      assert s == init + [s[|s| - 1]];
    }
  }

  /** No variable is listed twice. */
  lemma {:induction false} DedupDistinct<T>(s: seq<T>)
    ensures Distinct(Dedup(s))
    decreases |s|
  {
    if s != [] {
      var init := s[..|s| - 1];
      DedupDistinct(init);
      DedupMembers(init);
    }
  }

  lemma FirstIndexInPrefix<T>(s: seq<T>, x: T)
    requires s != [] && x in s[..|s| - 1]
    ensures IndexOf(s, x).Some? && IndexOf(s[..|s| - 1], x) == IndexOf(s, x)
  {
    var p := IndexOf(s[..|s| - 1], x).value;
    assert s[..|s| - 1][..p] == s[..p];
  }

  /** `x` occurs in `s` before `y` first does. */
  predicate Earlier<T(==)>(s: seq<T>, x: T, y: T) {
    IndexOf(s, x).Some? && IndexOf(s, y).Some? && IndexOf(s, x).value < IndexOf(s, y).value
  }

  /** The variables appear in the order of their first occurrence. */
  lemma DedupOrder<T>(s: seq<T>)
    ensures forall i, j :: 0 <= i < j < |Dedup(s)| ==> Earlier(s, Dedup(s)[i], Dedup(s)[j])
  {
    forall i, j | 0 <= i < j < |Dedup(s)|
      ensures Earlier(s, Dedup(s)[i], Dedup(s)[j])
    {
      DedupOrderAt(s, i, j);
    }
  }

  lemma {:induction false} DedupOrderAt<T>(s: seq<T>, i: nat, j: nat)
    requires i < j < |Dedup(s)|
    ensures Earlier(s, Dedup(s)[i], Dedup(s)[j])
    decreases |s|
  {
    var init := s[..|s| - 1];
    var last := s[|s| - 1];
    var d := Dedup(init);
    var r := Dedup(s);
    assert r == d + (if last in init then [] else [last]);
    assert r[i] == d[i];
    DedupElem(init, i);
    FirstIndexInPrefix(s, r[i]);
    if j < |d| {
      assert r[j] == d[j];
      DedupElem(init, j);
      FirstIndexInPrefix(s, r[j]);
      DedupOrderAt(init, i, j);
    } else {
      assert r[j] == last && last !in init;
      LastNewIndex(s);
    }
  }

  lemma DedupElem<T>(s: seq<T>, i: nat)
    requires i < |Dedup(s)|
    ensures Dedup(s)[i] in s
  {
    DedupMembers(s);
    assert Dedup(s)[i] in Dedup(s);
  }

  lemma LastNewIndex<T>(s: seq<T>)
    requires s != [] && s[|s| - 1] !in s[..|s| - 1]
    ensures IndexOf(s, s[|s| - 1]) == Some(|s| - 1)
  {
  }

  // What the variable scan relies on about the `{{key}}` matcher.

  /** Every match is a placeholder. */
  ghost predicate MatchesAreVars(m: Matcher) {
    forall t :: MatchAt(m, t) > 0 ==> IsVar(t[..MatchAt(m, t)])
  }

  /** A placeholder is matched whole, whatever follows it. */
  ghost predicate MatchesWhole(m: Matcher) {
    forall key, rest :: IsKey(key) ==> MatchAt(m, Placeholder(key) + rest) == |key| + 4
  }

  /** No `{{` starts strictly inside a match. */
  ghost predicate NoOpenInMatches(m: Matcher) {
    forall t, d :: 0 < d < MatchAt(m, t) ==> !StartsWith(t[d..], "{{")
  }

  lemma VarMatchShape()
    ensures MatchesAreVars(VarMatch) && MatchesWhole(VarMatch) && NoOpenInMatches(VarMatch)
  {
    forall t
      ensures MatchAt(VarMatch, t) > 0 ==> IsVar(t[..MatchAt(VarMatch, t)])
    {
      VarMatchIsVar(t);
    }
    forall key, rest | IsKey(key)
      ensures MatchAt(VarMatch, Placeholder(key) + rest) == |key| + 4
    {
      VarMatchOfPlaceholder(key, rest);
    }
    forall t, d | 0 < d < MatchAt(VarMatch, t)
      ensures !StartsWith(t[d..], "{{")
    {
      NoOpenInside(t, d);
    }
  }

  /** No `{{` starts strictly inside a `{{key}}` match. */
  lemma NoOpenInside(t: string, d: nat)
    requires 0 < d < MatchAt(VarMatch, t)
    ensures !StartsWith(t[d..], "{{")
  {
    var n := Run(t[2..], IsWordChar);
    assert t[2 + n..][..2] == "}}";
    if d == 1 {
      assert t[2] == t[2..][0];
      assert t[d..][1] == t[2];
    } else if d < 2 + n {
      assert t[d] == t[2..][d - 2];
      assert t[d..][0] == t[d];
    } else {
      assert t[d] == t[2 + n..][d - 2 - n];
      assert t[d..][0] == t[d];
    }
  }

  /** Every key of `keys` is a word-character key written as a placeholder in `s`. */
  ghost predicate AllWritten(keys: seq<string>, s: string) {
    forall x :: x in keys ==> IsKey(x) && Contains(s, Placeholder(x))
  }

  /** Every captured key is a word-character key written as `{{key}}` in the content. */
  lemma {:induction false} ExecKeysOccur(m: Matcher, s: string, from: nat)
    requires from <= |s| && MatchesAreVars(m)
    ensures AllWritten(ExecKeys(m, s, from), s)
    decreases |s| - from
  {
    match NextMatch(m, s, from)
    case None =>
    case Some(j) =>
      var k := MatchAt(m, s[j..]);
      assert IsVar(s[j..][..k]);
      assert s[j..][..k] == s[j..j + k];
      KeyOccurs(s, j, k);
      ExecKeysOccur(m, s, j + k);
      ExecKeysCons(m, s, from, j, k);
      AllWrittenCons(HitKey(s[j..j + k]), ExecKeys(m, s, j + k), s);
  }

  lemma ExecKeysCons(m: Matcher, s: string, from: nat, j: nat, k: nat)
    requires from <= |s| && NextMatch(m, s, from) == Some(j) && k == MatchAt(m, s[j..])
    ensures j + k <= |s| && ExecKeys(m, s, from) == [HitKey(s[j..j + k])] + ExecKeys(m, s, j + k)
  {
  }

  /** The key of a placeholder at `j` is written as a placeholder in the text. */
  lemma KeyOccurs(s: string, j: nat, k: nat)
    requires j + k <= |s| && IsVar(s[j..j + k])
    ensures IsKey(HitKey(s[j..j + k])) && Contains(s, Placeholder(HitKey(s[j..j + k])))
  {
    PlaceholderOfVar(s[j..j + k]);
    ContainsAt(s, Placeholder(HitKey(s[j..j + k])), j);
  }

  lemma AllWrittenCons(h: string, rest: seq<string>, s: string)
    requires IsKey(h) && Contains(s, Placeholder(h)) && AllWritten(rest, s)
    ensures AllWritten([h] + rest, s)
  {
  }

  /** A match starting at `j` is reached by the loop started at or before
      `j` when no earlier match runs past `j`. */
  lemma {:induction false} ExecKeysReach(m: Matcher, s: string, from: nat, j: nat, k: nat)
    requires from <= j < |s| && k == MatchAt(m, s[j..]) > 0
    requires NoneRunsPast(m, s, from, j)
    ensures j + k <= |s| && HitKey(s[j..j + k]) in ExecKeys(m, s, from)
    decreases |s| - from
  {
    NextMatchLeftmost(m, s, from);
    var i := NextMatch(m, s, from).value;
    var n := MatchAt(m, s[i..]);
    ExecKeysCons(m, s, from, i, n);
    if i < j {
      ExecKeysReach(m, s, i + n, j, k);
    }
  }

  /** No match that starts in `[from, j)` runs past `j`. */
  ghost predicate NoneRunsPast(m: Matcher, s: string, from: nat, j: nat) {
    j <= |s| && forall i :: from <= i < j && MatchAt(m, s[i..]) > 0 ==> i + MatchAt(m, s[i..]) <= j
  }

  /** A placeholder written at `j` is matched whole. */
  lemma PlaceholderAt(m: Matcher, s: string, j: nat, key: string)
    requires MatchesWhole(m)
    requires IsKey(key) && j + |Placeholder(key)| <= |s| && s[j..j + |Placeholder(key)|] == Placeholder(key)
    ensures MatchAt(m, s[j..]) == |Placeholder(key)| && HitKey(s[j..j + |Placeholder(key)|]) == key
    ensures StartsWith(s[j..], "{{")
  {
    var p := Placeholder(key);
    assert s[j..][..2] == p[..2];
    assert s[j..] == p + s[j + |p|..];
    assert MatchAt(m, p + s[j + |p|..]) == |key| + 4;
  }

  /** A match cannot run into a `{{` that follows its start. */
  lemma NoMatchRunsInto(m: Matcher, s: string, i: nat, j: nat)
    requires NoOpenInMatches(m) && i < j <= |s| && StartsWith(s[j..], "{{")
    ensures MatchAt(m, s[i..]) <= j - i
  {
    assert s[i..][j - i..] == s[j..];
  }

  /** No match before a `{{` runs past it. */
  lemma NoneRunsPastOpen(m: Matcher, s: string, j: nat)
    requires NoOpenInMatches(m) && j <= |s| && StartsWith(s[j..], "{{")
    ensures NoneRunsPast(m, s, 0, j)
  {
    forall i | 0 <= i < j && MatchAt(m, s[i..]) > 0
      ensures i + MatchAt(m, s[i..]) <= j
    {
      NoMatchRunsInto(m, s, i, j);
    }
  }

  /** Every captured key, deduplicated, is written as a placeholder. */
  lemma KeysWritten(m: Matcher, content: string)
    requires MatchesAreVars(m)
    ensures forall x :: x in Dedup(ExecKeys(m, content, 0)) ==> IsKey(x) && Contains(content, Placeholder(x))
  {
    var keys := ExecKeys(m, content, 0);
    DedupMembers(keys);
    ExecKeysOccur(m, content, 0);
    assert AllWritten(keys, content);
  }

  /** The key of a placeholder written at `j` is captured. */
  lemma KeyAt(m: Matcher, content: string, j: nat, key: string)
    requires MatchesWhole(m) && NoneRunsPast(m, content, 0, j)
    requires IsKey(key) && j + |Placeholder(key)| <= |content| && content[j..j + |Placeholder(key)|] == Placeholder(key)
    ensures key in ExecKeys(m, content, 0)
  {
    PlaceholderAt(m, content, j, key);
    FoundAt(m, content, j, |Placeholder(key)|, key);
  }

  lemma FoundAt(m: Matcher, s: string, j: nat, k: nat, key: string)
    requires j < |s| && k == MatchAt(m, s[j..]) > 0 && NoneRunsPast(m, s, 0, j)
    requires j + k <= |s| && HitKey(s[j..j + k]) == key
    ensures key in ExecKeys(m, s, 0)
  {
    ExecKeysReach(m, s, 0, j, k);
  }

  /** Every key written as a placeholder is captured. */
  lemma WrittenKeysFound(m: Matcher, content: string)
    requires MatchesWhole(m) && NoOpenInMatches(m)
    ensures forall x :: IsKey(x) && Contains(content, Placeholder(x)) ==> x in Dedup(ExecKeys(m, content, 0))
  {
    DedupMembers(ExecKeys(m, content, 0));
    forall x | IsKey(x) && Contains(content, Placeholder(x))
      ensures x in ExecKeys(m, content, 0)
    {
      var j := ContainsWitness(content, Placeholder(x));
      PlaceholderAt(m, content, j, x);
      NoneRunsPastOpen(m, content, j);
      KeyAt(m, content, j, x);
    }
  }

  /** The keys a `{{key}}`-shaped matcher captures, deduplicated, are
      exactly the keys written as placeholders in the content, each once. */
  lemma KeysOfContent(m: Matcher, content: string)
    requires MatchesAreVars(m) && MatchesWhole(m) && NoOpenInMatches(m)
    ensures forall x :: x in Dedup(ExecKeys(m, content, 0)) <==> IsKey(x) && Contains(content, Placeholder(x))
    ensures Distinct(Dedup(ExecKeys(m, content, 0)))
  {
    DedupDistinct(ExecKeys(m, content, 0));
    KeysWritten(m, content);
    WrittenKeysFound(m, content);
  }

  /** `analyzePrompt`'s variables are exactly the keys written as `{{key}}`
      (word characters only) in the content, each once; `DedupOrder` gives
      their order of first occurrence. */
  lemma VariablesOfContent(content: string)
    ensures forall x :: x in Dedup(ExecKeys(VarMatch, content, 0)) <==> IsKey(x) && Contains(content, Placeholder(x))
    ensures Distinct(Dedup(ExecKeys(VarMatch, content, 0)))
  {
    VarMatchShape();
    KeysOfContent(VarMatch, content);
  }

  // The model's answer

  /** The matcher of `/\{[\s\S]*\}/`: a `{` and, greedily, everything up to the last `}`. */
  function BraceSpanMatch(t: string): nat {
    if t != [] && t[0] == '{' then
      match LastIndexOf(t[1..], '}')
      case Some(j) => j + 2
      case None => 0
    else 0
  }

  /** `text.match(/\{[\s\S]*\}/)?.[0] || text` for a string `text`. */
  function JsonCandidate(text: string): string {
    match NextMatch(BraceSpanMatch, text, 0)
    case Some(i) => text[i..i + MatchAt(BraceSpanMatch, text[i..])]
    case None => text
  }

  lemma LastIndexOfIs<T>(s: seq<T>, x: T, p: nat)
    requires p < |s| && s[p] == x && forall k :: p < k < |s| ==> s[k] != x
    ensures LastIndexOf(s, x) == Some(p)
  {
  }

  /** The text from the first `{` to the last `}` when that `}` comes after
      the `{`; otherwise the whole text. */
  function BraceSpan(text: string): string {
    var i, j := IndexOf(text, '{'), LastIndexOf(text, '}');
    if i.Some? && j.Some? && i.value < j.value then text[i.value..j.value + 1] else text
  }

  /** The regular-expression candidate is that brace span. */
  lemma JsonCandidateSpan(text: string)
    ensures JsonCandidate(text) == BraceSpan(text)
  {
    var i, j := IndexOf(text, '{'), LastIndexOf(text, '}');
    if i.Some? && j.Some? && i.value < j.value {
      CandidateSpan(text, i.value, j.value);
    } else {
      CandidateWhole(text);
    }
  }

  lemma CandidateSpan(text: string, a: nat, b: nat)
    requires IndexOf(text, '{') == Some(a) && LastIndexOf(text, '}') == Some(b) && a < b
    ensures JsonCandidate(text) == text[a..b + 1]
  {
    SpanAt(text, a, b);
    NoSpanBefore(text, a);
    NextMatchAt(BraceSpanMatch, text, 0, a);
  }

  lemma NoSpanBefore(text: string, a: nat)
    requires IndexOf(text, '{') == Some(a)
    ensures forall p :: 0 <= p < a ==> MatchAt(BraceSpanMatch, text[p..]) == 0
  {
    forall p | 0 <= p < a
      ensures MatchAt(BraceSpanMatch, text[p..]) == 0
    {
      assert text[p] == text[..a][p];
    }
  }

  lemma SpanAt(text: string, a: nat, b: nat)
    requires a < b < |text| && text[a] == '{' && LastIndexOf(text, '}') == Some(b)
    ensures MatchAt(BraceSpanMatch, text[a..]) == b - a + 1
  {
    assert text[a..][1..] == text[a + 1..];
    LastIndexOfIs(text[a + 1..], '}', b - a - 1);
  }

  lemma CandidateWhole(text: string)
    requires var i, j := IndexOf(text, '{'), LastIndexOf(text, '}');
             !(i.Some? && j.Some? && i.value < j.value)
    ensures JsonCandidate(text) == text
  {
    forall p | 0 <= p < |text|
      ensures MatchAt(BraceSpanMatch, text[p..]) == 0
    {
      if text[p] == '{' {
        assert text[p] in text;
        assert text[p..][1..] == text[p + 1..];
      }
    }
    NextMatchNone(BraceSpanMatch, text, 0);
  }

  const FormatError := "AI 返回格式错误，请重试"

  /** The inner `try` of `analyzePrompt`: the candidate of a string answer
      parsed by `parse` (`JSON.parse`); any failure, including an answer that
      is no string, becomes the format error. */
  function ParseAnswer(text: Json, parse: string -> Result<Json>): (r: Result<Json>)
    ensures r.Err? ==> r.error == FormatError
    ensures r.Ok? <==> text.JStr? && parse(JsonCandidate(text.s)).Ok?
    ensures r.Ok? ==> r == parse(JsonCandidate(text.s))
  {
    if !text.JStr? then Err(FormatError)
    else
      match parse(JsonCandidate(text.s))
      case Ok(data) => Ok(data)
      case Err(_) => Err(FormatError)
  }

  /** `activeTemplate?.linkedSkill?.name` */
  function LinkedName(template: Dict<string, Json>): Option<Json> {
    match Lookup(template, "linkedSkill")
    case None => None
    case Some(v) => if v.JNull? then None else Property(v, "name")
  }

  predicate Set(v: Option<Json>) {
    v.Some? && JsTruthy(v.value)
  }

  /** `activeTemplate?.linkedSkill?.name || data.name || 'new-skill'` for data that is not `null`. */
  function SkillNameFor(linked: Option<Json>, data: Json): Json {
    if Set(linked) then linked.value
    else if Set(Property(data, "name")) then Property(data, "name").value
    else JStr("new-skill")
  }

  /** The skill name is never falsy: the linked skill's name wins, the
      model's name comes next, and `new-skill` is the last resort. */
  lemma SkillNameChosen(linked: Option<Json>, data: Json)
    ensures JsTruthy(SkillNameFor(linked, data))
    ensures Set(linked) ==> SkillNameFor(linked, data) == linked.value
    ensures !Set(linked) && Set(Property(data, "name")) ==> SkillNameFor(linked, data) == Property(data, "name").value
    ensures !Set(linked) && !Set(Property(data, "name")) ==> SkillNameFor(linked, data) == JStr("new-skill")
  {
  }

  /** `data.code || ''` */
  function CodeFor(data: Json): (r: Json)
    ensures JsTruthy(r) || r == JStr("")
    ensures Set(Property(data, "code")) ==> r == Property(data, "code").value
  {
    var c := Property(data, "code");
    if Set(c) then c.value else JStr("")
  }

  /** `err.message || fallback` */
  function MessageOr(message: string, fallback: string): (r: string)
    ensures r != [] || fallback == []
    ensures message != [] ==> r == message
  {
    if message != [] then message else fallback
  }

  const AnalyzeFallback := "分析提示词失败"
  const SaveFallback := "保存技能失败"
  const RejectedFallback := "保存失败"

  // Saving

  /** `setting || ''` for `llmSettings.<name>`; reading a property of an
      absent or `null` settings object throws. */
  function EnvEntry(settings: Option<Json>, name: string): (r: Result<Json>)
    ensures r.Err? <==> settings.None? || settings.value.JNull?
    ensures r.Ok? ==> JsTruthy(r.value) || r.value == JStr("")
  {
    if settings.None? then Err("Cannot read properties of undefined (reading '" + name + "')")
    else if settings.value.JNull? then Err("Cannot read properties of null (reading '" + name + "')")
    else
      var v := Property(settings.value, name);
      Ok(if Set(v) then v.value else JStr(""))
  }

  /** The body `handleSave` posts: the name, the code and the settings the
      skill runs with. */
  function SaveBody(name: Json, code: Json, settings: Option<Json>): Result<Json> {
    match EnvEntry(settings, "apiKey")
    case Err(e) => Err(e)
    case Ok(key) =>
      match EnvEntry(settings, "endpoint")
      case Err(e) => Err(e)
      case Ok(endpoint) =>
        match EnvEntry(settings, "model")
        case Err(e) => Err(e)
        case Ok(model) =>
          Ok(JObj([("name", name), ("code", code),
                   ("env", JObj([("LLM_API_KEY", key), ("LLM_ENDPOINT", endpoint), ("LLM_MODEL", model)]))]))
  }

  /** The posted body carries the settings, with `''` for each one missing. */
  lemma SaveBodyEnv(name: Json, code: Json, settings: Json)
    requires !settings.JNull?
    ensures SaveBody(name, code, Some(settings)).Ok?
    ensures var b := SaveBody(name, code, Some(settings)).value;
            Property(b, "name") == Some(name) && Property(b, "code") == Some(code) &&
            Property(b, "env") == Some(JObj([("LLM_API_KEY", EnvEntry(Some(settings), "apiKey").value),
                                             ("LLM_ENDPOINT", EnvEntry(Some(settings), "endpoint").value),
                                             ("LLM_MODEL", EnvEntry(Some(settings), "model").value)]))
  {
    var b := SaveBody(name, code, Some(settings)).value;
    assert Lookup(b.fields[1..], "code") == Some(code);
    assert Lookup(b.fields[2..], "env") == Some(b.fields[2].1);
    assert Lookup(b.fields[1..], "env") == Lookup(b.fields[2..], "env");
  }

  /** What `fetch` resolves to: `response.ok` and what `response.json()` gives. */
  datatype SaveResponse = SaveResponse(ok: bool, json: Result<Json>)

  /** The message thrown for a response that is not ok: `errData.detail || '保存失败'`. */
  function Rejection(json: Result<Json>): (r: string)
    ensures json.Ok? && json.value.JNull? ==> r == "Cannot read properties of null (reading 'detail')"
    ensures json.Ok? && !json.value.JNull? && !Set(Property(json.value, "detail")) ==> r == RejectedFallback
  {
    match json
    case Err(e) => e
    case Ok(data) =>
      if data.JNull? then "Cannot read properties of null (reading 'detail')"
      else
        var d := Property(data, "detail");
        if Set(d) then JsString(d.value) else RejectedFallback
  }

  /** The argument `hashCode` sees, or the error it throws: a string is hashed;
      a non-empty list, or an object whose `length` is a positive number or
      `true` (which compares as 1), enters the loop and has no `charCodeAt`;
      anything else has no length to iterate over and hashes like the empty
      string. */
  function HashArgument(v: Json): Result<Option<string>> {
    match v
    case JStr(s) => Ok(Some(s))
    case JArr(items) => if items == [] then Ok(None) else Err("str.charCodeAt is not a function")
    case JObj(fields) =>
      var length := Lookup(fields, "length");
      if length.Some? && ((length.value.JNum? && length.value.n > 0) || length.value == JBool(true)) then
        Err("str.charCodeAt is not a function")
      else Ok(None)
    case _ => Ok(None)
  }

  /** The hash reported for the template's content. */
  function ContentHash(template: Dict<string, Json>, language: string): Result<string> {
    match HashArgument(GetLocalized(Lookup(template, "content"), language))
    case Err(e) => Err(e)
    case Ok(None) => Ok("0")
    case Ok(Some(s)) => Ok(if s == [] then "0" else IntToString(Fold(Utf16(s))))
  }

  /** The steps of the dialog (`'error'` is `Failed`). */
  datatype ModalStep = Analyzing | Preview | Saving | Success | Failed

  /** The dialog's state hooks. */
  class SkillModal {
    var step: ModalStep
    var skillData: Json
    var skillName: Json
    var editedCode: Json
    var errorMessage: string

    constructor ()
      ensures step == Analyzing && skillData == JNull && skillName == JStr("") && editedCode == JStr("")
      ensures errorMessage == ""
    {
      step := Analyzing;
      skillData := JNull;
      skillName := JStr("");
      editedCode := JStr("");
      errorMessage := "";
    }

    /** `analyzePrompt()`: `ask(title, content, variables)` stands for the
        `invokeLlm` call with the prompt built from them, resolving to the
        answer's `text` or rejecting with a message. The dialog ends in
        `Preview` with the parsed skill exactly when the answer parses to a
        value other than `null`, and in `Failed` with a message otherwise. */
    method AnalyzePrompt(template: Dict<string, Json>, language: string,
                         ask: (Json, Json, seq<string>) -> Result<Json>, parse: string -> Result<Json>)
      modifies this
      ensures var content := GetLocalized(Lookup(template, "content"), language);
              var title := GetLocalized(Lookup(template, "name"), language);
              var answer := ask(title, content, Dedup(ExecKeys(VarMatch, JsString(content), 0)));
              var data := if answer.Ok? then ParseAnswer(answer.value, parse) else Err("");
              && (step == Preview <==> answer.Ok? && data.Ok? && !data.value.JNull?)
              && (step == Preview ==>
                    skillData == data.value && skillName == SkillNameFor(LinkedName(template), data.value) &&
                    editedCode == CodeFor(data.value) && errorMessage == old(errorMessage))
              && (step != Preview ==> step == Failed && editedCode == old(editedCode))
              && (answer.Err? ==>
                    errorMessage == MessageOr(answer.error, AnalyzeFallback) &&
                    skillData == old(skillData) && skillName == old(skillName))
              && (answer.Ok? && data.Err? ==>
                    errorMessage == FormatError && skillData == old(skillData) && skillName == old(skillName))
              && (answer.Ok? && data.Ok? && data.value.JNull? ==>
                    skillData == JNull &&
                    (Set(LinkedName(template)) ==>
                       skillName == LinkedName(template).value &&
                       errorMessage == "Cannot read properties of null (reading 'code')") &&
                    (!Set(LinkedName(template)) ==>
                       skillName == old(skillName) &&
                       errorMessage == "Cannot read properties of null (reading 'name')"))
    {
      step := Analyzing;
      var content := GetLocalized(Lookup(template, "content"), language);
      var title := GetLocalized(Lookup(template, "name"), language);
      var variables := ExtractVariables(JsString(content));
      var answer := ask(title, content, variables);
      if answer.Err? {
        errorMessage := MessageOr(answer.error, AnalyzeFallback);
        step := Failed;
        return;
      }
      var parsed := ParseAnswer(answer.value, parse);
      if parsed.Err? {
        errorMessage := MessageOr(parsed.error, AnalyzeFallback);
        step := Failed;
        return;
      }
      var data := parsed.value;
      skillData := data;
      var linked := LinkedName(template);
      if data.JNull? {
        if Set(linked) {
          skillName := linked.value;
          errorMessage := "Cannot read properties of null (reading 'code')";
        } else {
          errorMessage := "Cannot read properties of null (reading 'name')";
        }
        step := Failed;
        return;
      }
      skillName := SkillNameFor(linked, data);
      editedCode := CodeFor(data);
      step := Preview;
    }

    /** The name field of the preview. */
    method EditName(value: string)
      modifies this
      ensures skillName == JStr(value)
      ensures step == old(step) && skillData == old(skillData) && editedCode == old(editedCode)
      ensures errorMessage == old(errorMessage)
    {
      skillName := JStr(value);
    }

    /** The code field of the preview. */
    method EditCode(value: string)
      modifies this
      ensures editedCode == JStr(value)
      ensures step == old(step) && skillData == old(skillData) && skillName == old(skillName)
      ensures errorMessage == old(errorMessage)
    {
      editedCode := JStr(value);
    }

    /** `handleSave()`: `post` is the `fetch` of the skill route, rejecting
        with a message or resolving to the response; `onSuccess` is the
        caller's callback, returning the message of what it throws.
        `notified` is the call made to it, if any. The dialog reaches
        `Success` only when the gateway accepted the skill and the callback,
        told the current name and the content's hash, returned normally. */
    method HandleSave(settings: Option<Json>, template: Dict<string, Json>, language: string,
                      post: Json -> Result<SaveResponse>, onSuccess: (Json, string) -> Option<string>)
      returns (notified: Option<(Json, string)>)
      modifies this
      ensures skillData == old(skillData) && skillName == old(skillName) && editedCode == old(editedCode)
      ensures step == Success || step == Failed
      ensures var body := SaveBody(old(skillName), old(editedCode), settings);
              var accepted := body.Ok? && post(body.value).Ok? && post(body.value).value.ok;
              && (notified.Some? <==> accepted && ContentHash(template, language).Ok?)
              && (notified.Some? ==> notified.value == (old(skillName), ContentHash(template, language).value))
              && (step == Success <==> notified.Some? && onSuccess(notified.value.0, notified.value.1).None?)
              && (step == Success ==> errorMessage == old(errorMessage))
              && (body.Err? ==> errorMessage == MessageOr(body.error, SaveFallback))
              && (body.Ok? && post(body.value).Err? ==> errorMessage == MessageOr(post(body.value).error, SaveFallback))
              && (body.Ok? && post(body.value).Ok? && !post(body.value).value.ok ==>
                    errorMessage == MessageOr(Rejection(post(body.value).value.json), SaveFallback))
              && (accepted && ContentHash(template, language).Err? ==>
                    errorMessage == MessageOr(ContentHash(template, language).error, SaveFallback))
              && (notified.Some? && step == Failed ==>
                    errorMessage == MessageOr(onSuccess(notified.value.0, notified.value.1).value, SaveFallback))
    {
      step := Saving;
      notified := None;
      var body := SaveBody(skillName, editedCode, settings);
      if body.Err? {
        errorMessage := MessageOr(body.error, SaveFallback);
        step := Failed;
        return;
      }
      var response := post(body.value);
      if response.Err? {
        errorMessage := MessageOr(response.error, SaveFallback);
        step := Failed;
        return;
      }
      if !response.value.ok {
        errorMessage := MessageOr(Rejection(response.value.json), SaveFallback);
        step := Failed;
        return;
      }
      var argument := HashArgument(GetLocalized(Lookup(template, "content"), language));
      if argument.Err? {
        errorMessage := MessageOr(argument.error, SaveFallback);
        step := Failed;
        return;
      }
      var currentHash := HashCode(argument.value);
      notified := Some((skillName, currentHash));
      var thrown := onSuccess(skillName, currentHash);
      if thrown.Some? {
        errorMessage := MessageOr(thrown.value, SaveFallback);
        step := Failed;
        return;
      }
      step := Success;
    }
  }
}
