/** The highlighting backdrop of the template editor
    (`prompt_fill/src/components/VisualEditor.jsx`): the text is split
    around its `{{...}}` placeholders, and each placeholder shows either
    its raw text or the option chosen for it. Styles and click handlers are
    not part of this model. */
module VisualEditor {
  import opened Wrappers
  import opened Text
  import opened Dicts
  import opened JsonValues
  import opened Scanner
  import opened Placeholders
  import opened Helpers
  import opened Selections

  /** `part.startsWith('{{') && part.endsWith('}}')` */
  predicate IsVariablePart(part: string) {
    StartsWith(part, "{{") && EndsWith(part, "}}")
  }

  /** `part.slice(2, -2)` */
  function Inner(part: string): string {
    if |part| >= 4 then part[2..|part| - 2] else ""
  }

  /** What the editor needs besides the text. */
  datatype Context = Context(banks: Dict<string, Json>, isEditing: bool, activeTemplate: Dict<string, Json>,
                             defaults: Dict<string, Json>, language: string)

  /** One rendered part: plain text, or a placeholder with its trimmed key
      and the value it shows. Both keep the part's raw text. */
  datatype Segment =
    | Plain(raw: string)
    | Variable(raw: string, key: string, shown: Json)

  /** `renderHighlights(text)`: no highlights at all (`null`), the
      segments, or the `TypeError` that stops the rendering. */
  datatype Rendered =
    | NoHighlights
    | Segments(segments: seq<Segment>)
    | Throws(error: string)

  /** `text.split(/(\{\{[^{}\n]+\}\})/g)` */
  function Parts(text: string): seq<string> {
    SplitParts(Scan(text, HighlightMatch))
  }

  /** `banks[key]`, when truthy. */
  predicate HasBank(banks: Dict<string, Json>, key: string) {
    Lookup(banks, key).Some? && JsTruthy(Lookup(banks, key).value)
  }

  /** `activeTemplate.selections?.[`${activeTemplate.id}-${key}`]`; only an
      object has such a property. */
  function SelectionIndex(template: Dict<string, Json>, key: string): Option<Json> {
    var selections := Lookup(template, "selections");
    if selections.Some? && selections.value.JObj? then Lookup(selections.value.fields, IdText(template) + "-" + key)
    else None
  }

  /** `getLocalized(bank.options[index], language)`: reading an element of
      missing or `null` options throws. */
  function OptionValue(bank: Json, index: Json, language: string): (r: Result<Json>)
    ensures r.Err? <==> !bank.JObj? || Lookup(bank.fields, "options").None? || Lookup(bank.fields, "options").value.JNull?
  {
    var options := if bank.JObj? then Lookup(bank.fields, "options") else None;
    if options.None? then Err("Cannot read properties of undefined (reading '" + JsString(index) + "')")
    else if options.value.JNull? then Err("Cannot read properties of null (reading '" + JsString(index) + "')")
    else Ok(GetLocalized(Property(options.value, JsString(index)), language))
  }

  /** The value a placeholder part shows. */
  function ShownValue(part: string, key: string, ctx: Context): (r: Result<Json>)
    ensures ctx.isEditing || !HasBank(ctx.banks, key) ==> r == Ok(JStr(part))
  {
    if ctx.isEditing then Ok(JStr(part))
    else
      var bank := Lookup(ctx.banks, key);
      var selectionIndex := SelectionIndex(ctx.activeTemplate, key);
      if selectionIndex.Some? && HasBank(ctx.banks, key) then OptionValue(bank.value, selectionIndex.value, ctx.language)
      else
        var defaultIndex := Lookup(ctx.defaults, key);
        if defaultIndex.Some? && HasBank(ctx.banks, key) then OptionValue(bank.value, defaultIndex.value, ctx.language)
        else Ok(JStr(part))
  }

  /** A recorded selection wins over the defaults: whatever the defaults
      are, the part shows the option the selection names. */
  lemma SelectionTakesPrecedence(part: string, key: string, ctx: Context, otherDefaults: Dict<string, Json>)
    requires !ctx.isEditing && HasBank(ctx.banks, key) && SelectionIndex(ctx.activeTemplate, key).Some?
    ensures ShownValue(part, key, ctx) ==
            OptionValue(Lookup(ctx.banks, key).value, SelectionIndex(ctx.activeTemplate, key).value, ctx.language)
    ensures ShownValue(part, key, ctx) == ShownValue(part, key, ctx.(defaults := otherDefaults))
  {
  }

  /** Without a selection the default index decides, and without either
      the raw part is shown. */
  lemma DefaultWithoutSelection(part: string, key: string, ctx: Context)
    requires !ctx.isEditing && HasBank(ctx.banks, key) && SelectionIndex(ctx.activeTemplate, key).None?
    ensures Lookup(ctx.defaults, key).Some? ==>
              ShownValue(part, key, ctx) == OptionValue(Lookup(ctx.banks, key).value, Lookup(ctx.defaults, key).value, ctx.language)
    ensures Lookup(ctx.defaults, key).None? ==> ShownValue(part, key, ctx) == Ok(JStr(part))
  {
  }

  /** One part of the split. */
  function RenderPart(part: string, ctx: Context): (r: Result<Segment>)
    ensures r.Ok? ==> r.value.raw == part
    ensures r.Ok? && r.value.Variable? ==> IsVariablePart(part) && r.value.key == Trim(Inner(part))
    ensures !IsVariablePart(part) ==> r == Ok(Plain(part))
    ensures IsVariablePart(part) && r.Ok? ==> r.value.Variable?
  {
    if IsVariablePart(part) then
      var key := Trim(Inner(part));
      match ShownValue(part, key, ctx)
      case Ok(shown) => Ok(Variable(part, key, shown))
      case Err(e) => Err(e)
    else Ok(Plain(part))
  }

  /** `parts.map(...)`: every part rendered in order, or the first error. */
  function RenderParts(parts: seq<string>, ctx: Context): (r: Rendered)
    ensures !r.NoHighlights?
    ensures r.Segments? ==> |r.segments| == |parts| && forall i :: 0 <= i < |parts| ==> r.segments[i].raw == parts[i]
    ensures r.Segments? <==> forall i :: 0 <= i < |parts| ==> RenderPart(parts[i], ctx).Ok?
  {
    if parts == [] then Segments([])
    else
      match RenderPart(parts[0], ctx)
      case Err(e) => Throws(e)
      case Ok(segment) =>
        var rest := RenderParts(parts[1..], ctx);
        if rest.Throws? then rest
        else
          assert forall i :: 1 <= i < |parts| ==> parts[i] == parts[1..][i - 1];
          Segments([segment] + rest.segments)
  }

  /** `renderHighlights(text)` */
  function RenderHighlights(text: Json, ctx: Context): (r: Rendered)
    ensures r.NoHighlights? <==> !text.JStr? || text.s == []
  {
    if !JsTruthy(text) || !text.JStr? then NoHighlights
    else RenderParts(Parts(text.s), ctx)
  }

  /** The raw texts of the segments, in order. */
  function RawTexts(segments: seq<Segment>): (r: seq<string>)
    ensures |r| == |segments| && forall i :: 0 <= i < |segments| ==> r[i] == segments[i].raw
  {
    if segments == [] then [] else [segments[0].raw] + RawTexts(segments[1..])
  }

  /** The split parts spell the text, and so do the rendered segments. */
  lemma PartsSpellText(text: string, ctx: Context)
    ensures Concat(Parts(text)) == text
    ensures RenderHighlights(JStr(text), ctx).Segments? ==>
              Concat(RawTexts(RenderHighlights(JStr(text), ctx).segments)) == text
  {
    SplitPartsConcat(Scan(text, HighlightMatch));
    ScanFlatten(text, HighlightMatch);
    var r := RenderHighlights(JStr(text), ctx);
    if r.Segments? {
      assert RawTexts(r.segments) == Parts(text);
    }
  }

  /** Every placeholder the expression finds is rendered as a placeholder. */
  lemma MatchesAreVariables(text: string, i: nat)
    requires i < |Parts(text)| && i % 2 == 1
    ensures IsVariablePart(Parts(text)[i])
  {
    SplitPartsHits(Scan(text, HighlightMatch), i);
    forall t | MatchAt(HighlightMatch, t) > 0
      ensures IsVariablePart(t[..MatchAt(HighlightMatch, t)])
    {
      var k := Run(t[2..], NotBraceOrNewline);
      var h := t[..k + 4];
      assert MatchAt(HighlightMatch, t) == k + 4;
      assert h[..2] == t[..2];
      assert h[|h| - 2..] == t[2 + k..][..2];
    }
    ScanHits(text, HighlightMatch, IsVariablePart);
  }

  /** While editing, rendering never throws and every placeholder shows its
      raw text. */
  lemma EditingShowsRaw(text: string, ctx: Context)
    requires ctx.isEditing && text != []
    ensures RenderHighlights(JStr(text), ctx).Segments?
    ensures forall s :: s in RenderHighlights(JStr(text), ctx).segments && s.Variable? ==> s.shown == JStr(s.raw)
  {
    EditingParts(Parts(text), ctx);
  }

  lemma {:induction false} EditingParts(parts: seq<string>, ctx: Context)
    requires ctx.isEditing
    ensures RenderParts(parts, ctx).Segments?
    ensures forall s :: s in RenderParts(parts, ctx).segments && s.Variable? ==> s.shown == JStr(s.raw)
  {
    if parts != [] {
      EditingParts(parts[1..], ctx);
      var rest := RenderParts(parts[1..], ctx);
      assert RenderPart(parts[0], ctx).Ok?;
      assert RenderParts(parts, ctx).segments == [RenderPart(parts[0], ctx).value] + rest.segments;
    }
  }
}
