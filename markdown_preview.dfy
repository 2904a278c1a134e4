/** The variable substitution of the Markdown preview
    (`prompt_fill/src/components/MarkdownPreview.jsx`): every `{{key}}`
    of the template text shows the option chosen for it, and stays as
    written when no choice is recorded. */
module MarkdownPreview {
  import opened Wrappers
  import opened Text
  import opened Dicts
  import opened Lists
  import opened JsonValues
  import opened Scanner
  import opened Placeholders
  import opened Selections

  /** The replacement for `{{key}}`: the option under the first selection
      key with the prefix `${id}-${key}-`, in insertion order, or the
      placeholder itself. */
  function PreviewValue(selections: Option<Dict<string, Json>>, banks: Dict<string, Json>, id: string,
                        language: string, key: string): (r: string)
    ensures selections.None? ==> r == Placeholder(key)
    ensures selections.Some? && SelectionKeys(selections.value, id, key) == [] ==> r == Placeholder(key)
  {
    if selections.None? then Placeholder(key)
    else
      var selectionKeys := SelectionKeys(selections.value, id, key);
      if selectionKeys == [] then Placeholder(key)
      else
        var selectionIndex := Lookup(selections.value, selectionKeys[0]);
        var option := if selectionIndex.Some? then OptionOf(banks, key, selectionIndex.value) else None;
        if option.None? then Placeholder(key) else OptionText(option.value, language)
  }

  /** The first entry whose key has the prefix decides: its option when the
      bank has one at its index, otherwise the placeholder. */
  lemma {:induction false} PreviewFirstSelection(selections: Dict<string, Json>, banks: Dict<string, Json>, id: string,
                                               language: string, key: string, i: nat)
    requires i < |selections| && StartsWith(selections[i].0, KeyPrefix(id, key))
    requires forall k :: 0 <= k < i ==> !StartsWith(selections[k].0, KeyPrefix(id, key))
    ensures OptionOf(banks, key, selections[i].1).Some? ==>
              PreviewValue(Some(selections), banks, id, language, key) ==
              OptionText(OptionOf(banks, key, selections[i].1).value, language)
    ensures OptionOf(banks, key, selections[i].1).None? ==>
              PreviewValue(Some(selections), banks, id, language, key) == Placeholder(key)
  {
    var prefix := KeyPrefix(id, key);
    var p := (sk: string) => StartsWith(sk, prefix);
    var keys := Keys(selections);
    forall k | 0 <= k < i
      ensures !p(keys[k])
    {
    }
    FilterFirst(keys, p, i);
    forall k | 0 <= k < i
      ensures selections[k].0 != selections[i].0
    {
    }
    LookupFirst(selections, i);
  }

  /** `processedContent`: "" for empty content, otherwise the content with
      every `{{key}}` replaced by the value for its key. */
  function ProcessedContent(content: string, activeTemplate: Option<Dict<string, Json>>, banks: Dict<string, Json>,
                            language: string): string
  {
    if content == [] then ""
    else
      var selections := if activeTemplate.Some? then SelectionsOf(activeTemplate.value) else None;
      var id := if activeTemplate.Some? then IdText(activeTemplate.value) else "undefined";
      Replace(Scan(content, VarMatch), h => PreviewValue(selections, banks, id, language, HitKey(h)))
  }

  /** The value the preview shows for `key`. */
  function ValueFor(activeTemplate: Option<Dict<string, Json>>, banks: Dict<string, Json>, language: string,
                    key: string): string
  {
    var selections := if activeTemplate.Some? then SelectionsOf(activeTemplate.value) else None;
    var id := if activeTemplate.Some? then IdText(activeTemplate.value) else "undefined";
    PreviewValue(selections, banks, id, language, key)
  }

  /** Without chosen options (no template, or one whose `selections` is
      falsy) the preview text is the content itself. */
  lemma NoSelectionsKeepsContent(content: string, activeTemplate: Option<Dict<string, Json>>,
                                 banks: Dict<string, Json>, language: string)
    requires activeTemplate.None? || SelectionsOf(activeTemplate.value).None?
    ensures ProcessedContent(content, activeTemplate, banks, language) == content
  {
    if content != [] {
      var id := if activeTemplate.Some? then IdText(activeTemplate.value) else "undefined";
      var f := h => PreviewValue(None, banks, id, language, HitKey(h));
      VarHitsAreVars(content);
      forall h | h in Hits(Scan(content, VarMatch))
        ensures f(h) == h
      {
        PlaceholderOfVar(h);
      }
      ReplaceFixes(Scan(content, VarMatch), f);
      ScanFlatten(content, VarMatch);
    }
  }

  /** Text without any `{{key}}` is shown as it is. */
  lemma NoVariablesKeepsContent(content: string, activeTemplate: Option<Dict<string, Json>>,
                                banks: Dict<string, Json>, language: string)
    requires forall j :: 0 <= j < |content| ==> MatchAt(VarMatch, content[j..]) == 0
    ensures ProcessedContent(content, activeTemplate, banks, language) == content
  {
    if content != [] {
      ScanNoMatchIn(content, VarMatch);
      var selections := if activeTemplate.Some? then SelectionsOf(activeTemplate.value) else None;
      var id := if activeTemplate.Some? then IdText(activeTemplate.value) else "undefined";
      ReplaceFixes(Scan(content, VarMatch), h => PreviewValue(selections, banks, id, language, HitKey(h)));
      ScanFlatten(content, VarMatch);
    }
  }

  /** A placeholder at the start is replaced by the value of its key, and
      the rest of the text is processed on its own: wherever `{{key}}`
      occurs, it shows the same value. */
  lemma PlaceholderThenRest(key: string, rest: string, activeTemplate: Option<Dict<string, Json>>,
                            banks: Dict<string, Json>, language: string)
    requires IsKey(key) && rest != []
    ensures ProcessedContent(Placeholder(key) + rest, activeTemplate, banks, language) ==
            ValueFor(activeTemplate, banks, language, key) + ProcessedContent(rest, activeTemplate, banks, language)
  {
    var t := Placeholder(key) + rest;
    VarMatchOfPlaceholder(key, rest);
    var k := |key| + 4;
    assert t[..k] == Placeholder(key) && t[k..] == rest;
    assert Scan(t, VarMatch) == [Hit(Placeholder(key))] + Scan(rest, VarMatch);
    assert HitKey(Placeholder(key)) == key;
  }
}
