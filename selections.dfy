/** The bank choices stored on a template, shared by the copy handler of
    App.jsx and the preview of MarkdownPreview.jsx. A template's `selections`
    maps keys `${id}-${key}-${pos}` to an option index of the bank `key`;
    `banks` maps each key to a bank with an `options` list. */
module Selections {
  import opened Wrappers
  import opened Text
  import opened Dicts
  import opened Lists
  import opened JsonValues
  import opened Helpers

  /** `${template.id}`: "undefined" when the template has no id. */
  function IdText(template: Dict<string, Json>): string {
    var id := Lookup(template, "id");
    if id.None? then "undefined" else JsString(id.value)
  }

  /** `${id}-${key}-`: the prefix of the selection keys of `key`. */
  function KeyPrefix(id: string, key: string): string {
    id + "-" + key + "-"
  }

  /** `Object.keys(selections).filter(sk => sk.startsWith(prefix))`. Keys
      with this prefix contain a '-' and so are never array indices, which
      is why `Object.keys` lists them in insertion order. */
  function SelectionKeys(selections: Dict<string, Json>, id: string, key: string): (r: seq<string>)
    ensures forall sk :: sk in r <==> sk in Keys(selections) && StartsWith(sk, KeyPrefix(id, key))
  {
    Filter(Keys(selections), (sk: string) => StartsWith(sk, KeyPrefix(id, key)))
  }

  /** `template.selections` as the handlers see it: `None` when falsy; an
      array or string, whose keys are indices and so match no prefix, acts
      as an empty map. */
  function SelectionsOf(template: Dict<string, Json>): Option<Dict<string, Json>> {
    var s := Lookup(template, "selections");
    if s.None? || !JsTruthy(s.value) then None
    else if s.value.JObj? then Some(s.value.fields)
    else Some([])
  }

  /** `bank?.options && bank.options[index]`, when it is not `undefined`:
      the option chosen by `index`, looked up under `String(index)`. */
  function OptionOf(banks: Dict<string, Json>, key: string, index: Json): (r: Option<Json>)
    ensures r.Some? ==> Lookup(banks, key).Some? && Lookup(banks, key).value.JObj?
  {
    var bank := Lookup(banks, key);
    if bank.None? || !bank.value.JObj? then None
    else
      var options := Lookup(bank.value.fields, "options");
      if options.None? || !JsTruthy(options.value) then None
      else Property(options.value, JsString(index))
  }

  /** The text an option contributes: `getLocalized(option, language)`,
      converted to a string by `replace`. */
  function OptionText(option: Json, language: string): string {
    JsString(GetLocalized(Some(option), language))
  }

  /** A bank whose `options` is a list yields its element at a canonical index. */
  lemma OptionOfIndex(banks: Dict<string, Json>, key: string, bank: Dict<string, Json>, options: seq<Json>, n: nat)
    requires Lookup(banks, key) == Some(JObj(bank)) && Lookup(bank, "options") == Some(JArr(options))
    requires n < |options|
    ensures OptionOf(banks, key, JNum(n)) == Some(options[n])
  {
    var s := JsString(JNum(n));
    assert s == NatToString(n);
    NatToStringValue(n);
  }
}
