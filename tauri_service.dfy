/** The media-path handling of the front end's desktop service
    (`prompt_fill/src/services/tauri-service.js`): the names under which
    media files are saved, the translation of the URLs the editor shows back
    into `media://` references, and the lookup of a reference's URL. The
    browser's blob map is the decoded list of entries of the session's
    `media_blob_map` object; the desktop's file URL is a parameter. */
module TauriService {
  import opened Wrappers
  import opened Text
  import opened Dicts
  import opened JsonValues
  import opened Scanner

  /** The scheme of a media reference. */
  const MediaScheme := "media://"

  // Media file names

  /** `c.replace(/[^a-zA-Z0-9]/g, '_')` for one character: the expression
      works on UTF-16 code units, so a character outside the BMP becomes two. */
  function CleanChar(c: char): (r: string)
    ensures |r| == |CharUnits(c)|
    ensures forall i :: 0 <= i < |r| ==> IsWordChar(r[i])
  {
    if IsAlnum(c) then [c] else if (c as int) < 0x1_0000 then "_" else "__"
  }

  /** The template id with every non-alphanumeric code unit replaced by `_`. */
  function CleanId(id: string): (r: string)
    ensures |r| == |Utf16(id)|
    ensures forall i :: 0 <= i < |r| ==> IsWordChar(r[i])
  {
    if id == [] then [] else CleanChar(id[0]) + CleanId(id[1..])
  }

  /** Within the BMP the cleaning works position by position: letters and
      digits stay, every other character becomes `_`. */
  lemma {:induction false} CleanIdAt(id: string)
    requires forall i :: 0 <= i < |id| ==> (id[i] as int) < 0x1_0000
    ensures |CleanId(id)| == |id|
    ensures forall i :: 0 <= i < |id| ==> CleanId(id)[i] == if IsAlnum(id[i]) then id[i] else '_'
  {
    if id != [] {
      CleanIdAt(id[1..]);
      var r := CleanId(id);
      assert r == CleanChar(id[0]) + CleanId(id[1..]);
      forall i | 1 <= i < |id|
        ensures r[i] == if IsAlnum(id[i]) then id[i] else '_'
      {
        assert r[i] == CleanId(id[1..])[i - 1] && id[1..][i - 1] == id[i];
      }
    }
  }

  /** An id made of word characters is already clean, so cleaning is idempotent. */
  lemma {:induction false} CleanWordId(id: string)
    requires forall i :: 0 <= i < |id| ==> IsWordChar(id[i])
    ensures CleanId(id) == id
  {
    if id != [] {
      CleanWordId(id[1..]);
      assert [id[0]] + id[1..] == id;
    }
  }

  lemma CleanIdempotent(id: string)
    ensures CleanId(CleanId(id)) == CleanId(id)
  {
    CleanWordId(CleanId(id));
  }

  /** `(templateId || 'unknown')` cleaned; `None` is `null` or `undefined`. */
  function CleanTemplateId(templateId: Option<string>): (r: string)
    ensures templateId.None? || templateId.value == [] ==> r == "unknown"
    ensures templateId.Some? && templateId.value != [] ==> |r| == |Utf16(templateId.value)|
    ensures forall i :: 0 <= i < |r| ==> IsWordChar(r[i])
  {
    if templateId.None? || templateId.value == [] then
      assert forall i :: 0 <= i < |"unknown"| ==> IsWordChar("unknown"[i]);
      CleanWordId("unknown");
      "unknown"
    else CleanId(templateId.value)
  }

  /** `originalPath.split('.').pop() || 'bin'`: a path without a dot is its
      own extension. */
  function Extension(originalPath: string): (r: string)
    ensures r != [] && '.' !in r
    ensures r == "bin" || (EndsWith(originalPath, r) && (|r| < |originalPath| ==>
              originalPath[|originalPath| - |r| - 1] == '.'))
  {
    var last := LastSegment(originalPath, '.');
    if last == [] then "bin" else last
  }

  /** `generateMediaFileName(templateId, originalPath, timestamp)`, with the
      eight random base-36 characters as the parameter `randomStr`. */
  function MediaFileName(templateId: Option<string>, originalPath: string, timestamp: nat, randomStr: string): string {
    CleanTemplateId(templateId) + "_" + NatToString(timestamp) + "_" + randomStr + "." + Extension(originalPath)
  }

  /** The generated name begins with the cleaned id and ends with the
      original file's extension, whatever the random part holds. */
  lemma FileNameParts(templateId: Option<string>, originalPath: string, timestamp: nat, randomStr: string)
    ensures StartsWith(MediaFileName(templateId, originalPath, timestamp, randomStr), CleanTemplateId(templateId) + "_")
    ensures LastSegment(MediaFileName(templateId, originalPath, timestamp, randomStr), '.') == Extension(originalPath)
  {
    var head := CleanTemplateId(templateId) + "_";
    var body := head + NatToString(timestamp) + "_" + randomStr + ".";
    var name := MediaFileName(templateId, originalPath, timestamp, randomStr);
    assert name == body + Extension(originalPath);
    assert name[..|head|] == head;
    LastSegmentSuffix(body, Extension(originalPath), '.');
  }

  // From URLs back to media references

  /** `[^"'>\s]` */
  predicate IsPathChar(c: char) {
    c != '"' && c != '\'' && c != '>' && !IsSpace(c)
  }

  /** The matcher of `/media[\\\/]([^"'>\s]+)/`: `media`, a slash or a
      backslash, and the greedy run of path characters. */
  function MediaMatch(t: string): (k: nat)
    ensures k <= |t|
  {
    if StartsWith(t, "media") && |t| > 5 && (t[5] == '/' || t[5] == '\\') then
      var k := Run(t[6..], IsPathChar);
      if k > 0 then 6 + k else 0
    else 0
  }

  /** The captured file name of the first match of `MediaMatch` in `s`, if any. */
  function MediaName(s: string): Option<string> {
    match NextMatch(MediaMatch, s, 0)
    case Some(j) => Some(s[j + 6..j + MatchAt(MediaMatch, s[j..])])
    case None => None
  }

  /** The key of the first entry whose value is `v`. */
  function KeyWithValue(d: Dict<string, Json>, v: Json): (r: Option<string>)
    ensures r.None? ==> forall i :: 0 <= i < |d| ==> d[i].1 != v
    ensures r.Some? ==> exists i :: 0 <= i < |d| && d[i] == (r.value, v)
  {
    if d == [] then None
    else if d[0].1 == v then Some(d[0].0)
    else KeyWithValue(d[1..], v)
  }

  /** The first entry with the value is the one found. */
  lemma {:induction false} KeyWithValueAt(d: Dict<string, Json>, v: Json, i: nat)
    requires i < |d| && d[i].1 == v
    requires forall k :: 0 <= k < i ==> d[k].1 != v
    ensures KeyWithValue(d, v) == Some(d[i].0)
  {
    if i > 0 {
      KeyWithValueAt(d[1..], v, i - 1);
    }
  }

  /** `convertUrlToMediaPath(url)` for a non-empty string: a `media://`
      reference as it is; else the name after the first `media/` or
      `media\`; else, for a `blob:` URL, the first reference the blob map
      gives that URL; else the URL itself. */
  function ConvertText(s: string, blobMap: Dict<string, Json>): (r: string)
    ensures StartsWith(s, MediaScheme) ==> r == s
    ensures r == s || StartsWith(r, MediaScheme) || exists i :: 0 <= i < |blobMap| && blobMap[i] == (r, JStr(s))
  {
    if StartsWith(s, MediaScheme) then s
    else
      match MediaName(s)
      case Some(name) =>
        assert (MediaScheme + name)[..|MediaScheme|] == MediaScheme;
        MediaScheme + name
      case None => if StartsWith(s, "blob:") then KeyWithValue(blobMap, JStr(s)).GetOr(s) else s
  }

  /** `convertUrlToMediaPath(url)`: falsy values and non-strings come back
      unchanged; the blob map is searched entry by entry. */
  method ConvertUrlToMediaPath(url: Json, blobMap: Dict<string, Json>) returns (r: Json)
    ensures r == if url.JStr? && url.s != [] then JStr(ConvertText(url.s, blobMap)) else url
  {
    if !JsTruthy(url) || !url.JStr? {
      return url;
    }
    var s := url.s;
    if StartsWith(s, MediaScheme) {
      return url;
    }
    var fileUrlMatch := MediaName(s);
    if fileUrlMatch.Some? {
      return JStr(MediaScheme + fileUrlMatch.value);
    }
    if StartsWith(s, "blob:") {
      for i := 0 to |blobMap|
        invariant forall k :: 0 <= k < i ==> blobMap[k].1 != JStr(s)
      {
        if blobMap[i].1 == JStr(s) {
          KeyWithValueAt(blobMap, JStr(s), i);
          return JStr(blobMap[i].0);
        }
      }
    }
    r := url;
  }

  /** A URL with `media/` or `media\` and a path character after it becomes
      the reference to the run of path characters after the leftmost such
      place. */
  lemma MediaUrl(s: string, blobMap: Dict<string, Json>, j: nat)
    requires !StartsWith(s, MediaScheme)
    requires j < |s| && MediaMatch(s[j..]) > 0
    requires forall i :: 0 <= i < j ==> MediaMatch(s[i..]) == 0
    ensures ConvertText(s, blobMap) == MediaScheme + s[j + 6..j + MediaMatch(s[j..])]
    ensures forall i :: j + 6 <= i < j + MediaMatch(s[j..]) ==> IsPathChar(s[i])
  {
    MediaNameAt(s, j);
    PathCharsAt(s, j);
  }

  lemma MediaNameAt(s: string, j: nat)
    requires j < |s| && MediaMatch(s[j..]) > 0
    requires forall i :: 0 <= i < j ==> MediaMatch(s[i..]) == 0
    ensures MediaName(s) == Some(s[j + 6..j + MediaMatch(s[j..])])
  {
    NextMatchAt(MediaMatch, s, 0, j);
  }

  lemma PathCharsAt(s: string, j: nat)
    requires j < |s| && MediaMatch(s[j..]) > 0
    ensures forall i :: j + 6 <= i < j + MediaMatch(s[j..]) ==> IsPathChar(s[i])
  {
    var t := s[j..];
    var k := Run(t[6..], IsPathChar);
    assert MediaMatch(t) == 6 + k;
    forall i | j + 6 <= i < j + 6 + k
      ensures IsPathChar(s[i])
    {
      assert s[i] == t[6..][i - j - 6];
    }
  }

  /** Converting is idempotent when every reference in the blob map is a
      `media://` reference, as every reference the service stores is. */
  lemma ConvertIdempotent(s: string, blobMap: Dict<string, Json>)
    requires forall i :: 0 <= i < |blobMap| ==> StartsWith(blobMap[i].0, MediaScheme)
    ensures ConvertText(ConvertText(s, blobMap), blobMap) == ConvertText(s, blobMap)
  {
    if !StartsWith(s, MediaScheme) {
      match MediaName(s)
      case Some(name) =>
        assert (MediaScheme + name)[..|MediaScheme|] == MediaScheme;
      case None =>
    }
  }

  // Rewriting the `src` attributes of an HTML text

  predicate IsQuote(c: char) {
    c == '"' || c == '\''
  }

  predicate NotQuote(c: char) {
    !IsQuote(c)
  }

  /** The matcher of `/src=["']([^"']+)["']/g`; the two quotes may differ. */
  function SrcMatch(t: string): (k: nat)
    ensures k <= |t|
  {
    if StartsWith(t, "src=") && |t| > 4 && IsQuote(t[4]) then
      var k := Run(t[5..], NotQuote);
      if k > 0 && 5 + k < |t| then 6 + k else 0
    else 0
  }

  /** A `src` attribute: `src=`, a quote, a non-empty unquoted URL, a quote. */
  predicate IsSrcAttr(h: string) {
    |h| >= 6 && StartsWith(h, "src=") && IsQuote(h[4]) && IsQuote(h[|h| - 1]) &&
    forall i :: 5 <= i < |h| - 1 ==> NotQuote(h[i])
  }

  /** The callback for one attribute: `src="<converted URL>"`. */
  function RewriteSrc(h: string, blobMap: Dict<string, Json>): string {
    if |h| >= 6 then "src=\"" + ConvertText(h[5..|h| - 1], blobMap) + "\"" else h
  }

  /** `convertMediaUrlsToPathsInHtml(html)`: falsy values and non-strings
      unchanged, otherwise every `src` attribute rewritten. */
  function ConvertHtml(html: Json, blobMap: Dict<string, Json>): Json {
    if html.JStr? && html.s != [] then JStr(Replace(Scan(html.s, SrcMatch), h => RewriteSrc(h, blobMap)))
    else html
  }

  /** Every match the rewriting sees is a whole `src` attribute. */
  lemma SrcHits(s: string)
    ensures forall h :: h in Hits(Scan(s, SrcMatch)) ==> IsSrcAttr(h)
  {
    forall t | MatchAt(SrcMatch, t) > 0
      ensures IsSrcAttr(t[..MatchAt(SrcMatch, t)])
    {
      var k := Run(t[5..], NotQuote);
      var h := t[..6 + k];
      assert MatchAt(SrcMatch, t) == 6 + k;
      assert h[..4] == t[..4];
      assert h[5 + k] == t[5..][k];
      forall i | 5 <= i < |h| - 1
        ensures NotQuote(h[i])
      {
        assert h[i] == t[5..][i - 5];
      }
    }
    ScanHits(s, SrcMatch, IsSrcAttr);
  }

  /** HTML without any `src` attribute comes back unchanged. */
  lemma HtmlWithoutSrc(s: string, blobMap: Dict<string, Json>)
    requires s != []
    requires forall j :: 0 <= j < |s| ==> MatchAt(SrcMatch, s[j..]) == 0
    ensures ConvertHtml(JStr(s), blobMap) == JStr(s)
  {
    ScanNoMatchIn(s, SrcMatch);
    ReplaceFixes(Scan(s, SrcMatch), h => RewriteSrc(h, blobMap));
    ScanFlatten(s, SrcMatch);
  }

  /** Outside the attributes nothing changes, and an attribute that already
      holds a double-quoted `media://` reference stays as it is: HTML whose
      every image points at a reference is a fixed point. */
  lemma HtmlOfReferences(s: string, blobMap: Dict<string, Json>)
    requires s != []
    requires forall h :: h in Hits(Scan(s, SrcMatch)) ==>
               |h| >= 6 && h[4] == '"' && h[|h| - 1] == '"' && StartsWith(h[5..|h| - 1], MediaScheme)
    ensures ConvertHtml(JStr(s), blobMap) == JStr(s)
  {
    SrcHits(s);
    forall h | h in Hits(Scan(s, SrcMatch))
      ensures RewriteSrc(h, blobMap) == h
    {
      RewriteReference(h, blobMap);
    }
    ReplaceFixes(Scan(s, SrcMatch), h => RewriteSrc(h, blobMap));
    ScanFlatten(s, SrcMatch);
  }

  /** The callback gives a double-quoted reference attribute back as it is. */
  lemma RewriteReference(h: string, blobMap: Dict<string, Json>)
    requires IsSrcAttr(h)
    requires |h| >= 6 && h[4] == '"' && h[|h| - 1] == '"' && StartsWith(h[5..|h| - 1], MediaScheme)
    ensures RewriteSrc(h, blobMap) == h
  {
    var u := h[5..|h| - 1];
    assert ConvertText(u, blobMap) == u;
    assert h[..4] == "src=";
    assert h[..5] == "src=\"";
    assert h == h[..5] + u + [h[|h| - 1]];
  }

  // From media references to URLs

  /** Where the front end runs: in a browser, references resolve through the
      session's blob map; on the desktop through the application's data
      directory, `resolve` being the URL `convertFileSrc` gives the file
      `media/<name>` there. */
  datatype Host =
    | Browser(blobMap: Dict<string, Json>)
    | Desktop(resolve: string -> string)

  /** `getMediaUrl(mediaPath)`: a value that is no `media://` reference comes
      back as it is (a truthy non-string fails at `startsWith`); a reference
      resolves to its blob URL in the browser, or "" when the map has none,
      and to the file's URL on the desktop. */
  function GetMediaUrl(mediaPath: Json, host: Host): (r: Result<Json>)
    ensures !JsTruthy(mediaPath) || (mediaPath.JStr? && !StartsWith(mediaPath.s, MediaScheme)) ==>
              r == Ok(mediaPath)
    ensures r.Err? <==> JsTruthy(mediaPath) && !mediaPath.JStr?
    ensures mediaPath.JStr? && StartsWith(mediaPath.s, MediaScheme) && host.Desktop? ==>
              r == Ok(JStr(host.resolve(mediaPath.s[|MediaScheme|..])))
    ensures mediaPath.JStr? && StartsWith(mediaPath.s, MediaScheme) && host.Browser? ==>
              r.Ok? && (r.value == JStr("") || (HasKey(host.blobMap, mediaPath.s) &&
                                                 r.value == Lookup(host.blobMap, mediaPath.s).value))
  {
    if !JsTruthy(mediaPath) then Ok(mediaPath)
    else if !mediaPath.JStr? then Err("mediaPath.startsWith is not a function")
    else if !StartsWith(mediaPath.s, MediaScheme) then Ok(mediaPath)
    else
      var fileName := mediaPath.s[|MediaScheme|..];
      match host
      case Browser(blobMap) =>
        var blobUrl := Lookup(blobMap, mediaPath.s);
        if blobUrl.Some? && JsTruthy(blobUrl.value) then Ok(blobUrl.value) else Ok(JStr(""))
      case Desktop(resolve) => Ok(JStr(resolve(fileName)))
  }

  /** In the browser a saved reference survives the round trip: its blob URL
      converts back to it, provided the map gives different references
      different URLs and the blob URL mentions no `media/` path. */
  lemma BrowserRoundTrip(p: string, blobMap: Dict<string, Json>, blobUrl: string)
    requires StartsWith(p, MediaScheme) && StartsWith(blobUrl, "blob:")
    requires Lookup(blobMap, p) == Some(JStr(blobUrl))
    requires forall i, k :: 0 <= i < k < |blobMap| ==> blobMap[i].1 != blobMap[k].1
    requires forall j :: 0 <= j < |blobUrl| ==> MatchAt(MediaMatch, blobUrl[j..]) == 0
    ensures GetMediaUrl(JStr(p), Browser(blobMap)) == Ok(JStr(blobUrl))
    ensures ConvertText(blobUrl, blobMap) == p
  {
    LookupIndex(blobMap, p);
    var i :| 0 <= i < |blobMap| && blobMap[i] == (p, JStr(blobUrl)) && forall k :: 0 <= k < i ==> blobMap[k].0 != p;
    forall k | 0 <= k < i
      ensures blobMap[k].1 != JStr(blobUrl)
    {
      assert blobMap[k].1 != blobMap[i].1;
    }
    KeyWithValueAt(blobMap, JStr(blobUrl), i);
    NextMatchNone(MediaMatch, blobUrl, 0);
    BlobUrlBack(blobUrl, blobMap, p);
  }

  /** A `blob:` URL without a `media/` path converts to the first reference
      the blob map gives it. */
  lemma BlobUrlBack(s: string, blobMap: Dict<string, Json>, p: string)
    requires StartsWith(s, "blob:") && NextMatch(MediaMatch, s, 0).None?
    requires KeyWithValue(blobMap, JStr(s)) == Some(p)
    ensures ConvertText(s, blobMap) == p
  {
    assert s[..5] == "blob:";
    assert !StartsWith(s, MediaScheme) by {
      assert |s| < |MediaScheme| || s[..|MediaScheme|][0] == 'b';
    }
  }

  /** What `Lookup` finds is the first entry with the key. */
  lemma {:induction false} LookupIndex(d: Dict<string, Json>, key: string)
    requires HasKey(d, key)
    ensures exists i :: 0 <= i < |d| && d[i] == (key, Lookup(d, key).value) && forall k :: 0 <= k < i ==> d[k].0 != key
  {
    if d[0].0 != key {
      LookupIndex(d[1..], key);
      var i :| 0 <= i < |d[1..]| && d[1..][i] == (key, Lookup(d, key).value) && forall k :: 0 <= k < i ==> d[1..][k].0 != key;
      assert d[i + 1] == d[1..][i];
      assert forall k :: 1 <= k < i + 1 ==> d[k] == d[1..][k - 1];
    } else {
      assert d[0] == (key, Lookup(d, key).value);
    }
  }
}
