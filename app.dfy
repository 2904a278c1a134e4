/** The state transitions of the editor's main component (App.jsx):
    loading and migrating saved templates, choosing the active template,
    the tool and tag toggles, updating, deleting and re-versioning a
    template, the list filters, the copy handler's substitution and the
    directory open states. A template is a JavaScript object, an ordered
    dictionary of JSON values; a property set to `undefined` is represented
    by its absence, as `JSON.stringify` stores it. */
module App {
  import opened Wrappers
  import opened Text
  import opened Dicts
  import opened Lists
  import opened JsonValues
  import opened Scanner
  import opened Placeholders
  import opened Helpers
  import opened Selections

  type Template = Dict<string, Json>

  /** `t.id`, `None` for `undefined` */
  function Id(t: Template): Option<Json> {
    Lookup(t, "id")
  }

  /** `a || b` for possibly undefined values */
  function Or(a: Option<Json>, b: Option<Json>): (r: Option<Json>)
    ensures a.Some? && JsTruthy(a.value) ==> r == a
    ensures a.None? || !JsTruthy(a.value) ==> r == b
  {
    if a.Some? && JsTruthy(a.value) then a else b
  }

  predicate Falsy(v: Option<Json>) {
    v.None? || !JsTruthy(v.value)
  }

  // ---------------------------------------------------------------------
  // Toggling a member of a list (handleToggleTool, the tag menu)

  /** `list.includes(x) ? list.filter(y => y !== x) : [...list, x]` */
  function Toggle<T(==, !new)>(list: seq<T>, x: T): seq<T> {
    if x in list then Without(list, x) else list + [x]
  }

  /** Toggling flips the membership of `x` alone, never creates a
      duplicate, and undoes itself when `x` was absent. */
  lemma ToggleMeaning<T(!new)>(list: seq<T>, x: T)
    ensures x in Toggle(list, x) <==> x !in list
    ensures forall y :: y != x ==> (y in Toggle(list, x) <==> y in list)
    ensures x !in list ==> Toggle(list, x) == list + [x]
    ensures Distinct(list) ==> Distinct(Toggle(list, x))
    ensures x !in list ==> Toggle(Toggle(list, x), x) == list
  {
    if x in list {
      if Distinct(list) {
        WithoutDistinct(list, x);
      }
    } else {
      var r := list + [x];
      if Distinct(list) {
        forall i, j | 0 <= i < j < |r|
          ensures r[i] != r[j]
        {
          assert r[i] == list[i];
        }
      }
      assert x in r;
      FilterSnoc(list, x, y => y != x);
      FilterAll(list, y => y != x);
    }
  }

  // ---------------------------------------------------------------------
  // Loading

  /** The migration of one saved template. */
  function Migrate(t: Template): Template {
    AddNotes(AddVersion(Remove(MoveTagPath(t), "tagPath")))
  }

  /** A truthy `tagPath` becomes the one tag when `tags` is falsy. */
  function MoveTagPath(t: Template): Template {
    var tagPath := Lookup(t, "tagPath");
    if !Falsy(tagPath) && Falsy(Lookup(t, "tags")) then Put(t, "tags", JArr([tagPath.value])) else t
  }

  /** A missing `version` becomes 1 with an empty `history`. */
  function AddVersion(t: Template): Template {
    if Lookup(t, "version").None? then Put(Put(t, "version", JNum(1)), "history", JArr([])) else t
  }

  /** A missing `notes` becomes "". */
  function AddNotes(t: Template): Template {
    if Lookup(t, "notes").None? then Put(t, "notes", JStr("")) else t
  }

  lemma LookupMoveTagPath(t: Template, key: string)
    ensures Lookup(MoveTagPath(t), key) ==
            if key == "tags" && !Falsy(Lookup(t, "tagPath")) && Falsy(Lookup(t, "tags"))
            then Some(JArr([Lookup(t, "tagPath").value]))
            else Lookup(t, key)
  {
    var tagPath := Lookup(t, "tagPath");
    if !Falsy(tagPath) && Falsy(Lookup(t, "tags")) {
      LookupPut(t, "tags", JArr([tagPath.value]), key);
    }
  }

  lemma LookupAddVersion(t: Template, key: string)
    ensures Lookup(AddVersion(t), key) ==
            if key == "version" && Lookup(t, "version").None? then Some(JNum(1))
            else if key == "history" && Lookup(t, "version").None? then Some(JArr([]))
            else Lookup(t, key)
  {
    if Lookup(t, "version").None? {
      LookupPut(t, "version", JNum(1), key);
      LookupPut(Put(t, "version", JNum(1)), "history", JArr([]), key);
    }
  }

  lemma LookupAddNotes(t: Template, key: string)
    ensures Lookup(AddNotes(t), key) == if key == "notes" && Lookup(t, "notes").None? then Some(JStr("")) else Lookup(t, key)
  {
    if Lookup(t, "notes").None? {
      LookupPut(t, "notes", JStr(""), key);
    }
  }

  /** What the stages of the migration leave under `key`. */
  lemma LookupMigrate(t: Template, key: string)
    ensures Lookup(Migrate(t), key) ==
            if key == "notes" && Lookup(AddVersion(Remove(MoveTagPath(t), "tagPath")), "notes").None? then Some(JStr(""))
            else Lookup(AddVersion(Remove(MoveTagPath(t), "tagPath")), key)
    ensures Lookup(AddVersion(Remove(MoveTagPath(t), "tagPath")), key) ==
            if key == "version" && Lookup(Remove(MoveTagPath(t), "tagPath"), "version").None? then Some(JNum(1))
            else if key == "history" && Lookup(Remove(MoveTagPath(t), "tagPath"), "version").None? then Some(JArr([]))
            else Lookup(Remove(MoveTagPath(t), "tagPath"), key)
    ensures Lookup(Remove(MoveTagPath(t), "tagPath"), key) == if key == "tagPath" then None else Lookup(MoveTagPath(t), key)
  {
    var a := MoveTagPath(t);
    var b := Remove(a, "tagPath");
    LookupRemove(a, "tagPath", key);
    LookupAddVersion(b, key);
    LookupAddNotes(AddVersion(b), key);
  }

  /** After migration there is no `tagPath`; a `tagPath` moves to `tags`
      only when `tags` is falsy; a missing `version` becomes 1 with an
      empty `history`; a missing `notes` becomes ""; every other property
      keeps its value. */
  lemma MigrateMeaning(t: Template, k: string)
    ensures Lookup(Migrate(t), "tagPath").None?
    ensures Lookup(Migrate(t), "tags") ==
            if !Falsy(Lookup(t, "tagPath")) && Falsy(Lookup(t, "tags")) then Some(JArr([Lookup(t, "tagPath").value]))
            else Lookup(t, "tags")
    ensures Lookup(Migrate(t), "version") == if Lookup(t, "version").None? then Some(JNum(1)) else Lookup(t, "version")
    ensures Lookup(Migrate(t), "history") == if Lookup(t, "version").None? then Some(JArr([])) else Lookup(t, "history")
    ensures Lookup(Migrate(t), "notes") == if Lookup(t, "notes").None? then Some(JStr("")) else Lookup(t, "notes")
    ensures k !in {"tagPath", "tags", "version", "history", "notes"} ==> Lookup(Migrate(t), k) == Lookup(t, k)
  {
    var b := Remove(MoveTagPath(t), "tagPath");
    LookupRemove(MoveTagPath(t), "tagPath", "version");
    LookupMoveTagPath(t, "version");
    LookupRemove(MoveTagPath(t), "tagPath", "notes");
    LookupMoveTagPath(t, "notes");
    LookupAddVersion(b, "notes");
    LookupMigrate(t, "tagPath");
    LookupMigrate(t, "tags");
    LookupMoveTagPath(t, "tags");
    LookupMigrate(t, "version");
    LookupMigrate(t, "history");
    LookupMoveTagPath(t, "history");
    LookupMigrate(t, "notes");
    LookupMigrate(t, k);
    LookupMoveTagPath(t, k);
  }

  /** Removing an absent key changes nothing. */
  lemma {:induction false} RemoveAbsent(d: Template, k: string)
    requires Lookup(d, k).None?
    ensures Remove(d, k) == d
  {
    if d != [] {
      RemoveAbsent(d[1..], k);
    }
  }

  /** Migrating twice is migrating once. */
  lemma MigrateIdempotent(t: Template)
    ensures Migrate(Migrate(t)) == Migrate(t)
  {
    var m := Migrate(t);
    MigrateMeaning(t, "tagPath");
    RemoveAbsent(m, "tagPath");
  }

  /** `t.id === id`, for the `find`, `some` and `filter` calls on templates. */
  predicate HasId(t: Template, id: Option<Json>) {
    Id(t) == id
  }

  /** `migrated[0]?.id || null` */
  function FirstIdOrNull(templates: seq<Template>): (r: Option<Json>)
    ensures templates != [] && !Falsy(Id(templates[0])) ==> r == Id(templates[0])
    ensures templates == [] || Falsy(Id(templates[0])) ==> r == Some(JNull)
  {
    if templates != [] && !Falsy(Id(templates[0])) then Id(templates[0]) else Some(JNull)
  }

  /** The templates and the active id after loading. `saved` holds the
      saved templates (empty when there is no saved data); `initial` is the
      built-in configuration. */
  function Load(saved: seq<Template>, savedActive: Option<Json>, initial: seq<Template>): (r: (seq<Template>, Option<Json>))
    ensures |r.0| == if saved == [] then |initial| else |saved|
  {
    if saved == [] then (initial, if initial == [] then None else Id(initial[0]))
    else
      var migrated := seq(|saved|, i requires 0 <= i < |saved| => Migrate(saved[i]));
      var valid := exists i :: 0 <= i < |migrated| && HasId(migrated[i], savedActive);
      (migrated, if valid then savedActive else FirstIdOrNull(migrated))
  }

  /** With saved templates, every one is migrated; the saved active id is
      kept exactly when some template has it, and otherwise the first
      template's id, or null, is active. */
  lemma LoadMeaning(saved: seq<Template>, savedActive: Option<Json>, initial: seq<Template>)
    requires saved != []
    ensures forall i :: 0 <= i < |saved| ==> Load(saved, savedActive, initial).0[i] == Migrate(saved[i])
    ensures (exists i :: 0 <= i < |saved| && Id(saved[i]) == savedActive) ==> Load(saved, savedActive, initial).1 == savedActive
    ensures (forall i :: 0 <= i < |saved| ==> Id(saved[i]) != savedActive) ==>
              Load(saved, savedActive, initial).1 == FirstIdOrNull(Load(saved, savedActive, initial).0)
  {
    var migrated := Load(saved, savedActive, initial).0;
    forall i | 0 <= i < |saved|
      ensures Id(migrated[i]) == Id(saved[i])
    {
      MigrateMeaning(saved[i], "id");
    }
  }

  /** The active template: `null` (`None`) without a truthy active id or
      without templates, otherwise the first template with that id. */
  function ActiveTemplate(templates: seq<Template>, activeId: Option<Json>): (r: Option<Template>)
    ensures r.Some? ==> r.value in templates && HasId(r.value, activeId) && !Falsy(activeId)
    ensures !Falsy(activeId) && (exists i :: 0 <= i < |templates| && HasId(templates[i], activeId)) ==> r.Some?
  {
    if Falsy(activeId) then None else FindId(templates, activeId)
  }

  function FindId(templates: seq<Template>, id: Option<Json>): (r: Option<Template>)
    ensures r.Some? ==> r.value in templates && HasId(r.value, id)
    ensures r.None? <==> forall i :: 0 <= i < |templates| ==> !HasId(templates[i], id)
  {
    if templates == [] then None
    else if HasId(templates[0], id) then Some(templates[0])
    else FindId(templates[1..], id)
  }

  // ---------------------------------------------------------------------
  // Updating and deleting

  /** `{ ...t, ...updates }`; an update to `undefined` (`None`) drops the property. */
  function Spread(t: Template, updates: Dict<string, Option<Json>>): Template
    decreases |updates|
  {
    if updates == [] then t
    else
      var (k, v) := updates[0];
      Spread(if v.Some? then Put(t, k, v.value) else Remove(t, k), updates[1..])
  }

  /** After spreading, a key takes its (last) updated value, if any, and
      keeps its old value otherwise. */
  lemma {:induction false} LookupSpread(t: Template, updates: Dict<string, Option<Json>>, k: string)
    requires DistinctKeys(updates)
    ensures Lookup(Spread(t, updates), k) == if HasKey(updates, k) then Lookup(updates, k).value else Lookup(t, k)
    decreases |updates|
  {
    if updates != [] {
      var (k0, v) := updates[0];
      var t' := if v.Some? then Put(t, k0, v.value) else Remove(t, k0);
      assert DistinctKeys(updates[1..]) by {
        forall i, j | 0 <= i < j < |updates[1..]|
          ensures updates[1..][i].0 != updates[1..][j].0
        {
          assert updates[1..][i] == updates[i + 1] && updates[1..][j] == updates[j + 1];
        }
      }
      LookupSpread(t', updates[1..], k);
      if v.Some? {
        LookupPut(t, k0, v.value, k);
      } else {
        LookupRemove(t, k0, k);
      }
      if k == k0 {
        forall j | 0 <= j < |updates[1..]|
          ensures updates[1..][j].0 != k
        {
          assert updates[1..][j] == updates[j + 1];
        }
        HasKeyIndex(updates[1..], k);
      }
    }
  }

  /** `handleUpdateTemplate(id, updates)` at the time `now`. */
  function UpdateTemplate(templates: seq<Template>, id: Option<Json>, updates: Dict<string, Option<Json>>, now: string): (r: seq<Template>)
    ensures |r| == |templates|
    ensures forall i :: 0 <= i < |templates| && !HasId(templates[i], id) ==> r[i] == templates[i]
  {
    seq(|templates|, i requires 0 <= i < |templates| =>
      if HasId(templates[i], id) then Put(Spread(templates[i], updates), "updatedAt", JStr(now)) else templates[i])
  }

  /** The templates with the id get every update and the new `updatedAt`,
      and keep their other properties. */
  lemma UpdateTemplateMeaning(templates: seq<Template>, id: Option<Json>, updates: Dict<string, Option<Json>>, now: string, i: nat, k: string)
    requires DistinctKeys(updates) && i < |templates| && HasId(templates[i], id)
    ensures Lookup(UpdateTemplate(templates, id, updates, now)[i], k) ==
            if k == "updatedAt" then Some(JStr(now))
            else if HasKey(updates, k) then Lookup(updates, k).value
            else Lookup(templates[i], k)
  {
    LookupPut(Spread(templates[i], updates), "updatedAt", JStr(now), k);
    LookupSpread(templates[i], updates, k);
  }

  /** `handleDeleteTemplate` once the deletion is confirmed: the new
      templates and active id. */
  function DeleteTemplate(templates: seq<Template>, activeId: Option<Json>, idToDelete: Option<Json>): (r: (seq<Template>, Option<Json>))
  {
    var remaining := Filter(templates, (t: Template) => !HasId(t, idToDelete));
    (remaining, if activeId == idToDelete then FirstIdOrNull(remaining) else activeId)
  }

  /** No template with the id is left and every other one is kept;
      deleting the active template makes the first remaining id, or null,
      active, and any other deletion keeps the active id. */
  lemma DeleteTemplateMeaning(templates: seq<Template>, activeId: Option<Json>, idToDelete: Option<Json>)
    ensures var r := DeleteTemplate(templates, activeId, idToDelete);
            (forall t :: t in r.0 <==> t in templates && !HasId(t, idToDelete)) &&
            |r.0| <= |templates| &&
            (activeId == idToDelete ==>
               r.1 == (if r.0 != [] && !Falsy(Id(r.0[0])) then Id(r.0[0]) else Some(JNull))) &&
            (activeId != idToDelete ==> r.1 == activeId)
  {
  }

  // ---------------------------------------------------------------------
  // Versions and drafts

  /** `(version || 1) + 1`: a numeric version grows by one; a string or
      other truthy value is concatenated with "1". */
  function NextVersion(v: Option<Json>): (r: Json)
    ensures Falsy(v) ==> r == JNum(2)
    ensures v.Some? && v.value.JNum? && v.value.n != 0 ==> r == JNum(v.value.n + 1)
  {
    if Falsy(v) then JNum(2)
    else
      match v.value
      case JNull => JNum(2)
      case JBool(_) => JNum(2)
      case JNum(n) => JNum(n + 1)
      case JStr(s) => JStr(s + "1")
      case JArr(_) => JStr(JsString(v.value) + "1")
      case JObj(_) => JStr("[object Object]1")
  }

  /** The object literal of a history entry: its defined properties. */
  function Defined(kvs: seq<(string, Option<Json>)>): (d: Template)
    ensures forall k :: Lookup(d, k).Some? ==> exists i :: 0 <= i < |kvs| && kvs[i].0 == k
  {
    if kvs == [] then []
    else if kvs[0].1.Some? then [(kvs[0].0, kvs[0].1.value)] + Defined(kvs[1..])
    else Defined(kvs[1..])
  }

  /** `{ content, version, createdAt: updatedAt || createdAt }` of the template. */
  function HistoryEntry(t: Template): Template {
    Defined([("content", Lookup(t, "content")), ("version", Lookup(t, "version")),
             ("createdAt", Or(Lookup(t, "updatedAt"), Lookup(t, "createdAt")))])
  }

  /** `...(t.history || [])`: the elements spread into the new history. */
  function OldHistory(t: Template): Result<seq<Json>> {
    var h := Lookup(t, "history");
    if Falsy(h) then Ok([])
    else
      match h.value
      case JArr(items) => Ok(items)
      case JStr(s) => Ok(seq(|s|, i requires 0 <= i < |s| => JStr([s[i]])))
      case _ => Err("history is not iterable")
  }

  /** The update both `handleApplyDraft` and `handleRestoreVersion` make:
      the new content, the next version, and the old state at the head of
      the history. */
  function VersionUpdates(t: Template, content: Option<Json>): Result<Dict<string, Option<Json>>> {
    var previous := OldHistory(t);
    if previous.Err? then Err(previous.error)
    else Ok([("content", content), ("version", Some(NextVersion(Lookup(t, "version")))),
             ("history", Some(JArr([JObj(HistoryEntry(t))] + previous.value)))])
  }

  /** The editor state the two handlers work on. */
  datatype Editor = Editor(templates: seq<Template>, activeId: Option<Json>, drafts: Dict<string, Json>)

  /** `drafts[activeTemplateId]` looks up `String(activeTemplateId)`. */
  function DraftKey(activeId: Option<Json>): string {
    if activeId.None? then "undefined" else JsString(activeId.value)
  }

  /** Versioning the active template to `content`, then dropping its draft. */
  function NewVersion(e: Editor, active: Template, content: Option<Json>, now: string): Result<Editor> {
    var updates := VersionUpdates(active, content);
    if updates.Err? then Err(updates.error)
    else Ok(Editor(UpdateTemplate(e.templates, Id(active), updates.value, now), e.activeId,
                   Remove(e.drafts, DraftKey(e.activeId))))
  }

  /** `handleApplyDraft`: nothing without an active template or a draft. */
  function ApplyDraft(e: Editor, now: string): Result<Editor> {
    var draft := Lookup(e.drafts, DraftKey(e.activeId));
    var active := ActiveTemplate(e.templates, e.activeId);
    if active.None? || draft.None? then Ok(e)
    else NewVersion(e, active.value, draft, now)
  }

  /** `handleRestoreVersion(historyEntry)`: nothing without an active template. */
  function RestoreVersion(e: Editor, historyEntry: Template, now: string): Result<Editor> {
    var active := ActiveTemplate(e.templates, e.activeId);
    if active.None? then Ok(e)
    else NewVersion(e, active.value, Lookup(historyEntry, "content"), now)
  }

  lemma VersionUpdatesDistinct(t: Template, content: Option<Json>)
    requires VersionUpdates(t, content).Ok?
    ensures DistinctKeys(VersionUpdates(t, content).value)
  {
  }

  /** Versioning gives the active template the new content and the next
      version, puts its previous content, version and time at the head of
      its old history, drops the active draft, and changes no other
      template and no other draft. */
  lemma NewVersionMeaning(e: Editor, content: Option<Json>, now: string, i: nat, k: string)
    requires ActiveTemplate(e.templates, e.activeId).Some?
    requires var active := ActiveTemplate(e.templates, e.activeId).value;
             NewVersion(e, active, content, now).Ok?
    requires i < |e.templates|
    ensures var active := ActiveTemplate(e.templates, e.activeId).value;
            var e' := NewVersion(e, active, content, now).value;
            |e'.templates| == |e.templates| && e'.activeId == e.activeId &&
            (HasId(e.templates[i], e.activeId) ==>
               Lookup(e'.templates[i], "content") == content &&
               Lookup(e'.templates[i], "version") == Some(NextVersion(Lookup(active, "version"))) &&
               Lookup(e'.templates[i], "history") == Some(JArr([JObj(HistoryEntry(active))] + OldHistory(active).value)) &&
               Lookup(e'.templates[i], "updatedAt") == Some(JStr(now))) &&
            (!HasId(e.templates[i], e.activeId) ==> e'.templates[i] == e.templates[i]) &&
            Lookup(e'.drafts, DraftKey(e.activeId)).None? &&
            (k != DraftKey(e.activeId) ==> Lookup(e'.drafts, k) == Lookup(e.drafts, k))
  {
    var active := ActiveTemplate(e.templates, e.activeId).value;
    var updates := VersionUpdates(active, content).value;
    assert updates == [("content", content), ("version", Some(NextVersion(Lookup(active, "version")))),
                       ("history", Some(JArr([JObj(HistoryEntry(active))] + OldHistory(active).value)))];
    assert Lookup(updates, "content") == Some(content);
    assert Lookup(updates, "version") == Some(Some(NextVersion(Lookup(active, "version"))));
    assert Lookup(updates[2..], "history") == Some(updates[2].1);
    assert Lookup(updates[1..], "history") == Lookup(updates[1..][1..], "history") by {
      assert updates[1..][1..] == updates[2..];
    }
    assert Lookup(updates, "history") == Some(Some(JArr([JObj(HistoryEntry(active))] + OldHistory(active).value)));
    assert Id(active) == e.activeId;
    if HasId(e.templates[i], e.activeId) {
      UpdateTemplateMeaning(e.templates, Id(active), updates, now, i, "content");
      UpdateTemplateMeaning(e.templates, Id(active), updates, now, i, "version");
      UpdateTemplateMeaning(e.templates, Id(active), updates, now, i, "history");
      UpdateTemplateMeaning(e.templates, Id(active), updates, now, i, "updatedAt");
    }
    LookupRemove(e.drafts, DraftKey(e.activeId), DraftKey(e.activeId));
    LookupRemove(e.drafts, DraftKey(e.activeId), k);
  }

  /** Both handlers do nothing without an active template, and applying
      does nothing without a draft; otherwise applying versions the active
      template to the draft, and restoring versions it to the entry's
      content, recording the previous state as `NewVersionMeaning` says. */
  lemma VersionHandlers(e: Editor, historyEntry: Template, now: string)
    ensures ActiveTemplate(e.templates, e.activeId).None? ==>
              ApplyDraft(e, now) == Ok(e) && RestoreVersion(e, historyEntry, now) == Ok(e)
    ensures Lookup(e.drafts, DraftKey(e.activeId)).None? ==> ApplyDraft(e, now) == Ok(e)
    ensures ActiveTemplate(e.templates, e.activeId).Some? && Lookup(e.drafts, DraftKey(e.activeId)).Some? ==>
              ApplyDraft(e, now) == NewVersion(e, ActiveTemplate(e.templates, e.activeId).value, Lookup(e.drafts, DraftKey(e.activeId)), now)
    ensures ActiveTemplate(e.templates, e.activeId).Some? ==>
              RestoreVersion(e, historyEntry, now) == NewVersion(e, ActiveTemplate(e.templates, e.activeId).value, Lookup(historyEntry, "content"), now)
  {
  }

  /** The tag-menu toggle: the active template's `tags || []` with `path`
      toggled. A non-array `tags` makes `includes`, `filter` or the spread
      behave as JavaScript does on it. */
  function ToggledTags(tags: Option<Json>, path: string): Result<seq<Json>> {
    if Falsy(tags) then Ok(Toggle([], JStr(path)))
    else
      match tags.value
      case JArr(items) => Ok(Toggle(items, JStr(path)))
      case JStr(s) =>
        if Contains(s, path) then Err("currentTags.filter is not a function")
        else Ok(seq(|s|, i requires 0 <= i < |s| => JStr([s[i]])) + [JStr(path)])
      case _ => Err("currentTags.includes is not a function")
  }

  function TagMenuToggle(templates: seq<Template>, activeId: Option<Json>, path: string, now: string): Result<seq<Template>> {
    var active := ActiveTemplate(templates, activeId);
    if active.None? then Err("Cannot read properties of null (reading 'tags')")
    else
      var tags := ToggledTags(Lookup(active.value, "tags"), path);
      if tags.Err? then Err(tags.error)
      else Ok(UpdateTemplate(templates, Id(active.value), [("tags", Some(JArr(tags.value)))], now))
  }

  /** On a template whose tags are a list, the path's membership flips,
      every other tag stays, and no other template changes. */
  lemma TagMenuToggleMeaning(templates: seq<Template>, activeId: Option<Json>, path: string, now: string, i: nat)
    requires ActiveTemplate(templates, activeId).Some?
    requires var tags := Lookup(ActiveTemplate(templates, activeId).value, "tags");
             tags.Some? && tags.value.JArr?
    requires i < |templates|
    ensures var items := Lookup(ActiveTemplate(templates, activeId).value, "tags").value.items;
            var r := TagMenuToggle(templates, activeId, path, now);
            r.Ok? && |r.value| == |templates| &&
            (HasId(templates[i], activeId) ==> Lookup(r.value[i], "tags") == Some(JArr(Toggle(items, JStr(path))))) &&
            (!HasId(templates[i], activeId) ==> r.value[i] == templates[i])
  {
    var active := ActiveTemplate(templates, activeId).value;
    var items := Lookup(active, "tags").value.items;
    if HasId(templates[i], activeId) {
      UpdateTemplateMeaning(templates, Id(active), [("tags", Some(JArr(Toggle(items, JStr(path)))))], now, i, "tags");
    }
  }

  // ---------------------------------------------------------------------
  // displayTemplates filters

  /** `array.filter(keep)` where `keep` may throw: the first failure ends it. */
  function FilterOrFail<T(!new)>(s: seq<T>, keep: T -> Result<bool>): (r: Result<seq<T>>)
  {
    if s == [] then Ok([])
    else
      var k := keep(s[0]);
      if k.Err? then Err(k.error)
      else
        var rest := FilterOrFail(s[1..], keep);
        if rest.Err? then rest
        else if k.value then Ok([s[0]] + rest.value) else rest
  }

  /** A filter that finishes keeps exactly the elements it accepts, in their
      order, and so never adds one; it fails exactly when some element's
      test throws, with the first such error. */
  lemma {:induction false} FilterOrFailMeaning<T(!new)>(s: seq<T>, keep: T -> Result<bool>)
    ensures FilterOrFail(s, keep).Ok? <==> forall i :: 0 <= i < |s| ==> keep(s[i]).Ok?
    ensures FilterOrFail(s, keep).Ok? ==> FilterOrFail(s, keep).value == Filter(s, t => keep(t) == Ok(true))
    ensures FilterOrFail(s, keep).Err? ==>
              exists i :: 0 <= i < |s| && keep(s[i]).Err? && FilterOrFail(s, keep).error == keep(s[i]).error &&
                          forall j :: 0 <= j < i ==> keep(s[j]).Ok?
  {
    if s != [] {
      FilterOrFailMeaning(s[1..], keep);
      if FilterOrFail(s, keep).Err? && keep(s[0]).Ok? {
        var i :| 0 <= i < |s[1..]| && keep(s[1..][i]).Err? && FilterOrFail(s[1..], keep).error == keep(s[1..][i]).error &&
                 forall j :: 0 <= j < i ==> keep(s[1..][j]).Ok?;
        assert s[i + 1] == s[1..][i];
        forall j | 0 <= j < i + 1
          ensures keep(s[j]).Ok?
        {
          if j > 0 { assert s[j] == s[1..][j - 1]; }
        }
      }
      if forall i :: 0 <= i < |s| ==> keep(s[i]).Ok? {
        assert forall i :: 0 <= i < |s[1..]| ==> s[1..][i] == s[i + 1];
      } else if keep(s[0]).Ok? {
        var i :| 0 <= i < |s| && !keep(s[i]).Ok?;
        assert s[1..][i - 1] == s[i];
      }
    }
  }

  /** The search test: `getLocalized(t.name, language)` lower-cased
      contains the lower-cased query; a template without a truthy name
      fails it, and a name that localizes to a non-string throws. */
  function MatchesQuery(t: Template, query: string, language: string): Result<bool> {
    var name := Lookup(t, "name");
    if Falsy(name) then Ok(false)
    else
      var localized := GetLocalized(name, language);
      if !localized.JStr? then Err("templateName.toLowerCase is not a function")
      else Ok(Contains(ToLower(localized.s), ToLower(query)))
  }

  /** `selectedTags.some(filterTag => templateTag.startsWith(filterTag))` */
  predicate UnderSome(tag: string, selectedTags: seq<string>) {
    exists i :: 0 <= i < |selectedTags| && StartsWith(tag, selectedTags[i])
  }

  /** `t.tags.some(...)` over a list, stopping at the first match. */
  function SomeTagUnder(items: seq<Json>, selectedTags: seq<string>): (r: Result<bool>)
    ensures r == Ok(true) ==> exists i :: 0 <= i < |items| && items[i].JStr? && UnderSome(items[i].s, selectedTags)
    ensures r.Ok? || exists i :: 0 <= i < |items| && !items[i].JStr?
  {
    if items == [] then Ok(false)
    else if !items[0].JStr? then Err("templateTag.startsWith is not a function")
    else if UnderSome(items[0].s, selectedTags) then Ok(true)
    else SomeTagUnder(items[1..], selectedTags)
  }

  /** Some string tag starts with a selected tag, and every tag before it is
      a string (so the scan reaches it without throwing). */
  predicate HasTagUnder(items: seq<Json>, selectedTags: seq<string>) {
    exists i :: 0 <= i < |items| && items[i].JStr? && UnderSome(items[i].s, selectedTags)
                && forall j :: 0 <= j < i ==> items[j].JStr?
  }

  /** The scan of a list passes exactly when it reaches a tag under a
      selected one, and finishes without a match exactly when every tag is a
      string under none of them; anything else throws. */
  lemma {:induction false} SomeTagUnderExact(items: seq<Json>, selectedTags: seq<string>)
    ensures SomeTagUnder(items, selectedTags) == Ok(true) <==> HasTagUnder(items, selectedTags)
    ensures SomeTagUnder(items, selectedTags) == Ok(false) <==>
            forall i :: 0 <= i < |items| ==> items[i].JStr? && !UnderSome(items[i].s, selectedTags)
  {
    if items != [] {
      var rest := items[1..];
      SomeTagUnderExact(rest, selectedTags);
      assert forall i :: 1 <= i < |items| ==> items[i] == rest[i - 1];
      if items[0].JStr? && !UnderSome(items[0].s, selectedTags) {
        if HasTagUnder(rest, selectedTags) {
          var i :| 0 <= i < |rest| && rest[i].JStr? && UnderSome(rest[i].s, selectedTags)
                   && forall j :: 0 <= j < i ==> rest[j].JStr?;
          assert items[i + 1] == rest[i];
          assert forall j :: 1 <= j < i + 1 ==> items[j] == rest[j - 1];
        }
        if HasTagUnder(items, selectedTags) {
          var i :| 0 <= i < |items| && items[i].JStr? && UnderSome(items[i].s, selectedTags)
                   && forall j :: 0 <= j < i ==> items[j].JStr?;
          assert i > 0 && rest[i - 1] == items[i];
          assert forall j :: 0 <= j < i - 1 ==> rest[j] == items[j + 1];
        }
      } else if items[0].JStr? {
        assert items[0].JStr? && UnderSome(items[0].s, selectedTags);
      }
    }
  }

  /** The tag test: the template has a tag starting with a selected tag. */
  function MatchesTags(t: Template, selectedTags: seq<string>): (r: Result<bool>)
    ensures r == Ok(true) ==>
              Lookup(t, "tags").Some? && Lookup(t, "tags").value.JArr? &&
              (exists i :: 0 <= i < |Lookup(t, "tags").value.items| &&
                 Lookup(t, "tags").value.items[i].JStr? && UnderSome(Lookup(t, "tags").value.items[i].s, selectedTags))
  {
    var tags := Lookup(t, "tags");
    if Falsy(tags) then Ok(false)
    else
      match tags.value
      case JArr(items) => if items == [] then Ok(false) else SomeTagUnder(items, selectedTags)
      case JObj(fields) => if Lookup(fields, "length") == Some(JNum(0)) then Ok(false) else Err("t.tags.some is not a function")
      case _ => Err("t.tags.some is not a function")
  }

  /** `displayTemplates` before sorting: the search filter when there is a
      query, then the tag filter when tags are selected. */
  function DisplayTemplates(templates: seq<Template>, query: string, selectedTags: seq<string>, language: string): Result<seq<Template>> {
    var searched := if query != [] then FilterOrFail(templates, t => MatchesQuery(t, query, language)) else Ok(templates);
    if searched.Err? || selectedTags == [] then searched
    else FilterOrFail(searched.value, t => MatchesTags(t, selectedTags))
  }

  /** The tag test passes exactly when the tags are a list whose scan
      reaches a tag under a selected one. */
  lemma MatchesTagsExact(t: Template, selectedTags: seq<string>)
    ensures MatchesTags(t, selectedTags) == Ok(true) <==>
            Lookup(t, "tags").Some? && Lookup(t, "tags").value.JArr?
            && HasTagUnder(Lookup(t, "tags").value.items, selectedTags)
  {
    var tags := Lookup(t, "tags");
    if tags.Some? && tags.value.JArr? {
      SomeTagUnderExact(tags.value.items, selectedTags);
    }
  }

  /** Filtering never adds a template: what is displayed is a subsequence
      of the templates, each passing the search and the tag test; and every
      template that passes both tests is displayed. */
  lemma DisplayTemplatesMeaning(templates: seq<Template>, query: string, selectedTags: seq<string>, language: string)
    requires DisplayTemplates(templates, query, selectedTags, language).Ok?
    ensures var r := DisplayTemplates(templates, query, selectedTags, language).value;
            |r| <= |templates| &&
            forall t :: t in r ==> t in templates &&
                                   (query != [] ==> MatchesQuery(t, query, language) == Ok(true)) &&
                                   (selectedTags != [] ==> MatchesTags(t, selectedTags) == Ok(true))
    ensures var r := DisplayTemplates(templates, query, selectedTags, language).value;
            forall t :: (t in templates && (query != [] ==> MatchesQuery(t, query, language) == Ok(true)) &&
                         (selectedTags != [] ==> MatchesTags(t, selectedTags) == Ok(true))) ==> t in r
  {
    var searchKeep := (t: Template) => MatchesQuery(t, query, language);
    var tagKeep := (t: Template) => MatchesTags(t, selectedTags);
    var searched := if query != [] then FilterOrFail(templates, searchKeep) else Ok(templates);
    if query != [] {
      FilterOrFailMeaning(templates, searchKeep);
    }
    if selectedTags != [] {
      FilterOrFailMeaning(searched.value, tagKeep);
    }
  }

  // ---------------------------------------------------------------------
  // handleCopy

  /** `parseInt(sk.split('-').pop(), 10)`, with `NaN` counted as 0. */
  function Position(sk: string): int {
    var p := ParseInt(LastSegment(sk, '-'));
    if p.None? then 0 else p.value
  }

  /** Stable insertion of `x` before the first element with a larger or
      equal position. */
  function InsertBy(x: string, sorted: seq<string>, pos: string -> int): (r: seq<string>)
    ensures multiset(r) == multiset(sorted) + multiset{x}
  {
    if sorted == [] || pos(x) <= pos(sorted[0]) then [x] + sorted
    else
      assert sorted == [sorted[0]] + sorted[1..];
      [sorted[0]] + InsertBy(x, sorted[1..], pos)
  }

  /** Insertion sort by `pos`, stable like `Array.prototype.sort`. */
  function SortBy(keys: seq<string>, pos: string -> int): (r: seq<string>)
    ensures multiset(r) == multiset(keys)
  {
    if keys == [] then []
    else
      assert keys == [keys[0]] + keys[1..];
      InsertBy(keys[0], SortBy(keys[1..], pos), pos)
  }

  predicate SortedBy(s: seq<string>, pos: string -> int) {
    forall i, j :: 0 <= i < j < |s| ==> pos(s[i]) <= pos(s[j])
  }

  lemma {:induction false} InsertSorted(x: string, sorted: seq<string>, pos: string -> int)
    requires SortedBy(sorted, pos)
    ensures SortedBy(InsertBy(x, sorted, pos), pos)
  {
    if sorted != [] && pos(x) > pos(sorted[0]) {
      InsertSorted(x, sorted[1..], pos);
      var rest := InsertBy(x, sorted[1..], pos);
      forall j | 0 < j < |[sorted[0]] + rest|
        ensures pos(sorted[0]) <= pos(([sorted[0]] + rest)[j])
      {
        var y := rest[j - 1];
        assert y in multiset(rest);
        if y != x {
          assert y in multiset(sorted[1..]);
          assert y in sorted[1..];
        }
      }
    }
  }

  /** The sorted keys are ordered by position, and none is lost or added. */
  lemma {:induction false} SortBySorted(keys: seq<string>, pos: string -> int)
    ensures SortedBy(SortBy(keys, pos), pos)
    ensures multiset(SortBy(keys, pos)) == multiset(keys)
  {
    if keys != [] {
      SortBySorted(keys[1..], pos);
      InsertSorted(keys[0], SortBy(keys[1..], pos), pos);
    }
  }

  /** `selectionKeys.sort(...)`: by trailing position. */
  function SortByPosition(keys: seq<string>): seq<string> {
    SortBy(keys, Position)
  }

  /** What the replacement callback returns for the `occurrence`-th match
      `hit` of `key`: the option under the `occurrence`-th sorted selection
      key, or the match itself. For a key that names an inherited member of
      `Object.prototype` the occurrence counter holds a string, which picks
      no selection key. */
  function Choice(selections: Option<Dict<string, Json>>, banks: Dict<string, Json>, id: string, language: string,
                  key: string, occurrence: nat, hit: string): string
  {
    if selections.None? || key in PrototypeNames then hit
    else
      var keys := SortByPosition(SelectionKeys(selections.value, id, key));
      if occurrence >= |keys| then hit
      else
        var index := Lookup(selections.value, keys[occurrence]);
        var option := if index.Some? then OptionOf(banks, key, index.value) else None;
        if option.None? then hit else OptionText(option.value, language)
  }

  /** How many matches of `key` the pieces hold. */
  function Count(ps: seq<Piece>, key: string): nat {
    if ps == [] then 0
    else Count(ps[..|ps| - 1], key) + (if ps[|ps| - 1].Hit? && HitKey(ps[|ps| - 1].text) == key then 1 else 0)
  }

  /** The text after replacement: each literal kept, each match replaced by
      the choice for its key and its number among the earlier matches of
      the same key. */
  function Copied(ps: seq<Piece>, choose: (string, nat, string) -> string): string {
    if ps == [] then ""
    else
      var init := ps[..|ps| - 1];
      var last := ps[|ps| - 1];
      Copied(init, choose) + (if last.Lit? then [last.c] else choose(HitKey(last.text), Count(init, HitKey(last.text)), last.text))
  }

  /** `handleCopy`'s `content.replace(...)`, with the `keyOccurrenceIndex`
      counter. */
  method CopyContent(content: string, selections: Option<Dict<string, Json>>, banks: Dict<string, Json>,
                     id: string, language: string) returns (finalContent: string)
    ensures finalContent == Copied(Scan(content, VarMatch), (k: string, n: nat, h: string) => Choice(selections, banks, id, language, k, n, h))
  {
    var ps := Scan(content, VarMatch);
    var choose := (k: string, n: nat, h: string) => Choice(selections, banks, id, language, k, n, h);
    finalContent := ReplaceMatches(ps, choose, selections.Some?);
  }

  /** The loop of `replace` over the scanned pieces, calling `choose` on
      each match with its occurrence number; without selections the
      callback returns the match before it touches the counter. */
  method ReplaceMatches(ps: seq<Piece>, choose: (string, nat, string) -> string, counting: bool)
    returns (finalContent: string)
    requires !counting ==> forall k, n, h :: choose(k, n, h) == h
    ensures finalContent == Copied(ps, choose)
  {
    var keyOccurrenceIndex: map<string, nat> := map[];
    finalContent := "";
    var i := 0;
    while i < |ps|
      invariant 0 <= i <= |ps|
      invariant finalContent == Copied(ps[..i], choose)
      invariant counting ==> CountsMatch(keyOccurrenceIndex, ps[..i])
    {
      finalContent, keyOccurrenceIndex := CopyPiece(ps, i, choose, counting, finalContent, keyOccurrenceIndex);
      i := i + 1;
    }
    assert ps[..i] == ps;
  }

  /** One pass of the replacement: the piece at `i` copied or replaced, and
      the counter brought up to the prefix that includes it. */
  method CopyPiece(ps: seq<Piece>, i: nat, choose: (string, nat, string) -> string, counting: bool,
                   text: string, counts: map<string, nat>)
    returns (finalContent: string, keyOccurrenceIndex: map<string, nat>)
    requires i < |ps|
    requires !counting ==> forall k, n, h :: choose(k, n, h) == h
    requires text == Copied(ps[..i], choose)
    requires counting ==> CountsMatch(counts, ps[..i])
    ensures finalContent == Copied(ps[..i + 1], choose)
    ensures counting ==> CountsMatch(keyOccurrenceIndex, ps[..i + 1])
  {
    finalContent, keyOccurrenceIndex := text, counts;
    var piece := ps[i];
    CopiedStep(ps, i, choose);
    if piece.Lit? {
      if counting {
        CountsStep(keyOccurrenceIndex, ps, i);
      }
      finalContent := finalContent + [piece.c];
    } else {
      var key := HitKey(piece.text);
      if !counting {
        finalContent := finalContent + piece.text;
      } else {
        var occurrence := Occurrences(keyOccurrenceIndex, key);
        assert occurrence == Count(ps[..i], key);
        CountsStep(keyOccurrenceIndex, ps, i);
        ghost var bumped := Bump(keyOccurrenceIndex, key);
        keyOccurrenceIndex := keyOccurrenceIndex[key := occurrence + 1];
        assert keyOccurrenceIndex == bumped;
        finalContent := finalContent + choose(key, occurrence, piece.text);
      }
    }
  }

  /** `keyOccurrenceIndex[key] ?? 0` */
  function Occurrences(counts: map<string, nat>, key: string): nat {
    if key in counts then counts[key] else 0
  }

  /** The counter holds, for every key, its number of matches in `ps`. */
  ghost predicate CountsMatch(counts: map<string, nat>, ps: seq<Piece>) {
    forall k :: Occurrences(counts, k) == Count(ps, k)
  }

  /** `keyOccurrenceIndex[key] = occurrence + 1` */
  function Bump(counts: map<string, nat>, key: string): map<string, nat> {
    counts[key := Occurrences(counts, key) + 1]
  }

  /** The counter after one more piece matches the counts of the longer
      prefix: a literal leaves it, a match adds one to its key. */
  lemma CountsStep(counts: map<string, nat>, ps: seq<Piece>, i: nat)
    requires i < |ps|
    requires CountsMatch(counts, ps[..i])
    ensures ps[i].Lit? ==> CountsMatch(counts, ps[..i + 1])
    ensures ps[i].Hit? ==> CountsMatch(Bump(counts, HitKey(ps[i].text)), ps[..i + 1])
  {
    assert ps[..i + 1][..i] == ps[..i];
    assert ps[..i + 1][i] == ps[i];
    forall k
      ensures Count(ps[..i + 1], k) == Count(ps[..i], k) + if ps[i].Hit? && HitKey(ps[i].text) == k then 1 else 0
    {
    }
    if ps[i].Hit? {
      var key := HitKey(ps[i].text);
      forall k
        ensures Occurrences(Bump(counts, key), k) == Count(ps[..i + 1], k)
      {
        assert Occurrences(counts, k) == Count(ps[..i], k);
      }
    }
  }

  /** One more piece: the text grows by that piece's output. */
  lemma CopiedStep(ps: seq<Piece>, i: nat, choose: (string, nat, string) -> string)
    requires i < |ps|
    ensures Copied(ps[..i + 1], choose) == Copied(ps[..i], choose) +
              if ps[i].Lit? then [ps[i].c] else choose(HitKey(ps[i].text), Count(ps[..i], HitKey(ps[i].text)), ps[i].text)
  {
    assert ps[..i + 1][..i] == ps[..i];
    assert ps[..i + 1][i] == ps[i];
  }

  /** A choice that keeps every match leaves the text as it was. */
  lemma {:induction false} CopiedIdentity(ps: seq<Piece>, choose: (string, nat, string) -> string)
    requires forall k, n, h :: choose(k, n, h) == h
    ensures Copied(ps, choose) == Flatten(ps)
  {
    if ps != [] {
      CopiedIdentity(ps[..|ps| - 1], choose);
      FlattenSnoc(ps[..|ps| - 1], ps[|ps| - 1]);
      assert ps[..|ps| - 1] + [ps[|ps| - 1]] == ps;
    }
  }

  lemma {:induction false} FlattenSnoc(ps: seq<Piece>, p: Piece)
    ensures Flatten(ps + [p]) == Flatten(ps) + PieceText(p)
  {
    if ps == [] {
      assert [p][1..] == [];
    } else {
      assert (ps + [p])[1..] == ps[1..] + [p];
      FlattenSnoc(ps[1..], p);
    }
  }

  /** Without a selection map the copied text is the content itself. */
  lemma CopyWithoutSelections(content: string, banks: Dict<string, Json>, id: string, language: string)
    ensures Copied(Scan(content, VarMatch), (k: string, n: nat, h: string) => Choice(None, banks, id, language, k, n, h)) == content
  {
    CopiedIdentity(Scan(content, VarMatch), (k: string, n: nat, h: string) => Choice(None, banks, id, language, k, n, h));
    ScanFlatten(content, VarMatch);
  }

  /** Two placeholders in a row scan as two matches. */
  lemma ScanTwoPlaceholders(key: string)
    requires IsKey(key)
    ensures Scan(Placeholder(key) + Placeholder(key), VarMatch) == [Hit(Placeholder(key)), Hit(Placeholder(key))]
  {
    var p := Placeholder(key);
    var s := p + p;
    assert |p| == |key| + 4;
    VarMatchOfPlaceholder(key, p);
    assert s[..|p|] == p && s[|p|..] == p;
    assert Scan(s, VarMatch) == [Hit(p)] + Scan(p, VarMatch);
    VarMatchOfPlaceholder(key, "");
    assert p + "" == p;
    assert p[..|p|] == p && p[|p|..] == [];
    assert Scan(p, VarMatch) == [Hit(p)] + Scan([], VarMatch);
  }

  /** Two occurrences of one key take the first and the second selection
      key in position order. */
  lemma CopyTwoOccurrences(key: string, choose: (string, nat, string) -> string)
    requires IsKey(key)
    ensures Copied(Scan(Placeholder(key) + Placeholder(key), VarMatch), choose) ==
            choose(key, 0, Placeholder(key)) + choose(key, 1, Placeholder(key))
  {
    var p := Placeholder(key);
    ScanTwoPlaceholders(key);
    var ps := [Hit(p), Hit(p)];
    assert p[2..|p| - 2] == key;
    assert HitKey(p) == key;
    assert ps[..1] == [Hit(p)];
    assert [Hit(p)][..0] == [];
    assert Count([Hit(p)], key) == 1;
    assert Copied([Hit(p)], choose) == choose(key, 0, p);
  }

  // ---------------------------------------------------------------------
  // Directory open states

  /** `isOpenDirectory(path)`: all open before the first toggle (`None`),
      afterwards open only when recorded so. */
  function IsOpenDirectory(open: Option<Dict<string, bool>>, path: string): bool {
    if open.None? then true else Lookup(open.value, path).GetOr(false)
  }

  /** `flatTags.reduce((acc, p) => ({ ...acc, [p]: true }), {})` */
  function AllOpen(flatTags: seq<string>): Dict<string, bool>
    decreases |flatTags|
  {
    if flatTags == [] then [] else Put(AllOpen(flatTags[..|flatTags| - 1]), flatTags[|flatTags| - 1], true)
  }

  lemma {:induction false} AllOpenLookup(flatTags: seq<string>, p: string)
    ensures Lookup(AllOpen(flatTags), p) == if p in flatTags then Some(true) else None
    decreases |flatTags|
  {
    if flatTags != [] {
      var init := flatTags[..|flatTags| - 1];
      AllOpenLookup(init, p);
      LookupPut(AllOpen(init), flatTags[|flatTags| - 1], true, p);
      assert flatTags == init + [flatTags[|flatTags| - 1]];
    }
  }

  /** `toggleDirectory(path)`: the new open states. */
  function ToggleDirectory(open: Option<Dict<string, bool>>, flatTags: seq<string>, path: string): Dict<string, bool> {
    var base := if open.None? then AllOpen(flatTags) else open.value;
    Put(base, path, !Lookup(base, path).GetOr(false))
  }

  /** After the first toggle a directory is open exactly when it is a
      flattened tag path other than the toggled one, or is the toggled path
      and not a flattened tag path; afterwards a toggle flips the toggled
      directory alone. */
  lemma ToggleDirectoryMeaning(open: Option<Dict<string, bool>>, flatTags: seq<string>, path: string, q: string)
    ensures open.None? ==>
              IsOpenDirectory(Some(ToggleDirectory(open, flatTags, path)), q) == if q == path then q !in flatTags else q in flatTags
    ensures open.Some? ==>
              IsOpenDirectory(Some(ToggleDirectory(open, flatTags, path)), q) ==
              if q == path then !IsOpenDirectory(open, q) else IsOpenDirectory(open, q)
  {
    var base := if open.None? then AllOpen(flatTags) else open.value;
    LookupPut(base, path, !Lookup(base, path).GetOr(false), q);
    AllOpenLookup(flatTags, q);
    AllOpenLookup(flatTags, path);
  }
}
