/** The tag tree of the prompt editor: nodes with a name and optional
    children, addressed by paths of names. Covers `removeNodeByPath` and
    `handleAddTopLevel` (TagManager.jsx), `findNode`,
    `getDescendantsAndSelf`, `handleTagSelection` and `getButtonText`
    (TagFilterDropdown.jsx) and `flatTags` (App.jsx). */
module TagTree {
  import opened Wrappers
  import opened Text
  import opened Lists

  /** A node of the tree. */
  datatype Tag = Tag(name: string, children: Children)

  /** The `children` property: `Absent` when it is missing (falsy), and
      `Kids([])` for an empty array (truthy). */
  datatype Children = Absent | Kids(nodes: seq<Tag>)

  // ---------------------------------------------------------------------
  // findNode

  /** `nodes.find(n => n.name === name)` */
  function Find(nodes: seq<Tag>, name: string): (r: Option<Tag>)
    ensures r.Some? ==> r.value in nodes && r.value.name == name
    ensures r.None? <==> forall i :: 0 <= i < |nodes| ==> nodes[i].name != name
  {
    if nodes == [] then None
    else if nodes[0].name == name then Some(nodes[0])
    else Find(nodes[1..], name)
  }

  /** `findNode(nodes, pathParts)`: `None` stands for both `null` and `undefined`. */
  function FindNode(nodes: seq<Tag>, path: seq<string>): (r: Option<Tag>)
    ensures path == [] ==> r.None?
    ensures r.Some? ==> r.value.name == path[|path| - 1]
    decreases path
  {
    if path == [] then None
    else
      var node := Find(nodes, path[0]);
      if node.None? || |path| == 1 then node
      else if node.value.children.Absent? then None
      else FindNode(node.value.children.nodes, path[1..])
  }

  /** Descending through a node that has no `children` property gives `null`,
      even when the next name exists nowhere; an empty children array gives
      `undefined` through the failed `find`. Both are "not found". */
  lemma FindNodeThroughLeaf(nodes: seq<Tag>, path: seq<string>)
    requires |path| >= 2 && Find(nodes, path[0]).Some?
    requires Find(nodes, path[0]).value.children.Absent? || Find(nodes, path[0]).value.children == Kids([])
    ensures FindNode(nodes, path).None?
  {
  }

  // ---------------------------------------------------------------------
  // removeNodeByPath

  function RemoveByPath(nodes: seq<Tag>, path: seq<string>): (r: seq<Tag>)
    decreases path, 0
  {
    if path == [] then nodes
    else if |path| == 1 then Filter(nodes, (n: Tag) => n.name != path[0])
    else RemoveEach(nodes, path[0], path[1..])
  }

  /** The `map` of a longer path: recurse into the nodes named `head` that
      have children, keep every other node. */
  function RemoveEach(nodes: seq<Tag>, head: string, tail: seq<string>): (r: seq<Tag>)
    requires tail != []
    ensures |r| == |nodes|
    ensures forall i :: 0 <= i < |nodes| ==> r[i].name == nodes[i].name
    decreases tail, |nodes|
  {
    if nodes == [] then []
    else
      var n := nodes[0];
      var n' := if n.name == head && n.children.Kids? then n.(children := Kids(RemoveByPath(n.children.nodes, tail))) else n;
      [n'] + RemoveEach(nodes[1..], head, tail)
  }

  /** Removal along a longer path touches the nodes named `head` that have
      children, and only their children; everything else is kept as it was. */
  lemma {:induction false} RemoveEachShape(nodes: seq<Tag>, head: string, tail: seq<string>, i: int)
    requires tail != [] && 0 <= i < |nodes|
    ensures var r := RemoveEach(nodes, head, tail);
            if nodes[i].name == head && nodes[i].children.Kids?
            then r[i] == nodes[i].(children := Kids(RemoveByPath(nodes[i].children.nodes, tail)))
            else r[i] == nodes[i]
    decreases |nodes|
  {
    if i > 0 {
      RemoveEachShape(nodes[1..], head, tail, i - 1);
    }
  }

  /** An empty path changes nothing; a one-name path drops exactly the
      top-level nodes of that name; a longer path keeps the top-level length
      and names. */
  lemma RemoveByPathShape(nodes: seq<Tag>, path: seq<string>)
    ensures path == [] ==> RemoveByPath(nodes, path) == nodes
    ensures |path| == 1 ==> forall n :: n in RemoveByPath(nodes, path) <==> n in nodes && n.name != path[0]
    ensures |path| == 1 ==> |RemoveByPath(nodes, path)| <= |nodes|
    ensures |path| > 1 ==> (|RemoveByPath(nodes, path)| == |nodes| &&
              forall i :: 0 <= i < |nodes| ==> RemoveByPath(nodes, path)[i].name == nodes[i].name)
  {
  }

  /** Once a path is removed it can no longer be found. */
  lemma {:induction false} RemoveThenFind(nodes: seq<Tag>, path: seq<string>)
    requires path != []
    ensures FindNode(RemoveByPath(nodes, path), path).None?
    decreases path
  {
    var r := RemoveByPath(nodes, path);
    if |path| == 1 {
      assert Find(r, path[0]).None?;
    } else {
      var found := Find(r, path[0]);
      if found.Some? {
        var k := FirstIndex(r, path[0]);
        RemoveEachShape(nodes, path[0], path[1..], k);
        FirstIndexSame(nodes, r, path[0]);
        if nodes[k].children.Kids? {
          RemoveThenFind(nodes[k].children.nodes, path[1..]);
        }
      }
    }
  }

  /** The position of the first node with the name. */
  function FirstIndex(nodes: seq<Tag>, name: string): (k: nat)
    requires Find(nodes, name).Some?
    ensures k < |nodes| && Find(nodes, name) == Some(nodes[k])
    ensures nodes[k].name == name && forall j :: 0 <= j < k ==> nodes[j].name != name
  {
    if nodes[0].name == name then 0 else 1 + FirstIndex(nodes[1..], name)
  }

  /** Two node lists with the same names find their first `name` at the same place. */
  lemma {:induction false} FirstIndexSame(a: seq<Tag>, b: seq<Tag>, name: string)
    requires |a| == |b| && forall i :: 0 <= i < |a| ==> a[i].name == b[i].name
    requires Find(b, name).Some?
    ensures Find(a, name).Some? && FirstIndex(a, name) == FirstIndex(b, name)
  {
    if b[0].name != name {
      FirstIndexSame(a[1..], b[1..], name);
    }
  }

  /** Removing one path leaves a path unaffected when the two part at the
      first name. */
  lemma RemoveKeepsOthers(nodes: seq<Tag>, path: seq<string>, other: seq<string>)
    requires path != [] && other != [] && other[0] != path[0]
    ensures FindNode(RemoveByPath(nodes, path), other) == FindNode(nodes, other)
  {
    var r := RemoveByPath(nodes, path);
    var name := other[0];
    if |path| == 1 {
      FindFilter(nodes, name, path[0]);
    } else {
      if Find(r, name).Some? {
        var k := FirstIndex(r, name);
        RemoveEachShape(nodes, path[0], path[1..], k);
        FirstIndexSame(nodes, r, name);
      } else if Find(nodes, name).Some? {
        FirstIndexSame(r, nodes, name);
      }
    }
  }

  /** Filtering out one name does not change where another is first found. */
  lemma {:induction false} FindFilter(nodes: seq<Tag>, name: string, gone: string)
    requires name != gone
    ensures Find(Filter(nodes, (n: Tag) => n.name != gone), name) == Find(nodes, name)
  {
    if nodes != [] {
      FindFilter(nodes[1..], name, gone);
    }
  }

  // ---------------------------------------------------------------------
  // handleAddTopLevel

  function HasTopLevel(tree: seq<Tag>, name: string): bool {
    exists i :: 0 <= i < |tree| && tree[i].name == name
  }

  /** `handleAddTopLevel` with the typed name `newTag`. */
  function AddTopLevel(tree: seq<Tag>, newTag: string): (r: seq<Tag>)
    ensures newTag == [] || HasTopLevel(tree, newTag) ==> r == tree
    ensures newTag != [] && !HasTopLevel(tree, newTag) ==> |r| == |tree| + 1 && r[..|tree|] == tree && r[|tree|..] == [Tag(newTag, Kids([]))]
  {
    if newTag != [] && !HasTopLevel(tree, newTag) then tree + [Tag(newTag, Kids([]))] else tree
  }

  /** After adding a non-empty name it is a top-level node; the new one has
      no children. */
  lemma AddTopLevelFinds(tree: seq<Tag>, newTag: string)
    requires newTag != []
    ensures FindNode(AddTopLevel(tree, newTag), [newTag]).Some?
    ensures !HasTopLevel(tree, newTag) ==> FindNode(AddTopLevel(tree, newTag), [newTag]) == Some(Tag(newTag, Kids([])))
  {
    var r := AddTopLevel(tree, newTag);
    if !HasTopLevel(tree, newTag) {
      assert r[|tree|].name == newTag;
      FindAppend(tree, Tag(newTag, Kids([])));
    } else {
      var i :| 0 <= i < |tree| && tree[i].name == newTag;
      assert r[i].name == newTag;
    }
  }

  lemma {:induction false} FindAppend(tree: seq<Tag>, t: Tag)
    requires forall i :: 0 <= i < |tree| ==> tree[i].name != t.name
    ensures Find(tree + [t], t.name) == Some(t)
  {
    if tree == [] {
    } else {
      assert (tree + [t])[1..] == tree[1..] + [t];
      FindAppend(tree[1..], t);
    }
  }

  predicate DistinctNames(tree: seq<Tag>) {
    forall i, j :: 0 <= i < j < |tree| ==> tree[i].name != tree[j].name
  }

  /** Adding never creates two top-level nodes with the same name. */
  lemma AddTopLevelDistinct(tree: seq<Tag>, newTag: string)
    requires DistinctNames(tree)
    ensures DistinctNames(AddTopLevel(tree, newTag))
  {
    var r := AddTopLevel(tree, newTag);
    if r != tree {
      forall i, j | 0 <= i < j < |r|
        ensures r[i].name != r[j].name
      {
        if j == |tree| {
          assert r[i] == tree[i];
        } else {
          assert r[i] == tree[i] && r[j] == tree[j];
        }
      }
    }
  }

  // ---------------------------------------------------------------------
  // getDescendantsAndSelf

  /** `getDescendantsAndSelf(node, path)`: `path`, then the paths of every
      descendant in preorder. */
  function DescendantsAndSelf(node: Tag, path: string): (r: seq<string>)
    ensures r != [] && r[0] == path
    decreases node, 1
  {
    if node.children.Kids? then [path] + ChildPaths(node.children.nodes, path)
    else [path]
  }

  /** The paths contributed by `children` of a node at `path`, in order. */
  function ChildPaths(children: seq<Tag>, path: string): seq<string>
    decreases children, 0
  {
    if children == [] then []
    else DescendantsAndSelf(children[0], path + "/" + children[0].name) + ChildPaths(children[1..], path)
  }

  /** The number of nodes below a node. */
  function Descendants(node: Tag): nat
    decreases node, 1
  {
    if node.children.Kids? then SubtreeCount(node.children.nodes) else 0
  }

  function SubtreeCount(nodes: seq<Tag>): nat
    decreases nodes, 0
  {
    if nodes == [] then 0 else 1 + Descendants(nodes[0]) + SubtreeCount(nodes[1..])
  }

  /** One path per node of the subtree; every path but the first lies
      strictly below `path`. */
  lemma {:induction false} DescendantsShape(node: Tag, path: string)
    ensures |DescendantsAndSelf(node, path)| == 1 + Descendants(node)
    ensures forall i :: 1 <= i < |DescendantsAndSelf(node, path)| ==>
              StartsWith(DescendantsAndSelf(node, path)[i], path + "/")
    decreases node, 1
  {
    if node.children.Kids? {
      ChildPathsShape(node.children.nodes, path);
    }
  }

  lemma {:induction false} ChildPathsShape(children: seq<Tag>, path: string)
    ensures |ChildPaths(children, path)| == SubtreeCount(children)
    ensures forall i :: 0 <= i < |ChildPaths(children, path)| ==> StartsWith(ChildPaths(children, path)[i], path + "/")
    decreases children, 0
  {
    if children != [] {
      var c := children[0];
      var p := path + "/" + c.name;
      DescendantsShape(c, p);
      ChildPathsShape(children[1..], path);
      var d := DescendantsAndSelf(c, p);
      var rest := ChildPaths(children[1..], path);
      forall i | 0 <= i < |d|
        ensures StartsWith(d[i], path + "/")
      {
        StartsWithLonger(d[i], p, path + "/");
      }
      assert ChildPaths(children, path) == d + rest;
      forall i | 0 <= i < |d + rest|
        ensures StartsWith((d + rest)[i], path + "/")
      {
        if i < |d| { assert (d + rest)[i] == d[i]; } else { assert (d + rest)[i] == rest[i - |d|]; }
      }
    }
  }

  /** Starting with a string starts with each of its prefixes. */
  lemma StartsWithLonger(s: string, p: string, q: string)
    requires StartsWith(s, p) && StartsWith(p, q)
    ensures StartsWith(s, q)
  {
    assert s[..|q|] == p[..|p|][..|q|];
  }

  lemma ChildPathsSnoc(children: seq<Tag>, c: Tag, path: string)
    ensures ChildPaths(children + [c], path) ==
            ChildPaths(children, path) + DescendantsAndSelf(c, path + "/" + c.name)
    decreases |children|
  {
    if children == [] {
      assert ([c])[1..] == [];
    } else {
      assert (children + [c])[0] == children[0] && (children + [c])[1..] == children[1..] + [c];
      ChildPathsSnoc(children[1..], c, path);
    }
  }

  /** The `forEach` that concatenates the children's lists. */
  method GetDescendantsAndSelf(node: Tag, path: string) returns (paths: seq<string>)
    ensures paths == DescendantsAndSelf(node, path)
    decreases node
  {
    paths := [path];
    if node.children.Kids? {
      var children := node.children.nodes;
      var i := 0;
      while i < |children|
        invariant 0 <= i <= |children|
        invariant paths == [path] + ChildPaths(children[..i], path)
      {
        var child := children[i];
        assert child in node.children.nodes;
        var sub := GetDescendantsAndSelf(child, path + "/" + child.name);
        ChildPathsSnoc(children[..i], child, path);
        assert children[..i + 1] == children[..i] + [child];
        paths := paths + sub;
        i := i + 1;
      }
      assert children[..i] == children;
    }
  }

  // ---------------------------------------------------------------------
  // handleTagSelection: a JavaScript Set is a duplicate-free sequence in
  // insertion order.

  /** `set.add(x)` */
  function Add(s: seq<string>, x: string): seq<string> {
    if x in s then s else s + [x]
  }

  /** `xs.forEach(x => set.add(x))` */
  function AddAll(s: seq<string>, xs: seq<string>): (r: seq<string>)
    decreases |xs|
  {
    if xs == [] then s else Add(AddAll(s, xs[..|xs| - 1]), xs[|xs| - 1])
  }

  /** `xs.forEach(x => set.delete(x))` */
  function DeleteAll(s: seq<string>, xs: seq<string>): (r: seq<string>)
    decreases |xs|
  {
    if xs == [] then s else Without(DeleteAll(s, xs[..|xs| - 1]), xs[|xs| - 1])
  }

  /** Adding keeps what was there, in its order, adds exactly the new
      elements after it, and creates no duplicates. */
  lemma {:induction false} AddAllMeaning(s: seq<string>, xs: seq<string>)
    requires Distinct(s)
    ensures Distinct(AddAll(s, xs))
    ensures |AddAll(s, xs)| >= |s| && AddAll(s, xs)[..|s|] == s
    ensures forall x :: x in AddAll(s, xs) <==> x in s || x in xs
    decreases |xs|
  {
    if xs != [] {
      var init := xs[..|xs| - 1];
      var x := xs[|xs| - 1];
      AddAllMeaning(s, init);
      var a := AddAll(s, init);
      assert xs == init + [x];
      if x !in a {
        assert (a + [x])[..|s|] == a[..|s|];
        forall i, j | 0 <= i < j < |a + [x]|
          ensures (a + [x])[i] != (a + [x])[j]
        {
          assert (a + [x])[i] == a[i];
        }
      }
    }
  }

  /** Deleting removes exactly the given elements and keeps the rest. */
  lemma {:induction false} DeleteAllMeaning(s: seq<string>, xs: seq<string>)
    requires Distinct(s)
    ensures Distinct(DeleteAll(s, xs))
    ensures forall x :: x in DeleteAll(s, xs) <==> x in s && x !in xs
    decreases |xs|
  {
    if xs != [] {
      var init := xs[..|xs| - 1];
      DeleteAllMeaning(s, init);
      WithoutDistinct(DeleteAll(s, init), xs[|xs| - 1]);
      assert xs == init + [xs[|xs| - 1]];
    }
  }

  /** `new Set(prev)` */
  function SetOf(prev: seq<string>): seq<string> {
    AddAll([], prev)
  }

  /** The new selection for a click on the node at `path`. */
  function Toggled(prev: seq<string>, path: string, node: Tag): seq<string> {
    var current := SetOf(prev);
    var toggle := DescendantsAndSelf(node, path);
    if path !in current then AddAll(current, toggle) else DeleteAll(current, toggle)
  }

  /** `handleTagSelection(path, node)` applied to the previous selection. */
  method HandleTagSelection(prev: seq<string>, path: string, node: Tag) returns (selection: seq<string>)
    ensures selection == Toggled(prev, path, node)
  {
    var pathsToToggle := GetDescendantsAndSelf(node, path);
    var current: seq<string> := [];
    var i := 0;
    while i < |prev|
      invariant 0 <= i <= |prev| && current == AddAll([], prev[..i])
    {
      assert prev[..i + 1][..i] == prev[..i];
      current := Add(current, prev[i]);
      i := i + 1;
    }
    assert prev[..i] == prev;
    var isSelecting := path !in current;
    i := 0;
    ghost var start := current;
    while i < |pathsToToggle|
      invariant 0 <= i <= |pathsToToggle|
      invariant current == if isSelecting then AddAll(start, pathsToToggle[..i]) else DeleteAll(start, pathsToToggle[..i])
    {
      assert pathsToToggle[..i + 1][..i] == pathsToToggle[..i];
      if isSelecting {
        current := Add(current, pathsToToggle[i]);
      } else {
        current := Without(current, pathsToToggle[i]);
      }
      i := i + 1;
    }
    assert pathsToToggle[..i] == pathsToToggle;
    selection := current;
  }

  /** Selecting an unselected path keeps the earlier selections in order,
      adds the path and every descendant, and creates no duplicates;
      deselecting a selected one removes them and keeps everything else. */
  lemma TagSelectionMeaning(prev: seq<string>, path: string, node: Tag)
    ensures Distinct(Toggled(prev, path, node))
    ensures path !in prev ==> |Toggled(prev, path, node)| >= |SetOf(prev)| && Toggled(prev, path, node)[..|SetOf(prev)|] == SetOf(prev)
    ensures path !in prev ==> forall x :: x in Toggled(prev, path, node) <==> x in prev || x in DescendantsAndSelf(node, path)
    ensures path in prev ==> forall x :: x in Toggled(prev, path, node) <==> x in prev && x !in DescendantsAndSelf(node, path)
    ensures path in Toggled(prev, path, node) <==> path !in prev
  {
    AddAllMeaning([], prev);
    var current := SetOf(prev);
    var toggle := DescendantsAndSelf(node, path);
    assert path in toggle;
    if path !in current {
      AddAllMeaning(current, toggle);
    } else {
      DeleteAllMeaning(current, toggle);
    }
  }

  // ---------------------------------------------------------------------
  // getButtonText

  /** The label of the dropdown button; `t` is the translation function,
      given the key and the count, if any. */
  function ButtonText(selectedTags: seq<string>, t: (string, Option<nat>) -> string): (r: string)
    ensures |selectedTags| == 0 ==> r == t("all_templates", None)
    ensures |selectedTags| == 1 ==> '/' !in r && EndsWith(selectedTags[0], r)
    ensures |selectedTags| == 1 && |r| < |selectedTags[0]| ==> selectedTags[0][|selectedTags[0]| - |r| - 1] == '/'
    ensures |selectedTags| > 1 ==> r == t("multiple_tags_selected", Some(|selectedTags|))
  {
    if |selectedTags| == 0 then t("all_templates", None)
    else if |selectedTags| == 1 then LastSegment(selectedTags[0], '/')
    else t("multiple_tags_selected", Some(|selectedTags|))
  }

  /** With one top-level tag selected, the button shows the whole tag. */
  lemma ButtonTextOfTopLevel(tag: string, t: (string, Option<nat>) -> string)
    requires '/' !in tag
    ensures ButtonText([tag], t) == tag
  {
  }

  /** With one child path selected, the button shows the child's name. */
  lemma ButtonTextOfChild(parent: string, name: string, t: (string, Option<nat>) -> string)
    requires '/' !in name
    ensures ButtonText([parent + "/" + name], t) == name
  {
    LastSegmentAfter(parent, name);
  }

  lemma LastSegmentAfter(parent: string, name: string)
    requires '/' !in name
    ensures LastSegment(parent + "/" + name, '/') == name
  {
    LastSegmentSuffix(parent + "/", name, '/');
    assert parent + "/" + name == (parent + "/") + name;
  }

  // ---------------------------------------------------------------------
  // flatTags

  /** `prefix ? `${prefix}/${name}` : name` */
  function Child(prefix: string, name: string): string {
    if prefix != [] then prefix + "/" + name else name
  }

  /** `flatten(nodes, prefix)`: the path of every leaf, in tree order; a
      node with a non-empty children array contributes its leaves only. */
  function FlatTags(nodes: seq<Tag>, prefix: string): seq<string>
    decreases nodes
  {
    if nodes == [] then []
    else
      var n := nodes[0];
      var p := Child(prefix, n.name);
      (if n.children.Kids? && |n.children.nodes| > 0 then FlatTags(n.children.nodes, p) else [p])
        + FlatTags(nodes[1..], prefix)
  }

  function Leaves(nodes: seq<Tag>): nat
    decreases nodes
  {
    if nodes == [] then 0
    else (if nodes[0].children.Kids? && |nodes[0].children.nodes| > 0 then Leaves(nodes[0].children.nodes) else 1)
         + Leaves(nodes[1..])
  }

  /** One path per leaf. */
  lemma {:induction false} FlatTagsCount(nodes: seq<Tag>, prefix: string)
    ensures |FlatTags(nodes, prefix)| == Leaves(nodes)
    decreases nodes
  {
    if nodes != [] {
      var n := nodes[0];
      if n.children.Kids? && |n.children.nodes| > 0 {
        FlatTagsCount(n.children.nodes, Child(prefix, n.name));
      }
      FlatTagsCount(nodes[1..], prefix);
    }
  }

  /** Below a non-empty prefix, every flattened path is one of the paths
      `getDescendantsAndSelf` selects for the parent: the two traversals
      name the same places. */
  lemma {:induction false} FlatTagsAreDescendants(nodes: seq<Tag>, prefix: string)
    requires prefix != []
    ensures forall p :: p in FlatTags(nodes, prefix) ==> p in ChildPaths(nodes, prefix)
    decreases nodes
  {
    if nodes != [] {
      var n := nodes[0];
      var p := Child(prefix, n.name);
      assert p == prefix + "/" + n.name;
      FlatTagsAreDescendants(nodes[1..], prefix);
      if n.children.Kids? && |n.children.nodes| > 0 {
        FlatTagsAreDescendants(n.children.nodes, p);
      }
    }
  }
}
