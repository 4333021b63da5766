/**
 * The field forest: top-level fields, each possibly holding a list of child
 * fields. Lookup by id (recursive and top-level only) and the in-place merge
 * of an edited copy back into the forest.
 */
module FieldTree {
  import opened Wrappers
  import opened FormFields

  /**
   * `findFieldById`: walks the list in order; a field with the id is returned
   * at once, otherwise its children are searched (when there are any) before
   * moving on to the next sibling.
   */
  function FindFieldById(list: seq<FormField>, id: string): (r: Option<FormField>)
    ensures r.Some? ==> r.value.id == id
    decreases list
  {
    if list == [] then None
    else if list[0].id == id then Some(list[0])
    else
      var inChildren :=
        if list[0].hasChildren && |list[0].children| > 0
        then FindFieldById(list[0].children, id) else None;
      if inChildren.Some? then inChildren else FindFieldById(list[1..], id)
  }

  /** Every field of the forest, each before its children, in list order. */
  function Preorder(list: seq<FormField>): seq<FormField>
    decreases list
  {
    if list == [] then []
    else [list[0]] + (if list[0].hasChildren then Preorder(list[0].children) else []) + Preorder(list[1..])
  }

  /** Reference lookup: the first field of a flat list carrying the id. */
  function FirstWithId(flat: seq<FormField>, id: string): Option<FormField>
  {
    if flat == [] then None
    else if flat[0].id == id then Some(flat[0])
    else FirstWithId(flat[1..], id)
  }

  lemma {:induction false} FirstWithIdAppend(a: seq<FormField>, b: seq<FormField>, id: string)
    ensures FirstWithId(a + b, id) == if FirstWithId(a, id).Some? then FirstWithId(a, id) else FirstWithId(b, id)
  {
    if a != [] {
      assert (a + b)[0] == a[0];
      assert (a + b)[1..] == a[1..] + b;
      FirstWithIdAppend(a[1..], b, id);
    } else {
      assert a + b == b;
    }
  }

  /** `findFieldById` returns the first pre-order match, and nothing when no field has the id. */
  lemma {:induction false} FindIsFirstPreorderMatch(list: seq<FormField>, id: string)
    ensures FindFieldById(list, id) == FirstWithId(Preorder(list), id)
    decreases list
  {
    if list != [] {
      var f := list[0];
      var kids := if f.hasChildren then Preorder(f.children) else [];
      var rest := kids + Preorder(list[1..]);
      ConcatAssoc([f], kids, Preorder(list[1..]));
      assert Preorder(list)[0] == f && Preorder(list)[1..] == rest;
      if f.id != id {
        FirstWithIdAppend(kids, Preorder(list[1..]), id);
        FindIsFirstPreorderMatch(list[1..], id);
        if f.hasChildren {
          FindIsFirstPreorderMatch(f.children, id);
        }
      }
    }
  }

  /** A miss means that no field of the forest, at any depth, has the id. */
  lemma {:induction false} FindMissMeansAbsent(list: seq<FormField>, id: string)
    ensures FindFieldById(list, id).None? <==> forall g :: g in Preorder(list) ==> g.id != id
  {
    FindIsFirstPreorderMatch(list, id);
    FirstWithIdNone(Preorder(list), id);
  }

  lemma {:induction false} FirstWithIdNone(flat: seq<FormField>, id: string)
    ensures FirstWithId(flat, id).None? <==> forall g :: g in flat ==> g.id != id
  {
    if flat != [] {
      FirstWithIdNone(flat[1..], id);
      assert forall g :: g in flat <==> g == flat[0] || g in flat[1..];
    }
  }

  /**
   * `Object.assign(findFieldById(draft.id), draft)`: the first pre-order field
   * with the draft's id takes the draft's attributes; a miss changes nothing.
   */
  function ReplaceById(list: seq<FormField>, draft: FormField): (r: seq<FormField>)
    ensures |r| == |list|
    ensures forall i :: 0 <= i < |list| ==> r[i].id == list[i].id
    decreases list
  {
    if list == [] then []
    else if list[0].id == draft.id then [draft] + list[1..]
    else if list[0].hasChildren && |list[0].children| > 0 && FindFieldById(list[0].children, draft.id).Some? then
      [list[0].(children := ReplaceById(list[0].children, draft))] + list[1..]
    else [list[0]] + ReplaceById(list[1..], draft)
  }

  /** A miss leaves the forest as it was. */
  lemma {:induction false} ReplaceMissIsNoOp(list: seq<FormField>, draft: FormField)
    requires FindFieldById(list, draft.id).None?
    ensures ReplaceById(list, draft) == list
    decreases list
  {
    if list != [] {
      ReplaceMissIsNoOp(list[1..], draft);
    }
  }

  /** After the merge, looking the id up finds exactly the draft. */
  lemma {:induction false} ReplaceThenFind(list: seq<FormField>, draft: FormField)
    requires FindFieldById(list, draft.id).Some?
    ensures FindFieldById(ReplaceById(list, draft), draft.id) == Some(draft)
    decreases list
  {
    var f := list[0];
    if f.id != draft.id {
      if f.hasChildren && |f.children| > 0 && FindFieldById(f.children, draft.id).Some? {
        ReplaceThenFind(f.children, draft);
      } else {
        ReplaceThenFind(list[1..], draft);
      }
    }
  }

  /**
   * `r` is `list` with only top-level field `k` changed: that field had the
   * draft's id and became the draft, or it is a group whose children took the
   * merge. Every other top-level field is kept as it was.
   */
  predicate MergedAt(list: seq<FormField>, r: seq<FormField>, draft: FormField, k: int)
  {
    && 0 <= k < |list| && |r| == |list|
    && r[..k] == list[..k] && r[k + 1..] == list[k + 1..]
    && if list[k].id == draft.id then r[k] == draft
       else list[k].hasChildren && r[k] == list[k].(children := ReplaceById(list[k].children, draft))
  }

  /** The top-level field whose subtree holds the first match of the id. */
  function MatchIndex(list: seq<FormField>, id: string): (k: nat)
    requires FindFieldById(list, id).Some?
    ensures k < |list|
    decreases list
  {
    if list[0].id == id || (list[0].hasChildren && |list[0].children| > 0 && FindFieldById(list[0].children, id).Some?)
    then 0
    else MatchIndex(list[1..], id) + 1
  }

  /** A merge that hits changes exactly one top-level field and leaves the others alone. */
  lemma {:induction false} ReplaceChangesOneField(list: seq<FormField>, draft: FormField)
    requires FindFieldById(list, draft.id).Some?
    ensures MergedAt(list, ReplaceById(list, draft), draft, MatchIndex(list, draft.id))
    decreases list
  {
    var r := ReplaceById(list, draft);
    var f := list[0];
    if f.id == draft.id || (f.hasChildren && |f.children| > 0 && FindFieldById(f.children, draft.id).Some?) {
      assert r[1..] == list[1..];
    } else {
      ReplaceChangesOneField(list[1..], draft);
      assert list == [f] + list[1..];
      MergedAtCons(f, list[1..], ReplaceById(list[1..], draft), draft, MatchIndex(list[1..], draft.id));
    }
  }

  /** Proof helper: a field put in front of both lists shifts the changed position by one. */
  lemma MergedAtCons(f: FormField, list: seq<FormField>, r: seq<FormField>, draft: FormField, k: int)
    requires MergedAt(list, r, draft, k)
    ensures MergedAt([f] + list, [f] + r, draft, k + 1)
  {
    assert ([f] + r)[..k + 1] == [f] + r[..k];
    assert ([f] + list)[..k + 1] == [f] + list[..k];
    assert ([f] + r)[k + 2..] == r[k + 1..];
    assert ([f] + list)[k + 2..] == list[k + 1..];
  }

  /** A field appended under an id nobody has is what a lookup of that id finds. */
  lemma {:induction false} FindAppendFresh(list: seq<FormField>, f: FormField)
    requires FindFieldById(list, f.id).None?
    ensures FindFieldById(list + [f], f.id) == Some(f)
    decreases list
  {
    if list == [] {
      assert list + [f] == [f];
    } else {
      assert (list + [f])[0] == list[0];
      assert (list + [f])[1..] == list[1..] + [f];
      FindAppendFresh(list[1..], f);
    }
  }

  /**
   * A child appended, under an id nobody has, to the children of top-level
   * field `k` is what a lookup of that id finds.
   */
  lemma {:induction false} FindAppendedChild(list: seq<FormField>, k: nat, child: FormField)
    requires k < |list| && list[k].hasChildren
    requires FindFieldById(list, child.id).None?
    ensures FindFieldById(list[k := list[k].(children := list[k].children + [child])], child.id) == Some(child)
    decreases list
  {
    var updated := list[k := list[k].(children := list[k].children + [child])];
    if k == 0 {
      if |list[0].children| > 0 {
        FindAppendFresh(list[0].children, child);
      } else {
        assert list[0].children + [child] == [child];
      }
    } else {
      assert updated[1..] == list[1..][k - 1 := list[k].(children := list[k].children + [child])];
      FindAppendedChild(list[1..], k - 1, child);
    }
  }

  /** An id present at the top level is found by the recursive lookup too. */
  lemma {:induction false} TopLevelIsFound(list: seq<FormField>, id: string)
    requires TopIndex(list, id) != -1
    ensures FindFieldById(list, id).Some?
    decreases list
  {
    if list[0].id != id {
      TopLevelIsFound(list[1..], id);
    }
  }

  /** `list.findIndex(f => f.id === id)`: the first top-level position, or -1. */
  function TopIndex(list: seq<FormField>, id: string): (r: int)
    ensures -1 <= r < |list|
    ensures r == -1 <==> forall i :: 0 <= i < |list| ==> list[i].id != id
    ensures r >= 0 ==> list[r].id == id && forall i :: 0 <= i < r ==> list[i].id != id
  {
    if list == [] then -1
    else if list[0].id == id then 0
    else
      var k := TopIndex(list[1..], id);
      if k == -1 then -1 else k + 1
  }

  /** `list.find(f => f.id === id)`: top level only, children are not searched. */
  function FindTopLevel(list: seq<FormField>, id: string): (r: Option<FormField>)
    ensures r.None? <==> TopIndex(list, id) == -1
    ensures r.Some? ==> r.value == list[TopIndex(list, id)]
  {
    var k := TopIndex(list, id);
    if k == -1 then None else Some(list[k])
  }

  // ---------------------------------------------------------------------------
  // The ids of the forest
  // ---------------------------------------------------------------------------

  /** The ids of a flat list of fields, in order. */
  function Ids(flat: seq<FormField>): (r: seq<string>)
    ensures |r| == |flat|
    ensures forall i :: 0 <= i < |flat| ==> r[i] == flat[i].id
  {
    if flat == [] then [] else [flat[0].id] + Ids(flat[1..])
  }

  /** Every id of the forest, each field's before its children's. */
  function ForestIds(list: seq<FormField>): seq<string>
  {
    Ids(Preorder(list))
  }

  /** No id occurs twice. */
  predicate Distinct(s: seq<string>)
  {
    forall i, j :: 0 <= i < j < |s| ==> s[i] != s[j]
  }

  /** A lookup misses exactly when the id is not among the forest's ids. */
  lemma FindMissMeansNoId(list: seq<FormField>, id: string)
    ensures FindFieldById(list, id).None? <==> id !in ForestIds(list)
  {
    FindMissMeansAbsent(list, id);
    var flat := Preorder(list);
    if id in ForestIds(list) {
      var i :| 0 <= i < |flat| && ForestIds(list)[i] == id;
      assert flat[i] in flat && flat[i].id == id;
    } else {
      forall g | g in flat ensures g.id != id {
        var i :| 0 <= i < |flat| && flat[i] == g;
        assert ForestIds(list)[i] == g.id;
      }
    }
  }

  /** Proof helper: the pre-order walk of two lists is the walk of each, in order. */
  lemma {:induction false} PreorderAppend(a: seq<FormField>, b: seq<FormField>)
    ensures Preorder(a + b) == Preorder(a) + Preorder(b)
    decreases a
  {
    if a == [] {
      assert a + b == b;
    } else {
      assert (a + b)[0] == a[0];
      assert (a + b)[1..] == a[1..] + b;
      PreorderAppend(a[1..], b);
    }
  }

  /** Proof helper: the ids of two flat lists are the ids of each, in order. */
  lemma IdsAppend(a: seq<FormField>, b: seq<FormField>)
    ensures Ids(a + b) == Ids(a) + Ids(b)
  {
    assert |Ids(a + b)| == |Ids(a) + Ids(b)|;
    forall i | 0 <= i < |a + b| ensures Ids(a + b)[i] == (Ids(a) + Ids(b))[i] {
      if i < |a| {
        assert (a + b)[i] == a[i];
      } else {
        assert (a + b)[i] == b[i - |a|];
      }
    }
  }

  /** The ids of one field: its own, then its children's. */
  lemma ForestIdsOfField(f: FormField)
    ensures ForestIds([f]) == [f.id] + (if f.hasChildren then ForestIds(f.children) else [])
  {
    var kids := if f.hasChildren then Preorder(f.children) else [];
    assert [f][1..] == [];
    assert Preorder([f]) == [f] + kids;
    IdsAppend([f], kids);
  }

  /** Proof helper: the ids of top-level field `k` sit between those of the fields before and after it. */
  lemma ForestIdsSplit(list: seq<FormField>, k: nat, y: FormField)
    requires k < |list|
    ensures ForestIds(list[k := y]) == ForestIds(list[..k]) + ForestIds([y]) + ForestIds(list[k + 1..])
    ensures ForestIds(list[..k] + list[k + 1..]) == ForestIds(list[..k]) + ForestIds(list[k + 1..])
  {
    var pre, post := list[..k], list[k + 1..];
    assert list[k := y] == (pre + [y]) + post;
    PreorderAppend(pre + [y], post);
    PreorderAppend(pre, [y]);
    IdsAppend(Preorder(pre) + Preorder([y]), Preorder(post));
    IdsAppend(Preorder(pre), Preorder([y]));
    PreorderAppend(pre, post);
    IdsAppend(Preorder(pre), Preorder(post));
  }

  /** Proof helper: concatenation is associative. */
  lemma ConcatAssoc<T>(a: seq<T>, b: seq<T>, c: seq<T>)
    ensures a + (b + c) == (a + b) + c
  {
  }

  /** Proof helper: a field without children appended to a list adds just its own id. */
  lemma ForestIdsAppendLeaf(list: seq<FormField>, f: FormField)
    requires f.hasChildren ==> f.children == []
    ensures ForestIds(list + [f]) == ForestIds(list) + [f.id]
  {
    PreorderAppend(list, [f]);
    IdsAppend(Preorder(list), Preorder([f]));
    ForestIdsOfField(f);
    assert ForestIds([f]) == [f.id];
  }

  /** Proof helper: where a child appended to group `k` lands among the forest's ids. */
  lemma ForestIdsAppendChild(list: seq<FormField>, k: nat, child: FormField)
    requires k < |list| && list[k].hasChildren && !child.hasChildren
    ensures var u := ForestIds(list[..k]) + [list[k].id] + ForestIds(list[k].children);
      && ForestIds(list) == u + ForestIds(list[k + 1..])
      && ForestIds(list[k := list[k].(children := list[k].children + [child])]) == u + [child.id] + ForestIds(list[k + 1..])
  {
    var x := list[k];
    var y := x.(children := x.children + [child]);
    var a, b, c := ForestIds(list[..k]), ForestIds(x.children), ForestIds(list[k + 1..]);
    assert list[k := x] == list;
    ForestIdsSplit(list, k, x);
    ForestIdsSplit(list, k, y);
    ForestIdsOfField(x);
    ForestIdsOfField(y);
    ForestIdsAppendLeaf(x.children, child);
    ConcatAssoc(a, [x.id], b);
    ConcatAssoc([x.id], b, [child.id]);
    ConcatAssoc(a, [x.id] + b, [child.id]);
  }

  /** Proof helper: the ids child `j` of group `k` takes out of the forest's ids. */
  lemma ForestIdsRemoveChild(list: seq<FormField>, k: nat, j: nat)
    requires k < |list| && list[k].hasChildren && j < |list[k].children|
    ensures var kids := list[k].children;
      var u := ForestIds(list[..k]) + [list[k].id] + ForestIds(kids[..j]);
      var v := ForestIds(kids[j + 1..]) + ForestIds(list[k + 1..]);
      && ForestIds(list) == u + ForestIds([kids[j]]) + v
      && ForestIds(list[k := list[k].(children := kids[..j] + kids[j + 1..])]) == u + v
  {
    var x := list[k];
    var kids := x.children;
    var y := x.(children := kids[..j] + kids[j + 1..]);
    var a, c := ForestIds(list[..k]), ForestIds(list[k + 1..]);
    var p, w, q := ForestIds(kids[..j]), ForestIds([kids[j]]), ForestIds(kids[j + 1..]);
    assert list[k := x] == list;
    assert kids[j := kids[j]] == kids;
    ForestIdsSplit(list, k, x);
    ForestIdsSplit(list, k, y);
    ForestIdsOfField(x);
    ForestIdsOfField(y);
    ForestIdsSplit(kids, j, kids[j]);
    var u := a + [x.id] + p;
    ConcatAssoc(a, [x.id], p + w + q);
    ConcatAssoc(a + [x.id], p + w, q);
    ConcatAssoc(a + [x.id], p, w);
    ConcatAssoc(u + w, q, c);
    ConcatAssoc(u, w, q + c);
    ConcatAssoc(a, [x.id], p + q);
    ConcatAssoc(a + [x.id], p, q);
    ConcatAssoc(u, q, c);
  }

  /** Dropping a block of ids keeps the rest distinct. */
  lemma DistinctDropMiddle(u: seq<string>, w: seq<string>, v: seq<string>)
    requires Distinct(u + w + v)
    ensures Distinct(u + v)
  {
    var s, t := u + w + v, u + v;
    forall i, j | 0 <= i < j < |t| ensures t[i] != t[j] {
      var i' := if i < |u| then i else i + |w|;
      var j' := if j < |u| then j else j + |w|;
      assert t[i] == s[i'] && t[j] == s[j'];
    }
  }

  /** Inserting an id that does not occur yet keeps the ids distinct. */
  lemma DistinctInsert(u: seq<string>, v: seq<string>, e: string)
    requires Distinct(u + v) && e !in u + v
    ensures Distinct(u + [e] + v)
  {
    var s, t := u + [e] + v, u + v;
    forall i, j | 0 <= i < j < |s| ensures s[i] != s[j] {
      if i == |u| {
        assert s[j] == t[j - 1];
      } else if j == |u| {
        assert s[i] == t[i];
      } else {
        var i' := if i < |u| then i else i - 1;
        var j' := if j < |u| then j else j - 1;
        assert s[i] == t[i'] && s[j] == t[j'];
      }
    }
  }
}
