/**
 * The edits the field editor makes to its draft copy of a field
 * (src/app/components/field-config-panel/field-config-panel.component.ts),
 * as values: switching the option source, adding, removing and replacing a
 * child of a repeatable group, and merging the draft back into the forest.
 */
module DraftEditing {
  import opened Wrappers
  import opened JsArrays
  import opened FormFields
  import opened FieldTree

  /** The attributes `setOptionsSource` may touch, restored from `f`; every other attribute of `g`. */
  function KeepApiConfig(g: FormField, f: FormField): FormField
  {
    g.(optionsSource := f.optionsSource, apiEndpoint := f.apiEndpoint, apiMethod := f.apiMethod,
       optionsPath := f.optionsPath, valueKey := f.valueKey, labelKey := f.labelKey)
  }

  /**
   * `setOptionsSource(source)` on the draft. Static clears the endpoint,
   * path and keys and sets the method to GET; Api fills GET, `id`, `name` and
   * `items` only where the attribute is unset or empty and keeps the endpoint.
   * No other attribute changes.
   */
  function WithOptionsSource(f: FormField, source: OptionsSource): (r: FormField)
    ensures r.optionsSource == Some(source)
    ensures source == Static ==>
      r.apiEndpoint.None? && r.apiMethod == Some(Get) && r.optionsPath.None? && r.valueKey.None? && r.labelKey.None?
    ensures source == Api ==>
      && r.apiEndpoint == f.apiEndpoint
      && r.apiMethod == (if f.apiMethod.Some? then f.apiMethod else Some(Get))
      && r.valueKey == (if Truthy(f.valueKey) then f.valueKey else Some("id"))
      && r.labelKey == (if Truthy(f.labelKey) then f.labelKey else Some("name"))
      && r.optionsPath == (if Truthy(f.optionsPath) then f.optionsPath else Some("items"))
    ensures KeepApiConfig(r, f) == f
  {
    var g := f.(optionsSource := Some(source));
    if source == Static then
      g.(apiEndpoint := None, apiMethod := Some(Get), optionsPath := None, valueKey := None, labelKey := None)
    else
      g.(apiMethod := if g.apiMethod.Some? then g.apiMethod else Some(Get),
         valueKey := if Truthy(g.valueKey) then g.valueKey else Some("id"),
         labelKey := if Truthy(g.labelKey) then g.labelKey else Some("name"),
         optionsPath := if Truthy(g.optionsPath) then g.optionsPath else Some("items"))
  }

  /** Choosing the same source twice is choosing it once; the last choice decides the static case. */
  lemma OptionsSourceSettles(f: FormField, first: OptionsSource, source: OptionsSource)
    ensures WithOptionsSource(WithOptionsSource(f, source), source) == WithOptionsSource(f, source)
    ensures WithOptionsSource(WithOptionsSource(f, first), Static) == WithOptionsSource(f, Static)
  {
  }

  /**
   * `addChildField` on the draft: a repeatable group gets `child` appended to
   * its children (a missing list becomes `[child]`); any other draft is kept.
   */
  function WithChildAdded(f: FormField, child: FormField): (r: FormField)
    ensures f.fieldType != RepeatableGroup ==> r == f
    ensures f.fieldType == RepeatableGroup ==>
      r.hasChildren && r.children == ChildrenOrEmpty(f) + [child] && r.(hasChildren := f.hasChildren, children := f.children) == f
  {
    if f.fieldType != RepeatableGroup then f
    else f.(hasChildren := true, children := ChildrenOrEmpty(f) + [child])
  }

  /**
   * `removeChildField(index)`: `children.splice(index, 1)` when the draft has
   * a children list. A negative index counts from the end; one below
   * `-children.length` removes the first child.
   */
  function WithChildRemoved(f: FormField, index: int): (r: FormField)
    ensures !f.hasChildren || index >= |f.children| || f.children == [] ==> r == f
    ensures f.hasChildren && 0 <= index < |f.children| ==>
      r == f.(children := f.children[..index] + f.children[index + 1..])
    ensures f.hasChildren && -|f.children| <= index < 0 ==>
      r == f.(children := f.children[..|f.children| + index] + f.children[|f.children| + index + 1..])
    ensures f.hasChildren && index < -|f.children| && f.children != [] ==>
      r == f.(children := f.children[1..])
    ensures r.hasChildren == f.hasChildren && |r.children| <= |f.children|
  {
    if !f.hasChildren then f else f.(children := SpliceOne(f.children, index))
  }

  /** `saveChildField` on the draft: only `children[index]` takes the edited child, and only when it exists. */
  function WithChildSaved(f: FormField, index: int, child: FormField): (r: FormField)
    ensures f.hasChildren && 0 <= index < |f.children| ==>
      && |r.children| == |f.children|
      && r.children[index] == child
      && (forall j :: 0 <= j < |f.children| && j != index ==> r.children[j] == f.children[j])
      && r.(children := f.children) == f
    ensures !(f.hasChildren && 0 <= index < |f.children|) ==> r == f
  {
    if f.hasChildren && 0 <= index < |f.children| then f.(children := f.children[index := child]) else f
  }

  /**
   * `onFieldChange()`: the draft is merged into the first field of the forest
   * with its id, after which a lookup of that id finds the draft; when no
   * field has that id the forest is unchanged.
   */
  function CommitDraft(list: seq<FormField>, draft: FormField): (r: seq<FormField>)
    ensures FindFieldById(list, draft.id).None? ==> r == list
    ensures FindFieldById(list, draft.id).Some? ==> FindFieldById(r, draft.id) == Some(draft)
    ensures FindFieldById(list, draft.id).Some? ==> exists k :: MergedAt(list, r, draft, k)
    ensures |r| == |list|
  {
    if FindFieldById(list, draft.id).Some? then
      ReplaceThenFind(list, draft);
      ReplaceChangesOneField(list, draft);
      ReplaceById(list, draft)
    else list
  }
}
