/**
 * `FormBuilderComponent` (src/app/components/form-builder/form-builder.component.ts):
 * the designer's store. It owns the ordered field list, the id counter, the
 * current selection, the preview form and the map from field id to the name
 * the field's control is registered under, and changes them in place.
 *
 * The selection is kept as the id of the selected field; `Selected()` reads
 * the record back from the field forest, as the shared object reference
 * would show it.
 */
module FormBuilderComponent {
  import opened Wrappers
  import opened JsArrays
  import opened FormFields
  import opened FieldTree
  import opened FormRegistry
  import opened ControlSync

  /** Every id is `field_<k>` for some `1 <= k <= n`. */
  ghost predicate NumberedUpTo(ids: seq<string>, n: nat)
  {
    forall i :: 0 <= i < |ids| ==> IssuedBy(ids[i], n)
  }

  /** `id` is `field_<k>` for some `1 <= k <= n`. */
  ghost predicate IssuedBy(id: string, n: nat)
  {
    exists k :: 1 <= k <= n && id == FieldId(k)
  }

  /**
   * The designer's id invariant over its forest: every field, at any depth,
   * has an id the counter has already handed out, and no two share one.
   */
  ghost predicate IdsValid(list: seq<FormField>, n: nat)
  {
    NumberedUpTo(ForestIds(list), n) && Distinct(ForestIds(list))
  }

  /** The id the counter hands out next is carried by no field of the forest. */
  lemma NextIdIsFresh(list: seq<FormField>, n: nat)
    requires NumberedUpTo(ForestIds(list), n)
    ensures FieldId(n + 1) !in ForestIds(list)
    ensures FindFieldById(list, FieldId(n + 1)).None?
  {
    var ids := ForestIds(list);
    forall i | 0 <= i < |ids| ensures ids[i] != FieldId(n + 1) {
      var k :| 1 <= k <= n && ids[i] == FieldId(k);
      FreshIdsAreDistinct(n + 1, k);
    }
    FindMissMeansNoId(list, FieldId(n + 1));
  }

  /** Proof helper: numbering survives dropping ids. */
  lemma NumberedDropMiddle(u: seq<string>, w: seq<string>, v: seq<string>, n: nat)
    requires NumberedUpTo(u + w + v, n)
    ensures NumberedUpTo(u + v, n)
  {
    var s, t := u + w + v, u + v;
    forall i | 0 <= i < |t| ensures IssuedBy(t[i], n) {
      var i' := if i < |u| then i else i + |w|;
      assert t[i] == s[i'];
    }
  }

  /** Proof helper: adding the next numbered id keeps the numbering at the bumped counter. */
  lemma NumberedInsertNext(u: seq<string>, v: seq<string>, n: nat)
    requires NumberedUpTo(u + v, n)
    ensures NumberedUpTo(u + [FieldId(n + 1)] + v, n + 1)
  {
    var s, t := u + [FieldId(n + 1)] + v, u + v;
    forall i | 0 <= i < |s| ensures IssuedBy(s[i], n + 1) {
      if i == |u| {
        assert s[i] == FieldId(n + 1);
      } else {
        var i' := if i < |u| then i else i - 1;
        assert s[i] == t[i'];
        var k :| 1 <= k <= n && t[i'] == FieldId(k);
      }
    }
  }

  /**
   * Appending the next numbered field, with no children, keeps the invariant
   * at the bumped counter, and a lookup of the new id finds the field.
   */
  lemma AppendKeepsIdsValid(list: seq<FormField>, f: FormField, n: nat)
    requires IdsValid(list, n)
    requires f.id == FieldId(n + 1) && (f.hasChildren ==> f.children == [])
    ensures IdsValid(list + [f], n + 1)
    ensures FindFieldById(list + [f], f.id) == Some(f)
  {
    NextIdIsFresh(list, n);
    FindAppendFresh(list, f);
    ForestIdsAppendLeaf(list, f);
    var u: seq<string> := [];
    assert ForestIds(list) == ForestIds(list) + u;
    assert ForestIds(list + [f]) == ForestIds(list) + [f.id] + u;
    DistinctInsert(ForestIds(list), u, f.id);
    NumberedInsertNext(ForestIds(list), u, n);
  }

  /**
   * Appending the next numbered child, itself childless, to group `k` keeps
   * the invariant at the bumped counter, and a lookup of the new id finds
   * the child.
   */
  lemma AddChildKeepsIdsValid(list: seq<FormField>, k: nat, child: FormField, n: nat)
    requires IdsValid(list, n) && k < |list| && list[k].hasChildren
    requires child.id == FieldId(n + 1) && !child.hasChildren
    ensures IdsValid(list[k := list[k].(children := list[k].children + [child])], n + 1)
    ensures FindFieldById(list[k := list[k].(children := list[k].children + [child])], child.id) == Some(child)
  {
    NextIdIsFresh(list, n);
    FindAppendedChild(list, k, child);
    ForestIdsAppendChild(list, k, child);
    var u := ForestIds(list[..k]) + [list[k].id] + ForestIds(list[k].children);
    DistinctInsert(u, ForestIds(list[k + 1..]), child.id);
    NumberedInsertNext(u, ForestIds(list[k + 1..]), n);
  }

  /** Removing top-level field `k`, with everything under it, keeps the invariant. */
  lemma RemoveTopKeepsIdsValid(list: seq<FormField>, k: nat, n: nat)
    requires IdsValid(list, n) && k < |list|
    ensures IdsValid(list[..k] + list[k + 1..], n)
  {
    assert list[k := list[k]] == list;
    ForestIdsSplit(list, k, list[k]);
    var u, w, v := ForestIds(list[..k]), ForestIds([list[k]]), ForestIds(list[k + 1..]);
    DistinctDropMiddle(u, w, v);
    NumberedDropMiddle(u, w, v, n);
  }

  /** Removing child `j` of top-level field `k` keeps the invariant. */
  lemma RemoveChildKeepsIdsValid(list: seq<FormField>, k: nat, j: nat, n: nat)
    requires IdsValid(list, n) && k < |list| && list[k].hasChildren && j < |list[k].children|
    ensures IdsValid(list[k := list[k].(children := list[k].children[..j] + list[k].children[j + 1..])], n)
  {
    var kids := list[k].children;
    ForestIdsRemoveChild(list, k, j);
    var u := ForestIds(list[..k]) + [list[k].id] + ForestIds(kids[..j]);
    var v := ForestIds(kids[j + 1..]) + ForestIds(list[k + 1..]);
    DistinctDropMiddle(u, ForestIds([kids[j]]), v);
    NumberedDropMiddle(u, ForestIds([kids[j]]), v, n);
  }

  class FormBuilder {
    var formFields: seq<FormField>
    var selectedId: Option<string>
    var fieldCounter: nat
    var previewForm: Form
    var fieldFormControlMap: map<string, string>

    /**
     * The designer's invariant: every field of the forest, at any depth, has
     * an id `field_<k>` the counter has handed out, and no two fields share
     * an id. Each operation below keeps it.
     */
    ghost predicate Valid()
      reads this
    {
      IdsValid(formFields, fieldCounter)
    }

    /** An empty designer: no fields, no selection, an empty form group. */
    constructor()
      ensures formFields == [] && selectedId.None? && fieldCounter == 0
      ensures previewForm == map[] && fieldFormControlMap == map[]
      ensures Valid()
    {
      formFields := [];
      selectedId := None;
      fieldCounter := 0;
      previewForm := map[];
      fieldFormControlMap := map[];
    }

    /** `selectedField`: the first field of the forest carrying the selected id. */
    function Selected(): (r: Option<FormField>)
      reads this
      ensures r.Some? ==> selectedId == Some(r.value.id)
    {
      if selectedId.None? then None else FindFieldById(formFields, selectedId.value)
    }

    /** The preview form together with the id-to-name map. */
    function State(): Registry
      reads this
    {
      Registry(previewForm, fieldFormControlMap)
    }

    /**
     * `addField(type)`: bumps the counter, appends the default record with id
     * and control name `field_<counter>`, registers its control and selects it.
     * Earlier fields are unchanged; the new id is fresh, so the new field is
     * the one the selection finds.
     */
    method AddField(t: FieldType)
      requires Valid()
      modifies this
      ensures Valid()
      ensures fieldCounter == old(fieldCounter) + 1
      ensures formFields == old(formFields) + [NewField(t, fieldCounter)]
      ensures State() == RegisterNew(old(State()), NewField(t, fieldCounter))
      ensures selectedId == Some(FieldId(fieldCounter))
      ensures Selected() == Some(NewField(t, fieldCounter))
    {
      var field := NewField(t, fieldCounter + 1);
      AppendField(field);
    }

    /**
     * The rest of `addField` for the record it builds under the next counter
     * value: bump the counter, append, register, select.
     */
    method AppendField(field: FormField)
      requires Valid()
      requires field.id == FieldId(fieldCounter + 1) && (field.hasChildren ==> field.children == [])
      modifies this
      ensures Valid()
      ensures fieldCounter == old(fieldCounter) + 1
      ensures formFields == old(formFields) + [field]
      ensures State() == RegisterNew(old(State()), field)
      ensures selectedId == Some(field.id) && Selected() == Some(field)
    {
      AppendKeepsIdsValid(formFields, field, fieldCounter);
      fieldCounter := fieldCounter + 1;
      formFields := formFields + [field];
      Register(field);
      selectedId := Some(field.id);
    }

    /** The registration step of `addField`, for the record it has just appended. */
    method Register(field: FormField)
      modifies this
      ensures State() == RegisterNew(old(State()), field)
      ensures formFields == old(formFields) && selectedId == old(selectedId) && fieldCounter == old(fieldCounter)
    {
      var t := field.fieldType;
      if t != Heading && t != Separator && t != RepeatableGroup {
        previewForm := AddControl(previewForm, field.formControlName, Scalar(Str(""), false));
        fieldFormControlMap := fieldFormControlMap[field.id := field.formControlName];
      } else if t == RepeatableGroup {
        var arrayName := ArrayName(field);
        previewForm := AddControl(previewForm, arrayName, ArrayOf([], false));
        fieldFormControlMap := fieldFormControlMap[field.id := arrayName];
      }
    }

    /** `onFieldSelected(id)`: selects the first field of the forest with that id, or nothing. */
    method OnFieldSelected(fieldId: string)
      requires Valid()
      modifies this
      ensures Valid()
      ensures Selected() == FindFieldById(formFields, fieldId)
      ensures formFields == old(formFields) && fieldCounter == old(fieldCounter) && State() == old(State())
    {
      var found := FindFieldById(formFields, fieldId);
      selectedId := if found.Some? then Some(fieldId) else None;
    }

    /** `onFieldEdit(id)`: selects the top-level field with that id; an empty id clears the selection. */
    method OnFieldEdit(fieldId: string)
      requires Valid()
      modifies this
      ensures Valid()
      ensures selectedId == if fieldId != "" && TopIndex(formFields, fieldId) != -1 then Some(fieldId) else None
      ensures fieldId != "" && TopIndex(formFields, fieldId) != -1 ==> Selected().Some?
      ensures formFields == old(formFields) && fieldCounter == old(fieldCounter) && State() == old(State())
    {
      if fieldId != "" {
        var found := FindTopLevel(formFields, fieldId);
        selectedId := if found.Some? then Some(fieldId) else None;
        if found.Some? {
          TopLevelIsFound(formFields, fieldId);
        }
      } else {
        selectedId := None;
      }
    }

    /**
     * `onFieldChanged()`: brings the preview form in line with the selected
     * field after an edit (a rename with value carry-over, or a validator
     * refresh). Only the preview form and the map change.
     */
    method OnFieldChanged()
      requires Valid()
      modifies this
      ensures Valid()
      ensures State() == SyncSelected(old(State()), old(Selected()))
      ensures formFields == old(formFields) && selectedId == old(selectedId) && fieldCounter == old(fieldCounter)
    {
      var sel := Selected();
      if sel.Some? && sel.value.fieldType != Heading && sel.value.fieldType != Separator {
        var f := sel.value;
        if f.fieldType == RepeatableGroup {
          var oldArrayName := Lookup(fieldFormControlMap, f.id);
          var newArrayName := ArrayName(f);
          if Truthy(oldArrayName) && oldArrayName.value != newArrayName {
            if oldArrayName.value in previewForm {
              var value := ValueOf(previewForm[oldArrayName.value]);
              previewForm := RemoveControl(previewForm, oldArrayName.value);
              previewForm := AddControl(previewForm, newArrayName, ArrayOf([], false));
              var thrown := false;
              if value.Rows? {
                thrown := RestoreRows(newArrayName, ChildrenOrEmpty(f), value.items);
              }
              if !thrown {
                fieldFormControlMap := fieldFormControlMap[f.id := newArrayName];
              }
            }
          }
        } else {
          var oldName := Lookup(fieldFormControlMap, f.id);
          var newName := f.formControlName;
          if Truthy(oldName) && oldName.value != newName {
            if oldName.value in previewForm {
              var value := ValueOf(previewForm[oldName.value]);
              previewForm := RemoveControl(previewForm, oldName.value);
              previewForm := AddControl(previewForm, newName, Scalar(value, IsRequired(f)));
              fieldFormControlMap := fieldFormControlMap[f.id := newName];
            }
          } else if newName in previewForm {
            previewForm := previewForm[newName := SetRequired(previewForm[newName], IsRequired(f))];
          }
        }
      }
    }

    /**
     * The `forEach` that refills a renamed group array: each old row value
     * becomes a fresh group over the children, patched and pushed in order.
     * Pushing into a scalar control throws (`thrown`) before anything changes.
     */
    method RestoreRows(name: string, children: seq<FormField>, items: seq<map<string, FormValue>>) returns (thrown: bool)
      requires name in previewForm
      modifies this
      ensures name in previewForm
      ensures thrown <==> previewForm[name].Scalar? && |items| > 0
      ensures thrown ==> previewForm == old(previewForm)
      ensures !thrown ==> old(previewForm)[name].ArrayOf? || |items| == 0
      ensures !thrown && old(previewForm)[name].ArrayOf? ==>
        previewForm == old(previewForm)[name := ArrayOf(old(previewForm)[name].rows + RebuildRows(children, items), old(previewForm)[name].required)]
      ensures !thrown && old(previewForm)[name].Scalar? ==> previewForm == old(previewForm)
      ensures formFields == old(formFields) && selectedId == old(selectedId)
      ensures fieldCounter == old(fieldCounter) && fieldFormControlMap == old(fieldFormControlMap)
    {
      thrown := false;
      var i := 0;
      while i < |items|
        invariant 0 <= i <= |items|
        invariant name in previewForm && previewForm.Keys == old(previewForm).Keys
        invariant previewForm[name].Scalar? == old(previewForm)[name].Scalar?
        invariant forall n :: n in previewForm && n != name ==> previewForm[n] == old(previewForm)[n]
        invariant old(previewForm)[name].ArrayOf? ==>
          previewForm[name] == ArrayOf(old(previewForm)[name].rows + RebuildRows(children, items[..i]), old(previewForm)[name].required)
        invariant old(previewForm)[name].Scalar? ==> i == 0 && previewForm == old(previewForm)
        invariant !thrown
        invariant formFields == old(formFields) && selectedId == old(selectedId)
        invariant fieldCounter == old(fieldCounter) && fieldFormControlMap == old(fieldFormControlMap)
      {
        var group := PatchRow(GroupRow(children), items[i]);
        var target := previewForm[name];
        if target.Scalar? {
          thrown := true;
          return;
        }
        previewForm := previewForm[name := target.(rows := target.rows + [group])];
        assert RebuildRows(children, items[..i + 1]) == RebuildRows(children, items[..i]) + [group];
        i := i + 1;
      }
      assert items[..i] == items;
      if old(previewForm)[name].ArrayOf? {
        assert previewForm == old(previewForm)[name := previewForm[name]];
      }
    }

    /**
     * `removeFieldById(id)`: top-level ids only. The field's control or array
     * and its map entry are unregistered, the field is removed with the others
     * kept in order, and the selection is cleared only if it was that field.
     * Any other id changes nothing.
     */
    method RemoveFieldById(fieldId: string)
      requires Valid()
      modifies this
      ensures Valid()
      ensures TopIndex(old(formFields), fieldId) == -1 ==>
        formFields == old(formFields) && State() == old(State()) && selectedId == old(selectedId)
      ensures TopIndex(old(formFields), fieldId) != -1 ==>
        var k := TopIndex(old(formFields), fieldId);
        && formFields == old(formFields)[..k] + old(formFields)[k + 1..]
        && State() == Unregister(old(State()), old(formFields)[k])
        && selectedId == if old(selectedId) == Some(fieldId) then None else old(selectedId)
      ensures fieldCounter == old(fieldCounter)
    {
      var field := FindTopLevel(formFields, fieldId);
      if field.Some? {
        var index := TopIndex(formFields, fieldId);
        if index > -1 {
          UnregisterField(field.value);
          DropTopLevel(index);
          if selectedId == Some(fieldId) {
            selectedId := None;
          }
        }
      }
    }

    /** The unregistration step of `removeFieldById`, for the field it has found. */
    method UnregisterField(f: FormField)
      modifies this
      ensures State() == Unregister(old(State()), f)
      ensures formFields == old(formFields) && selectedId == old(selectedId) && fieldCounter == old(fieldCounter)
    {
      if f.fieldType != Heading && f.fieldType != Separator {
        if f.fieldType == RepeatableGroup {
          var arrayName := ArrayName(f);
          previewForm := RemoveControl(previewForm, arrayName);
        } else {
          previewForm := RemoveControl(previewForm, f.formControlName);
        }
        fieldFormControlMap := fieldFormControlMap - {f.id};
      }
    }

    /** The `splice(index, 1)` of `removeFieldById`, with the invariant carried over. */
    method DropTopLevel(index: int)
      requires Valid() && 0 <= index < |formFields|
      modifies this
      ensures formFields == old(formFields)[..index] + old(formFields)[index + 1..]
      ensures Valid()
      ensures selectedId == old(selectedId) && fieldCounter == old(fieldCounter) && State() == old(State())
    {
      RemoveTopKeepsIdsValid(formFields, index, fieldCounter);
      formFields := SpliceOne(formFields, index);
    }

    /** `removeField()`: removes the selected field when it is a top-level one. */
    method RemoveField()
      requires Valid()
      modifies this
      ensures Valid()
      ensures old(Selected()).None? || TopIndex(old(formFields), old(selectedId).value) == -1 ==>
        formFields == old(formFields) && State() == old(State()) && selectedId == old(selectedId)
      ensures old(Selected()).Some? && TopIndex(old(formFields), old(selectedId).value) != -1 ==>
        var k := TopIndex(old(formFields), old(selectedId).value);
        && formFields == old(formFields)[..k] + old(formFields)[k + 1..]
        && State() == Unregister(old(State()), old(formFields)[k])
        && selectedId.None?
      ensures fieldCounter == old(fieldCounter)
    {
      var sel := Selected();
      if sel.Some? {
        RemoveFieldById(sel.value.id);
      }
    }

    /**
     * `addFieldToGroup(parentId, type)`: only for a top-level repeatable group
     * that has a children list. Bumps the counter, appends the default child
     * `field_<counter>` to that group, selects it, and registers no control.
     */
    method AddFieldToGroup(parentFieldId: string, t: FieldType)
      requires Valid()
      modifies this
      ensures Valid()
      ensures var k := TopIndex(old(formFields), parentFieldId);
        k == -1 || old(formFields)[k].fieldType != RepeatableGroup || !old(formFields)[k].hasChildren ==>
          formFields == old(formFields) && selectedId == old(selectedId) && fieldCounter == old(fieldCounter)
      ensures var k := TopIndex(old(formFields), parentFieldId);
        k != -1 && old(formFields)[k].fieldType == RepeatableGroup && old(formFields)[k].hasChildren ==>
          var child := NewChild(FieldId(fieldCounter), t, "Section Heading", 2);
          && fieldCounter == old(fieldCounter) + 1
          && formFields == old(formFields)[k := old(formFields)[k].(children := old(formFields)[k].children + [child])]
          && selectedId == Some(child.id)
          && Selected() == Some(child)
      ensures State() == old(State())
    {
      var parentField := FindTopLevel(formFields, parentFieldId);
      if parentField.None? || parentField.value.fieldType != RepeatableGroup || !parentField.value.hasChildren {
        return;
      }
      var field := NewChild(FieldId(fieldCounter + 1), t, "Section Heading", 2);
      AppendChild(TopIndex(formFields, parentFieldId), field);
    }

    /**
     * The rest of `addFieldToGroup` for the child it builds under the next
     * counter value: bump the counter, push the child into parent `k`'s
     * children and select it.
     */
    method AppendChild(k: int, field: FormField)
      requires Valid() && 0 <= k < |formFields| && formFields[k].hasChildren
      requires field.id == FieldId(fieldCounter + 1) && !field.hasChildren
      modifies this
      ensures Valid()
      ensures fieldCounter == old(fieldCounter) + 1
      ensures formFields == old(formFields)[k := old(formFields)[k].(children := old(formFields)[k].children + [field])]
      ensures selectedId == Some(field.id) && Selected() == Some(field) && State() == old(State())
    {
      AddChildKeepsIdsValid(formFields, k, field, fieldCounter);
      fieldCounter := fieldCounter + 1;
      var parent := formFields[k];
      formFields := formFields[k := parent.(children := parent.children + [field])];
      selectedId := Some(field.id);
    }

    /**
     * `removeFieldFromGroup(parentId, id)`: in a top-level parent with a
     * children list (of any type), removes the first child with that id,
     * keeping the others in order, and clears the selection if it was that
     * child. Registers and unregisters nothing.
     */
    method RemoveFieldFromGroup(parentFieldId: string, fieldId: string)
      requires Valid()
      modifies this
      ensures Valid()
      ensures var k := TopIndex(old(formFields), parentFieldId);
        k == -1 || !old(formFields)[k].hasChildren || TopIndex(old(formFields)[k].children, fieldId) == -1 ==>
          formFields == old(formFields) && selectedId == old(selectedId)
      ensures var k := TopIndex(old(formFields), parentFieldId);
        k != -1 && old(formFields)[k].hasChildren && TopIndex(old(formFields)[k].children, fieldId) != -1 ==>
          var kids := old(formFields)[k].children;
          var j := TopIndex(kids, fieldId);
          && formFields == old(formFields)[k := old(formFields)[k].(children := kids[..j] + kids[j + 1..])]
          && selectedId == if old(selectedId) == Some(fieldId) then None else old(selectedId)
      ensures State() == old(State()) && fieldCounter == old(fieldCounter)
    {
      var parentField := FindTopLevel(formFields, parentFieldId);
      if parentField.None? || !parentField.value.hasChildren {
        return;
      }
      RemoveChildOf(TopIndex(formFields, parentFieldId), fieldId);
    }

    /**
     * The rest of `removeFieldFromGroup` once parent `k` is known to hold a
     * children list: `findIndex`, `splice(index, 1)`, and the selection cleared
     * if it was that child.
     */
    method RemoveChildOf(k: int, fieldId: string)
      requires Valid() && 0 <= k < |formFields| && formFields[k].hasChildren
      modifies this
      ensures Valid()
      ensures var kids := old(formFields)[k].children;
        var j := TopIndex(kids, fieldId);
        && formFields == (if j == -1 then old(formFields) else old(formFields)[k := old(formFields)[k].(children := kids[..j] + kids[j + 1..])])
        && selectedId == if j != -1 && old(selectedId) == Some(fieldId) then None else old(selectedId)
      ensures State() == old(State()) && fieldCounter == old(fieldCounter)
    {
      var parent := formFields[k];
      var index := TopIndex(parent.children, fieldId);
      if index > -1 {
        DropChild(k, index);
        if selectedId == Some(fieldId) {
          selectedId := None;
        }
      }
    }

    /** The `children.splice(index, 1)` of `removeFieldFromGroup`, with the invariant carried over. */
    method DropChild(k: int, index: int)
      requires Valid() && 0 <= k < |formFields| && formFields[k].hasChildren && 0 <= index < |formFields[k].children|
      modifies this
      ensures var kids := old(formFields)[k].children;
        formFields == old(formFields)[k := old(formFields)[k].(children := kids[..index] + kids[index + 1..])]
      ensures Valid()
      ensures selectedId == old(selectedId) && fieldCounter == old(fieldCounter) && State() == old(State())
    {
      RemoveChildKeepsIdsValid(formFields, k, index, fieldCounter);
      var parent := formFields[k];
      formFields := formFields[k := parent.(children := SpliceOne(parent.children, index))];
    }

    /**
     * `addRowToFormArray(parentId)`: for a top-level parent with a children
     * list, appends one fresh row group over those children to the parent's
     * array. Anything else changes nothing.
     */
    method AddRowToFormArray(parentFieldId: string)
      requires Valid()
      modifies this
      ensures Valid()
      ensures var k := TopIndex(old(formFields), parentFieldId);
        previewForm == if k != -1 && old(formFields)[k].hasChildren then AddRow(old(previewForm), old(formFields)[k]) else old(previewForm)
      ensures formFields == old(formFields) && selectedId == old(selectedId)
      ensures fieldCounter == old(fieldCounter) && fieldFormControlMap == old(fieldFormControlMap)
    {
      var parentField := FindTopLevel(formFields, parentFieldId);
      if parentField.None? || !parentField.value.hasChildren {
        return;
      }
      var arrayName := ArrayName(parentField.value);
      if arrayName in previewForm {
        var formArray := previewForm[arrayName];
        var newRow := GroupRow(parentField.value.children);
        if formArray.ArrayOf? {
          previewForm := previewForm[arrayName := formArray.(rows := formArray.rows + [newRow])];
        }
      }
    }

    /**
     * `removeRowFromFormArray(parentId, index)`: for a top-level parent,
     * removes row `index` of its array (`removeAt`). Anything else changes nothing.
     */
    method RemoveRowFromFormArray(parentFieldId: string, index: int)
      requires Valid()
      modifies this
      ensures Valid()
      ensures var k := TopIndex(old(formFields), parentFieldId);
        previewForm == if k != -1 then RemoveRow(old(previewForm), old(formFields)[k], index) else old(previewForm)
      ensures formFields == old(formFields) && selectedId == old(selectedId)
      ensures fieldCounter == old(fieldCounter) && fieldFormControlMap == old(fieldFormControlMap)
    {
      var parentField := FindTopLevel(formFields, parentFieldId);
      if parentField.None? {
        return;
      }
      var arrayName := ArrayName(parentField.value);
      if arrayName in previewForm {
        var formArray := previewForm[arrayName];
        if formArray.ArrayOf? {
          previewForm := previewForm[arrayName := formArray.(rows := RemoveAt(formArray.rows, index))];
        }
      }
    }
  }
}
