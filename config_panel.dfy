/**
 * `FieldConfigPanelComponent`
 * (src/app/components/field-config-panel/field-config-panel.component.ts):
 * the field editor. It edits a copy of one field (the draft), shows the
 * draft's options as a comma list, edits a copy of one child of a repeatable
 * group, and merges the draft back into the field forest it was given.
 */
module FieldConfigPanelComponent {
  import opened Wrappers
  import opened FormFields
  import opened FieldTree
  import opened OptionParsing
  import opened DraftEditing

  class FieldConfigPanel {
    var fields: seq<FormField>
    var editingField: Option<FormField>
    var optionsString: string
    var oldFormControlName: string
    var editingChildField: Option<FormField>
    var editingChildFieldIndex: int
    var fieldCounter: nat

    /** A closed editor over the given forest. */
    constructor(forest: seq<FormField>)
      ensures fields == forest && editingField.None? && optionsString == "" && oldFormControlName == ""
      ensures editingChildField.None? && editingChildFieldIndex == -1 && fieldCounter == 0
    {
      fields := forest;
      editingField := None;
      optionsString := "";
      oldFormControlName := "";
      editingChildField := None;
      editingChildFieldIndex := -1;
      fieldCounter := 0;
    }

    /**
     * `openEditModal(id)`: copies the first field with that id into the draft,
     * with the option source defaulting to static; the text box shows the
     * options joined with `", "`, which parses back to the same options when
     * they are clean. An unknown id changes nothing.
     */
    method OpenEditModal(fieldId: string)
      modifies this
      ensures FindFieldById(fields, fieldId).None? ==>
        editingField == old(editingField) && optionsString == old(optionsString) && oldFormControlName == old(oldFormControlName)
      ensures FindFieldById(fields, fieldId).Some? ==>
        var found := FindFieldById(fields, fieldId).value;
        && editingField == Some(found.(optionsSource := if found.optionsSource.None? then Some(Static) else found.optionsSource))
        && oldFormControlName == found.formControlName
        && optionsString == (if found.options.Some? then JoinOptions(found.options.value) else "")
        && (found.options.Some? && AllClean(found.options.value) ==> ParseOptions(optionsString) == found.options.value)
      ensures fields == old(fields) && editingChildField == old(editingChildField)
      ensures editingChildFieldIndex == old(editingChildFieldIndex) && fieldCounter == old(fieldCounter)
    {
      var field := FindFieldById(fields, fieldId);
      if field.Some? {
        var draft := field.value;
        oldFormControlName := draft.formControlName;
        if draft.options.Some? {
          optionsString := JoinOptions(draft.options.value);
          if AllClean(draft.options.value) {
            ParseJoinRoundTrip(draft.options.value);
          }
        } else {
          optionsString := "";
        }
        if draft.optionsSource.None? {
          draft := draft.(optionsSource := Some(Static));
        }
        editingField := Some(draft);
      }
    }

    /** `onFieldChange()`: merges the draft into the forest when a field has its id. */
    method OnFieldChange()
      modifies this
      ensures fields == if editingField.Some? then CommitDraft(old(fields), editingField.value) else old(fields)
      ensures editingField == old(editingField) && optionsString == old(optionsString)
      ensures oldFormControlName == old(oldFormControlName) && editingChildField == old(editingChildField)
      ensures editingChildFieldIndex == old(editingChildFieldIndex) && fieldCounter == old(fieldCounter)
    {
      if editingField.None? {
        return;
      }
      var originalField := FindFieldById(fields, editingField.value.id);
      if originalField.Some? {
        fields := ReplaceById(fields, editingField.value);
      }
    }

    /**
     * `onFormControlChange()`: merges the draft into the forest and remembers
     * its control name as the old one; nothing when the draft's id is unknown.
     */
    method OnFormControlChange()
      modifies this
      ensures editingField.None? || FindFieldById(old(fields), editingField.value.id).None? ==>
        fields == old(fields) && oldFormControlName == old(oldFormControlName)
      ensures editingField.Some? && FindFieldById(old(fields), editingField.value.id).Some? ==>
        fields == CommitDraft(old(fields), editingField.value) && oldFormControlName == editingField.value.formControlName
      ensures editingField == old(editingField) && optionsString == old(optionsString) && editingChildField == old(editingChildField)
      ensures editingChildFieldIndex == old(editingChildFieldIndex) && fieldCounter == old(fieldCounter)
    {
      if editingField.None? {
        return;
      }
      var originalField := FindFieldById(fields, editingField.value.id);
      if originalField.None? {
        return;
      }
      var newFormControlName := editingField.value.formControlName;
      fields := ReplaceById(fields, editingField.value);
      if newFormControlName != oldFormControlName {
        oldFormControlName := newFormControlName;
      }
    }

    /**
     * `updateOptions()`: the draft's options become the parsed text box
     * (trimmed, non-empty, comma-free pieces in order) and the draft is merged.
     */
    method UpdateOptions()
      modifies this
      ensures old(editingField).None? ==> fields == old(fields) && editingField.None?
      ensures old(editingField).Some? ==>
        && editingField == Some(old(editingField).value.(options := Some(ParseOptions(optionsString))))
        && fields == CommitDraft(old(fields), editingField.value)
      ensures optionsString == old(optionsString) && oldFormControlName == old(oldFormControlName)
      ensures editingChildField == old(editingChildField) && editingChildFieldIndex == old(editingChildFieldIndex)
      ensures fieldCounter == old(fieldCounter)
    {
      if editingField.None? {
        return;
      }
      var parsed := ParseOptions(optionsString);
      var draft := editingField.value.(options := Some(parsed));
      editingField := Some(draft);
      var originalField := FindFieldById(fields, draft.id);
      if originalField.Some? {
        fields := ReplaceById(fields, draft);
      }
    }

    /** `updateChildFieldOptions(value)`: the child draft's options become the parsed value; nothing is merged. */
    method UpdateChildFieldOptions(value: string)
      modifies this
      ensures editingChildField == if old(editingChildField).None? then None
        else Some(old(editingChildField).value.(options := Some(ParseOptions(value))))
      ensures editingChildField.Some? ==> AllClean(editingChildField.value.options.value)
      ensures fields == old(fields) && editingField == old(editingField) && optionsString == old(optionsString)
      ensures oldFormControlName == old(oldFormControlName) && editingChildFieldIndex == old(editingChildFieldIndex)
      ensures fieldCounter == old(fieldCounter)
    {
      if editingChildField.Some? {
        editingChildField := Some(editingChildField.value.(options := Some(ParseOptions(value))));
      }
    }

    /** `setOptionsSource(source)`: resets the draft's remote-option settings, then merges it. */
    method SetOptionsSource(source: OptionsSource)
      modifies this
      ensures old(editingField).None? ==> fields == old(fields) && editingField.None?
      ensures old(editingField).Some? ==>
        && editingField == Some(WithOptionsSource(old(editingField).value, source))
        && fields == CommitDraft(old(fields), editingField.value)
      ensures optionsString == old(optionsString) && oldFormControlName == old(oldFormControlName)
      ensures editingChildField == old(editingChildField) && editingChildFieldIndex == old(editingChildFieldIndex)
      ensures fieldCounter == old(fieldCounter)
    {
      if editingField.None? {
        return;
      }
      var draft := editingField.value;
      draft := draft.(optionsSource := Some(source));
      if source == Static {
        draft := draft.(apiEndpoint := None);
        draft := draft.(apiMethod := Some(Get));
        draft := draft.(optionsPath := None);
        draft := draft.(valueKey := None);
        draft := draft.(labelKey := None);
      } else {
        if draft.apiMethod.None? {
          draft := draft.(apiMethod := Some(Get));
        }
        if !Truthy(draft.valueKey) {
          draft := draft.(valueKey := Some("id"));
        }
        if !Truthy(draft.labelKey) {
          draft := draft.(labelKey := Some("name"));
        }
        if !Truthy(draft.optionsPath) {
          draft := draft.(optionsPath := Some("items"));
        }
      }
      editingField := Some(draft);
      OnFieldChange();
    }

    /**
     * `addChildField(type)`: for a repeatable-group draft, bumps the counter,
     * appends the default child `child_<counter>` and merges the draft; any
     * other draft, or none, changes nothing.
     */
    method AddChildField(t: FieldType)
      modifies this
      ensures old(editingField).None? || old(editingField).value.fieldType != RepeatableGroup ==>
        fields == old(fields) && editingField == old(editingField) && fieldCounter == old(fieldCounter)
      ensures old(editingField).Some? && old(editingField).value.fieldType == RepeatableGroup ==>
        && fieldCounter == old(fieldCounter) + 1
        && editingField == Some(WithChildAdded(old(editingField).value, NewChild(ChildId(fieldCounter), t, "Field Label", 3)))
        && fields == CommitDraft(old(fields), editingField.value)
      ensures optionsString == old(optionsString) && oldFormControlName == old(oldFormControlName)
      ensures editingChildField == old(editingChildField) && editingChildFieldIndex == old(editingChildFieldIndex)
    {
      if editingField.None? || editingField.value.fieldType != RepeatableGroup {
        return;
      }
      fieldCounter := fieldCounter + 1;
      var childField := NewChild(ChildId(fieldCounter), t, "Field Label", 3);
      PushChild(childField);
    }

    /**
     * The rest of `addChildField` for the child it has built: give a
     * repeatable-group draft a children list if it has none, push the child
     * and merge the draft.
     */
    method PushChild(childField: FormField)
      requires editingField.Some? && editingField.value.fieldType == RepeatableGroup
      modifies this
      ensures editingField == Some(WithChildAdded(old(editingField).value, childField))
      ensures fields == CommitDraft(old(fields), editingField.value)
      ensures optionsString == old(optionsString) && oldFormControlName == old(oldFormControlName)
      ensures editingChildField == old(editingChildField) && editingChildFieldIndex == old(editingChildFieldIndex)
      ensures fieldCounter == old(fieldCounter)
    {
      var draft := editingField.value;
      if !draft.hasChildren {
        draft := draft.(hasChildren := true, children := []);
      }
      draft := draft.(children := draft.children + [childField]);
      editingField := Some(draft);
      OnFieldChange();
    }

    /** `removeChildField(index)`: `splice(index, 1)` on the draft's children, then a merge. */
    method RemoveChildField(index: int)
      modifies this
      ensures old(editingField).None? || !old(editingField).value.hasChildren ==>
        fields == old(fields) && editingField == old(editingField)
      ensures old(editingField).Some? && old(editingField).value.hasChildren ==>
        && editingField == Some(WithChildRemoved(old(editingField).value, index))
        && fields == CommitDraft(old(fields), editingField.value)
      ensures optionsString == old(optionsString) && oldFormControlName == old(oldFormControlName)
      ensures editingChildField == old(editingChildField) && editingChildFieldIndex == old(editingChildFieldIndex)
      ensures fieldCounter == old(fieldCounter)
    {
      if editingField.None? || !editingField.value.hasChildren {
        return;
      }
      var draft := editingField.value;
      draft := draft.(children := JsArrays.SpliceOne(draft.children, index));
      editingField := Some(draft);
      OnFieldChange();
    }

    /**
     * `editChildField(child)`: copies the child into the child draft and
     * remembers the position of the first child of the draft with its id, or -1.
     */
    method EditChildField(childField: FormField)
      modifies this
      ensures editingChildField == Some(childField)
      ensures editingChildFieldIndex ==
        if old(editingField).Some? && old(editingField).value.hasChildren
        then TopIndex(old(editingField).value.children, childField.id) else -1
      ensures editingChildFieldIndex != -1 ==>
        && editingField.Some? && editingField.value.hasChildren
        && 0 <= editingChildFieldIndex < |editingField.value.children|
        && editingField.value.children[editingChildFieldIndex].id == childField.id
      ensures fields == old(fields) && editingField == old(editingField) && optionsString == old(optionsString)
      ensures oldFormControlName == old(oldFormControlName) && fieldCounter == old(fieldCounter)
    {
      var index := if editingField.Some? && editingField.value.hasChildren
        then TopIndex(editingField.value.children, childField.id) else -1;
      editingChildField := Some(childField);
      editingChildFieldIndex := index;
    }

    /**
     * `saveChildField()`: with a draft, a child draft and a remembered
     * position, the child draft replaces the draft's child at that position
     * (when it exists) and the draft is merged; the child draft is then
     * dropped. Without all three nothing changes.
     */
    method SaveChildField()
      modifies this
      ensures old(editingField).None? || old(editingChildField).None? || old(editingChildFieldIndex) == -1 ==>
        && fields == old(fields) && editingField == old(editingField)
        && editingChildField == old(editingChildField) && editingChildFieldIndex == old(editingChildFieldIndex)
      ensures old(editingField).Some? && old(editingChildField).Some? && old(editingChildFieldIndex) != -1 ==>
        var draft := old(editingField).value;
        var i := old(editingChildFieldIndex);
        && editingField == Some(WithChildSaved(draft, i, old(editingChildField).value))
        && fields == (if draft.hasChildren && 0 <= i < |draft.children| then CommitDraft(old(fields), editingField.value) else old(fields))
        && editingChildField.None? && editingChildFieldIndex == -1
      ensures optionsString == old(optionsString) && oldFormControlName == old(oldFormControlName)
      ensures fieldCounter == old(fieldCounter)
    {
      if editingField.None? || editingChildField.None? || editingChildFieldIndex == -1 {
        return;
      }
      var draft := editingField.value;
      var i := editingChildFieldIndex;
      if draft.hasChildren && 0 <= i < |draft.children| {
        draft := draft.(children := draft.children[i := editingChildField.value]);
        editingField := Some(draft);
        OnFieldChange();
      }
      editingChildField := None;
      editingChildFieldIndex := -1;
    }

    /** `cancelEdit()`: drops the draft. */
    method CancelEdit()
      modifies this
      ensures editingField.None?
      ensures fields == old(fields) && optionsString == old(optionsString) && oldFormControlName == old(oldFormControlName)
      ensures editingChildField == old(editingChildField) && editingChildFieldIndex == old(editingChildFieldIndex)
      ensures fieldCounter == old(fieldCounter)
    {
      editingField := None;
    }

    /**
     * `saveField()`: when a field has the draft's id, merges the draft, takes
     * its control name as the old one when the old one was set and differs,
     * and closes the editor. Otherwise nothing changes.
     */
    method SaveField()
      modifies this
      ensures old(editingField).None? || FindFieldById(old(fields), old(editingField).value.id).None? ==>
        fields == old(fields) && editingField == old(editingField) && oldFormControlName == old(oldFormControlName)
      ensures old(editingField).Some? && FindFieldById(old(fields), old(editingField).value.id).Some? ==>
        var draft := old(editingField).value;
        && fields == CommitDraft(old(fields), draft)
        && FindFieldById(fields, draft.id) == Some(draft)
        && editingField.None?
        && oldFormControlName == (if old(oldFormControlName) != "" then draft.formControlName else "")
      ensures optionsString == old(optionsString) && editingChildField == old(editingChildField)
      ensures editingChildFieldIndex == old(editingChildFieldIndex) && fieldCounter == old(fieldCounter)
    {
      if editingField.Some? {
        var originalField := FindFieldById(fields, editingField.value.id);
        if originalField.Some? {
          var oldName := oldFormControlName;
          var newName := editingField.value.formControlName;
          fields := ReplaceById(fields, editingField.value);
          if oldName != "" && oldName != newName {
            oldFormControlName := newName;
          }
          CancelEdit();
        }
      }
    }

    /** `remove(id)`: drops the draft when it is the removed field. */
    method Remove(fieldId: string)
      modifies this
      ensures editingField == if old(editingField).Some? && old(editingField).value.id == fieldId then None else old(editingField)
      ensures fields == old(fields) && optionsString == old(optionsString) && oldFormControlName == old(oldFormControlName)
      ensures editingChildField == old(editingChildField) && editingChildFieldIndex == old(editingChildFieldIndex)
      ensures fieldCounter == old(fieldCounter)
    {
      if editingField.Some? && editingField.value.id == fieldId {
        editingField := None;
      }
    }
  }
}
