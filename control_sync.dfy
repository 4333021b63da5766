/**
 * How the builder keeps the preview form in step with its fields
 * (src/app/components/form-builder/form-builder.component.ts): the form group
 * together with the side map from field id to the name registered for it.
 * Each function is the effect of one builder operation on that pair; the
 * builder's methods are proved to have exactly this effect.
 */
module ControlSync {
  import opened Wrappers
  import opened FormFields
  import opened FormRegistry

  /** The preview form and `fieldFormControlMap` (field id to registered name). */
  datatype Registry = Registry(form: Form, names: map<string, string>)

  /** The name a field is registered under: a group's array name, otherwise its control name. */
  function RegisteredName(f: FormField): string
  {
    if f.fieldType == RepeatableGroup then ArrayName(f) else f.formControlName
  }

  /** The control `addField` registers: an empty array for a group, `''` otherwise. */
  function FreshControl(t: FieldType): Control
  {
    if t == RepeatableGroup then ArrayOf([], false) else Scalar(Str(""), false)
  }

  /**
   * What `addField` registers for a new field: headings and separators get
   * nothing; any other field gets a fresh control under its registered name
   * (a name already taken keeps its control) and the map records the name.
   */
  function RegisterNew(reg: Registry, f: FormField): (r: Registry)
    ensures IsStructural(f.fieldType) ==> r == reg
    ensures !IsStructural(f.fieldType) ==> r.names == reg.names[f.id := RegisteredName(f)]
    ensures !IsStructural(f.fieldType) && RegisteredName(f) !in reg.form ==>
      r.form == reg.form[RegisteredName(f) := FreshControl(f.fieldType)]
    ensures RegisteredName(f) in reg.form ==> r.form == reg.form
  {
    if f.fieldType != Heading && f.fieldType != Separator && f.fieldType != RepeatableGroup then
      Registry(AddControl(reg.form, f.formControlName, Scalar(Str(""), false)), reg.names[f.id := f.formControlName])
    else if f.fieldType == RepeatableGroup then
      var arrayName := ArrayName(f);
      Registry(AddControl(reg.form, arrayName, ArrayOf([], false)), reg.names[f.id := arrayName])
    else reg
  }

  /**
   * What `removeFieldById` unregisters: exactly the field's own control or
   * array and its map entry; headings and separators change nothing.
   */
  function Unregister(reg: Registry, f: FormField): (r: Registry)
    ensures IsStructural(f.fieldType) ==> r == reg
    ensures !IsStructural(f.fieldType) ==> r.form.Keys == reg.form.Keys - {RegisteredName(f)}
    ensures !IsStructural(f.fieldType) ==> r.names.Keys == reg.names.Keys - {f.id}
    ensures forall n :: n in r.form ==> r.form[n] == reg.form[n]
    ensures forall id :: id in r.names ==> r.names[id] == reg.names[id]
  {
    if f.fieldType != Heading && f.fieldType != Separator then
      var name := if f.fieldType == RepeatableGroup then ArrayName(f) else f.formControlName;
      Registry(RemoveControl(reg.form, name), reg.names - {f.id})
    else reg
  }

  /** The mapped old name differs from the new one and is truthy: a rename is due. */
  predicate RenameDue(reg: Registry, f: FormField, newName: string)
  {
    var oldName := Lookup(reg.names, f.id);
    Truthy(oldName) && oldName.value != newName
  }

  /**
   * `onFieldChanged` for a scalar field. On a rename whose old control
   * exists, the old name is unregistered, the new name gets a control with
   * the old value and the required validator exactly when the field is
   * required, and the map follows. A rename whose old control is missing
   * changes nothing. Without a rename only the validator of the control under
   * the current name is replaced; its value stays.
   */
  function RenameScalar(reg: Registry, f: FormField): (r: Registry)
    ensures RenameDue(reg, f, f.formControlName) && reg.names[f.id] !in reg.form ==> r == reg
    ensures RenameDue(reg, f, f.formControlName) && reg.names[f.id] in reg.form ==>
      var oldName := reg.names[f.id];
      && oldName !in r.form
      && r.names == reg.names[f.id := f.formControlName]
      && f.formControlName in r.form
      && (f.formControlName !in reg.form ==>
            r.form[f.formControlName] == Scalar(ValueOf(reg.form[oldName]), IsRequired(f)))
      && (forall n :: n != oldName && n in reg.form ==> n in r.form && r.form[n] == reg.form[n])
    ensures !RenameDue(reg, f, f.formControlName) ==>
      && r.names == reg.names
      && r.form.Keys == reg.form.Keys
      && (f.formControlName in reg.form ==>
            && ValueOf(r.form[f.formControlName]) == ValueOf(reg.form[f.formControlName])
            && r.form[f.formControlName].required == IsRequired(f))
      && (forall n :: n != f.formControlName && n in reg.form ==> r.form[n] == reg.form[n])
  {
    var oldName := Lookup(reg.names, f.id);
    var newName := f.formControlName;
    if Truthy(oldName) && oldName.value != newName then
      if oldName.value in reg.form then
        var value := ValueOf(reg.form[oldName.value]);
        var form := RemoveControl(reg.form, oldName.value);
        Registry(AddControl(form, newName, Scalar(value, IsRequired(f))), reg.names[f.id := newName])
      else reg
    else if newName in reg.form then
      Registry(reg.form[newName := SetRequired(reg.form[newName], IsRequired(f))], reg.names)
    else reg
  }

  /**
   * `onFieldChanged` for a repeatable group whose array name changed and whose
   * old array exists: the old name is unregistered, an empty array is added
   * under the new name (a name already taken keeps its control), and each old
   * row value becomes a fresh group over the current children patched with
   * that value. Pushing into a scalar control throws, which leaves the map
   * unchanged; otherwise the map records the new name.
   */
  function RenameArray(reg: Registry, f: FormField): (r: Registry)
    ensures !RenameDue(reg, f, ArrayName(f)) ==> r == reg
    ensures RenameDue(reg, f, ArrayName(f)) && reg.names[f.id] !in reg.form ==> r == reg
    ensures RenameDue(reg, f, ArrayName(f)) && reg.names[f.id] in reg.form ==>
      && reg.names[f.id] !in r.form
      && ArrayName(f) in r.form
      && (forall n :: n != reg.names[f.id] && n != ArrayName(f) && n in reg.form ==> n in r.form && r.form[n] == reg.form[n])
    ensures RenameDue(reg, f, ArrayName(f)) && reg.names[f.id] in reg.form && ArrayName(f) !in reg.form ==>
      var prev := reg.form[reg.names[f.id]];
      && r.names == reg.names[f.id := ArrayName(f)]
      && r.form[ArrayName(f)].ArrayOf?
      && r.form[ArrayName(f)].rows == (if ValueOf(prev).Rows? then RebuildRows(ChildrenOrEmpty(f), ValueOf(prev).items) else [])
      && (prev.ArrayOf? ==> |r.form[ArrayName(f)].rows| == |prev.rows|)
  {
    var oldName := Lookup(reg.names, f.id);
    var newName := ArrayName(f);
    if Truthy(oldName) && oldName.value != newName && oldName.value in reg.form then
      var value := ValueOf(reg.form[oldName.value]);
      var form := AddControl(RemoveControl(reg.form, oldName.value), newName, ArrayOf([], false));
      var target := form[newName];
      if value.Rows? && target.ArrayOf? then
        var rows := target.rows + RebuildRows(ChildrenOrEmpty(f), value.items);
        Registry(form[newName := ArrayOf(rows, target.required)], reg.names[f.id := newName])
      else if value.Rows? && |value.items| > 0 then
        Registry(form, reg.names)
      else
        Registry(form, reg.names[f.id := newName])
    else reg
  }

  /**
   * `onFieldChanged`: nothing for no selection or a heading or separator;
   * otherwise the group or scalar case.
   */
  function SyncSelected(reg: Registry, selected: Option<FormField>): (r: Registry)
    ensures selected.None? || IsStructural(selected.value.fieldType) ==> r == reg
  {
    if selected.None? || IsStructural(selected.value.fieldType) then reg
    else if selected.value.fieldType == RepeatableGroup then RenameArray(reg, selected.value)
    else RenameScalar(reg, selected.value)
  }

  /**
   * `addRowToFormArray` on a resolved parent: one fresh group over the
   * parent's children is appended to its array; a missing array, or a scalar
   * control under that name, changes nothing.
   */
  function AddRow(form: Form, parent: FormField): (r: Form)
    ensures r.Keys == form.Keys
    ensures forall n :: n != ArrayName(parent) && n in form ==> r[n] == form[n]
    ensures ArrayName(parent) in form && form[ArrayName(parent)].ArrayOf? ==>
      r[ArrayName(parent)] == form[ArrayName(parent)].(rows := form[ArrayName(parent)].rows + [GroupRow(ChildrenOrEmpty(parent))])
    ensures !(ArrayName(parent) in form && form[ArrayName(parent)].ArrayOf?) ==> r == form
  {
    var name := ArrayName(parent);
    if name in form && form[name].ArrayOf? then
      form[name := form[name].(rows := form[name].rows + [GroupRow(ChildrenOrEmpty(parent))])]
    else form
  }

  /**
   * `removeRowFromFormArray` on a resolved parent: row `index` of its array is
   * removed and the others keep their order; no array, nothing changes.
   */
  function RemoveRow(form: Form, parent: FormField, index: int): (r: Form)
    ensures r.Keys == form.Keys
    ensures forall n :: n != ArrayName(parent) && n in form ==> r[n] == form[n]
    ensures ArrayName(parent) in form && form[ArrayName(parent)].ArrayOf? && 0 <= index < |form[ArrayName(parent)].rows| ==>
      var rows := form[ArrayName(parent)].rows;
      r[ArrayName(parent)] == form[ArrayName(parent)].(rows := rows[..index] + rows[index + 1..])
    ensures ArrayName(parent) in form && form[ArrayName(parent)].ArrayOf? ==>
      r[ArrayName(parent)] == form[ArrayName(parent)].(rows := RemoveAt(form[ArrayName(parent)].rows, index))
    ensures !(ArrayName(parent) in form && form[ArrayName(parent)].ArrayOf?) ==> r == form
  {
    var name := ArrayName(parent);
    if name in form && form[name].ArrayOf? then
      form[name := form[name].(rows := RemoveAt(form[name].rows, index))]
    else form
  }
}
