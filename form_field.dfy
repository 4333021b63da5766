/**
 * The field descriptor of the form designer (src/app/models/form-field.ts):
 * a closed set of field types, the option source and HTTP method enumerations,
 * and the recursive `FormField` record, plus the attribute readings the
 * components share (JavaScript truthiness of optional strings, the array name
 * of a repeatable group, the default records the "add" actions create).
 */
module FormFields {
  import opened Wrappers
  import opened Strings

  /** `FieldType`: exactly ten variants, in the order the source lists them. */
  datatype FieldType =
    | Text | Textarea | Select | Checkbox | Heading | Separator
    | Number | Email | Radio | RepeatableGroup

  /** `OptionsSource`: where a select or radio takes its options from. */
  datatype OptionsSource = Static | Api

  /** The two values `apiMethod` may hold. */
  datatype HttpMethod = Get | Post

  /**
   * `FormField`. `id`, `fieldType` (`type`) and `formControlName` are
   * mandatory; every other attribute may be `undefined` (`None`). `label` is
   * named `labelText` here, `label` being a Dafny keyword. The optional
   * `children` list is kept as a presence flag and a list, so that recursion
   * into it is structural; when `hasChildren` is false the list is not read.
   */
  datatype FormField = FormField(
    id: string,
    fieldType: FieldType,
    labelText: Option<string>,
    formControlName: string,
    placeholder: Option<string>,
    required: Option<bool>,
    validationMessage: Option<string>,
    options: Option<seq<string>>,
    optionsSource: Option<OptionsSource>,
    apiEndpoint: Option<string>,
    apiMethod: Option<HttpMethod>,
    optionsPath: Option<string>,
    valueKey: Option<string>,
    labelKey: Option<string>,
    heading: Option<string>,
    level: Option<int>,
    isArray: Option<bool>,
    formArrayName: Option<string>,
    allowAddRow: Option<bool>,
    hasChildren: bool,
    children: seq<FormField>)

  const AllFieldTypes: seq<FieldType> :=
    [Text, Textarea, Select, Checkbox, Heading, Separator, Number, Email, Radio, RepeatableGroup]

  /** The string literal of each type, as it is written into generated markup. */
  function TypeName(t: FieldType): string
  {
    match t
    case Text => "text"
    case Textarea => "textarea"
    case Select => "select"
    case Checkbox => "checkbox"
    case Heading => "heading"
    case Separator => "separator"
    case Number => "number"
    case Email => "email"
    case Radio => "radio"
    case RepeatableGroup => "repeatable-group"
  }

  /** Reads a type literal; the ten literals are the only accepted strings. */
  function ParseFieldType(s: string): (r: Option<FieldType>)
    ensures r.Some? ==> TypeName(r.value) == s
    ensures forall t :: TypeName(t) == s ==> r == Some(t)
  {
    if s == "text" then Some(Text)
    else if s == "textarea" then Some(Textarea)
    else if s == "select" then Some(Select)
    else if s == "checkbox" then Some(Checkbox)
    else if s == "heading" then Some(Heading)
    else if s == "separator" then Some(Separator)
    else if s == "number" then Some(Number)
    else if s == "email" then Some(Email)
    else if s == "radio" then Some(Radio)
    else if s == "repeatable-group" then Some(RepeatableGroup)
    else None
  }

  /** The type set is closed: ten distinct variants, each with its own literal. */
  lemma FieldTypesAreTen()
    ensures |AllFieldTypes| == 10
    ensures forall t :: t in AllFieldTypes
    ensures forall i, j :: 0 <= i < j < 10 ==> TypeName(AllFieldTypes[i]) != TypeName(AllFieldTypes[j])
  {
    forall t: FieldType ensures t in AllFieldTypes {
      match t
      case Text => assert AllFieldTypes[0] == t;
      case Textarea => assert AllFieldTypes[1] == t;
      case Select => assert AllFieldTypes[2] == t;
      case Checkbox => assert AllFieldTypes[3] == t;
      case Heading => assert AllFieldTypes[4] == t;
      case Separator => assert AllFieldTypes[5] == t;
      case Number => assert AllFieldTypes[6] == t;
      case Email => assert AllFieldTypes[7] == t;
      case Radio => assert AllFieldTypes[8] == t;
      case RepeatableGroup => assert AllFieldTypes[9] == t;
    }
  }

  /** Headings and separators only decorate the form; they never own a control. */
  predicate IsStructural(t: FieldType)
  {
    t == Heading || t == Separator
  }

  /** The types whose options can come from a list or from a remote endpoint. */
  predicate IsChoice(t: FieldType)
  {
    t == Select || t == Radio
  }

  /** JavaScript truthiness of an optional string: present and non-empty. */
  predicate Truthy(o: Option<string>)
  {
    o.Some? && o.value != ""
  }

  /** `o || d` for an optional string. */
  function OrElse(o: Option<string>, d: string): (r: string)
    ensures Truthy(o) ==> r == o.value
    ensures !Truthy(o) ==> r == d
  {
    if Truthy(o) then o.value else d
  }

  /** `field.required ? ... : ...`: only an explicit `true` counts. */
  predicate IsRequired(f: FormField)
  {
    f.required == Some(true)
  }

  /** `field.formArrayName || field.formControlName`. */
  function ArrayName(f: FormField): (r: string)
    ensures Truthy(f.formArrayName) ==> r == f.formArrayName.value
    ensures !Truthy(f.formArrayName) ==> r == f.formControlName
  {
    OrElse(f.formArrayName, f.formControlName)
  }

  /** `field.children || []`. */
  function ChildrenOrEmpty(f: FormField): seq<FormField>
  {
    if f.hasChildren then f.children else []
  }

  /** `${s}` for an optional string: `undefined` when absent. */
  function Show(o: Option<string>): string
  {
    if o.Some? then o.value else "undefined"
  }

  /** `${n}` for an optional number. */
  function ShowNumber(o: Option<int>): string
  {
    if o.Some? then IntToString(o.value) else "undefined"
  }

  // ---------------------------------------------------------------------------
  // Default records made by the "add" actions
  // ---------------------------------------------------------------------------

  /** `getDefaultLabel`: every type has an entry, so the `'Field'` fallback never applies. */
  function DefaultLabel(t: FieldType): string
  {
    match t
    case Text => "Text Field"
    case Email => "Email Address"
    case Number => "Number"
    case Textarea => "Text Area"
    case Select => "Select Option"
    case Checkbox => "Checkbox Option"
    case Radio => "Radio Option"
    case Heading => "Heading"
    case Separator => "Separator"
    case RepeatableGroup => "Repeatable Group"
  }

  /** `Enter <label in lower case>`. */
  function DefaultPlaceholder(t: FieldType): string
  {
    "Enter " + ToLower(DefaultLabel(t))
  }

  const DefaultOptions: seq<string> := ["Option 1", "Option 2", "Option 3"]
  const RequiredMessage: string := "This field is required"

  /** `field_<n>`: the id and control name `addField` and `addFieldToGroup` hand out. */
  function FieldId(n: nat): string
  {
    "field_" + NatToString(n)
  }

  /** `child_<n>`: the id and control name `addChildField` hands out. */
  function ChildId(n: nat): string
  {
    "child_" + NatToString(n)
  }

  /** `array_<n>`: the array name of a repeatable group created by `addField`. */
  function ArrayId(n: nat): string
  {
    "array_" + NatToString(n)
  }

  /** Counter values give distinct ids, and builder ids never clash with panel ids. */
  lemma FreshIdsAreDistinct(m: nat, n: nat)
    ensures FieldId(m) == FieldId(n) <==> m == n
    ensures ChildId(m) == ChildId(n) <==> m == n
    ensures ArrayId(m) == ArrayId(n) <==> m == n
    ensures FieldId(m) != ChildId(n)
  {
    if FieldId(m) == FieldId(n) {
      PrefixedNumberInjective("field_", m, n);
    }
    if ChildId(m) == ChildId(n) {
      PrefixedNumberInjective("child_", m, n);
    }
    if ArrayId(m) == ArrayId(n) {
      PrefixedNumberInjective("array_", m, n);
    }
    assert FieldId(m)[0] != ChildId(n)[0];
  }

  /** The record `addField(type)` appends with counter value `n`. */
  function NewField(t: FieldType, n: nat): (f: FormField)
    ensures f.id == f.formControlName == FieldId(n) && f.fieldType == t
    ensures f.required == Some(false) && f.optionsSource.None? && f.apiEndpoint.None?
    ensures t == RepeatableGroup <==> f.hasChildren
    ensures f.hasChildren ==> f.children == [] && ArrayName(f) == ArrayId(n)
    ensures IsChoice(t) <==> f.options == Some(DefaultOptions)
  {
    FormField(
      id := FieldId(n),
      fieldType := t,
      labelText := Some(DefaultLabel(t)),
      formControlName := FieldId(n),
      placeholder :=
        if t != Checkbox && t != Heading && t != Separator && t != RepeatableGroup
        then Some(DefaultPlaceholder(t)) else None,
      required := Some(false),
      validationMessage := Some(RequiredMessage),
      options := if IsChoice(t) then Some(DefaultOptions) else None,
      optionsSource := None,
      apiEndpoint := None,
      apiMethod := None,
      optionsPath := None,
      valueKey := None,
      labelKey := None,
      heading := if t == Heading then Some("Section Heading") else None,
      level := if t == Heading then Some(2) else None,
      isArray := Some(t == RepeatableGroup),
      formArrayName := if t == RepeatableGroup then Some(ArrayId(n)) else None,
      allowAddRow := if t == RepeatableGroup then Some(true) else None,
      hasChildren := t == RepeatableGroup,
      children := [])
  }

  /**
   * A child record as `addFieldToGroup` (builder, `field_<n>`, heading level 2)
   * or `addChildField` (panel, `child_<n>`, heading "Field Label" at level 3)
   * creates it: no array attributes, no children, and a placeholder for every
   * type except checkbox, heading and separator.
   */
  function NewChild(id: string, t: FieldType, headingText: string, headingLevel: int): (f: FormField)
    ensures f.id == f.formControlName == id && f.fieldType == t
    ensures f.required == Some(false) && !f.hasChildren && f.formArrayName.None?
    ensures IsChoice(t) <==> f.options == Some(DefaultOptions)
  {
    FormField(
      id := id,
      fieldType := t,
      labelText := Some(DefaultLabel(t)),
      formControlName := id,
      placeholder :=
        if t != Checkbox && t != Heading && t != Separator then Some(DefaultPlaceholder(t)) else None,
      required := Some(false),
      validationMessage := Some(RequiredMessage),
      options := if IsChoice(t) then Some(DefaultOptions) else None,
      optionsSource := None,
      apiEndpoint := None,
      apiMethod := None,
      optionsPath := None,
      valueKey := None,
      labelKey := None,
      heading := if t == Heading then Some(headingText) else None,
      level := if t == Heading then Some(headingLevel) else None,
      isArray := None,
      formArrayName := None,
      allowAddRow := None,
      hasChildren := false,
      children := [])
  }
}
