/**
 * The extended code generator of the field editor
 * (src/app/components/field-config-panel/field-config-panel.component.ts):
 * `generateFullFormCode`, `generateFieldCode`, `generateApiLoadMethod` and
 * `capitalizeFirst`. The component class it emits has a `fb.group` control
 * list, remote-option scaffolding when some select or radio takes its options
 * from an endpoint, form-array helpers, a value-patching method and the
 * template with one block per field.
 */
module PanelCodegen {
  import opened Wrappers
  import opened Strings
  import opened FormFields
  import opened DraftEditing
  import opened Markup

  // ---------------------------------------------------------------------------
  // the remote-options condition
  // ---------------------------------------------------------------------------

  /** `optionsSource === 'api' || !!apiEndpoint`. */
  predicate ApiSourced(f: FormField)
  {
    f.optionsSource == Some(Api) || Truthy(f.apiEndpoint)
  }

  /** A select or radio whose options come from an endpoint. */
  predicate UsesApi(f: FormField)
  {
    IsChoice(f.fieldType) && ApiSourced(f)
  }

  /** Such a field that also has an endpoint gets a load call and a load method. */
  predicate HasLoader(f: FormField)
  {
    UsesApi(f) && Truthy(f.apiEndpoint)
  }

  /** `hasApiOptions`: some top-level field, or some child of one, uses remote options. */
  predicate HasApiOptions(fields: seq<FormField>)
  {
    || (exists i :: 0 <= i < |fields| && UsesApi(fields[i]))
    || (exists i, j :: 0 <= i < |fields| && 0 <= j < |ChildrenOrEmpty(fields[i])| && UsesApi(ChildrenOrEmpty(fields[i])[j]))
  }

  /** The fields the remote-option loops visit: each top-level field followed by its children. */
  function ApiScope(fields: seq<FormField>): seq<FormField>
  {
    if fields == [] then [] else [fields[0]] + ChildrenOrEmpty(fields[0]) + ApiScope(fields[1..])
  }

  /** The loops over the scope meet a remote-option field exactly when `hasApiOptions` holds. */
  lemma ApiScopeUsesApi(fields: seq<FormField>)
    ensures (exists g :: g in ApiScope(fields) && UsesApi(g)) <==> HasApiOptions(fields)
  {
    if exists g :: g in ApiScope(fields) && UsesApi(g) {
      var g :| g in ApiScope(fields) && UsesApi(g);
      ScopeMemberIsCounted(fields, g);
    }
    if HasApiOptions(fields) {
      CountedFieldIsInScope(fields);
    }
  }

  /** A remote-option field met by the loops makes `hasApiOptions` hold. */
  lemma {:induction false} ScopeMemberIsCounted(fields: seq<FormField>, g: FormField)
    requires g in ApiScope(fields) && UsesApi(g)
    ensures HasApiOptions(fields)
  {
    var rest := fields[1..];
    var c := ChildrenOrEmpty(fields[0]);
    assert ApiScope(fields) == [fields[0]] + c + ApiScope(rest);
    if g == fields[0] {
      assert UsesApi(fields[0]);
    } else if g in c {
      var j :| 0 <= j < |c| && c[j] == g;
      assert UsesApi(ChildrenOrEmpty(fields[0])[j]);
    } else {
      ScopeMemberIsCounted(rest, g);
      if exists i :: 0 <= i < |rest| && UsesApi(rest[i]) {
        var i :| 0 <= i < |rest| && UsesApi(rest[i]);
        assert fields[i + 1] == rest[i];
      } else {
        var i, j :| 0 <= i < |rest| && 0 <= j < |ChildrenOrEmpty(rest[i])| && UsesApi(ChildrenOrEmpty(rest[i])[j]);
        assert fields[i + 1] == rest[i];
      }
    }
  }

  /** When `hasApiOptions` holds, the loops meet a remote-option field. */
  lemma {:induction false} CountedFieldIsInScope(fields: seq<FormField>)
    requires HasApiOptions(fields)
    ensures exists g :: g in ApiScope(fields) && UsesApi(g)
  {
    var rest := fields[1..];
    var c := ChildrenOrEmpty(fields[0]);
    assert ApiScope(fields) == [fields[0]] + c + ApiScope(rest);
    if exists i :: 0 <= i < |fields| && UsesApi(fields[i]) {
      var i :| 0 <= i < |fields| && UsesApi(fields[i]);
      if i == 0 {
        assert fields[0] in ApiScope(fields);
      } else {
        assert rest[i - 1] == fields[i];
        CountedFieldIsInScope(rest);
        var g :| g in ApiScope(rest) && UsesApi(g);
        assert g in ApiScope(fields);
      }
    } else {
      var i, j :| 0 <= i < |fields| && 0 <= j < |ChildrenOrEmpty(fields[i])| && UsesApi(ChildrenOrEmpty(fields[i])[j]);
      if i == 0 {
        assert c[j] in ApiScope(fields);
      } else {
        assert rest[i - 1] == fields[i];
        assert UsesApi(ChildrenOrEmpty(rest[i - 1])[j]);
        CountedFieldIsInScope(rest);
        var g :| g in ApiScope(rest) && UsesApi(g);
        assert g in ApiScope(fields);
      }
    }
  }

  /**
   * An options array is declared for some field exactly when `hasApiOptions`
   * holds, and load calls and methods go only to remote-option fields that
   * have an endpoint.
   */
  lemma ApiScaffolding(fields: seq<FormField>)
    ensures Filter(ApiScope(fields), UsesApi) != [] <==> HasApiOptions(fields)
    ensures forall g :: g in Filter(ApiScope(fields), HasLoader) <==>
      g in Filter(ApiScope(fields), UsesApi) && Truthy(g.apiEndpoint)
    ensures Filter(ApiScope(fields), HasLoader) != [] ==> HasApiOptions(fields)
  {
    var scope := ApiScope(fields);
    ApiScopeUsesApi(fields);
    FilterMembers(scope, UsesApi);
    FilterMembers(scope, HasLoader);
    if Filter(scope, UsesApi) != [] {
      assert Filter(scope, UsesApi)[0] in Filter(scope, UsesApi);
    }
    if HasApiOptions(fields) {
      var g :| g in scope && UsesApi(g);
      assert g in Filter(scope, UsesApi);
    }
    if Filter(scope, HasLoader) != [] {
      assert Filter(scope, HasLoader)[0] in scope;
    }
  }

  /**
   * Choosing the option source in the editor decides the condition: after
   * `api` a select or radio uses remote options, after `static` no field does.
   */
  lemma SourceChoiceDecidesApi(f: FormField)
    ensures UsesApi(WithOptionsSource(f, Api)) <==> IsChoice(f.fieldType)
    ensures !UsesApi(WithOptionsSource(f, Static))
    ensures !HasLoader(WithOptionsSource(f, Static))
  {
  }

  // ---------------------------------------------------------------------------
  // the control list
  // ---------------------------------------------------------------------------

  /** The entry of a non-structural field: an empty form array for a group, otherwise `['']` with its validator. */
  function ControlEntry(f: FormField): string
  {
    if f.fieldType == RepeatableGroup then "    " + ArrayName(f) + ": this.fb.array([])"
    else "    " + f.formControlName + ": [''" + ValidatorMarker(f) + "]"
  }

  // ---------------------------------------------------------------------------
  // generateApiLoadMethod and capitalizeFirst
  // ---------------------------------------------------------------------------

  /** `str.charAt(0).toUpperCase() + str.slice(1)`. */
  function CapitalizeFirst(s: string): (r: string)
    ensures |r| == |s|
    ensures s == [] ==> r == []
    ensures s != [] ==> r[0] == UpperChar(s[0]) && r[1..] == s[1..]
  {
    if s == [] then [] else [UpperChar(s[0])] + s[1..]
  }

  /** Capitalising twice is capitalising once. */
  lemma CapitalizeFirstIdempotent(s: string)
    ensures CapitalizeFirst(CapitalizeFirst(s)) == CapitalizeFirst(s)
  {
    if s != [] {
      var r := CapitalizeFirst(s);
      assert UpperChar(r[0]) == r[0];
      assert CapitalizeFirst(r) == [r[0]] + r[1..];
    }
  }

  /** `load<Name>Options`. */
  function LoaderName(f: FormField): string
  {
    "load" + CapitalizeFirst(f.formControlName) + "Options"
  }

  /** `(field.apiMethod || 'GET').toLowerCase()`. */
  function HttpVerb(m: Option<HttpMethod>): (v: string)
    ensures m == Some(Post) ==> v == "post"
    ensures m != Some(Post) ==> v == "get"
  {
    var upper := if m == Some(Post) then "POST" else "GET";
    var v := ToLower(upper);
    if m == Some(Post) then
      assert v == [LowerChar('P'), LowerChar('O'), LowerChar('S'), LowerChar('T')];
      v
    else
      assert v == [LowerChar('G'), LowerChar('E'), LowerChar('T')];
      v
  }

  function PathStep(part: string): string
  {
    "['" + part + "']"
  }

  /** `response` followed by one `['part']` per dot-separated part of the path. */
  function PathAccess(path: string): string
  {
    "response" + Concat(Each(Split(path, '.'), PathStep))
  }

  /**
   * The access has one step per part, one more than the path has dots; the
   * parts contain no dot and, joined with dots, give back the path.
   */
  lemma PathAccessShape(path: string)
    ensures |Each(Split(path, '.'), PathStep)| == CountChar(path, '.') + 1
    ensures forall k :: 0 <= k < |Split(path, '.')| ==>
      Each(Split(path, '.'), PathStep)[k] == PathStep(Split(path, '.')[k]) && '.' !in Split(path, '.')[k]
    ensures Join(Split(path, '.'), ".") == path
  {
    SplitCount(path, '.');
    JoinSplit(path, '.');
  }

  /** The `pathParts.forEach(part => pathAccess += ...)` loop. */
  method BuildPathAccess(optionsPath: string) returns (pathAccess: string)
    ensures pathAccess == PathAccess(optionsPath)
  {
    var pathParts := Split(optionsPath, '.');
    ghost var steps := Each(pathParts, PathStep);
    pathAccess := "response";
    var k := 0;
    assert steps[..k] == [];
    while k < |pathParts|
      invariant 0 <= k <= |pathParts|
      invariant pathAccess == "response" + Concat(steps[..k])
    {
      ConcatAppend(steps[..k], [steps[k]]);
      assert steps[..k + 1] == steps[..k] + [steps[k]];
      assert Concat([steps[k]]) == steps[k] + Concat([]) == steps[k];
      AppendAssoc("response", Concat(steps[..k]), steps[k]);
      pathAccess := pathAccess + ("['" + pathParts[k] + "']");
      k := k + 1;
    }
    assert steps[..|pathParts|] == steps;
  }

  /** The load method `generateApiLoadMethod` emits for a field. */
  function ApiLoadMethod(f: FormField): string
  {
    var varName := f.formControlName + "Options";
    var endpoint := OrElse(f.apiEndpoint, "");
    var valueKey := OrElse(f.valueKey, "value");
    var labelKey := OrElse(f.labelKey, "label");
    var extract :=
      if Truthy(f.optionsPath) then
        "      map((response: any) => {\n"
        + "        // Extract options from nested path: " + f.optionsPath.value + "\n"
        + "        const items = " + PathAccess(f.optionsPath.value) + " || [];\n"
        + "        return Array.isArray(items) ? items : [];\n"
        + "      }),\n"
      else "      map((response: any) => Array.isArray(response) ? response : []),\n";
    "  " + LoaderName(f) + "() {\n"
    + "    const request$ = this.http." + HttpVerb(f.apiMethod) + "('" + endpoint + "');\n"
    + "    \n"
    + "    request$.pipe(\n"
    + extract
    + "      map((items: any[]) => {\n"
    + "        return items.map(item => ({\n"
    + "          value: item['" + valueKey + "'] || item,\n"
    + "          label: item['" + labelKey + "'] || item['" + valueKey + "'] || item\n"
    + "        }));\n"
    + "      }),\n"
    + "      catchError((error) => {\n"
    + "        console.error('Error loading options for " + f.formControlName + ":', error);\n"
    + "        return of([]);\n"
    + "      })\n"
    + "    ).subscribe(options => {\n"
    + "      this." + varName + " = options;\n"
    + "    });\n"
    + "  }\n\n"
  }

  function OptionsVarLine(f: FormField): string
  {
    f.formControlName + "Options: any[] = [];\n"
  }

  function LoadCall(f: FormField): string
  {
    "    this." + LoaderName(f) + "();\n"
  }

  /** `ngOnInit` with one load call per loader, then one load method per loader, in the same order. */
  function InitAndLoaders(fields: seq<FormField>): string
  {
    var loaders := Filter(ApiScope(fields), HasLoader);
    "  ngOnInit() {\n" + Concat(Each(loaders, LoadCall)) + "  }\n\n" + Concat(Each(loaders, ApiLoadMethod))
  }

  // ---------------------------------------------------------------------------
  // form-array helpers and patchFormValues
  // ---------------------------------------------------------------------------

  function GroupConfigLine(c: FormField): string
  {
    "      groupConfig['" + c.formControlName + "'] = [''" + ValidatorMarker(c) + "];\n"
  }

  /** One `groupConfig` line per non-structural child, in order. */
  function GroupConfigLines(children: seq<FormField>): (r: seq<string>)
    ensures |r| == |Filter(children, NotStructural)|
    ensures forall k :: 0 <= k < |r| ==> r[k] == GroupConfigLine(Filter(children, NotStructural)[k])
  {
    Each(Filter(children, NotStructural), GroupConfigLine)
  }

  /** `if` for the first group, `else if` for the others. */
  function BranchOpening(k: nat): string
  {
    "    " + (if k == 0 then "if" else "else if") + " ("
  }

  /** The branch of `addArrayRow` for the group at position `k` among the groups. */
  function ArrayRowBranch(g: FormField, k: nat): string
  {
    BranchOpening(k) + ("arrayName === '" + ArrayName(g) + "') {\n" + Concat(GroupConfigLines(ChildrenOrEmpty(g))) + "    }\n")
  }

  function ArrayRowBranches(groups: seq<FormField>): seq<string>
  {
    Enumerate(groups, 0, ArrayRowBranch)
  }

  /** The branch at position `k` opens with `if` exactly when `k` is 0, and with `else if` otherwise. */
  lemma BranchKeyword(g: FormField, k: nat)
    ensures StartsWith(ArrayRowBranch(g, k), "    if (") <==> k == 0
    ensures k > 0 ==> StartsWith(ArrayRowBranch(g, k), "    else if (")
  {
    var tail := "arrayName === '" + ArrayName(g) + "') {\n" + Concat(GroupConfigLines(ChildrenOrEmpty(g))) + "    }\n";
    var s := ArrayRowBranch(g, k);
    StartsWithConcat(BranchOpening(k), tail);
    if k == 0 {
      assert BranchOpening(k) == "    if (";
    } else {
      assert BranchOpening(k) == "    else if (";
      assert |s| >= 8 && s[..8][4] == 'e';
    }
  }

  /** The first repeatable group gets an `if`, every later one an `else if`. */
  lemma ArrayRowKeywords(groups: seq<FormField>)
    ensures |ArrayRowBranches(groups)| == |groups|
    ensures forall k :: 0 <= k < |groups| ==> (StartsWith(ArrayRowBranches(groups)[k], "    if (") <==> k == 0)
    ensures forall k :: 0 < k < |groups| ==> StartsWith(ArrayRowBranches(groups)[k], "    else if (")
  {
    forall k | 0 <= k < |groups|
      ensures StartsWith(ArrayRowBranches(groups)[k], "    if (") <==> k == 0
      ensures k > 0 ==> StartsWith(ArrayRowBranches(groups)[k], "    else if (")
    {
      BranchKeyword(groups[k], k);
    }
  }

  /** `addArrayRow`, `removeArrayRow` and `getFormArray`, emitted only when there is a repeatable group. */
  function ArrayHelpers(groups: seq<FormField>): string
  {
    if groups == [] then ""
    else
      "  addArrayRow(arrayName: string) {\n"
      + "    const formArray = this.form.get(arrayName) as FormArray;\n"
      + "    let groupConfig: { [key: string]: any } = {};\n"
      + "    \n"
      + Concat(ArrayRowBranches(groups))
      + "    formArray.push(this.fb.group(groupConfig));\n"
      + "  }\n\n"
      + "  removeArrayRow(arrayName: string, index: number) {\n"
      + "    const formArray = this.form.get(arrayName) as FormArray;\n"
      + "    formArray.removeAt(index);\n"
      + "  }\n\n"
      + "  getFormArray(arrayName: string): FormArray {\n"
      + "    return this.form.get(arrayName) as FormArray;\n"
      + "  }\n\n"
  }

  function PatchChildEntry(c: FormField): string
  {
    "          " + c.formControlName + ": [item." + c.formControlName + " || ''" + ValidatorMarker(c) + "]"
  }

  /**
   * The block of `patchFormValues` for one group. Its row group lists the
   * non-structural children with the comma rule of the control list (the
   * source's extra bound `childIndex < children.length - 1` is implied by a
   * later non-structural child).
   */
  function PatchArrayBlock(g: FormField): string
  {
    var a := ArrayName(g);
    "    // Handle " + a + " FormArray\n"
    + "    if (data." + a + " && Array.isArray(data." + a + ")) {\n"
    + "      const " + a + "Array = this.form.get('" + a + "') as FormArray;\n"
    + "      " + a + "Array.clear();\n"
    + "      data." + a + ".forEach((item: any) => {\n"
    + "        const group = this.fb.group({\n"
    + Concat(SeparatedLines(ChildrenOrEmpty(g), PatchChildEntry))
    + "        });\n"
    + "        " + a + "Array.push(group);\n"
    + "      });\n"
    + "    }\n\n"
  }

  function RegularPatchLines(f: FormField): string
  {
    "    if (data." + f.formControlName + " !== undefined) {\n"
    + "      formData." + f.formControlName + " = data." + f.formControlName + ";\n"
    + "    }\n"
  }

  /** A field that is neither structural nor a repeatable group. */
  predicate IsRegular(f: FormField)
  {
    !IsStructural(f.fieldType) && f.fieldType != RepeatableGroup
  }

  function PatchMethod(fields: seq<FormField>): string
  {
    var regular := Filter(fields, IsRegular);
    "  // Method to patch form values\n"
    + "  // Usage: this.patchFormValues({ field1: 'value1', field2: 'value2', arrayName: [{ child1: 'val1', child2: 'val2' }] })\n"
    + "  patchFormValues(data: any) {\n"
    + Concat(Each(Filter(fields, IsGroup), PatchArrayBlock))
    + (if regular == [] then ""
       else
         "    // Patch regular form controls\n"
         + "    const formData: any = {};\n"
         + Concat(Each(regular, RegularPatchLines))
         + "    this.form.patchValue(formData);\n")
    + "  }\n\n"
  }

  // ---------------------------------------------------------------------------
  // generateFieldCode
  // ---------------------------------------------------------------------------

  function PanelStar(f: FormField): string
  {
    if IsRequired(f) then " <span class=\"text-red-400\">*</span>" else ""
  }

  function PlaceholderLine(f: FormField): string
  {
    if Truthy(f.placeholder) then "    placeholder=\"" + f.placeholder.value + "\"\n" else ""
  }

  function PlaceholderAttribute(f: FormField): string
  {
    if Truthy(f.placeholder) then " placeholder=\"" + f.placeholder.value + "\"" else ""
  }

  const FocusClasses := "w-full px-3 py-2 bg-gray-700 border border-gray-600 text-gray-100 rounded-md focus:ring-2 focus:ring-blue-500 focus:border-blue-500"
  const ChildClasses := "w-full px-3 py-2 bg-gray-700 border border-gray-600 text-gray-100 rounded-md"

  /** One radio option of a top-level radio: an input with id `<name>_<idx>` and its label. */
  function PanelRadioItem(name: string, opt: string, idx: nat): string
  {
    "    <div class=\"flex items-center\">\n"
    + "      <input\n"
    + "        type=\"radio\"\n"
    + "        formControlName=\"" + name + "\"\n"
    + "        value=\"" + opt + "\"\n"
    + "        id=\"" + RadioId(name, idx) + "\"\n"
    + "        class=\"h-4 w-4 text-blue-600 focus:ring-blue-500 border-gray-600 bg-gray-700\"\n"
    + "      >\n"
    + "      <label for=\"" + RadioId(name, idx) + "\" class=\"ml-2 block text-sm text-gray-300\">\n"
    + "        " + opt + "\n"
    + "      </label>\n"
    + "    </div>\n"
  }

  /** A top-level radio: one input per static option, in order, the i-th with id `<name>_<i>`. */
  function PanelRadioItems(f: FormField): (r: seq<string>)
    ensures |r| == |StaticOptions(f)|
    ensures forall i :: 0 <= i < |r| ==> r[i] == PanelRadioItem(f.formControlName, StaticOptions(f)[i], i)
  {
    Enumerate(StaticOptions(f), 0, (opt, idx) => PanelRadioItem(f.formControlName, opt, idx))
  }

  /** The markup after the generic label block, by type. */
  function PanelInput(f: FormField): string
  {
    var name := f.formControlName;
    match f.fieldType
    case Text | Email | Number =>
      "  <input\n"
      + "    type=\"" + TypeName(f.fieldType) + "\"\n"
      + "    formControlName=\"" + name + "\"\n"
      + PlaceholderLine(f)
      + "    class=\"" + FocusClasses + " placeholder-gray-400\"\n"
      + "  >\n"
    case Textarea =>
      "  <textarea\n"
      + "    formControlName=\"" + name + "\"\n"
      + PlaceholderLine(f)
      + "    rows=\"4\"\n"
      + "    class=\"" + FocusClasses + " placeholder-gray-400\"\n"
      + "  ></textarea>\n"
    case Select =>
      "  <select\n"
      + "    formControlName=\"" + name + "\"\n"
      + "    class=\"" + FocusClasses + "\"\n"
      + "  >\n"
      + Concat(SelectOptions(f, "    ", ApiSourced(f)))
      + "  </select>\n"
    case Radio =>
      "  <div class=\"space-y-2\">\n" + Concat(PanelRadioItems(f)) + "  </div>\n"
    case _ => ""
  }

  /** A top-level checkbox replaces the generic label block; its own label keeps the required marker. */
  function PanelCheckbox(f: FormField): string
  {
    var name := f.formControlName;
    "<div class=\"flex items-center\">\n"
    + "  <input\n"
    + "    type=\"checkbox\"\n"
    + "    formControlName=\"" + name + "\"\n"
    + "    id=\"" + name + "\"\n"
    + "    class=\"h-4 w-4 text-blue-600 focus:ring-blue-500 border-gray-600 bg-gray-700 rounded\"\n"
    + "  >\n"
    + "  <label for=\"" + name + "\" class=\"ml-2 block text-sm text-gray-300\">\n"
    + "    " + Show(f.labelText) + PanelStar(f) + "\n"
    + "  </label>\n"
  }

  /** One radio option of a child radio; the id carries the row index: `<name>_{{i}}_<idx>`. */
  function ChildRadioItem(name: string, opt: string, idx: nat): string
  {
    "        <div class=\"flex items-center\">\n"
    + "          <input type=\"radio\" formControlName=\"" + name + "\" value=\"" + opt + "\" id=\"" + RadioId(name + "_{{i}}", idx) + "\" class=\"h-4 w-4\">\n"
    + "          <label for=\"" + RadioId(name + "_{{i}}", idx) + "\" class=\"ml-2 text-sm text-gray-300\">" + opt + "</label>\n"
    + "        </div>\n"
  }

  /** The input of a child inside a row, by type; a nested group gets none. */
  function ChildInput(c: FormField): string
  {
    var name := c.formControlName;
    match c.fieldType
    case Text | Email | Number =>
      "      <input type=\"" + TypeName(c.fieldType) + "\" formControlName=\"" + name + "\"" + PlaceholderAttribute(c)
      + " class=\"" + ChildClasses + "\">\n"
    case Textarea =>
      "      <textarea formControlName=\"" + name + "\"" + PlaceholderAttribute(c)
      + " rows=\"3\" class=\"" + ChildClasses + "\"></textarea>\n"
    case Select =>
      "      <select formControlName=\"" + name + "\" class=\"" + ChildClasses + "\">\n"
      + Concat(SelectOptions(c, "        ", ApiSourced(c)))
      + "      </select>\n"
    case Checkbox =>
      "      <div class=\"flex items-center\">\n"
      + "        <input type=\"checkbox\" formControlName=\"" + name + "\" id=\"" + name + "_{{i}}\" class=\"h-4 w-4\">\n"
      + "        <label for=\"" + name + "_{{i}}\" class=\"ml-2 text-sm text-gray-300\">" + Show(c.labelText) + "</label>\n"
      + "      </div>\n"
    case Radio =>
      "      <div class=\"space-y-2\">\n"
      + Concat(Enumerate(StaticOptions(c), 0, (opt, idx) => ChildRadioItem(name, opt, idx)))
      + "      </div>\n"
    case _ => ""
  }

  /** A child's block inside a row: its label (falling back to the control name) and its input. */
  function ChildBlock(c: FormField): string
  {
    "    <div class=\"mb-3\">\n"
    + "      <label class=\"block text-sm font-medium text-gray-300 mb-1\">\n"
    + "        " + OrElse(c.labelText, c.formControlName) + PanelStar(c) + "\n"
    + "      </label>\n"
    + ChildInput(c)
    + "    </div>\n"
  }

  /** A row of a repeatable group shows one block per non-structural child, in order. */
  function ChildBlocks(g: FormField): (r: seq<string>)
    ensures |r| == |Filter(ChildrenOrEmpty(g), NotStructural)|
    ensures forall k :: 0 <= k < |r| ==> r[k] == ChildBlock(Filter(ChildrenOrEmpty(g), NotStructural)[k])
  {
    Each(Filter(ChildrenOrEmpty(g), NotStructural), ChildBlock)
  }

  /** The markup of a repeatable group: its header with the add button, then the rows. */
  function GroupCode(g: FormField): string
  {
    var a := ArrayName(g);
    "<div formArrayName=\"" + a + "\" class=\"border border-gray-600 rounded-lg p-4 bg-gray-900\">\n"
    + "  <div class=\"flex justify-between items-center mb-4\">\n"
    + "    <h3 class=\"text-lg font-semibold text-gray-200\">" + OrElse(g.labelText, "Repeatable Group") + "</h3>\n"
    + "    <button type=\"button\" (click)=\"addArrayRow('" + a + "')\" class=\"px-3 py-1 bg-green-600 hover:bg-green-700 text-white rounded-md text-sm\">+ Add Row</button>\n"
    + "  </div>\n\n"
    + "  <div *ngFor=\"let group of getFormArray('" + a + "').controls; let i = index\" [formGroupName]=\"i\" class=\"mb-4 p-4 bg-gray-800 border border-gray-700 rounded-lg\">\n"
    + "    <div class=\"flex justify-between items-start mb-3\">\n"
    + "      <h4 class=\"text-sm font-medium text-gray-300\">Item {{ i + 1 }}</h4>\n"
    + "      <button type=\"button\" (click)=\"removeArrayRow('" + a + "', i)\" class=\"px-2 py-1 bg-red-600 hover:bg-red-700 text-white rounded text-xs\">Remove</button>\n"
    + "    </div>\n\n"
    + Concat(ChildBlocks(g))
    + "  </div>\n"
    + "</div>"
  }

  /** `generateFieldCode(field)` of the editor. */
  function FieldCode(f: FormField): string
  {
    if f.fieldType == Heading then HeadingMarkup(f, "text-white")
    else if f.fieldType == Separator then "<hr class=\"border-gray-600\">"
    else if f.fieldType == RepeatableGroup then GroupCode(f)
    else
      var labelBlock :=
        "<div>\n"
        + "  <label class=\"block text-sm font-medium text-gray-300 mb-1\">\n"
        + "    " + Show(f.labelText) + PanelStar(f) + "\n"
        + "  </label>\n";
      (if f.fieldType == Checkbox then PanelCheckbox(f) else labelBlock + PanelInput(f)) + "</div>"
  }

  /** A heading is sized by its level and a separator is a fixed rule. */
  lemma PanelStructuralMarkup(f: FormField)
    requires IsStructural(f.fieldType)
    ensures f.fieldType == Separator ==> FieldCode(f) == "<hr class=\"border-gray-600\">"
    ensures f.fieldType == Heading ==>
      StartsWith(FieldCode(f), "<h" + ShowNumber(f.level) + " class=\"text-" + HeadingSize(f.level) + " ")
  {
  }

  // ---------------------------------------------------------------------------
  // generateFullFormCode
  // ---------------------------------------------------------------------------

  /** Everything before the control list: imports, class head, options arrays and the constructor head. */
  function ClassHeader(fields: seq<FormField>): string
  {
    var api := HasApiOptions(fields);
    "// Component TypeScript\n"
    + (if api then
         "import { Component, OnInit } from '@angular/core';\n"
         + "import { FormBuilder, FormGroup, FormArray, Validators } from '@angular/forms';\n"
         + "import { HttpClient } from '@angular/common/http';\n"
         + "import { Observable, of } from 'rxjs';\n"
         + "import { map, catchError } from 'rxjs/operators';\n"
       else
         "import { Component } from '@angular/core';\n"
         + "import { FormBuilder, FormGroup, FormArray, Validators } from '@angular/forms';\n")
    + "\n"
    + "export class YourComponent" + (if api then " implements OnInit" else "") + " {\n"
    + "form: FormGroup;\n"
    + (if api then "\n" + Concat(Each(Filter(ApiScope(fields), UsesApi), OptionsVarLine)) else "")
    + "\n"
    + "constructor(private fb: FormBuilder" + (if api then ", private http: HttpClient" else "") + ") {\n"
    + "  this.form = this.fb.group({\n"
  }

  /** Everything after the control list. */
  function ClassTail(fields: seq<FormField>): string
  {
    "  });\n}\n\n"
    + (if HasApiOptions(fields) then InitAndLoaders(fields) else "")
    + ArrayHelpers(Filter(fields, IsGroup))
    + PatchMethod(fields)
    + "  // Method to get form values\n"
    + "  getFormValues(): any {\n"
    + "    return this.form.value;\n"
    + "  }\n\n"
    + "  // Method to reset form\n"
    + "  resetForm() {\n"
    + "    this.form.reset();\n"
    + "  }\n\n"
    + FormTemplate(Each(fields, FieldCode))
  }

  /** The code `generateFullFormCode` returns for a field list. */
  function FullFormCode(fields: seq<FormField>): string
  {
    ClassHeader(fields) + Concat(SeparatedLines(fields, ControlEntry)) + ClassTail(fields)
  }

  /**
   * The control-list loop of `generateFullFormCode`: appends to `code` the
   * entry of every non-structural field, each followed by a comma when some
   * later field is non-structural.
   */
  method AppendControlLines(code: string, fields: seq<FormField>) returns (fullCode: string)
    ensures fullCode == code + Concat(SeparatedLines(fields, ControlEntry))
  {
    fullCode := code;
    var index := 0;
    assert fields[index..] == fields;
    while index < |fields|
      invariant 0 <= index <= |fields|
      invariant fullCode + Concat(SeparatedLines(fields[index..], ControlEntry)) == code + Concat(SeparatedLines(fields, ControlEntry))
    {
      var line := ControlLineAt(fields, index);
      assert fields[index..][0] == fields[index] && fields[index..][1..] == fields[index + 1..];
      SeparatedLinesStep(fields[index..], ControlEntry, line);
      AppendAssoc(fullCode, line, Concat(SeparatedLines(fields[index + 1..], ControlEntry)));
      fullCode := fullCode + line;
      index := index + 1;
    }
    assert fields[|fields|..] == [];
    assert Concat(SeparatedLines(fields[index..], ControlEntry)) == [];
  }

  /** The body of the control-list loop for field `index`: nothing for a heading or separator, else its entry line. */
  method ControlLineAt(fields: seq<FormField>, index: nat) returns (line: string)
    requires index < |fields|
    ensures IsStructural(fields[index].fieldType) ==> line == ""
    ensures !IsStructural(fields[index].fieldType) ==>
      line == ControlEntry(fields[index]) + (if |Filter(fields[index + 1..], NotStructural)| > 0 then "," else "") + "\n"
  {
    var field := fields[index];
    line := "";
    if field.fieldType != Heading && field.fieldType != Separator {
      var entry;
      if field.fieldType == RepeatableGroup {
        entry := "    " + ArrayName(field) + ": this.fb.array([])";
      } else {
        entry := "    " + field.formControlName + ": [''" + ValidatorMarker(field) + "]";
      }
      var remainingFields := Filter(fields[index + 1..], NotStructural);
      var comma := if |remainingFields| > 0 then "," else "";
      line := entry + comma + "\n";
    }
  }

  /** `generateFullFormCode`: the class header, the control list, then the rest of the class and the template. */
  method GenerateFullFormCode(fields: seq<FormField>) returns (fullCode: string)
    ensures fullCode == FullFormCode(fields)
  {
    fullCode := ClassHeader(fields);
    fullCode := AppendControlLines(fullCode, fields);
    fullCode := fullCode + ClassTail(fields);
  }
}
