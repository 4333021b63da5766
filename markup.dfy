/**
 * The pieces both code generators share
 * (src/app/components/field-config-panel/field-config-panel.component.ts and
 * src/app/components/form-preview/form-preview.component.ts): the `+=`
 * accumulation over a list, `filter`, the `Validators.required` marker, the
 * heading tag, radio ids, the option list of a select and the template that
 * wraps the per-field markup.
 */
module Markup {
  import opened Wrappers
  import opened Strings
  import opened FormFields

  /** `items.forEach(x => code += render(x))`, as the list of fragments appended. */
  function Each<T>(items: seq<T>, render: T -> string): (r: seq<string>)
    ensures |r| == |items|
    ensures forall i :: 0 <= i < |items| ==> r[i] == render(items[i])
  {
    if items == [] then [] else [render(items[0])] + Each(items[1..], render)
  }

  /** `items.forEach((x, idx) => code += render(x, idx))`, with indices counted from `start`. */
  function Enumerate<T>(items: seq<T>, start: nat, render: (T, nat) -> string): (r: seq<string>)
    ensures |r| == |items|
    ensures forall i :: 0 <= i < |items| ==> r[i] == render(items[i], start + i)
  {
    if items == [] then [] else [render(items[0], start)] + Enumerate(items[1..], start + 1, render)
  }

  /** `fields.filter(p)`: the fields satisfying `p`, in their order. */
  function Filter(s: seq<FormField>, p: FormField -> bool): (r: seq<FormField>)
    ensures |r| <= |s|
    ensures forall i :: 0 <= i < |r| ==> p(r[i])
  {
    if s == [] then [] else (if p(s[0]) then [s[0]] else []) + Filter(s[1..], p)
  }

  /** The filter keeps exactly the elements that pass. */
  lemma {:induction false} FilterMembers(s: seq<FormField>, p: FormField -> bool)
    ensures forall x :: x in Filter(s, p) <==> x in s && p(x)
  {
    if s != [] {
      FilterMembers(s[1..], p);
      assert s == [s[0]] + s[1..];
    }
  }

  /** An empty filter result means no element passes. */
  lemma {:induction false} FilterEmpty(s: seq<FormField>, p: FormField -> bool)
    requires Filter(s, p) == []
    ensures forall i :: 0 <= i < |s| ==> !p(s[i])
  {
    if s != [] {
      FilterEmpty(s[1..], p);
      forall i | 0 < i < |s| ensures !p(s[i]) {
        assert s[i] == s[1..][i - 1];
      }
    }
  }

  predicate NotStructural(f: FormField)
  {
    !IsStructural(f.fieldType)
  }

  predicate IsGroup(f: FormField)
  {
    f.fieldType == RepeatableGroup
  }

  /** The options a static select or radio lists (`field.options?.forEach`). */
  function StaticOptions(f: FormField): seq<string>
  {
    if f.options.Some? then f.options.value else []
  }

  /** `field.required ? ', Validators.required' : ''`: the marker is there exactly when the field is required. */
  function ValidatorMarker(f: FormField): (m: string)
    ensures m == ", Validators.required" <==> IsRequired(f)
    ensures m == "" <==> !IsRequired(f)
  {
    if IsRequired(f) then ", Validators.required" else ""
  }

  /** The Tailwind text size of a heading: `3xl` at level 1, `2xl` at level 2, `xl` for any other or no level. */
  function HeadingSize(level: Option<int>): (size: string)
    ensures level == Some(1) ==> size == "3xl"
    ensures level == Some(2) ==> size == "2xl"
    ensures level != Some(1) && level != Some(2) ==> size == "xl"
  {
    match level
    case Some(1) => "3xl"
    case Some(2) => "2xl"
    case _ => "xl"
  }

  /**
   * A heading field's markup in the given text colour: the opening and the
   * closing tag carry the same `h<level>` (`undefined` when there is no level)
   * and the opening tag carries the size class.
   */
  function HeadingMarkup(f: FormField, colour: string): (r: string)
    ensures StartsWith(r, "<h" + ShowNumber(f.level) + " class=\"text-" + HeadingSize(f.level) + " ")
    ensures EndsWith(r, "</h" + ShowNumber(f.level) + ">")
  {
    var open := "<h" + ShowNumber(f.level) + " class=\"text-" + HeadingSize(f.level) + " ";
    var close := "</h" + ShowNumber(f.level) + ">";
    var body := open + "font-bold " + colour + "\">" + Show(f.heading);
    assert StartsWith(body, open) by {
      assert body == open + ("font-bold " + colour + "\">" + Show(f.heading));
      assert body[..|open|] == open;
    }
    StartsWithAppend(body, open, close);
    EndsWithConcat(body, close);
    body + close
  }

  /** The id of radio input `idx` of a control: `<name>_<idx>`. */
  function RadioId(name: string, idx: nat): string
  {
    name + "_" + NatToString(idx)
  }

  /** Different options of one radio group get different ids. */
  lemma RadioIdsDistinct(name: string, i: nat, j: nat)
    requires i != j
    ensures RadioId(name, i) != RadioId(name, j)
  {
    if RadioId(name, i) == RadioId(name, j) {
      assert (name + "_") + NatToString(i) == (name + "_") + NatToString(j);
      PrefixedNumberInjective(name + "_", i, j);
    }
  }

  function OptionElement(indent: string, opt: string): string
  {
    indent + "<option value=\"" + opt + "\">" + opt + "</option>\n"
  }

  const Placeholder := "<option value=\"\">Select an option</option>\n"

  /**
   * The options of a generated select: one placeholder, then either one
   * `*ngFor` option bound to `<name>Options` (remote options) or one option
   * element per static option, in order.
   */
  function SelectOptions(f: FormField, indent: string, remote: bool): (r: seq<string>)
    ensures |r| == 1 + (if remote then 1 else |StaticOptions(f)|)
    ensures r[0] == indent + Placeholder
    ensures remote ==> r[1] == indent + "<option *ngFor=\"let option of " + f.formControlName + "Options\" [value]=\"option.value\">{{ option.label }}</option>\n"
    ensures !remote ==> forall i :: 0 <= i < |StaticOptions(f)| ==> r[i + 1] == OptionElement(indent, StaticOptions(f)[i])
  {
    var rest :=
      if remote then [indent + "<option *ngFor=\"let option of " + f.formControlName + "Options\" [value]=\"option.value\">{{ option.label }}</option>\n"]
      else Each(StaticOptions(f), opt => OptionElement(indent, opt));
    [indent + Placeholder] + rest
  }

  /** `  ${fieldCode.replace(/\n/g, '\n  ')}\n\n`: one field's markup inside the form. */
  function TemplateBlock(code: string): string
  {
    "  " + Indent(code) + "\n\n"
  }

  /** The template part of the generated code: the form element around one block per field, then the submit button. */
  function FormTemplate(fieldCodes: seq<string>): string
  {
    "// Component Template\n"
    + "<form [formGroup]=\"form\" (ngSubmit)=\"onSubmit()\" class=\"space-y-6\">\n"
    + Concat(Each(fieldCodes, TemplateBlock))
    + "  <button type=\"submit\" class=\"w-full px-4 py-2 bg-blue-600 hover:bg-blue-700 text-white rounded-md\">Submit</button>\n"
    + "</form>"
  }

  /**
   * The entry lines of a generated `fb.group({...})` or row group: one line
   * per non-structural field, followed by a comma exactly when some later
   * field of the list is non-structural.
   */
  function SeparatedLines(fields: seq<FormField>, entry: FormField -> string): seq<string>
  {
    if fields == [] then []
    else if IsStructural(fields[0].fieldType) then SeparatedLines(fields[1..], entry)
    else
      var comma := if |Filter(fields[1..], NotStructural)| > 0 then "," else "";
      [entry(fields[0]) + comma + "\n"] + SeparatedLines(fields[1..], entry)
  }

  /**
   * The entries are those of the non-structural fields, in order, and every
   * entry but the last is followed by a comma: the list never ends in a comma.
   */
  lemma {:induction false} SeparatedLinesShape(fields: seq<FormField>, entry: FormField -> string)
    ensures var g := Filter(fields, NotStructural);
      && |SeparatedLines(fields, entry)| == |g|
      && forall j :: 0 <= j < |g| ==>
           SeparatedLines(fields, entry)[j] == entry(g[j]) + (if j < |g| - 1 then "," else "") + "\n"
  {
    if fields != [] {
      var rest := fields[1..];
      SeparatedLinesShape(rest, entry);
      var g := Filter(fields, NotStructural);
      var h := Filter(rest, NotStructural);
      if !IsStructural(fields[0].fieldType) {
        assert g == [fields[0]] + h;
        var lines := SeparatedLines(fields, entry);
        forall j | 0 <= j < |g|
          ensures lines[j] == entry(g[j]) + (if j < |g| - 1 then "," else "") + "\n"
        {
          if j > 0 {
            assert lines[j] == SeparatedLines(rest, entry)[j - 1];
            assert g[j] == h[j - 1];
          }
        }
      }
    }
  }

  /** One step of accumulating the entry lines: the first field contributes `line`, which is empty when it is structural. */
  lemma SeparatedLinesStep(rest: seq<FormField>, entry: FormField -> string, line: string)
    requires rest != []
    requires IsStructural(rest[0].fieldType) ==> line == ""
    requires !IsStructural(rest[0].fieldType) ==>
      line == entry(rest[0]) + (if |Filter(rest[1..], NotStructural)| > 0 then "," else "") + "\n"
    ensures Concat(SeparatedLines(rest, entry)) == line + Concat(SeparatedLines(rest[1..], entry))
  {
    if !IsStructural(rest[0].fieldType) {
      var lines := SeparatedLines(rest, entry);
      assert lines == [line] + SeparatedLines(rest[1..], entry);
      assert lines[1..] == SeparatedLines(rest[1..], entry);
    } else {
      assert line + Concat(SeparatedLines(rest[1..], entry)) == Concat(SeparatedLines(rest[1..], entry));
    }
  }
}
