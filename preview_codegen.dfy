/**
 * The older code generator of the preview pane
 * (src/app/components/form-preview/form-preview.component.ts): the component
 * code `copyFullCode` assembles, a flat `fb.group` of scalar controls and one
 * markup block per field, without the clipboard call.
 */
module PreviewCodegen {
  import opened Wrappers
  import opened Strings
  import opened FormFields
  import opened Markup

  /** The control entry of a non-structural field; a repeatable group gets a scalar control too. */
  function PreviewEntry(f: FormField): string
  {
    "    " + f.formControlName + ": [''" + ValidatorMarker(f) + "]"
  }

  /** An entry line, with or without the comma. */
  function EntryLine(entry: FormField -> string, f: FormField, comma: bool): string
  {
    entry(f) + (if comma then "," else "") + "\n"
  }

  /**
   * The entry lines of the preview's `fb.group` (`entry` renders one field):
   * one per non-structural field, with a comma whenever the field is not the
   * last of the whole list.
   */
  function PreviewLines(fields: seq<FormField>, entry: FormField -> string): seq<string>
  {
    if fields == [] then []
    else if IsStructural(fields[0].fieldType) then PreviewLines(fields[1..], entry)
    else [EntryLine(entry, fields[0], |fields| > 1)] + PreviewLines(fields[1..], entry)
  }

  /**
   * The entries are those of the non-structural fields, in order; each one
   * but the last carries a comma, and the last carries one exactly when the
   * list ends in a heading or separator.
   */
  lemma {:induction false} PreviewLinesShape(fields: seq<FormField>, entry: FormField -> string)
    ensures PreviewShaped(fields, entry)
  {
    if fields != [] {
      var rest := fields[1..];
      PreviewLinesShape(rest, entry);
      if IsStructural(fields[0].fieldType) {
        PreviewLinesSkip(fields, entry);
      } else {
        PreviewLinesCons(fields, entry);
      }
    }
  }

  /** What PreviewLinesShape states about a list. */
  predicate PreviewShaped(fields: seq<FormField>, entry: FormField -> string)
  {
    EntriesShaped(PreviewLines(fields, entry), Filter(fields, NotStructural), entry, EndsStructural(fields))
  }

  /** The list ends in a heading or separator. */
  predicate EndsStructural(fields: seq<FormField>)
  {
    fields != [] && IsStructural(fields[|fields| - 1].fieldType)
  }

  /** One line per field of `g`, each with a comma but the last, which has one exactly when `lastComma`. */
  predicate EntriesShaped(lines: seq<string>, g: seq<FormField>, entry: FormField -> string, lastComma: bool)
  {
    && |lines| == |g|
    && (forall j :: 0 <= j < |g| - 1 ==> lines[j] == EntryLine(entry, g[j], true))
    && (|g| > 0 ==> lines[|g| - 1] == EntryLine(entry, g[|g| - 1], lastComma))
  }

  /** Putting a comma-terminated entry in front of well-shaped non-empty entries keeps them well shaped. */
  lemma EntriesShapedCons(lines: seq<string>, tail: seq<string>, g: seq<FormField>, h: seq<FormField>,
                          x: FormField, entry: FormField -> string, lastComma: bool)
    requires EntriesShaped(tail, h, entry, lastComma) && h != []
    requires lines == [EntryLine(entry, x, true)] + tail && g == [x] + h
    ensures EntriesShaped(lines, g, entry, lastComma)
  {
    forall j | 0 < j < |g|
      ensures lines[j] == tail[j - 1] && g[j] == h[j - 1]
    {
    }
  }

  /** The step of PreviewLinesShape for a list that starts with a heading or separator. */
  lemma PreviewLinesSkip(fields: seq<FormField>, entry: FormField -> string)
    requires fields != [] && IsStructural(fields[0].fieldType)
    requires PreviewShaped(fields[1..], entry)
    ensures PreviewShaped(fields, entry)
  {
    var rest := fields[1..];
    assert Filter(fields, NotStructural) == [] + Filter(rest, NotStructural) == Filter(rest, NotStructural);
    assert PreviewLines(fields, entry) == PreviewLines(rest, entry);
    if rest != [] {
      assert fields[|fields| - 1] == rest[|rest| - 1];
    }
  }

  /** The step of PreviewLinesShape for a list that starts with a non-structural field. */
  lemma PreviewLinesCons(fields: seq<FormField>, entry: FormField -> string)
    requires fields != [] && !IsStructural(fields[0].fieldType)
    requires PreviewShaped(fields[1..], entry)
    ensures PreviewShaped(fields, entry)
  {
    var rest := fields[1..];
    var h := Filter(rest, NotStructural);
    var tail := PreviewLines(rest, entry);
    assert Filter(fields, NotStructural) == [fields[0]] + h;
    assert PreviewLines(fields, entry) == [EntryLine(entry, fields[0], |fields| > 1)] + tail;
    if h == [] {
      if rest != [] {
        FilterEmpty(rest, NotStructural);
        assert !NotStructural(rest[|rest| - 1]);
        assert fields[|fields| - 1] == rest[|rest| - 1];
      }
    } else {
      assert |rest| >= |h| > 0;
      assert fields[|fields| - 1] == rest[|rest| - 1];
      EntriesShapedCons(PreviewLines(fields, entry), tail, Filter(fields, NotStructural), h, fields[0], entry, EndsStructural(rest));
    }
  }

  /**
   * The preview and the panel generators disagree on a form that ends in a
   * heading: the preview leaves a trailing comma, the panel does not.
   */
  lemma TrailingCommaDiffers(f: FormField, h: FormField)
    requires f.fieldType == Text && h.fieldType == Heading
    ensures PreviewLines([f, h], PreviewEntry) == [EntryLine(PreviewEntry, f, true)]
    ensures SeparatedLines([f, h], PreviewEntry) == [EntryLine(PreviewEntry, f, false)]
  {
    assert [f, h][1..] == [h];
    assert [h][1..] == [];
    assert Filter([h], NotStructural) == [];
    assert PreviewLines([h], PreviewEntry) == [] && SeparatedLines([h], PreviewEntry) == [];
  }

  /** The required marker of the label, in the preview's colours. */
  function PreviewStar(f: FormField): string
  {
    if IsRequired(f) then " <span class=\"text-red-500\">*</span>" else ""
  }

  function PlaceholderAttribute(f: FormField): string
  {
    if Truthy(f.placeholder) then " placeholder=\"" + f.placeholder.value + "\"" else ""
  }

  /** One radio option: an input with id `<name>_<idx>` and its label. */
  function PreviewRadioItem(name: string, opt: string, idx: nat): string
  {
    "    <div class=\"flex items-center\">\n"
    + "      <input type=\"radio\" formControlName=\"" + name + "\" value=\"" + opt + "\" id=\"" + RadioId(name, idx) + "\">\n"
    + "      <label for=\"" + RadioId(name, idx) + "\" class=\"ml-2\">" + opt + "</label>\n"
    + "    </div>\n"
  }

  /** A preview radio: one input per static option, in order, the i-th with id `<name>_<i>`. */
  function PreviewRadioItems(f: FormField): (r: seq<string>)
    ensures |r| == |StaticOptions(f)|
    ensures forall i :: 0 <= i < |r| ==> r[i] == PreviewRadioItem(f.formControlName, StaticOptions(f)[i], i)
  {
    Enumerate(StaticOptions(f), 0, (opt, idx) => PreviewRadioItem(f.formControlName, opt, idx))
  }

  /** A preview select: one placeholder, then one option per static option, in order (no remote options). */
  function PreviewSelectOptions(f: FormField): (r: seq<string>)
    ensures |r| == 1 + |StaticOptions(f)|
    ensures r[0] == "    " + Placeholder
    ensures forall i :: 0 <= i < |StaticOptions(f)| ==> r[i + 1] == OptionElement("    ", StaticOptions(f)[i])
  {
    SelectOptions(f, "    ", false)
  }

  /** The markup after the generic label block, by type; a repeatable group gets none. */
  function PreviewInput(f: FormField): string
  {
    var name := f.formControlName;
    match f.fieldType
    case Text | Email | Number =>
      "  <input type=\"" + TypeName(f.fieldType) + "\" formControlName=\"" + name + "\"" + PlaceholderAttribute(f)
      + " class=\"w-full px-3 py-2 border border-gray-300 rounded-md\">\n"
    case Textarea =>
      "  <textarea formControlName=\"" + name + "\"" + PlaceholderAttribute(f)
      + " rows=\"4\" class=\"w-full px-3 py-2 border border-gray-300 rounded-md\"></textarea>\n"
    case Select =>
      "  <select formControlName=\"" + name + "\" class=\"w-full px-3 py-2 border border-gray-300 rounded-md\">\n"
      + Concat(PreviewSelectOptions(f)) + "  </select>\n"
    case Radio =>
      "  <div class=\"space-y-2\">\n" + Concat(PreviewRadioItems(f)) + "  </div>\n"
    case _ => ""
  }

  /** A preview checkbox: the generic label block is discarded and a `flex` div starts afresh. */
  function PreviewCheckbox(f: FormField): string
  {
    "<div class=\"flex items-center\">\n"
    + "  <input type=\"checkbox\" formControlName=\"" + f.formControlName + "\" id=\"" + f.formControlName + "\" class=\"h-4 w-4\">\n"
    + "  <label for=\"" + f.formControlName + "\" class=\"ml-2\">" + Show(f.labelText) + "</label>\n"
  }

  /** `generateFieldCode(field)` of the preview. */
  function PreviewFieldCode(f: FormField): string
  {
    if f.fieldType == Heading then HeadingMarkup(f, "text-gray-900")
    else if f.fieldType == Separator then "<hr class=\"border-gray-300\">"
    else
      var labelBlock :=
        "<div>\n"
        + "  <label class=\"block text-sm font-medium text-gray-700 mb-1\">\n"
        + "    " + Show(f.labelText) + PreviewStar(f) + "\n"
        + "  </label>\n";
      (if f.fieldType == Checkbox then PreviewCheckbox(f) else labelBlock + PreviewInput(f)) + "</div>"
  }

  /**
   * A preview checkbox starts with the fresh `flex` div and its markup does
   * not depend on whether the field is required: the marker went with the
   * discarded label block.
   */
  lemma PreviewCheckboxIgnoresRequired(f: FormField, required: Option<bool>)
    requires f.fieldType == Checkbox
    ensures PreviewFieldCode(f.(required := required)) == PreviewFieldCode(f)
    ensures StartsWith(PreviewFieldCode(f), "<div class=\"flex items-center\">\n")
  {
    var head := "<div class=\"flex items-center\">\n";
    var code := PreviewFieldCode(f);
    assert code == head + (PreviewFieldCode(f)[|head|..]);
  }

  /** A preview heading is sized by its level; a separator is a fixed rule. */
  lemma PreviewStructuralMarkup(f: FormField)
    requires IsStructural(f.fieldType)
    ensures f.fieldType == Separator ==> PreviewFieldCode(f) == "<hr class=\"border-gray-300\">"
    ensures f.fieldType == Heading ==>
      StartsWith(PreviewFieldCode(f), "<h" + ShowNumber(f.level) + " class=\"text-" + HeadingSize(f.level) + " ")
  {
  }

  const PreviewHeader :=
    "// Component TypeScript\n"
    + "import { Component } from '@angular/core';\n"
    + "import { FormBuilder, FormGroup, Validators } from '@angular/forms';\n\n"
    + "form: FormGroup;\n\n"
    + "constructor(private fb: FormBuilder) {\n"
    + "  this.form = this.fb.group({\n"

  /** The code `copyFullCode` builds for a field list. */
  function PreviewFullCode(fields: seq<FormField>): string
  {
    PreviewHeader + Concat(PreviewLines(fields, PreviewEntry)) + PreviewTail(fields)
  }

  /** What follows the control list: the end of the constructor and the template. */
  function PreviewTail(fields: seq<FormField>): string
  {
    "  });\n}\n\n" + FormTemplate(Each(fields, PreviewFieldCode))
  }

  /**
   * `copyFullCode` up to the clipboard call: the control list is accumulated
   * field by field, each entry followed by a comma unless the field is the
   * last of the list.
   */
  method CopyFullCode(fields: seq<FormField>) returns (fullCode: string)
    ensures fullCode == PreviewFullCode(fields)
  {
    fullCode := PreviewHeader;
    var index := 0;
    assert fields[index..] == fields;
    while index < |fields|
      invariant 0 <= index <= |fields|
      invariant fullCode + Concat(PreviewLines(fields[index..], PreviewEntry)) == PreviewHeader + Concat(PreviewLines(fields, PreviewEntry))
    {
      var field := fields[index];
      assert fields[index..][1..] == fields[index + 1..];
      if field.fieldType != Heading && field.fieldType != Separator {
        var validator := ValidatorMarker(field);
        var entry := "    " + field.formControlName + ": [''" + validator + "]";
        var comma := if index < |fields| - 1 then "," else "";
        var line := entry + comma + "\n";
        assert fields[index..][0] == field;
        assert line == EntryLine(PreviewEntry, field, |fields[index..]| > 1);
        assert [line] + PreviewLines(fields[index + 1..], PreviewEntry) == PreviewLines(fields[index..], PreviewEntry);
        assert ([line] + PreviewLines(fields[index + 1..], PreviewEntry))[1..] == PreviewLines(fields[index + 1..], PreviewEntry);
        fullCode := fullCode + line;
      }
      index := index + 1;
    }
    assert fields[|fields|..] == [];
    assert Concat(PreviewLines(fields[index..], PreviewEntry)) == [];
    assert fullCode == PreviewHeader + Concat(PreviewLines(fields, PreviewEntry));
    fullCode := fullCode + PreviewTail(fields);
  }
}
