# Form designer core, modelled in Dafny

The modelled system is an Angular form designer with four core parts:

- **Field descriptor.** `FormField` describes one field of a form under design. It has ten field types, static or API-sourced options, and repeatable groups whose `children` are themselves fields.
- **Builder store.** The form-builder component keeps the list of fields and the selected field. It also keeps a live reactive preview form, plus a map from field id to the name of the control registered for it. It adds, selects, renames, removes and nests fields, and adds or removes rows of a repeatable group's form array.
- **Field editor.** The field-configuration panel edits a draft copy of a field and merges it back into the field list. The options appear in a text box as a comma-separated list that is parsed back into options. The editor switches a field between static and API options, edits a repeatable group's children, and generates the Angular component code for the whole form.
- **Preview.** The form-preview component renders the form and generates its own, shorter version of the component code.

The project has these modules:

- `Wrappers` and `Strings`: option values and string helpers (number rendering, `split`/`join`, `trim`, ASCII case).
- `JsArrays`: JavaScript `splice`.
- `FormFields`: the record and its defaults.
- `FieldTree`: the recursive lookup by id and its preorder reading.
- `FormRegistry` and `ControlSync`: the preview form as a map from names to controls.
- `FormBuilderComponent`: the builder as a class.
- `OptionParsing`: the option text box.
- `DraftEditing`: the draft edits as values.
- `FieldConfigPanelComponent`: the editor as a class.
- `Markup`: the generator pieces both code generators share.
- `PanelCodegen`: the editor's generator.
- `PreviewCodegen`: the preview's generator.

The builder and the editor are classes, because their methods update fields in place. The builder keeps an id invariant, `Valid()`: every field of the forest, at any depth, has an id `field_<k>` with `1 <= k <=` the counter, and no two fields share an id. The constructor establishes it and every operation of the builder keeps it. Because of it, the field that `addField` and `addFieldToGroup` create is always the one the selection reads back. Three code-generation loops are methods with loop invariants: the two control-list loops and the path-access loop. Each is proved equal to a function that states the generated text. The rest of each generator is functions.

## Model

| member | source | states |
|---|---|---|
| Wrappers.Lookup | src/app/components/form-builder/form-builder.component.ts:115 | `Map.get`: a value exactly when the key is present, and then the stored one |
| Strings.NatToStringRoundTrip | src/app/components/form-builder/form-builder.component.ts:42 | reading back the decimal digits of the counter in `field_${n}` gives `n` |
| Strings.NatToStringInjective | src/app/components/form-builder/form-builder.component.ts:42 | different counter values render as different digit strings |
| Strings.IntToString | src/app/components/form-preview/form-preview.component.ts:77 | an integer renders as its digits, with a `-` sign exactly when negative |
| Strings.Split | src/app/components/field-config-panel/field-config-panel.component.ts:139 | `split(',')` returns at least one piece and no piece contains the separator |
| Strings.JoinSplit | src/app/components/field-config-panel/field-config-panel.component.ts:705 | joining the pieces of `split(sep)` with `sep` gives back the original string |
| Strings.SplitCount | src/app/components/field-config-panel/field-config-panel.component.ts:705 | `split` returns one more piece than the string has separators |
| Strings.TrimStartShape | src/app/components/field-config-panel/field-config-panel.component.ts:139 | trimming the start drops a whitespace-only prefix and leaves a suffix that is empty or begins with non-whitespace |
| Strings.TrimEndShape | src/app/components/field-config-panel/field-config-panel.component.ts:139 | trimming the end drops a whitespace-only suffix and leaves a prefix that is empty or ends with non-whitespace |
| Strings.TrimProperties | src/app/components/field-config-panel/field-config-panel.component.ts:139 | `trim()` returns a trimmed string, returns empty exactly for all-whitespace input, and adds no character |
| Strings.TrimAfterWhitespace | src/app/components/field-config-panel/field-config-panel.component.ts:139 | leading whitespace before a trimmed non-empty string is removed by `trim()` and nothing else is |
| Strings.ToLower | src/app/components/form-builder/form-builder.component.ts:47 | `toLowerCase()` keeps the length and lowers each letter A–Z, leaving every other character |
| Strings.UpperChar | src/app/components/field-config-panel/field-config-panel.component.ts:685 | `toUpperCase()` on one character maps a–z to the letter 32 code points below, in A–Z, and keeps any other character |
| Strings.LowerChar | src/app/components/form-builder/form-builder.component.ts:47 | `toLowerCase()` on one character maps A–Z to the letter 32 code points above, in a–z, and keeps any other character |
| Strings.Indent | src/app/components/form-preview/form-preview.component.ts:62 | `replace(/\n/g, '\n  ')` adds two characters per newline and leaves a newline-free string as it is |
| Strings.IndentAppend | src/app/components/form-preview/form-preview.component.ts:62 | the global replace works piecewise: indenting a concatenation is the concatenation of the indented parts |
| Strings.IndentNewline | src/app/components/form-preview/form-preview.component.ts:62 | each newline between two parts becomes a newline followed by two spaces, and the parts are indented on their own |
| JsArrays.SpliceOne | src/app/components/form-builder/form-builder.component.ts:192 | `splice(i, 1)` removes element `i` when it exists, keeps the list when `i` is past the end, counts a negative start from the end, clamps a start below `-length` to the first element, and shortens the list by one exactly when the adjusted start is inside it |
| FormFields.ParseFieldType | src/app/models/form-field.ts:1 | a type literal is recognised exactly when it names a field type, and names that type |
| FormFields.FieldTypesAreTen | src/app/models/form-field.ts:1 | there are exactly ten field types, with pairwise different literals |
| FormFields.OrElse | src/app/components/form-builder/form-builder.component.ts:66 | `x \|\| d` yields `x` when it is a non-empty string and `d` otherwise |
| FormFields.ArrayName | src/app/components/form-builder/form-builder.component.ts:66 | a group's array name is its truthy `formArrayName`, otherwise its control name |
| FormFields.FreshIdsAreDistinct | src/app/components/form-builder/form-builder.component.ts:42 | `field_n`, `child_n` and `array_n` ids are equal only for equal counters, and a field id never equals a child id |
| FormFields.NewField | src/app/components/form-builder/form-builder.component.ts:41-58 | a new field has id and control name `field_n`, is not required and has no API source; only a repeatable group has an (empty) children list, named `array_n`; exactly selects and radios get the three default options |
| FormFields.NewChild | src/app/components/form-builder/form-builder.component.ts:235-248 | a new child has the given id as id and control name, is not required, has no children and no array name; exactly selects and radios get the default options |
| FieldTree.FindFieldById | src/app/components/form-builder/form-builder.component.ts:100-109 | a field that is found carries the id that was searched for |
| FieldTree.FindIsFirstPreorderMatch | src/app/components/form-builder/form-builder.component.ts:100-109 | the recursive lookup returns the first field with the id in preorder (each field before its children, then its next sibling) |
| FieldTree.FindMissMeansAbsent | src/app/components/field-config-panel/field-config-panel.component.ts:50-59 | the lookup returns nothing exactly when no field at any depth has the id |
| FieldTree.FirstWithIdAppend | src/app/components/form-builder/form-builder.component.ts:101-107 | the first match in a concatenation is the first match of the front part if any, else of the back part |
| FieldTree.ReplaceById | src/app/components/field-config-panel/field-config-panel.component.ts:116 | merging a draft into the forest keeps the number of top-level fields and their ids |
| FieldTree.ReplaceMissIsNoOp | src/app/components/field-config-panel/field-config-panel.component.ts:115 | when no field has the draft's id, the merge changes nothing |
| FieldTree.ReplaceThenFind | src/app/components/field-config-panel/field-config-panel.component.ts:114-116 | after the merge, looking up the draft's id returns the draft |
| FieldTree.ReplaceChangesOneField | src/app/components/field-config-panel/field-config-panel.component.ts:114-116 | a merge that finds the draft's id changes exactly one top-level field, the one `MatchIndex` names: it becomes the draft when it has the id, otherwise its children are merged; every other top-level field is unchanged |
| FieldTree.MatchIndex | src/app/components/form-builder/form-builder.component.ts:100-109 | the top-level position whose subtree holds the first match is inside the list |
| FieldTree.FindAppendFresh | src/app/components/form-builder/form-builder.component.ts:60-71 | a field with a fresh id pushed at the end is what a lookup of its id returns |
| FieldTree.FindAppendedChild | src/app/components/form-builder/form-builder.component.ts:250-251 | a child with a fresh id pushed into a group is what a lookup of its id returns |
| FieldTree.TopIndex | src/app/components/form-builder/form-builder.component.ts:181 | `findIndex` returns -1 exactly when no top-level field has the id, otherwise the first index whose field has it |
| FieldTree.FindTopLevel | src/app/components/form-builder/form-builder.component.ts:179 | `find` returns nothing exactly when `findIndex` is -1, otherwise the field at that index |
| FieldTree.Ids | src/app/components/form-builder/form-builder.component.ts:100-109 | the ids of a flat list have one entry per field, in order, each that field's id |
| FieldTree.FindMissMeansNoId | src/app/components/form-builder/form-builder.component.ts:100-109 | the recursive lookup misses exactly when the id is not among the ids of the forest in preorder |
| FieldTree.ForestIdsOfField | src/app/components/form-builder/form-builder.component.ts:100-109 | the ids under one field are its own followed by those of its children |
| FieldTree.DistinctDropMiddle | src/app/components/form-builder/form-builder.component.ts:192 | removing a block of ids from a list of distinct ids leaves them distinct |
| FieldTree.DistinctInsert | src/app/components/form-builder/form-builder.component.ts:60 | inserting an id that does not occur into a list of distinct ids leaves them distinct |
| FieldTree.TopLevelIsFound | src/app/components/form-builder/form-builder.component.ts:202 | a top-level match is also found by the recursive lookup |
| FormRegistry.AddControl | src/app/components/form-builder/form-builder.component.ts:63 | `addControl` registers a new name with the given control and leaves a taken name and every other control untouched |
| FormRegistry.RemoveControl | src/app/components/form-builder/form-builder.component.ts:186-188 | `removeControl` unregisters exactly that name and keeps every other control |
| FormRegistry.ValueOf | src/app/components/form-builder/form-builder.component.ts:121 | a scalar control's value is its value; an array's value has one entry per row, each the row's cell values |
| FormRegistry.SetRequired | src/app/components/form-builder/form-builder.component.ts:161-165 | replacing the validators sets the required flag and changes neither the value nor the control's kind |
| FormRegistry.GroupRow | src/app/components/form-builder/form-builder.component.ts:269-278 | every cell of a fresh row group starts empty |
| FormRegistry.GroupRowNames | src/app/components/form-builder/form-builder.component.ts:269-278 | a fresh row group has a cell for exactly the names of the non-structural fields |
| FormRegistry.GroupRowCell | src/app/components/form-builder/form-builder.component.ts:272-274 | the cell of a non-structural field (the last one with its name) is empty and required exactly when the field is |
| FormRegistry.PatchRow | src/app/components/form-builder/form-builder.component.ts:131 | `patchValue` keeps a row's names and validators, takes the values the item has, and leaves the other cells |
| FormRegistry.RebuildRows | src/app/components/form-builder/form-builder.component.ts:129-133 | one rebuilt row per old value, each with the cells of the current children, the old value where the item has one and empty otherwise, and the children's validators |
| FormRegistry.RemoveAt | src/app/components/form-builder/form-builder.component.ts:303 | `removeAt(i)` removes row `i` when it exists, counts a negative index from the end, removes the first row for an index below `-length` (clamped to 0), and keeps the rows for an index past the end or an empty array |
| ControlSync.RegisterNew | src/app/components/form-builder/form-builder.component.ts:62-69 | a new non-structural field maps its id to its control (or array) name and its control is added when the name is free; a heading or separator registers nothing |
| ControlSync.Unregister | src/app/components/form-builder/form-builder.component.ts:183-191 | removing a non-structural field drops its control and its map entry and keeps all other controls and entries; a heading or separator changes nothing |
| ControlSync.RenameScalar | src/app/components/form-builder/form-builder.component.ts:139-167 | on a rename, the old control's value moves to the new name with the field's required validator and the map follows; a missing old control changes nothing; without a rename only the validator of the current control changes |
| ControlSync.RenameArray | src/app/components/form-builder/form-builder.component.ts:113-138 | on an array rename, the old array is removed and a new one is added; for a fresh name it holds one rebuilt row per old row and the map follows; without a rename or without the old array nothing changes |
| ControlSync.SyncSelected | src/app/components/form-builder/form-builder.component.ts:111-112 | with no selection or a selected heading or separator, the registry is unchanged |
| ControlSync.AddRow | src/app/components/form-builder/form-builder.component.ts:286-291 | one fresh row group over the parent's children is appended to its array; other controls and a missing or scalar array are untouched |
| ControlSync.RemoveRow | src/app/components/form-builder/form-builder.component.ts:300-304 | for a parent whose array exists, its rows become `RemoveAt` of the old rows for any index, negative included; other controls and a missing array are untouched |
| FormBuilderComponent.FormBuilder.constructor | src/app/components/form-builder/form-builder.component.ts:28-37 | the builder starts with no fields, no selection, counter 0, an empty preview form and an empty name map, and the id invariant holds |
| FormBuilderComponent.NextIdIsFresh | src/app/components/form-builder/form-builder.component.ts:40-42 | under the id invariant, the id `field_<counter+1>` the next field gets is carried by no field at any depth, and the lookup misses it |
| FormBuilderComponent.AppendKeepsIdsValid | src/app/components/form-builder/form-builder.component.ts:40-60 | appending the next numbered field keeps every id issued and all ids distinct at the bumped counter, and the lookup of its id finds it |
| FormBuilderComponent.AddChildKeepsIdsValid | src/app/components/form-builder/form-builder.component.ts:234-250 | pushing the next numbered child into a group keeps the invariant at the bumped counter, and the lookup of its id finds it |
| FormBuilderComponent.RemoveTopKeepsIdsValid | src/app/components/form-builder/form-builder.component.ts:192 | splicing out a top-level field with all under it keeps the invariant |
| FormBuilderComponent.RemoveChildKeepsIdsValid | src/app/components/form-builder/form-builder.component.ts:262 | splicing a child out of a group keeps the invariant |
| FormBuilderComponent.FormBuilder.Selected | src/app/components/form-builder/form-builder.component.ts:29 | the selected field, when there is one, has the selected id |
| FormBuilderComponent.FormBuilder.AddField | src/app/components/form-builder/form-builder.component.ts:39-72 | the counter goes up by one; the new default field `field_<counter>` is appended after the unchanged earlier fields and registered; it is selected and the selection reads back as exactly that field; the id invariant is kept |
| FormBuilderComponent.FormBuilder.AppendField | src/app/components/form-builder/form-builder.component.ts:60-71 | the next numbered field is appended, registered and selected, the selection reads back as that field, and the id invariant is kept at the bumped counter |
| FormBuilderComponent.FormBuilder.Register | src/app/components/form-builder/form-builder.component.ts:62-69 | the preview form and name map become `RegisterNew` of the old ones; nothing else changes |
| FormBuilderComponent.FormBuilder.OnFieldSelected | src/app/components/form-builder/form-builder.component.ts:90-97 | the selection becomes the field the recursive lookup finds, or none |
| FormBuilderComponent.FormBuilder.OnFieldEdit | src/app/components/form-builder/form-builder.component.ts:200-206 | a non-empty id present at top level is selected; anything else clears the selection |
| FormBuilderComponent.FormBuilder.OnFieldChanged | src/app/components/form-builder/form-builder.component.ts:111-170 | the preview form and map become `SyncSelected` of the old ones for the selected field; fields and selection stay |
| FormBuilderComponent.FormBuilder.RestoreRows | src/app/components/form-builder/form-builder.component.ts:128-134 | rebuilt rows are pushed onto a new array; pushing into a scalar control throws before anything changes |
| FormBuilderComponent.FormBuilder.RemoveFieldById | src/app/components/form-builder/form-builder.component.ts:178-198 | the first top-level field with the id is spliced out and unregistered, and the selection is cleared if it was that id; an absent id changes nothing; the id invariant is kept |
| FormBuilderComponent.FormBuilder.RemoveField | src/app/components/form-builder/form-builder.component.ts:172-176 | the selected top-level field is removed and unregistered and nothing is selected afterwards |
| FormBuilderComponent.FormBuilder.AddFieldToGroup | src/app/components/form-builder/form-builder.component.ts:228-252 | a top-level repeatable group with a children list gets the default child `field_<counter>` appended, which is selected and reads back as exactly that child; otherwise nothing changes; the preview form never changes; the id invariant is kept |
| FormBuilderComponent.FormBuilder.AppendChild | src/app/components/form-builder/form-builder.component.ts:250-251 | the next numbered child is pushed into group `k` and selected, the selection reads back as that child, and the id invariant is kept at the bumped counter |
| FormBuilderComponent.FormBuilder.RemoveFieldFromGroup | src/app/components/form-builder/form-builder.component.ts:254-267 | the first child with the id is spliced out of the parent and a selection of it is cleared; a missing parent or child changes nothing; the id invariant is kept |
| FormBuilderComponent.FormBuilder.AddRowToFormArray | src/app/components/form-builder/form-builder.component.ts:280-292 | a parent with a children list gets `AddRow` on the preview form; otherwise nothing changes |
| FormBuilderComponent.FormBuilder.RemoveRowFromFormArray | src/app/components/form-builder/form-builder.component.ts:294-305 | a found parent gets `RemoveRow` on the preview form; otherwise nothing changes |
| OptionParsing.CleanPiecesCommaFree | src/app/components/field-config-panel/field-config-panel.component.ts:139 | trimming comma-free pieces and dropping empty ones leaves only non-empty, trimmed, comma-free options |
| OptionParsing.CleanPiecesAppend | src/app/components/field-config-panel/field-config-panel.component.ts:139 | the clean-up of a concatenation is the concatenation of the clean-ups |
| OptionParsing.ParseOptions | src/app/components/field-config-panel/field-config-panel.component.ts:139 | parsing yields only non-empty, trimmed, comma-free options |
| OptionParsing.ParseSingle | src/app/components/field-config-panel/field-config-panel.component.ts:139 | one clean option after leading whitespace parses to exactly that option |
| OptionParsing.ParseAfterWhitespace | src/app/components/field-config-panel/field-config-panel.component.ts:73 | the `", "`-joined text of clean options, after any whitespace, parses back to the same options |
| OptionParsing.ParseJoinRoundTrip | src/app/components/field-config-panel/field-config-panel.component.ts:73 | the options shown in the text box parse back to themselves when every option is clean |
| OptionParsing.ParseIsStable | src/app/components/field-config-panel/field-config-panel.component.ts:139 | re-showing and re-parsing parsed options changes nothing |
| DraftEditing.WithOptionsSource | src/app/components/field-config-panel/field-config-panel.component.ts:734-760 | static clears the endpoint, path and keys and sets GET; API fills GET, `id`, `name` and `items` only where unset or empty; no attribute outside the API configuration changes |
| DraftEditing.OptionsSourceSettles | src/app/components/field-config-panel/field-config-panel.component.ts:734-760 | choosing a source twice equals choosing it once, and switching to static forgets any earlier choice |
| DraftEditing.WithChildAdded | src/app/components/field-config-panel/field-config-panel.component.ts:594-618 | a repeatable group gets the child appended to its (possibly new) list, nothing else changes; any other draft is kept |
| DraftEditing.WithChildRemoved | src/app/components/field-config-panel/field-config-panel.component.ts:623-627 | a draft with a children list loses child `index` when it exists, counts a negative index from the end, loses its first child for an index below `-length`, and is kept for an index past the end or an empty list; a draft without a list is kept |
| DraftEditing.WithChildSaved | src/app/components/field-config-panel/field-config-panel.component.ts:647-648 | an existing child slot takes the edited child and every other child and attribute stays; otherwise the draft is kept |
| DraftEditing.CommitDraft | src/app/components/field-config-panel/field-config-panel.component.ts:112-119 | after a merge the draft's id finds the draft; with no field of that id the forest is unchanged; otherwise exactly one top-level field changes and the rest stay (`MergedAt`); the number of top-level fields stays |
| FieldConfigPanelComponent.FieldConfigPanel.constructor | src/app/components/field-config-panel/field-config-panel.component.ts:14-33 | the editor starts on the given forest with no draft, empty option text, no child draft and index -1 |
| FieldConfigPanelComponent.FieldConfigPanel.OpenEditModal | src/app/components/field-config-panel/field-config-panel.component.ts:66-84 | a found field becomes the draft with a default static source, its name is remembered, and the option text shows its options and parses back to them; an unknown id changes nothing |
| FieldConfigPanelComponent.FieldConfigPanel.OnFieldChange | src/app/components/field-config-panel/field-config-panel.component.ts:112-119 | the forest becomes `CommitDraft` of the draft, if any |
| FieldConfigPanelComponent.FieldConfigPanel.OnFormControlChange | src/app/components/field-config-panel/field-config-panel.component.ts:121-135 | the draft is merged and the remembered name becomes its control name; no draft or no match changes nothing |
| FieldConfigPanelComponent.FieldConfigPanel.UpdateOptions | src/app/components/field-config-panel/field-config-panel.component.ts:137-145 | the draft's options become the parse of the option text and the draft is merged |
| FieldConfigPanelComponent.FieldConfigPanel.UpdateChildFieldOptions | src/app/components/field-config-panel/field-config-panel.component.ts:661-665 | the child draft's options become the parse of the text, which are clean options |
| FieldConfigPanelComponent.FieldConfigPanel.SetOptionsSource | src/app/components/field-config-panel/field-config-panel.component.ts:734-762 | the draft becomes `WithOptionsSource` of itself and is merged |
| FieldConfigPanelComponent.FieldConfigPanel.AddChildField | src/app/components/field-config-panel/field-config-panel.component.ts:593-620 | a repeatable-group draft gets a fresh `child_n` default child and is merged, and the counter goes up; otherwise nothing changes |
| FieldConfigPanelComponent.FieldConfigPanel.RemoveChildField | src/app/components/field-config-panel/field-config-panel.component.ts:622-629 | a draft with a children list loses child `index` and is merged; otherwise nothing changes |
| FieldConfigPanelComponent.FieldConfigPanel.EditChildField | src/app/components/field-config-panel/field-config-panel.component.ts:631-640 | the child becomes the child draft; the index is that of the first child with its id, or -1, and a non-negative index points to that child |
| FieldConfigPanelComponent.FieldConfigPanel.SaveChildField | src/app/components/field-config-panel/field-config-panel.component.ts:642-654 | an existing slot takes the child draft and the draft is merged; the child draft is closed either way; missing state changes nothing |
| FieldConfigPanelComponent.FieldConfigPanel.CancelEdit | src/app/components/field-config-panel/field-config-panel.component.ts:166-169 | the draft is closed and nothing else changes |
| FieldConfigPanelComponent.FieldConfigPanel.SaveField | src/app/components/field-config-panel/field-config-panel.component.ts:171-186 | a draft with a match is merged, found afterwards, and closed; a set remembered name follows the new one; otherwise nothing changes |
| FieldConfigPanelComponent.FieldConfigPanel.Remove | src/app/components/field-config-panel/field-config-panel.component.ts:147-152 | the draft is closed exactly when it has the removed id |
| Markup.Each | src/app/components/form-preview/form-preview.component.ts:60-63 | `forEach` accumulation yields one fragment per item, in order |
| Markup.Enumerate | src/app/components/field-config-panel/field-config-panel.component.ts:325-337 | indexed `forEach` yields one fragment per item, rendered with its index |
| Markup.Filter | src/app/components/field-config-panel/field-config-panel.component.ts:318 | `filter` returns no more elements than it gets and only elements that pass |
| Markup.FilterMembers | src/app/components/field-config-panel/field-config-panel.component.ts:318 | an element is in the filtered list exactly when it is in the list and passes |
| Markup.FilterEmpty | src/app/components/field-config-panel/field-config-panel.component.ts:277-278 | an empty filter result means no element passes |
| Markup.ValidatorMarker | src/app/components/form-preview/form-preview.component.ts:49 | the `Validators.required` marker is present exactly when the field is required |
| Markup.HeadingSize | src/app/components/form-preview/form-preview.component.ts:77 | level 1 is `3xl`, level 2 is `2xl`, anything else, absent included, is `xl` |
| Markup.HeadingMarkup | src/app/components/field-config-panel/field-config-panel.component.ts:429-431 | a heading opens and closes with the same `h<level>` tag and the opening tag carries the size class |
| Markup.RadioIdsDistinct | src/app/components/form-preview/form-preview.component.ts:117-121 | different radio options of one control get different ids `<name>_<idx>` |
| Markup.SelectOptions | src/app/components/field-config-panel/field-config-panel.component.ts:539-554 | a select lists the placeholder, then one `*ngFor` option for API options or one element per static option, in order |
| Markup.SeparatedLinesShape | src/app/components/field-config-panel/field-config-panel.component.ts:268-281 | the control list has one entry per non-structural field, in order, and every entry but the last carries a comma |
| Markup.SeparatedLinesStep | src/app/components/field-config-panel/field-config-panel.component.ts:268-281 | one loop step adds the first field's line, empty for a heading or separator |
| PreviewCodegen.PreviewLinesShape | src/app/components/form-preview/form-preview.component.ts:47-54 | the preview control list has one entry per non-structural field, in order; every entry but the last has a comma, and the last one has a comma exactly when a heading or separator ends the list |
| PreviewCodegen.TrailingCommaDiffers | src/app/components/form-preview/form-preview.component.ts:51 | a text field followed by a heading gets a trailing comma in the preview but not in the editor's code |
| PreviewCodegen.PreviewRadioItems | src/app/components/form-preview/form-preview.component.ts:117-122 | one radio item per static option, rendered with its index |
| PreviewCodegen.PreviewSelectOptions | src/app/components/form-preview/form-preview.component.ts:102-109 | the preview select lists the placeholder and then every static option, in order |
| PreviewCodegen.PreviewCheckboxIgnoresRequired | src/app/components/form-preview/form-preview.component.ts:110-114 | a checkbox starts with a fresh flex div and its markup does not depend on `required` |
| PreviewCodegen.PreviewStructuralMarkup | src/app/components/form-preview/form-preview.component.ts:76-82 | a separator is the fixed grey rule and a heading opens with its level-sized tag |
| PreviewCodegen.CopyFullCode | src/app/components/form-preview/form-preview.component.ts:39-66 | the accumulated code equals the header, the preview control list and the template |
| PanelCodegen.ApiScopeUsesApi | src/app/components/field-config-panel/field-config-panel.component.ts:216-220 | `hasApiOptions` holds exactly when some top-level field or child uses API options |
| PanelCodegen.ScopeMemberIsCounted | src/app/components/field-config-panel/field-config-panel.component.ts:216-220 | a field or child that uses API options makes `hasApiOptions` true |
| PanelCodegen.CountedFieldIsInScope | src/app/components/field-config-panel/field-config-panel.component.ts:216-220 | when `hasApiOptions` is true, some field or child uses API options |
| PanelCodegen.ApiScaffolding | src/app/components/field-config-panel/field-config-panel.component.ts:242-314 | option arrays are declared exactly when `hasApiOptions` holds; loaders go to exactly the API fields with an endpoint, and any loader implies `hasApiOptions` |
| PanelCodegen.SourceChoiceDecidesApi | src/app/components/field-config-panel/field-config-panel.component.ts:734-760 | switching to API makes a field use API options exactly when it is a select or radio; switching to static leaves no API use and no loader |
| PanelCodegen.CapitalizeFirst | src/app/components/field-config-panel/field-config-panel.component.ts:684-686 | the first character is upper-cased and the rest is kept; the empty string stays empty |
| PanelCodegen.CapitalizeFirstIdempotent | src/app/components/field-config-panel/field-config-panel.component.ts:684-686 | capitalising twice is capitalising once |
| PanelCodegen.HttpVerb | src/app/components/field-config-panel/field-config-panel.component.ts:692-698 | POST becomes `post`; GET and an absent method become `get` |
| PanelCodegen.PathAccessShape | src/app/components/field-config-panel/field-config-panel.component.ts:705-709 | a dotted path gives one `['part']` step per part, one more than its dots, and the parts join back to the path |
| PanelCodegen.BuildPathAccess | src/app/components/field-config-panel/field-config-panel.component.ts:705-709 | the accumulated access expression equals `response` followed by the steps of the path |
| PanelCodegen.GroupConfigLines | src/app/components/field-config-panel/field-config-panel.component.ts:328-334 | one `groupConfig` line per non-structural child, in order |
| PanelCodegen.BranchKeyword | src/app/components/field-config-panel/field-config-panel.component.ts:327 | a branch opens with `if (` exactly for the first group and with `else if (` otherwise |
| PanelCodegen.ArrayRowKeywords | src/app/components/field-config-panel/field-config-panel.component.ts:325-337 | of the `addArrayRow` branches exactly the first is an `if`, all later ones are `else if`, one per group |
| PanelCodegen.PanelRadioItems | src/app/components/field-config-panel/field-config-panel.component.ts:569-586 | one radio item per static option, rendered with its index |
| PanelCodegen.ChildBlocks | src/app/components/field-config-panel/field-config-panel.component.ts:452-507 | one markup block per non-structural child of the group, in order |
| PanelCodegen.PanelStructuralMarkup | src/app/components/field-config-panel/field-config-panel.component.ts:429-435 | a separator is the fixed dark rule and a heading opens with its level-sized tag |
| PanelCodegen.ControlLineAt | src/app/components/field-config-panel/field-config-panel.component.ts:269-280 | the line of a heading or separator is empty; otherwise it is the field's entry plus a comma exactly when a later field is non-structural |
| PanelCodegen.AppendControlLines | src/app/components/field-config-panel/field-config-panel.component.ts:268-281 | the loop appends exactly the separated control list to the code so far |
| PanelCodegen.GenerateFullFormCode | src/app/components/field-config-panel/field-config-panel.component.ts:212-426 | the accumulated code equals header, separated control list and tail of the generated component |

## Left out

- Angular's `FormBuilder`, `FormGroup`, `FormArray` and validators are modelled as values. The preview form is a map from names to controls; a control is a scalar with a required flag, or an array of rows of cells. Validation status, `valueChanges`, `updateValueAndValidity` and `reset` are not modelled.
- Selection is kept as the selected id. The selected record is the recursive lookup of that id, so a selection detached from the tree (a child of a removed group) reads as none. Aliasing between `selectedField` and the list entry is not modelled.
- `Object.assign(original, draft)` is modelled as replacing the first field with the draft's id, including any children list. A draft lacking a key that the original has is therefore not merged key by key.
- The shallow copy `{ ...field }` in `openEditModal` and `editChildField` is a value copy. Edits made to a shared children array through the copy before a save are not modelled.
- `FormBuilderComponent.FormBuilder.OnFieldChanged`, `ControlSync.RenameScalar` / `RenameArray` and `ControlSync.AddRow` / `RemoveRow` (form-builder.component.ts:287 and :301) use `previewForm.get(name)` with a plain name. Dotted paths that `get` would walk are not modelled.
- ControlSync.RenameScalar: a rename whose old control is missing changes nothing, as the code does. The code was followed here; it does not create the new control.
- ControlSync.SyncSelected: its contract states only the no-op case. The other two cases are delegated to `RenameArray` and `RenameScalar`, whose contracts carry the behaviour.
- ControlSync.AddRow / ControlSync.RemoveRow: when the array name resolves to a scalar control, the source's `push` or `removeAt` throws a `TypeError` (form-builder.component.ts:290 and :303). The model leaves the preview form untouched in that case instead of modelling the exception.
- FormBuilderComponent.FormBuilder.RestoreRows: pushing into a scalar control is a `TypeError` in the source. The model reports it as `thrown` with the form unchanged, and the caller stops there.
- Strings.ToLower, Strings.UpperChar and PanelCodegen.CapitalizeFirst: case mapping is ASCII-only. Non-ASCII letters are kept as they are, where JavaScript would map them.
- `level` is an unbounded integer, not a JavaScript number. Fractional levels and `NaN` are not modelled; `undefined` renders as `undefined`.
- The generators' `+=` loops other than the two control lists and the path access are modelled as concatenations over `Each` / `Enumerate` / `Filter`. This applies to the template, option arrays, loaders, row helpers and the patch method.
- The preview form treats a repeatable group as a scalar control line in its control list, as the code does. The list test there is `index < fields.length - 1`.
- `PanelCodegen.ControlLineAt`, `FormBuilderComponent.FormBuilder.AppendField`, `FormBuilderComponent.FormBuilder.AppendChild`, `FormBuilderComponent.FormBuilder.Register`, `UnregisterField`, `DropTopLevel`, `RemoveChildOf` and `DropChild` of the builder, and `PushChild` of the editor are the loop body or tail of the source method, factored into their own method. Their callers are the source methods.
- The builder's id invariant covers the builder's own operations. The editor's merge (`DraftEditing.CommitDraft`) can add `child_<n>` children to a group. It is modelled on its own, and the invariant is not stated across the two components.
- Clipboard writes (`copyFullCode`, `onCodeCopied`, `copyCode`), toasts, `console` output and `setTimeout` (`openModalFieldId`) are I/O and are not modelled.
- `EventEmitter` outputs (`fieldChanged`, `fieldRemoved`, `fieldEdit`, `codeCopied`) are not modelled. The parent's reaction to them is not part of this model, so `Remove` does not remove the field itself.
- `ngOnChanges`, `showCodeModal` and `closeModal` are view glue and are not modelled. So are `getFieldDisplayName`, `getFieldTypeIcon`, `getFormArray`, `onSubmit` and src/app/app.component.ts.
- `getDefaultLabel` is modelled for the ten field types. The `|| 'Field'` fallback for other strings cannot occur with a typed `FieldType`.
- Templates (`.html`), styles and the toast service are not part of this model.
