/**
 * The reactive-forms state the builder keeps in step with its fields, seen as
 * a registry: a form group is a map from control name to either a scalar
 * control (a value and whether the required validator is attached) or an
 * array of row groups. Only the operations the builder calls are modelled:
 * `addControl`, `removeControl`, `get(name).value`, `setValidators`, building
 * a row group, `patchValue` of a row, `push` and `removeAt`.
 */
module FormRegistry {
  import opened Wrappers
  import opened JsArrays
  import opened FormFields

  /** A control's value: a string, or the list of row values of an array. */
  datatype FormValue = Str(s: string) | Rows(items: seq<map<string, FormValue>>)

  /** One control inside a row group. */
  datatype Cell = Cell(value: FormValue, required: bool)

  /** A row of a form array: a group of named controls. */
  type Row = map<string, Cell>

  /** A registered control: a scalar control or an array of row groups. */
  datatype Control =
    | Scalar(value: FormValue, required: bool)
    | ArrayOf(rows: seq<Row>, required: bool)

  /** A form group: its controls by name. */
  type Form = map<string, Control>

  /** `form.addControl(name, c)`: a name already registered keeps its control. */
  function AddControl(form: Form, name: string, c: Control): (r: Form)
    ensures name in form ==> r == form
    ensures name !in form ==> r.Keys == form.Keys + {name} && r[name] == c
    ensures forall n :: n in form ==> n in r && r[n] == form[n]
  {
    if name in form then form else form[name := c]
  }

  /** `form.removeControl(name)`: unregisters that name only; an unknown name is ignored. */
  function RemoveControl(form: Form, name: string): (r: Form)
    ensures r.Keys == form.Keys - {name}
    ensures forall n :: n in r ==> r[n] == form[n]
  {
    form - {name}
  }

  /** The value of a row group: each control's value under its name. */
  function RowValue(row: Row): (v: map<string, FormValue>)
    ensures v.Keys == row.Keys
    ensures forall k :: k in row ==> v[k] == row[k].value
  {
    map k | k in row :: row[k].value
  }

  /** `control.value`: an array's value is the list of its rows' values. */
  function ValueOf(c: Control): (v: FormValue)
    ensures c.Scalar? ==> v == c.value
    ensures c.ArrayOf? ==> v.Rows? && |v.items| == |c.rows|
    ensures c.ArrayOf? ==> forall i :: 0 <= i < |c.rows| ==> v.items[i] == RowValue(c.rows[i])
  {
    match c
    case Scalar(value, _) => value
    case ArrayOf(rows, _) => Rows(seq(|rows|, i requires 0 <= i < |rows| => RowValue(rows[i])))
  }

  /** `control.setValidators(required ? [Validators.required] : [])`: the value is kept. */
  function SetRequired(c: Control, required: bool): (r: Control)
    ensures r.required == required
    ensures ValueOf(r) == ValueOf(c)
    ensures r.Scalar? == c.Scalar?
  {
    c.(required := required)
  }

  /** No later non-structural field of the list uses control name `k`. */
  predicate LastWithName(fields: seq<FormField>, i: nat, k: string)
    requires i < |fields|
  {
    forall j :: i < j < |fields| && !IsStructural(fields[j].fieldType) ==> fields[j].formControlName != k
  }

  /** The control names of the non-structural fields of a list. */
  function ControlNames(fields: seq<FormField>): set<string>
  {
    set i | 0 <= i < |fields| && !IsStructural(fields[i].fieldType) :: fields[i].formControlName
  }

  /**
   * `createGroupFormGroup(fields)`: one control per non-structural field,
   * under its control name, with value `''` and the required validator exactly
   * when the field is required (see GroupRowCell). Of two fields with one
   * name, the later one's control is kept, as with repeated keys of an object
   * literal.
   */
  function GroupRow(fields: seq<FormField>): (r: Row)
    ensures forall k :: k in r ==> r[k].value == Str("")
  {
    if fields == [] then map[]
    else
      var last := fields[|fields| - 1];
      var g := GroupRow(fields[..|fields| - 1]);
      if IsStructural(last.fieldType) then g
      else g[last.formControlName := Cell(Str(""), IsRequired(last))]
  }

  /** The row has a control for exactly the non-structural fields' names. */
  lemma {:induction false} GroupRowNames(fields: seq<FormField>)
    ensures GroupRow(fields).Keys == ControlNames(fields)
  {
    if fields != [] {
      var init := fields[..|fields| - 1];
      var last := fields[|fields| - 1];
      GroupRowNames(init);
      forall k ensures k in ControlNames(fields) <==> k in ControlNames(init) || (!IsStructural(last.fieldType) && k == last.formControlName) {
        if k in ControlNames(fields) {
          var i :| 0 <= i < |fields| && !IsStructural(fields[i].fieldType) && fields[i].formControlName == k;
          if i < |init| {
            assert init[i] == fields[i];
          }
        }
        if k in ControlNames(init) {
          var i :| 0 <= i < |init| && !IsStructural(init[i].fieldType) && init[i].formControlName == k;
          assert fields[i] == init[i];
        }
        if !IsStructural(last.fieldType) && k == last.formControlName {
          assert fields[|fields| - 1] == last;
        }
      }
    }
  }

  /** A non-structural field that is the last with its name gets `''` and its own required flag. */
  lemma {:induction false} GroupRowCell(fields: seq<FormField>, i: nat)
    requires i < |fields| && !IsStructural(fields[i].fieldType)
    requires LastWithName(fields, i, fields[i].formControlName)
    ensures fields[i].formControlName in GroupRow(fields)
    ensures GroupRow(fields)[fields[i].formControlName] == Cell(Str(""), IsRequired(fields[i]))
  {
    var init := fields[..|fields| - 1];
    var last := fields[|fields| - 1];
    if i < |fields| - 1 {
      assert init[i] == fields[i];
      assert LastWithName(init, i, fields[i].formControlName) by {
        forall j | i < j < |init| && !IsStructural(init[j].fieldType)
          ensures init[j].formControlName != fields[i].formControlName
        {
          assert init[j] == fields[j];
        }
      }
      GroupRowCell(init, i);
    }
  }

  /**
   * `group.patchValue(item)`: every control whose name the item carries takes
   * the item's value; the other controls, the names and the validators are kept.
   */
  function PatchRow(row: Row, item: map<string, FormValue>): (r: Row)
    ensures r.Keys == row.Keys
    ensures forall k :: k in row ==> r[k].required == row[k].required
    ensures forall k :: k in row && k in item ==> r[k].value == item[k]
    ensures forall k :: k in row && k !in item ==> r[k] == row[k]
  {
    map k | k in row :: if k in item then row[k].(value := item[k]) else row[k]
  }

  /**
   * The rows a renamed group array is refilled with: for each old row value,
   * a fresh group over the current children patched with that value. Each row
   * has a control for exactly the children's names, keeps the children's
   * required flags, takes the old value where the old row had that name and
   * `''` elsewhere.
   */
  function RebuildRows(children: seq<FormField>, items: seq<map<string, FormValue>>): (r: seq<Row>)
    ensures |r| == |items|
    ensures forall i :: 0 <= i < |items| ==> r[i].Keys == GroupRow(children).Keys == ControlNames(children)
    ensures forall i, k :: 0 <= i < |items| && k in r[i] && k in items[i] ==> r[i][k].value == items[i][k]
    ensures forall i, k :: 0 <= i < |items| && k in r[i] && k !in items[i] ==> r[i][k].value == Str("")
    ensures forall i, k :: 0 <= i < |items| && k in r[i] ==> r[i][k].required == GroupRow(children)[k].required
  {
    GroupRowNames(children);
    seq(|items|, i requires 0 <= i < |items| => PatchRow(GroupRow(children), items[i]))
  }

  /**
   * `formArray.removeAt(index)`: a negative index counts from the end, an
   * index still negative after that is raised to 0, then `splice(index, 1)`.
   */
  function RemoveAt(rows: seq<Row>, index: int): (r: seq<Row>)
    ensures 0 <= index < |rows| ==> r == rows[..index] + rows[index + 1..]
    ensures index >= |rows| ==> r == rows
    ensures -|rows| <= index < 0 ==> r == rows[..|rows| + index] + rows[|rows| + index + 1..]
    ensures index < -|rows| && rows != [] ==> r == rows[1..]
    ensures rows == [] ==> r == []
  {
    var adjusted := if index < 0 then index + |rows| else index;
    SpliceOne(rows, if adjusted < 0 then 0 else adjusted)
  }
}
