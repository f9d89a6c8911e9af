/** `Output` (troposphere/__init__.py): a stack output with an optional
    Description, an optional Export and a required Value. */
module Outputs {
  import opened Wrappers
  import opened OrderedDict
  import opened Values
  import opened Encode
  import opened Entities
  import Helpers

  /** The keyword arguments of `Output(...)`; `None` is an omitted field. */
  datatype OutputSpec = OutputSpec(title: string, description: Option<string>, exportValue: Option<Value>, value: Value)

  /** `Value: Union[str, AWSHelperFnOrDict]`: a string, a dict or a helper. */
  predicate ValueAccepted(v: Value) {
    v.Str? || v.Dict? || (v.Obj? && v.origin.Helper?)
  }

  /** The number a string of decimal digits denotes (0 for the empty string). */
  function DigitsValue(s: string): nat
    requires forall i :: 0 <= i < |s| ==> '0' <= s[i] <= '9'
  {
    if s == [] then 0 else DigitsValue(s[..|s| - 1]) * 10 + (s[|s| - 1] as int - '0' as int)
  }

  /** Python's `str(n)` for a natural number: decimal digits, with no
      leading zero, that denote `n`. */
  function NatText(n: nat): (s: string)
    ensures |s| >= 1 && forall i :: 0 <= i < |s| ==> '0' <= s[i] <= '9'
    ensures s[0] == '0' <==> n == 0
    ensures DigitsValue(s) == n
  {
    if n < 10 then [('0' as int + n) as char]
    else
      var s := NatText(n / 10) + [('0' as int + n % 10) as char];
      assert s[..|s| - 1] == NatText(n / 10);
      s
  }

  /** pydantic's `str` reading of a value that is not already a string:
      an int or a bool becomes its Python text; anything else is refused. */
  function StrCoerced(v: Value): (r: Option<string>)
    ensures r.Some? <==> v.Int? || v.Bool?
    ensures v.Int? && v.i >= 0 ==> r == Some(NatText(v.i))
    ensures v.Int? && v.i < 0 ==> r == Some("-" + NatText(-v.i))
    ensures v.Bool? ==> r == Some(if v.b then "True" else "False")
  {
    match v
    case Int(i) => Some(if i < 0 then "-" + NatText(-i) else NatText(i))
    case Bool(b) => Some(if b then "True" else "False")
    case _ => None
  }

  /** `Export: Optional[Union[Export, ExportTypedDict]]`: `Export.validate`
      is tried first; failing that, a dict passes as `ExportTypedDict` when
      "Name" is its only key (the model's config forbids extra keys) and
      pydantic reads that name as a string; it is kept as a plain dict
      holding the name's text. */
  function ReadExport(v: Value): (r: Option<Value>)
    ensures Helpers.ValidateExport(v).Ok? ==> r == Some(Helpers.ValidateExport(v).value)
    ensures r.Some? <==>
              Helpers.ValidateExport(v).Ok? ||
              (v.Dict? && Keys(v.items) == ["Name"] && StrCoerced(v.items[0].1).Some?)
    ensures Helpers.ValidateExport(v).Fail? && r.Some? ==>
              r.value == Dict([("Name", Str(StrCoerced(Get(v.items, "Name").value).value))])
  {
    var exported := Helpers.ValidateExport(v);
    if exported.Ok? then Some(exported.value)
    else if v.Dict? && Keys(v.items) == ["Name"] && StrCoerced(v.items[0].1).Some? then
      assert Get(v.items, "Name") == Some(v.items[0].1);
      Some(Dict([("Name", Str(StrCoerced(v.items[0].1).value))]))
    else None
  }

  /** `Export={"Name": n}` for a number `n >= 0` is refused by
      `Export.validate` but kept, as `{"Name": str(n)}`, by the
      `ExportTypedDict` arm. */
  lemma NumericExportName(n: nat)
    ensures Helpers.ValidateExport(Dict([("Name", Int(n))])).Fail?
    ensures ReadExport(Dict([("Name", Int(n))])) == Some(Dict([("Name", Str(NatText(n)))]))
  {
    assert Keys([("Name", Int(n))]) == ["Name"];
    assert Get([("Name", Int(n))], "Name") == Some(Int(n));
  }

  /** A dict holding a key besides a name that only the `ExportTypedDict`
      arm could read is refused: the extra key is forbidden. */
  lemma ExtraKeyExportRefused(x: Value, k: string, y: Value)
    requires k != "Name" && StrCoerced(x).Some?
    ensures ReadExport(Dict([("Name", x), (k, y)])).None?
    ensures ReadExport(Dict([(k, y), ("Name", x)])).None?
  {
    assert Keys([("Name", x), (k, y)]) == ["Name", k];
    assert Keys([(k, y), ("Name", x)]) == [k, "Name"];
    assert Get([("Name", x), (k, y)], "Name") == Some(x);
    assert Get([(k, y), ("Name", x)], "Name") == Some(x);
  }

  /** Every error pydantic reports for an Output, in field order. */
  function OutputErrors(o: OutputSpec): (errs: seq<FieldError>)
    ensures errs == [] <==>
              IsTitle(o.title) &&
              (o.exportValue.Some? ==> ReadExport(o.exportValue.value).Some?) &&
              ValueAccepted(o.value)
    ensures |errs| <= 3
  {
    TitleErrors(o.title, None)
    + (if o.exportValue.Some? && ReadExport(o.exportValue.value).None? then [ExportRejected] else [])
    + (if !ValueAccepted(o.value) then [ValueRejected] else [])
  }

  const OUTPUT_FIELDS: seq<string> := ["Description", "Export", "Value"]

  /** Constructing an Output (before registration): all field errors
      together, or the entity holding the validated Export and the Value. */
  function ValidateOutput(o: OutputSpec): (r: Result<Entity>)
    ensures r.Ok? <==>
              IsTitle(o.title) &&
              (o.exportValue.Some? ==> ReadExport(o.exportValue.value).Some?) &&
              ValueAccepted(o.value)
    ensures r.Fail? ==> r.error == ValidationError(OutputErrors(o)) && OutputErrors(o) != []
    ensures r.Ok? ==> r.value.title == o.title && r.value.kind == OutputKind && WellFormed(r.value)
    ensures r.Ok? ==> Keys(r.value.fields) == OUTPUT_FIELDS &&
                      r.value.fields[0] == ("Description", OptStr(o.description)) &&
                      r.value.fields[1] == ("Export", if o.exportValue.Some? then ReadExport(o.exportValue.value) else None) &&
                      r.value.fields[2] == ("Value", Some(o.value))
  {
    var errs := OutputErrors(o);
    if errs != [] then Fail(ValidationError(errs))
    else
      var exported := if o.exportValue.Some? then ReadExport(o.exportValue.value) else None;
      var fields := Zip(OUTPUT_FIELDS, [OptStr(o.description), exported, Some(o.value)]);
      DistinctByIndex(OUTPUT_FIELDS);
      Ok(Entity(o.title, OutputKind, fields))
  }

  /** An Output renders its Description and Export first and its Value,
      normalised, last. */
  lemma OutputRendersValueLast(o: OutputSpec)
    requires ValidateOutput(o).Ok?
    ensures var e := ValidateOutput(o).value;
            ToDict(e).items == Normalize(Dict(Present(e.fields[..2]))).items + [("Value", Normalize(o.value))]
  {
    var e := ValidateOutput(o).value;
    assert e.fields == e.fields[..2] + [e.fields[2]];
    PresentAppend(e.fields[..2], [e.fields[2]]);
    assert Present([e.fields[2]]) == [("Value", o.value)];
    NormalizeDictAppend(Present(e.fields[..2]), [("Value", o.value)]);
  }

  /** Two Outputs that differ only in Values rendering alike render alike. */
  lemma SameRenderedValue(o1: OutputSpec, v: Value)
    requires ValidateOutput(o1).Ok? && ValueAccepted(v) && Normalize(v) == Normalize(o1.value)
    ensures var o2 := o1.(value := v);
            ValidateOutput(o2).Ok? && ToDict(ValidateOutput(o2).value) == ToDict(ValidateOutput(o1).value)
  {
    var o2 := o1.(value := v);
    var e1, e2 := ValidateOutput(o1).value, ValidateOutput(o2).value;
    assert e1.fields[..2] == e2.fields[..2];
    OutputRendersValueLast(o1);
    OutputRendersValueLast(o2);
  }

  /** The three forms of Export the usage example shows (a dict holding a
      name, a string, an Export object) validate to the same Export. */
  lemma ExportForms(name: string, items: seq<(string, Value)>)
    requires Get(items, "Name") == Some(Str(name))
    ensures ReadExport(Dict(items)) == ReadExport(Str(name))
    ensures ReadExport(Helpers.NewExport(name)) == ReadExport(Str(name))
    ensures Normalize(ReadExport(Str(name)).value) == Dict([("Name", Str(name))])
  {
    assert Normalize(Helpers.NewExport(name)).items == [("Name", Str(name))];
  }

  /** The usage example's three Outputs: a Ref built from the parameter's
      title, from the parameter and from its `ref()` method render the
      same Output. */
  lemma RefOutputsAgree(o: OutputSpec, param: Entity)
    requires ValidateOutput(o).Ok? && !param.kind.AttributeKind? && !param.kind.PropertyKind?
    requires o.value == Helpers.AsValue(Helpers.RefFn(Str(param.title)))
    ensures var byObject := o.(value := Helpers.AsValue(Helpers.RefFn(Entities.AsValue(param))));
            var byMethod := o.(value := Entities.Ref(param));
            ValidateOutput(byObject).Ok? && ValidateOutput(byMethod).Ok? &&
            ToDict(ValidateOutput(byObject).value) == ToDict(ValidateOutput(o).value) &&
            ToDict(ValidateOutput(byMethod).value) == ToDict(ValidateOutput(o).value)
  {
    RefFormsAgree(param);
    SameRenderedValue(o, Helpers.AsValue(Helpers.RefFn(Entities.AsValue(param))));
    SameRenderedValue(o, Entities.Ref(param));
  }
}
