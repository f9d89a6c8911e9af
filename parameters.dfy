/** `Parameter` (troposphere/__init__.py): its fields, the cross-field
    validators and its render shape. */
module Parameters {
  import opened Wrappers
  import opened OrderedDict
  import opened Values
  import opened Encode
  import opened Entities

  /** A Default or AllowedValues element after pydantic's coercion to
      `Union[int, float, str]`. */
  datatype Literal = IntLit(i: int) | FloatLit(r: real) | StrLit(s: string)

  function LiteralValue(l: Literal): Value {
    match l
    case IntLit(i) => Int(i)
    case FloatLit(r) => Float(r)
    case StrLit(s) => Str(s)
  }

  /** The keyword arguments of `Parameter(...)`; `None` is an omitted field. */
  datatype ParameterSpec = ParameterSpec(
    title: string,
    paramType: string,
    allowedPattern: Option<string>,
    allowedValues: Option<seq<Literal>>,
    constraintDescription: Option<string>,
    default: Option<Literal>,
    description: Option<string>,
    maxLength: Option<int>,
    maxValue: Option<int>,
    minLength: Option<int>,
    minValue: Option<int>,
    noEcho: Option<bool>)

  function JoinWith(parts: seq<string>, sep: char): string
    requires |parts| >= 1
  {
    if |parts| == 1 then parts[0] else parts[0] + [sep] + JoinWith(parts[1..], sep)
  }

  /** Python's `s.split(sep)` for a one-character separator: the pieces
      between separators, empty pieces included. */
  function SplitOn(s: string, sep: char): (parts: seq<string>)
    ensures |parts| >= 1
    ensures JoinWith(parts, sep) == s
    ensures forall i :: 0 <= i < |parts| ==> sep !in parts[i]
    decreases |s|
  {
    if s == [] then [""]
    else
      var rest := SplitOn(s[1..], sep);
      if s[0] == sep then
        assert s == [sep] + s[1..];
        [""] + rest
      else
        var parts := [[s[0]] + rest[0]] + rest[1..];
        assert parts[1..] == rest[1..];
        assert s == [s[0]] + s[1..];
        parts
  }

  predicate StartsWith(s: string, prefix: string) {
    |prefix| <= |s| && s[..|prefix|] == prefix
  }

  /** Whether a `List...` or `CommaDelimitedList` type takes a string Default. */
  predicate IsListType(t: string) {
    StartsWith(t, "List") || t == "CommaDelimitedList"
  }

  /** The checks of `_validate_default_type`. `isFloat` stands for "Python's
      `float()` accepts this text", used on each comma-separated piece of a
      `List<Number>` default. */
  function DefaultErrors(paramType: string, d: Literal, isFloat: string -> bool): (errs: seq<FieldError>)
    ensures errs == [] || errs == [DefaultTypeMismatch(paramType)]
  {
    if paramType == "String" && !d.StrLit? then [DefaultTypeMismatch(paramType)]
    else if paramType == "Number" && d.StrLit? then [DefaultTypeMismatch(paramType)]
    else if IsListType(paramType) then
      if !d.StrLit? then [DefaultTypeMismatch(paramType)]
      else
        var pieces := SplitOn(d.s, ',');
        if paramType == "List<Number>" && exists i :: 0 <= i < |pieces| && !isFloat(pieces[i]) then
          [DefaultTypeMismatch(paramType)]
        else []
    else []
  }

  /** The Default validator as written: it has no `return v`, so pydantic
      stores its `None` result in place of an accepted Default. */
  function CheckDefaultAsWritten(paramType: string, d: Literal, isFloat: string -> bool): (r: Result<Option<Literal>>)
    ensures r.Ok? ==> r.value.None?
  {
    var errs := DefaultErrors(paramType, d, isFloat);
    if errs != [] then Fail(ValidationError(errs)) else Ok(None)
  }

  /** The Default validator as intended: an accepted Default is kept. */
  function CheckDefault(paramType: string, d: Literal, isFloat: string -> bool): (r: Result<Option<Literal>>)
    ensures r.Ok? ==> r.value == Some(d)
    ensures r.Ok? <==> CheckDefaultAsWritten(paramType, d, isFloat).Ok?
  {
    var errs := DefaultErrors(paramType, d, isFloat);
    if errs != [] then Fail(ValidationError(errs)) else Ok(Some(d))
  }

  /** `_validate_string_only_fields`. */
  function StringOnlyErrors(field: string, paramType: string): seq<FieldError> {
    if paramType != "String" then [StringOnly(field)] else []
  }

  /** `_validate_number_only_fields`. */
  function NumberOnlyErrors(field: string, paramType: string): seq<FieldError> {
    if paramType != "Number" then [NumberOnly(field)] else []
  }

  /** MinLength/MaxLength: the `gt=0` bound is checked first and stops the
      field; then the String-only rule. */
  function LengthErrors(field: string, n: int, paramType: string): seq<FieldError> {
    if n <= 0 then [NotPositive(field)] else StringOnlyErrors(field, paramType)
  }

  /** Every error pydantic reports for a Parameter, field by field in
      declaration order. */
  function ParameterErrors(p: ParameterSpec, isFloat: string -> bool): (errs: seq<FieldError>)
    ensures errs == [] <==> ParameterRulesHold(p, isFloat)
    ensures |errs| <= 7
  {
    if p.default.Some? then DefaultErrorsIff(p.paramType, p.default.value, isFloat); ParameterErrorsOf(p, isFloat)
    else ParameterErrorsOf(p, isFloat)
  }

  function ParameterErrorsOf(p: ParameterSpec, isFloat: string -> bool): seq<FieldError> {
    TitleErrors(p.title, Some(PARAMETER_TITLE_MAX))
    + (if p.allowedPattern.Some? then StringOnlyErrors("AllowedPattern", p.paramType) else [])
    + (if p.default.Some? then DefaultErrors(p.paramType, p.default.value, isFloat) else [])
    + (if p.maxLength.Some? then LengthErrors("MaxLength", p.maxLength.value, p.paramType) else [])
    + (if p.maxValue.Some? then NumberOnlyErrors("MaxValue", p.paramType) else [])
    + (if p.minLength.Some? then LengthErrors("MinLength", p.minLength.value, p.paramType) else [])
    + (if p.minValue.Some? then NumberOnlyErrors("MinValue", p.paramType) else [])
  }

  /** The Default rule on its own: the Default fits the Type. */
  predicate DefaultFits(paramType: string, d: Literal, isFloat: string -> bool) {
    && (paramType == "String" ==> d.StrLit?)
    && (paramType == "Number" ==> !d.StrLit?)
    && (IsListType(paramType) ==> d.StrLit?)
    && (paramType == "List<Number>" && d.StrLit? ==>
          forall piece :: piece in SplitOn(d.s, ',') ==> isFloat(piece))
  }

  /** The four Parameter rules, stated independently of the error list:
      title, Number-only fields, String-only fields with positive lengths,
      and a Default that fits the Type. */
  predicate ParameterRulesHold(p: ParameterSpec, isFloat: string -> bool) {
    && IsTitle(p.title) && |p.title| <= PARAMETER_TITLE_MAX
    && (p.maxValue.Some? || p.minValue.Some? ==> p.paramType == "Number")
    && (p.allowedPattern.Some? || p.maxLength.Some? || p.minLength.Some? ==> p.paramType == "String")
    && (p.maxLength.Some? ==> p.maxLength.value > 0)
    && (p.minLength.Some? ==> p.minLength.value > 0)
    && (p.default.Some? ==> DefaultFits(p.paramType, p.default.value, isFloat))
  }

  lemma DefaultErrorsIff(paramType: string, d: Literal, isFloat: string -> bool)
    ensures DefaultErrors(paramType, d, isFloat) == [] <==> DefaultFits(paramType, d, isFloat)
  {
    if paramType == "List<Number>" && d.StrLit? {
      var pieces := SplitOn(d.s, ',');
      if exists i :: 0 <= i < |pieces| && !isFloat(pieces[i]) {
        var i :| 0 <= i < |pieces| && !isFloat(pieces[i]);
        assert pieces[i] in pieces;
      }
    }
  }

  /** The field names of Parameter in declaration order, `Type` first. */
  const PARAMETER_FIELDS: seq<string> :=
    ["Type", "AllowedPattern", "AllowedValues", "ConstraintDescription", "Default",
     "Description", "MaxLength", "MaxValue", "MinLength", "MinValue", "NoEcho"]

  lemma ParameterFieldsDistinct()
    ensures Distinct(PARAMETER_FIELDS)
  {
    DistinctBySignature(PARAMETER_FIELDS);
  }

  /** AllowedValues as stored: the list of the coerced literals. */
  function LiteralList(ls: seq<Literal>): (v: Value)
    ensures v.List? && |v.elems| == |ls| && forall i :: 0 <= i < |ls| ==> v.elems[i] == LiteralValue(ls[i])
  {
    List(seq(|ls|, i requires 0 <= i < |ls| => LiteralValue(ls[i])))
  }

  /** The fields of a Parameter, in PARAMETER_FIELDS order, each holding
      the keyword argument of that name (Default as `default` says). */
  function ParameterFields(p: ParameterSpec, default: Option<Literal>): (fields: seq<(string, Option<Value>)>)
    ensures Keys(fields) == PARAMETER_FIELDS && |fields| == 11
    ensures fields[0] == ("Type", Some(Str(p.paramType)))
    ensures fields[1] == ("AllowedPattern", OptStr(p.allowedPattern))
    ensures fields[2] == ("AllowedValues", if p.allowedValues.Some? then Some(LiteralList(p.allowedValues.value)) else None)
    ensures fields[3] == ("ConstraintDescription", OptStr(p.constraintDescription))
    ensures fields[4] == ("Default", if default.Some? then Some(LiteralValue(default.value)) else None)
    ensures fields[5] == ("Description", OptStr(p.description))
    ensures fields[6] == ("MaxLength", OptInt(p.maxLength))
    ensures fields[7] == ("MaxValue", OptInt(p.maxValue))
    ensures fields[8] == ("MinLength", OptInt(p.minLength))
    ensures fields[9] == ("MinValue", OptInt(p.minValue))
    ensures fields[10] == ("NoEcho", OptBool(p.noEcho))
  {
    Zip(PARAMETER_FIELDS,
      [ Some(Str(p.paramType)),
        OptStr(p.allowedPattern),
        if p.allowedValues.Some? then Some(LiteralList(p.allowedValues.value)) else None,
        OptStr(p.constraintDescription),
        if default.Some? then Some(LiteralValue(default.value)) else None,
        OptStr(p.description),
        OptInt(p.maxLength),
        OptInt(p.maxValue),
        OptInt(p.minLength),
        OptInt(p.minValue),
        OptBool(p.noEcho) ])
  }

  /** Looked up by name, every field holds what was given; in particular
      Type and Default. */
  lemma ParameterFieldValues(p: ParameterSpec, default: Option<Literal>)
    ensures var fields := ParameterFields(p, default);
            forall i :: 0 <= i < |PARAMETER_FIELDS| ==> SetValue(fields, PARAMETER_FIELDS[i]) == fields[i].1
    ensures var fields := ParameterFields(p, default);
            SetValue(fields, "Type") == Some(Str(p.paramType)) &&
            SetValue(fields, "Default") == (if default.Some? then Some(LiteralValue(default.value)) else None)
  {
    var fields := ParameterFields(p, default);
    ParameterFieldsDistinct();
    forall i | 0 <= i < |PARAMETER_FIELDS|
      ensures SetValue(fields, PARAMETER_FIELDS[i]) == fields[i].1
    {
      KeysAt(fields, i);
      GetDistinct(fields, i);
    }
    GetDistinct(fields, 0);
    GetDistinct(fields, 4);
  }

  /** Constructing a Parameter (before registration): all field errors
      together, or the validated entity with the Default kept. */
  function ValidateParameter(p: ParameterSpec, isFloat: string -> bool): (r: Result<Entity>)
    ensures r.Ok? <==> ParameterErrors(p, isFloat) == []
    ensures r.Fail? ==> r.error == ValidationError(ParameterErrors(p, isFloat))
    ensures r.Ok? ==> r.value.title == p.title && r.value.kind == ParameterKind && WellFormed(r.value)
    ensures r.Ok? ==> r.value.fields == ParameterFields(p, p.default)
    ensures r.Ok? ==> SetValue(r.value.fields, "Type") == Some(Str(p.paramType))
    ensures r.Ok? ==> SetValue(r.value.fields, "Default") == (if p.default.Some? then Some(LiteralValue(p.default.value)) else None)
  {
    var errs := ParameterErrors(p, isFloat);
    if errs != [] then Fail(ValidationError(errs))
    else
      ParameterFieldsDistinct();
      ParameterFieldValues(p, p.default);
      Ok(Entity(p.title, ParameterKind, ParameterFields(p, p.default)))
  }

  /** The entity the source builds: an accepted Default is replaced by the
      validator's `None`. */
  function ParameterEntityAsWritten(p: ParameterSpec): (e: Entity)
    ensures e.title == p.title && e.kind == ParameterKind && WellFormed(e)
    ensures SetValue(e.fields, "Type") == Some(Str(p.paramType)) && SetValue(e.fields, "Default") == None
  {
    ParameterFieldsDistinct();
    ParameterFieldValues(p, None);
    Entity(p.title, ParameterKind, ParameterFields(p, None))
  }

  /** The String parameter of the bundled usage example. */
  const EXAMPLE_PARAMETER: ParameterSpec :=
    ParameterSpec("TestParameter", "String", None, None, None, Some(StrLit("foobar")),
                  Some("Parameter for testing."), None, None, None, None, None)

  lemma ExampleParameterValid(isFloat: string -> bool)
    ensures ValidateParameter(EXAMPLE_PARAMETER, isFloat).Ok?
  {
    var t := EXAMPLE_PARAMETER.title;
    assert IsTitle(t) by {
      forall i | 0 <= i < |t| ensures IsAlnum(t[i]) {}
    }
  }

  /** As written, no Parameter ever renders a "Default" entry. */
  lemma AsWrittenDropsDefault(p: ParameterSpec)
    ensures "Default" !in Keys(ToDict(ParameterEntityAsWritten(p)).items)
  {
    ParameterFieldsDistinct();
    ParameterFieldValues(p, None);
    FlatShape(ParameterEntityAsWritten(p), "Default");
  }

  /** As intended, an accepted Default renders under "Default" as given. */
  lemma ValidatedKeepsDefault(p: ParameterSpec, isFloat: string -> bool)
    requires ValidateParameter(p, isFloat).Ok? && p.default.Some?
    ensures Get(ToDict(ValidateParameter(p, isFloat).value).items, "Default") == Some(LiteralValue(p.default.value))
  {
    RendersDefault(ValidateParameter(p, isFloat).value, p.default.value);
  }

  lemma RendersDefault(e: Entity, d: Literal)
    requires WellFormed(e) && e.kind == ParameterKind && SetValue(e.fields, "Default") == Some(LiteralValue(d))
    ensures Get(ToDict(e).items, "Default") == Some(LiteralValue(d))
  {
    FlatShape(e, "Default");
  }

  /** The parameter of the bundled usage example: as written its Default
      never reaches the rendered template; as intended it does. */
  lemma DefaultLostAsWritten(isFloat: string -> bool)
    ensures CheckDefaultAsWritten("String", StrLit("foobar"), isFloat) == Ok(None)
    ensures CheckDefault("String", StrLit("foobar"), isFloat) == Ok(Some(StrLit("foobar")))
    ensures "Default" !in Keys(ToDict(ParameterEntityAsWritten(EXAMPLE_PARAMETER)).items)
    ensures ValidateParameter(EXAMPLE_PARAMETER, isFloat).Ok? &&
            Get(ToDict(ValidateParameter(EXAMPLE_PARAMETER, isFloat).value).items, "Default") == Some(Str("foobar"))
  {
    ExampleDefaultRendered(isFloat);
  }

  /** The same parameter rendered: as written without a "Default" entry,
      as intended with `"Default": "foobar"`. */
  lemma ExampleDefaultRendered(isFloat: string -> bool)
    ensures "Default" !in Keys(ToDict(ParameterEntityAsWritten(EXAMPLE_PARAMETER)).items)
    ensures ValidateParameter(EXAMPLE_PARAMETER, isFloat).Ok? &&
            Get(ToDict(ValidateParameter(EXAMPLE_PARAMETER, isFloat).value).items, "Default") == Some(Str("foobar"))
  {
    AsWrittenDropsDefault(EXAMPLE_PARAMETER);
    ExampleParameterValid(isFloat);
    ValidatedKeepsDefault(EXAMPLE_PARAMETER, isFloat);
    assert LiteralValue(EXAMPLE_PARAMETER.default.value) == Str("foobar");
  }

  /** The title bound is inclusive: 255 characters pass, 256 fail. */
  lemma TitleLengthBoundary(t: string)
    requires IsTitle(t)
    ensures |t| <= 255 <==> TitleErrors(t, Some(PARAMETER_TITLE_MAX)) == []
    ensures |t| == 256 ==> TitleErrors(t, Some(PARAMETER_TITLE_MAX)) == [TitleTooLong]
  {
  }
}
