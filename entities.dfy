/** BaseAWSObject and its variants (troposphere/__init__.py): titles, the
    attribute/property split at render time, and references to entities. */
module Entities {
  import opened Wrappers
  import opened OrderedDict
  import opened Values
  import opened Encode
  import Helpers

  /** Which class an entity belongs to; only resources (AWSObject) have a
      DICT_NAME ("Properties") and a RESOURCE_TYPE. */
  datatype Kind =
    | ParameterKind
    | OutputKind
    | AttributeKind
    | PropertyKind
    | ResourceKind(resourceType: string)

  /** A validated entity: its title, its class and its fields in declaration
      order, `None` where a field is unset. `title` and `template` are not
      fields: they are never rendered. */
  datatype Entity = Entity(title: string, kind: Kind, fields: seq<(string, Option<Value>)>)

  /** The resource attributes lifted out of the body at render time. */
  const ATTRIBUTES: seq<string> :=
    ["Condition", "CreationPolicy", "DeletionPolicy", "DependsOn", "Metadata", "UpdatePolicy", "UpdateReplacePolicy"]

  const PARAMETER_TITLE_MAX: nat := 255

  predicate IsAlnum(c: char) {
    'a' <= c <= 'z' || 'A' <= c <= 'Z' || '0' <= c <= '9'
  }

  /** The title rule `^[a-zA-Z0-9]+$` as intended: one or more ASCII letters
      or digits and nothing else. */
  predicate IsTitle(t: string) {
    |t| > 0 && forall i :: 0 <= i < |t| ==> IsAlnum(t[i])
  }

  /** The same pattern as Python's `re.match` applies it: `$` also matches
      just before a final newline, so one trailing "\n" slips through. */
  predicate TitleMatchesAsWritten(t: string) {
    IsTitle(t) || (|t| > 1 && t[|t| - 1] == '\n' && IsTitle(t[..|t| - 1]))
  }

  /** The as-written pattern accepts a title the intended rule refuses. */
  lemma TrailingNewlineTitle()
    ensures TitleMatchesAsWritten("Foo\n") && !IsTitle("Foo\n")
  {
    assert "Foo\n"[..3] == "Foo";
    assert !IsAlnum("Foo\n"[3]);
  }

  /** Errors for the title field: the length bound (Parameter only) is
      checked before the pattern, and the first failure stops the field. */
  function TitleErrors(t: string, maxLength: Option<nat>): (errs: seq<FieldError>)
    ensures errs == [] <==> IsTitle(t) && (maxLength.Some? ==> |t| <= maxLength.value)
    ensures |errs| <= 1
  {
    if maxLength.Some? && |t| > maxLength.value then [TitleTooLong]
    else if !IsTitle(t) then [TitleMismatch]
    else []
  }

  /** The value of a field that is set; `None` when it is unset or absent. */
  function SetValue(fields: seq<(string, Option<Value>)>, k: string): Option<Value> {
    var f := Get(fields, k);
    if f.Some? then f.value else None
  }

  /** Field names of a class are distinct. */
  predicate WellFormed(e: Entity) {
    Distinct(Keys(e.fields))
  }

  /** The fields that are set, in declaration order (`exclude_none`). */
  function Present(fields: seq<(string, Option<Value>)>): (body: seq<(string, Value)>)
    ensures forall k :: k in Keys(body) ==> k in Keys(fields)
    ensures Distinct(Keys(fields)) ==> Distinct(Keys(body))
    ensures Distinct(Keys(fields)) ==> forall k :: Get(body, k) == SetValue(fields, k)
  {
    if fields == [] then []
    else
      var rest := Present(fields[1..]);
      assert Keys(fields) == [fields[0].0] + Keys(fields[1..]);
      if fields[0].1.Some? then
        var body := [(fields[0].0, fields[0].1.value)] + rest;
        assert Keys(body) == [fields[0].0] + Keys(rest);
        body
      else rest
  }

  /** `exclude_none` works field by field, so it distributes over
      concatenation. */
  lemma {:induction false} PresentAppend(a: seq<(string, Option<Value>)>, b: seq<(string, Option<Value>)>)
    ensures Present(a + b) == Present(a) + Present(b)
    decreases |a|
  {
    if a == [] {
      assert a + b == b;
    } else {
      assert (a + b)[0] == a[0] && (a + b)[1..] == a[1..] + b;
      PresentAppend(a[1..], b);
    }
  }

  /** The body without the given keys, other pairs in order (`data.pop`). */
  function Without(body: seq<(string, Value)>, names: seq<string>): (r: seq<(string, Value)>)
    ensures forall k :: k in Keys(r) <==> k in Keys(body) && k !in names
    ensures forall k :: k !in names ==> Get(r, k) == Get(body, k)
  {
    if body == [] then []
    else
      var rest := Without(body[1..], names);
      assert Keys(body) == [body[0].0] + Keys(body[1..]);
      if body[0].0 in names then rest
      else
        var r := [body[0]] + rest;
        assert Keys(r) == [body[0].0] + Keys(rest);
        r
  }

  /** The attributes present in the body, in ATTRIBUTES order. */
  function Lifted(body: seq<(string, Value)>, names: seq<string>): (r: seq<(string, Value)>)
    ensures forall k :: k in Keys(r) <==> k in names && k in Keys(body)
    ensures forall k :: Get(r, k).Some? ==> Get(r, k) == Get(body, k)
    ensures Distinct(names) ==> Distinct(Keys(r))
  {
    if names == [] then []
    else
      var rest := Lifted(body, names[1..]);
      match Get(body, names[0])
      case None => rest
      case Some(v) =>
        var r := [(names[0], v)] + rest;
        assert Keys(r) == [names[0]] + Keys(rest);
        r
  }

  /** `dict()` / `to_dict()`: a resource renders as
      `{"Properties": body, attributes..., "Type": RESOURCE_TYPE}`; every
      other entity renders as its normalised body. */
  function ToDict(e: Entity): (r: Value)
    ensures r.Dict?
    ensures !e.kind.ResourceKind? ==> Plain(r)
    ensures e.kind.ResourceKind? ==>
              |r.items| >= 2 && r.items[0].0 == "Properties" && r.items[|r.items| - 1] == ("Type", Str(e.kind.resourceType))
  {
    var body := Present(e.fields);
    match e.kind
    case ResourceKind(rt) =>
      Dict([("Properties", Dict(Without(body, ATTRIBUTES)))] + Lifted(body, ATTRIBUTES) + [("Type", Str(rt))])
    case _ => Normalize(Dict(body))
  }

  /** An entity as a value inside a field, a list or a helper. */
  function AsValue(e: Entity): (r: Value)
    ensures r.Obj? && r.origin == Model(e.title)
  {
    Obj(Model(e.title), ToDict(e))
  }

  /** A declaration or a flat attribute/property renders its set fields,
      and only those, as plain data. */
  lemma FlatShape(e: Entity, k: string)
    requires WellFormed(e) && !e.kind.ResourceKind?
    ensures var r := ToDict(e);
            r.Dict? && Plain(r) &&
            (k in Keys(r.items) <==> SetValue(e.fields, k).Some?) &&
            (SetValue(e.fields, k).Some? ==> Get(r.items, k) == Some(Normalize(SetValue(e.fields, k).value)))
  {
    NormalizeDictGet(Present(e.fields), k);
  }

  /** A resource renders with "Properties" first and "Type" last; each set
      attribute sits beside "Properties" with its value, never inside it;
      every other set field sits inside it with its value. */
  lemma ResourceShape(e: Entity, k: string)
    requires WellFormed(e) && e.kind.ResourceKind?
    ensures var r := ToDict(e);
            r.Dict? && |r.items| >= 2 &&
            r.items[0].0 == "Properties" && r.items[|r.items| - 1] == ("Type", Str(e.kind.resourceType)) &&
            (k in ATTRIBUTES ==> k !in Keys(r.items[0].1.items) && Get(r.items[1..|r.items| - 1], k) == SetValue(e.fields, k)) &&
            (k !in ATTRIBUTES ==> Get(r.items[0].1.items, k) == SetValue(e.fields, k) && k !in Keys(r.items[1..|r.items| - 1]))
  {
    var body := Present(e.fields);
    var r := ToDict(e);
    var lifted := Lifted(body, ATTRIBUTES);
    assert r.items[1..|r.items| - 1] == lifted;
  }

  /** `ref()` on a declaration or a resource. */
  function Ref(e: Entity): (r: Value)
    requires !e.kind.AttributeKind? && !e.kind.PropertyKind?
    ensures Normalize(r) == Dict([("Ref", Str(e.title))])
  {
    var r := Helpers.AsValue(Helpers.RefFn(AsValue(e)));
    assert Helpers.GetData(AsValue(e)) == Str(e.title);
    assert r.payload == Dict([("Ref", Str(e.title))]);
    assert Normalize(r).items == [("Ref", Str(e.title))];
    r
  }

  /** `get_att(name)` on a resource: `{"Fn::GetAtt": [title, name]}`. */
  function GetAtt(e: Entity, name: string): (r: Value)
    requires e.kind.ResourceKind?
    ensures Normalize(r) == Dict([("Fn::GetAtt", List([Str(e.title), Str(name)]))])
  {
    var r := Helpers.AsValue(Helpers.GetAttFn(AsValue(e), name));
    assert Normalize(List([Str(e.title), Str(name)])).elems == [Str(e.title), Str(name)];
    assert Normalize(r).items == [("Fn::GetAtt", List([Str(e.title), Str(name)]))];
    r
  }

  /** The three ways of referring to a declaration (its title as a string,
      the entity itself, the `ref()` method) render identically. */
  lemma RefFormsAgree(e: Entity)
    requires !e.kind.AttributeKind? && !e.kind.PropertyKind?
    ensures var byName := Normalize(Helpers.AsValue(Helpers.RefFn(Str(e.title))));
            byName == Normalize(Helpers.AsValue(Helpers.RefFn(AsValue(e)))) &&
            byName == Normalize(Ref(e))
  {
    Helpers.RefFromEntityOrTitle(e.title, ToDict(e));
  }
}
