/** The intrinsic-function helpers (AWSHelperFn and its subclasses in
    troposphere/__init__.py): each wraps one `data` payload, a single-key
    dict from a function tag to its arguments. */
module Helpers {
  import opened Wrappers
  import opened OrderedDict
  import opened Values
  import opened Encode

  /** One helper per constructor call, holding the constructor's arguments. */
  datatype Intrinsic =
    | GenericFn(arg: Value)
    | AndFn(conds: seq<Value>)
    | Base64Fn(arg: Value)
    | CidrFn(ipBlock: string, count: int, cidrBits: Option<int>)
    | EqualsFn(one: Value, two: Value)
    | FindInMapFn(mapName: Value, topKey: Value, secondKey: Value)
    | GetAttFn(logicalName: Value, attrName: string)
    | GetAZsFn(region: Value)
    | IfFn(cond: Value, ifTrue: Value, ifFalse: Value)
    | JoinFn(delimiter: string, joined: Value)
    | NotFn(cond: Value)
    | OrFn(conds: seq<Value>)
    | RefFn(target: Value)
    | SelectFn(index: int, objects: Value)
    | SplitFn(delimiter: string, source: Value)
    | SubFn(input: string, dictValues: Option<seq<(string, Value)>>, kwargs: seq<(string, Value)>)
    | ExportFn(name: string)

  /** `getdata`: an entity stands for its title; anything else for itself. */
  function GetData(v: Value): Value {
    if v.Obj? && v.origin.Model? then Str(v.origin.title) else v
  }

  function ClassName(h: Intrinsic): string {
    match h
    case GenericFn(_) => "GenericHelperFn"
    case AndFn(_) => "And"
    case Base64Fn(_) => "Base64"
    case CidrFn(_, _, _) => "Cidr"
    case EqualsFn(_, _) => "Equals"
    case FindInMapFn(_, _, _) => "FindInMap"
    case GetAttFn(_, _) => "GetAtt"
    case GetAZsFn(_) => "GetAZs"
    case IfFn(_, _, _) => "If"
    case JoinFn(_, _) => "Join"
    case NotFn(_) => "Not"
    case OrFn(_) => "Or"
    case RefFn(_) => "Ref"
    case SelectFn(_, _) => "Select"
    case SplitFn(_, _) => "Split"
    case SubFn(_, _, _) => "Sub"
    case ExportFn(_) => "Export"
  }

  /** The wire tag each helper's payload is keyed by. */
  function Tag(h: Intrinsic): string {
    match h
    case GenericFn(_) => ""
    case AndFn(_) => "Fn::And"
    case Base64Fn(_) => "Fn::Base64"
    case CidrFn(_, _, _) => "Fn::Cidr"
    case EqualsFn(_, _) => "Fn::Equals"
    case FindInMapFn(_, _, _) => "Fn::FindInMap"
    case GetAttFn(_, _) => "Fn::GetAtt"
    case GetAZsFn(_) => "Fn::GetAZs"
    case IfFn(_, _, _) => "Fn::If"
    case JoinFn(_, _) => "Fn::Join"
    case NotFn(_) => "Fn::Not"
    case OrFn(_) => "Fn::Or"
    case RefFn(_) => "Ref"
    case SelectFn(_, _) => "Fn::Select"
    case SplitFn(_, _) => "Fn::Split"
    case SubFn(_, _, _) => "Fn::Sub"
    case ExportFn(_) => "Name"
  }

  /** `Sub`'s substitution values: the keyword arguments updated with
      `dict_values` when that dict is non-empty. */
  function SubValues(dictValues: Option<seq<(string, Value)>>, kwargs: seq<(string, Value)>): seq<(string, Value)> {
    if dictValues.Some? && dictValues.value != [] then Merge(kwargs, dictValues.value) else kwargs
  }

  /** The arguments stored under the tag, as each constructor builds them. */
  function Arguments(h: Intrinsic): (r: Value)
    requires !h.GenericFn?
    ensures h.RefFn? ==> !(r.Obj? && r.origin.Model?)
    ensures h.EqualsFn? || h.FindInMapFn? || h.GetAttFn? || h.IfFn? || h.NotFn? ==>
              r.List? && |r.elems| >= 1 && !(r.elems[0].Obj? && r.elems[0].origin.Model?)
    ensures h.EqualsFn? ==> |r.elems| == 2 && !(r.elems[1].Obj? && r.elems[1].origin.Model?)
  {
    match h
    case AndFn(conds) => List(conds)
    case Base64Fn(arg) => arg
    case CidrFn(ip, count, bits) =>
      if bits.Some? && bits.value != 0 then List([Str(ip), Int(count), Int(bits.value)])
      else List([Str(ip), Int(count)])
    case EqualsFn(a, b) => List([GetData(a), GetData(b)])
    case FindInMapFn(m, k1, k2) => List([GetData(m), k1, k2])
    case GetAttFn(n, a) => List([GetData(n), Str(a)])
    case GetAZsFn(region) => region
    case IfFn(c, t, f) => List([GetData(c), t, f])
    case JoinFn(d, vs) => List([Str(d), vs])
    case NotFn(c) => List([GetData(c)])
    case OrFn(conds) => List(conds)
    case RefFn(t) => GetData(t)
    case SelectFn(i, objs) => List([Int(i), objs])
    case SplitFn(d, vs) => List([Str(d), vs])
    case SubFn(s, dv, kw) =>
      var values := SubValues(dv, kw);
      if values != [] then List([Str(s), Dict(values)]) else Str(s)
    case ExportFn(name) => Str(name)
  }

  /** The helper's `data`. */
  function Data(h: Intrinsic): (r: Value)
    ensures !h.GenericFn? ==> r.Dict? && Keys(r.items) == [Tag(h)] && r.items[0] == (Tag(h), Arguments(h))
    ensures h.GenericFn? ==> !(r.Obj? && r.origin.Model?)
    ensures h.GenericFn? && h.arg.Obj? && h.arg.origin.Model? ==> r == Str(h.arg.origin.title)
    ensures h.GenericFn? && !(h.arg.Obj? && h.arg.origin.Model?) ==> r == h.arg
  {
    if h.GenericFn? then GetData(h.arg)
    else
      assert Keys([(Tag(h), Arguments(h))]) == [Tag(h)];
      Dict([(Tag(h), Arguments(h))])
  }

  /** The helper object itself, as it sits inside a field or a list. */
  function AsValue(h: Intrinsic): (r: Value)
    ensures r.Obj? && r.origin == Helper(ClassName(h))
  {
    Obj(Helper(ClassName(h)), Data(h))
  }

  /** `AWSHelperFn.__eq__`: against a helper of the same class, compare the
      data; against anything else, compare the rendered data. A helper
      equals itself and its own rendered form. The comparison of values is
      structural: unlike Python's, it sees dict key order and tells 1, 1.0
      and True apart. */
  predicate HelperEquals(h: Intrinsic, other: Value)
    ensures other == AsValue(h) ==> HelperEquals(h, other)
    ensures other == Normalize(Data(h)) ==> HelperEquals(h, other)
  {
    if other.Obj? && other.origin == Helper(ClassName(h)) then Data(h) == other.payload
    else Normalize(Data(h)) == other
  }

  /** Every helper except the generic fallback renders as a single-key
      dict keyed by its tag, with nothing left to render inside. */
  lemma WireForm(h: Intrinsic)
    requires !h.GenericFn?
    ensures var r := Normalize(AsValue(h));
            r.Dict? && Keys(r.items) == [Tag(h)] && Plain(r)
  {
    assert Keys([(Tag(h), Arguments(h))]) == [Tag(h)];
  }

  /** A helper renders as its normalised `data`: the object's `to_dict()`
      result, normalised once more, is unchanged. */
  lemma HelperRendersAsData(h: Intrinsic)
    ensures Normalize(AsValue(h)) == Normalize(Normalize(Data(h)))
  {
    NormalizeIdempotent(Data(h));
  }

  /** A Ref helper built from an entity and one built from that entity's
      title carry the same data, `{"Ref": title}`. */
  lemma RefFromEntityOrTitle(title: string, rendered: Value)
    ensures Data(RefFn(Obj(Model(title), rendered))) == Data(RefFn(Str(title)))
    ensures Data(RefFn(Str(title))) == Dict([("Ref", Str(title))])
  {
  }

  /** `Cidr` keeps `cidr_bits` as a third argument exactly when it is given
      and non-zero. */
  lemma CidrDropsFalsyBits(ip: string, count: int, bits: Option<int>)
    ensures var args := Arguments(CidrFn(ip, count, bits)).elems;
            (|args| == 3 <==> bits.Some? && bits.value != 0) &&
            |args| >= 2 && args[..2] == [Str(ip), Int(count)]
  {
  }

  /** `Sub` collapses to the bare input string exactly when there are no
      substitution values. */
  lemma SubCollapses(s: string, dv: Option<seq<(string, Value)>>, kw: seq<(string, Value)>)
    ensures Arguments(SubFn(s, dv, kw)) == Str(s) <==> kw == [] && (dv.None? || dv.value == [])
  {
    SubValuesEmpty(dv, kw);
  }

  /** The merged substitution values are empty exactly when both sources
      are. */
  lemma SubValuesEmpty(dv: Option<seq<(string, Value)>>, kw: seq<(string, Value)>)
    ensures SubValues(dv, kw) == [] <==> kw == [] && (dv.None? || dv.value == [])
  {
    if dv.Some? && dv.value != [] {
      var k := dv.value[0].0;
      assert k in Keys(dv.value);
      assert k in Keys(Merge(kw, dv.value));
    }
  }

  /** `dict_values` override the keyword arguments key by key; every other
      keyword argument keeps its value. */
  lemma SubValuesOverride(dv: Option<seq<(string, Value)>>, kw: seq<(string, Value)>)
    ensures dv.Some? && Distinct(Keys(dv.value)) ==>
              forall k :: k in Keys(dv.value) ==> Get(SubValues(dv, kw), k) == Get(dv.value, k)
    ensures forall k :: (dv.None? || k !in Keys(dv.value)) ==> Get(SubValues(dv, kw), k) == Get(kw, k)
  {
  }

  /** A constructed Ref, as `Ref.validate` builds it. */
  function NewRef(name: string): (r: Value)
    ensures r == AsValue(RefFn(Str(name)))
  {
    Obj(Helper("Ref"), Dict([("Ref", Str(name))]))
  }

  /** `Ref.validate`: a Ref passes through; a string, or a dict whose "Ref"
      entry is a string, becomes a new Ref to that string; anything else is
      a TypeError. */
  function ValidateRef(v: Value): (r: Result<Value>)
    ensures r.Ok? <==>
              (v.Obj? && v.origin == Helper("Ref")) || v.Str? ||
              (v.Dict? && Get(v.items, "Ref").Some? && Get(v.items, "Ref").value.Str?)
    ensures r.Ok? ==> r.value.Obj? && r.value.origin == Helper("Ref")
    ensures v.Obj? && r.Ok? ==> r == Ok(v)
    ensures v.Str? ==> r == Ok(AsValue(RefFn(v)))
    ensures v.Dict? && r.Ok? ==> r == Ok(NewRef(Get(v.items, "Ref").value.s))
    ensures r.Fail? ==> r.error == TypeMismatch("Ref")
  {
    if v.Obj? && v.origin == Helper("Ref") then Ok(v)
    else if v.Str? then Ok(NewRef(v.s))
    else if v.Dict? && Get(v.items, "Ref").Some? && Get(v.items, "Ref").value.Str? then
      Ok(NewRef(Get(v.items, "Ref").value.s))
    else Fail(TypeMismatch("Ref"))
  }

  /** A constructed Export, as `Export.validate` builds it. */
  function NewExport(name: string): (r: Value)
    ensures r == AsValue(ExportFn(name))
  {
    Obj(Helper("Export"), Dict([("Name", Str(name))]))
  }

  /** `Export.validate`: the same three accepted forms, keyed by "Name". */
  function ValidateExport(v: Value): (r: Result<Value>)
    ensures r.Ok? <==>
              (v.Obj? && v.origin == Helper("Export")) || v.Str? ||
              (v.Dict? && Get(v.items, "Name").Some? && Get(v.items, "Name").value.Str?)
    ensures r.Ok? ==> r.value.Obj? && r.value.origin == Helper("Export")
    ensures v.Obj? && r.Ok? ==> r == Ok(v)
    ensures v.Str? ==> r == Ok(AsValue(ExportFn(v.s)))
    ensures v.Dict? && r.Ok? ==> r == Ok(NewExport(Get(v.items, "Name").value.s))
    ensures r.Fail? ==> r.error == TypeMismatch("Export")
  {
    if v.Obj? && v.origin == Helper("Export") then Ok(v)
    else if v.Str? then Ok(NewExport(v.s))
    else if v.Dict? && Get(v.items, "Name").Some? && Get(v.items, "Name").value.Str? then
      Ok(NewExport(Get(v.items, "Name").value.s))
    else Fail(TypeMismatch("Export"))
  }

  /** The string form and the dict form of a reference validate to the same
      Ref, whatever else the dict holds. */
  lemma ValidateRefForms(name: string, items: seq<(string, Value)>)
    requires Get(items, "Ref") == Some(Str(name))
    ensures ValidateRef(Dict(items)) == ValidateRef(Str(name))
  {
  }

  /** A Ref compares equal to its rendered form `{"Ref": name}`. */
  lemma RefEqualsWireForm(name: string)
    ensures HelperEquals(RefFn(Str(name)), Dict([("Ref", Str(name))]))
  {
    assert Keys([("Ref", Str(name))]) == ["Ref"];
    assert Normalize(Str(name)) == Str(name);
    assert Normalize(Dict([("Ref", Str(name))])).items == [("Ref", Str(name))];
  }
}
