/** `Template` (troposphere/__init__.py): the keyed collections a
    CloudFormation template is assembled from, the methods that fill them,
    and the document they render to. */
module Templates {
  import opened Wrappers
  import opened OrderedDict
  import opened Values
  import opened Encode
  import opened Entities

  const MAX_MAPPINGS: nat := 200
  const MAX_OUTPUTS: nat := 200
  const MAX_PARAMETERS: nat := 200
  const MAX_RESOURCES: nat := 500
  const SERVERLESS_TRANSFORM: string := "AWS::Serverless-2016-10-31"
  const DEFAULT_VERSION: string := "2010-09-09"

  /* ---------- `_update`: inserting entities keyed by title ---------- */

  /** Entities stored under their titles, in the given order. */
  function Pairs(items: seq<Entity>): (d: seq<(string, Entity)>)
    ensures |d| == |items|
  {
    if items == [] then [] else [(items[0].title, items[0])] + Pairs(items[1..])
  }

  /** A collection of entities as the Template holds it: a dict from each
      entity's title to the entity. */
  predicate KeyedByTitle(d: seq<(string, Entity)>) {
    Distinct(Keys(d)) && forall i :: 0 <= i < |d| ==> d[i].1.title == d[i].0
  }

  /** `_update` on a list: each item in turn is stored under its title; the
      first item whose title is already present stops the loop with that
      title, and the items before it stay inserted. */
  function InsertAll(d: seq<(string, Entity)>, items: seq<Entity>): (r: (seq<(string, Entity)>, Option<string>))
    ensures |d| <= |r.0| <= |d| + |items|
    ensures r.0 == d + Pairs(items[..|r.0| - |d|])
    ensures r.1.None? <==> |r.0| == |d| + |items|
    ensures r.1.Some? ==> r.1.value == items[|r.0| - |d|].title && r.1.value in Keys(r.0)
    decreases |items|
  {
    if items == [] then (d, None)
    else if items[0].title in Keys(d) then (d, Some(items[0].title))
    else
      var r := InsertAll(d + [(items[0].title, items[0])], items[1..]);
      var m := |r.0| - |d| - 1;
      assert items[..m + 1][0] == items[0] && items[..m + 1][1..] == items[1..][..m];
      r
  }

  /** The loop of `_update`, proved against `InsertAll`. */
  method Insert(d: seq<(string, Entity)>, items: seq<Entity>) returns (r: seq<(string, Entity)>, dup: Option<string>)
    ensures (r, dup) == InsertAll(d, items)
  {
    r, dup := d, None;
    var i := 0;
    while i < |items| && dup.None?
      invariant 0 <= i <= |items|
      invariant dup.None? ==> InsertAll(r, items[i..]) == InsertAll(d, items)
      invariant dup.Some? ==> (r, dup) == InsertAll(d, items)
      decreases |items| - i, if dup.None? then 1 else 0
    {
      assert items[i..][0] == items[i] && items[i..][1..] == items[i + 1..];
      if items[i].title in Keys(r) {
        dup := Some(items[i].title);
      } else {
        r := r + [(items[i].title, items[i])];
        i := i + 1;
      }
    }
    if dup.None? {
      assert items[i..] == [];
    }
  }

  lemma {:induction false} PairsKeyedByTitle(items: seq<Entity>)
    ensures forall i :: 0 <= i < |items| ==> Pairs(items)[i] == (items[i].title, items[i])
    decreases |items|
  {
    if items != [] {
      PairsKeyedByTitle(items[1..]);
    }
  }

  lemma KeysCons(x: (string, Entity), rest: seq<(string, Entity)>)
    ensures Keys([x] + rest) == [x.0] + Keys(rest)
  {
    assert ([x] + rest)[1..] == rest;
  }

  /** Storing an entity under a fresh title appends that title to the keys
      and keeps them distinct. */
  lemma PushKeys(d: seq<(string, Entity)>, e: Entity)
    requires e.title !in Keys(d)
    ensures Keys(d + [(e.title, e)]) == Keys(d) + [e.title]
    ensures Distinct(Keys(d)) ==> Distinct(Keys(d + [(e.title, e)]))
  {
    KeysAppend(d, [(e.title, e)]);
    assert Keys([(e.title, e)]) == [e.title] by {
      assert [(e.title, e)][1..] == [];
    }
    assert Distinct([e.title]) by {
      assert [e.title][1..] == [];
    }
    DistinctAppend(Keys(d), [e.title]);
  }

  /** Storing a fresh entity under its title keeps a collection keyed by
      title. */
  lemma KeyedAppend(d: seq<(string, Entity)>, e: Entity)
    requires KeyedByTitle(d) && e.title !in Keys(d)
    ensures KeyedByTitle(d + [(e.title, e)])
    ensures Keys(d + [(e.title, e)]) == Keys(d) + [e.title]
  {
    var d' := d + [(e.title, e)];
    PushKeys(d, e);
    forall i | 0 <= i < |d'| ensures d'[i].1.title == d'[i].0 {
      if i < |d| { assert d'[i] == d[i]; }
    }
  }

  /** Whatever happens, the keys of a Python dict stay distinct. */
  lemma {:induction false} InsertAllDistinct(d: seq<(string, Entity)>, items: seq<Entity>)
    requires Distinct(Keys(d))
    ensures Distinct(Keys(InsertAll(d, items).0))
    decreases |items|
  {
    if items != [] && items[0].title !in Keys(d) {
      PushKeys(d, items[0]);
      InsertAllDistinct(d + [(items[0].title, items[0])], items[1..]);
    }
  }

  /** Whatever happens, the collection stays keyed by title. */
  lemma {:induction false} InsertAllKeyed(d: seq<(string, Entity)>, items: seq<Entity>)
    requires KeyedByTitle(d)
    ensures KeyedByTitle(InsertAll(d, items).0)
    decreases |items|
  {
    if items != [] && items[0].title !in Keys(d) {
      KeyedAppend(d, items[0]);
      InsertAllKeyed(d + [(items[0].title, items[0])], items[1..]);
    }
  }

  /** Insertion succeeds exactly when the new titles are distinct from each
      other and from the titles already present. */
  lemma {:induction false} InsertAllSucceedsIff(d: seq<(string, Entity)>, items: seq<Entity>)
    requires Distinct(Keys(d))
    ensures InsertAll(d, items).1.None? <==> Distinct(Keys(d) + Keys(Pairs(items)))
    decreases |items|
  {
    if items == [] {
      assert Keys(d) + Keys(Pairs(items)) == Keys(d);
    } else {
      var t := items[0].title;
      var rest := Keys(Pairs(items[1..]));
      KeysCons((t, items[0]), Pairs(items[1..]));
      assert Keys(d) + Keys(Pairs(items)) == (Keys(d) + [t]) + rest;
      DistinctAppend(Keys(d) + [t], rest);
      DistinctAppend(Keys(d), [t]);
      if t !in Keys(d) {
        PushKeys(d, items[0]);
        InsertAllSucceedsIff(d + [(t, items[0])], items[1..]);
      }
    }
  }

  /** On success every item is stored under its title after the existing
      entries, in order; on a duplicate the items before it are. */
  lemma InsertAllOutcome(d: seq<(string, Entity)>, items: seq<Entity>)
    requires Distinct(Keys(d))
    ensures var r := InsertAll(d, items);
            Distinct(Keys(r.0)) &&
            (r.1.None? <==> Distinct(Keys(d) + Keys(Pairs(items)))) &&
            (r.1.None? ==> r.0 == d + Pairs(items))
  {
    InsertAllDistinct(d, items);
    InsertAllSucceedsIff(d, items);
    assert items[..|items|] == items;
  }

  /** Only the first `|items|` slots are checked against the cap, so a batch
      can carry a collection past it: one call may add any number of fresh
      entities whatever the collection's size. */
  lemma BatchGrowsByItsLength(d: seq<(string, Entity)>, items: seq<Entity>)
    requires Distinct(Keys(d)) && Distinct(Keys(d) + Keys(Pairs(items)))
    ensures |InsertAll(d, items).0| == |d| + |items|
  {
    InsertAllOutcome(d, items);
  }

  /* ---------- The template document ---------- */

  /** Every field of a Template, in declaration order. Mappings and Rules
      are dicts of dicts. */
  datatype Snapshot = Snapshot(
    conditions: seq<(string, Value)>,
    description: Option<string>,
    globals: Option<Value>,
    mappings: seq<(string, seq<(string, Value)>)>,
    metadata: seq<(string, Value)>,
    outputs: seq<(string, Entity)>,
    parameters: seq<(string, Entity)>,
    resources: seq<(string, Entity)>,
    rules: seq<(string, seq<(string, Value)>)>,
    transform: Option<string>,
    version: Option<string>)

  /** What every Template keeps: its dicts have distinct keys, and truthy
      Globals come only with the serverless Transform. */
  predicate Consistent(s: Snapshot) {
    && Distinct(Keys(s.conditions))
    && Distinct(Keys(s.mappings))
    && Distinct(Keys(s.metadata))
    && Distinct(Keys(s.outputs))
    && Distinct(Keys(s.parameters))
    && Distinct(Keys(s.resources))
    && Distinct(Keys(s.rules))
    && (s.globals.Some? && Truthy(s.globals.value) ==> s.transform == Some(SERVERLESS_TRANSFORM))
  }

  /** Every entity is stored under its own title. The constructor takes the
      collections as given, so this holds only where the caller's dicts do;
      the insertion methods keep it. */
  predicate KeyedByTitles(s: Snapshot) {
    KeyedByTitle(s.outputs) && KeyedByTitle(s.parameters) && KeyedByTitle(s.resources)
  }

  /** The aliases the fields render under, in declaration order. */
  const SECTIONS: seq<string> :=
    ["Conditions", "Description", "Globals", "Mappings", "Metadata", "Outputs",
     "Parameters", "Resources", "Rules", "Transform", "AWSTemplateFormatVersion"]

  lemma SectionsDistinct()
    ensures Distinct(SECTIONS)
  {
    DistinctBySignature(SECTIONS);
  }

  /** A collection field: left out of the document when empty. */
  function Collection(d: seq<(string, Value)>): Option<Value> {
    if d == [] then None else Some(Dict(d))
  }

  function Scalar(s: Option<string>): Option<Value> {
    if s.Some? then Some(Str(s.value)) else None
  }

  function DictOfDicts(d: seq<(string, seq<(string, Value)>)>): seq<(string, Value)> {
    MapValues(d, (m: seq<(string, Value)>) => Dict(m))
  }

  function DictOfEntities(d: seq<(string, Entity)>): seq<(string, Value)> {
    MapValues(d, (e: Entity) => Entities.AsValue(e))
  }

  /** Each section's value, or `None` when `to_dict` leaves it out. */
  function SectionValues(s: Snapshot): seq<Option<Value>> {
    [ Collection(s.conditions),
      Scalar(s.description),
      s.globals,
      Collection(DictOfDicts(s.mappings)),
      Collection(s.metadata),
      Collection(DictOfEntities(s.outputs)),
      Collection(DictOfEntities(s.parameters)),
      Collection(DictOfEntities(s.resources)),
      Collection(DictOfDicts(s.rules)),
      Scalar(s.transform),
      Scalar(s.version) ]
  }

  /** `Template.to_dict`: the sections present, in field order, normalised
      all the way down. */
  function Render(s: Snapshot): (r: Value)
    ensures r.Dict? && Plain(r)
  {
    Normalize(Dict(Present(Zip(SECTIONS, SectionValues(s)))))
  }

  /** Each section appears exactly when its field is set (non-empty for a
      collection), holding that field normalised. */
  lemma RenderSection(s: Snapshot, i: nat)
    requires i < |SECTIONS|
    ensures var v := SectionValues(s)[i];
            var r := Render(s);
            (SECTIONS[i] in Keys(r.items) <==> v.Some?) &&
            (v.Some? ==> Get(r.items, SECTIONS[i]) == Some(Normalize(v.value)))
  {
    var fields := Zip(SECTIONS, SectionValues(s));
    SectionsDistinct();
    GetDistinct(fields, i);
    NormalizeDictGet(Present(fields), SECTIONS[i]);
  }

  /** The rendered sections are exactly the set ones. */
  lemma RenderSectionKey(s: Snapshot, i: nat)
    requires i < |SECTIONS|
    ensures SECTIONS[i] in Keys(Render(s).items) <==> SectionValues(s)[i].Some?
  {
    RenderSection(s, i);
  }

  /** Nothing but the sections is rendered. */
  lemma RenderKeysAreSections(s: Snapshot)
    ensures forall k :: k in Keys(Render(s).items) ==> k in SECTIONS
  {
    forall k | k in Keys(Render(s).items) ensures k in SECTIONS {
      assert k in Keys(Present(Zip(SECTIONS, SectionValues(s))));
    }
  }

  /** A collection of entities as rendered: each entity under its title,
      in insertion order, rendered by its own `to_dict`. */
  function RenderEntities(d: seq<(string, Entity)>): (r: Value)
    ensures r.Dict? && Keys(r.items) == Keys(d)
    ensures forall i :: 0 <= i < |d| ==> r.items[i].1 == Normalize(ToDict(d[i].1))
  {
    var r := Normalize(Dict(DictOfEntities(d)));
    forall i | 0 <= i < |d| ensures r.items[i].1 == Normalize(ToDict(d[i].1)) {
      NormalizeDictAt(DictOfEntities(d), i);
    }
    r
  }

  /** The Resources section is present exactly when there is a resource,
      and then holds every resource rendered. */
  lemma RenderResources(s: Snapshot)
    ensures "Resources" in Keys(Render(s).items) <==> s.resources != []
    ensures s.resources != [] ==> Get(Render(s).items, "Resources") == Some(RenderEntities(s.resources))
  {
    RenderSection(s, 7);
  }

  /** The state of a fresh Template: every collection empty, no Globals,
      the default format version. */
  predicate IsFresh(s: Snapshot) {
    && s.conditions == [] && s.globals.None? && s.mappings == [] && s.metadata == []
    && s.outputs == [] && s.parameters == [] && s.resources == [] && s.rules == []
    && s.version == Some(DEFAULT_VERSION)
  }

  /** A fresh Template renders only its format version and, when set, its
      description and transform. */
  lemma RenderFreshSections(s: Snapshot)
    requires IsFresh(s)
    ensures var r := Render(s);
            forall i :: 0 <= i < |SECTIONS| ==>
              (SECTIONS[i] in Keys(r.items) <==> i == 10 || (i == 1 && s.description.Some?) || (i == 9 && s.transform.Some?))
  {
    FreshSectionValues(s);
    forall i | 0 <= i < |SECTIONS|
      ensures SECTIONS[i] in Keys(Render(s).items) <==> SectionValues(s)[i].Some?
    {
      RenderSectionKey(s, i);
    }
  }

  lemma FreshSectionValues(s: Snapshot)
    requires IsFresh(s)
    ensures forall i :: 0 <= i < |SECTIONS| ==>
              (SectionValues(s)[i].Some? <==> i == 10 || (i == 1 && s.description.Some?) || (i == 9 && s.transform.Some?))
  {
    var vs := SectionValues(s);
    assert vs == [None, Scalar(s.description), None, None, None, None, None, None, None, Scalar(s.transform), Some(Str(DEFAULT_VERSION))];
  }

  /** The format version of a fresh Template is the default one. */
  lemma RenderFreshVersion(s: Snapshot)
    requires IsFresh(s)
    ensures Get(Render(s).items, "AWSTemplateFormatVersion") == Some(Str(DEFAULT_VERSION))
  {
    RenderSection(s, 10);
  }

  /* ---------- Globals and Transform ---------- */

  /** `_validate_globals` on assignment: it sees the current Transform. */
  function GlobalsErrors(transform: Option<string>): (errs: seq<FieldError>)
    ensures errs == [] <==> transform == Some(SERVERLESS_TRANSFORM)
  {
    if transform != Some(SERVERLESS_TRANSFORM) then [GlobalsNeedServerless] else []
  }

  /** The empty `AWSHelperFn()` that `AWSHelperFn.validate` builds. */
  const EMPTY_HELPER: Value := Obj(Helper("AWSHelperFn"), Null)

  /** How pydantic reads a value assigned to `Optional[AWSHelperFnOrDict]`
      before `_validate_globals` runs (it runs on `None` too): `None` stays
      `None`; the `Dict` member of the union keeps a dict and reads
      `dict(v)` otherwise (the empty string and lists of pairs); a helper
      is kept; anything else falls to `AWSHelperFn.validate`, which returns
      an empty helper. So the stored value is falsy exactly when the value
      given is a falsy value `dict()` can read. */
  function GlobalsAssigned(v: Value): (r: Option<Value>)
    ensures r.None? <==> v.Null?
    ensures r.Some? ==> r.value.Dict? || (r.value.Obj? && r.value.origin.Helper?)
    ensures DictRead(v).Some? ==> r == Some(Dict(DictRead(v).value))
    ensures v.Dict? || (v.Obj? && v.origin.Helper?) ==> r == Some(v)
    ensures r.Some? ==> (Truthy(r.value) <==> Truthy(v) || DictRead(v).None?)
  {
    if v.Null? then None
    else if DictRead(v).Some? then Some(Dict(DictRead(v).value))
    else if v.Obj? && v.origin.Helper? then Some(v)
    else Some(EMPTY_HELPER)
  }

  /** Globals given as a value that `dict()` cannot read and that is not a
      helper (even a falsy one such as `0` or `False`) is stored as a truthy
      object, so from then on every non-serverless Transform is refused. */
  lemma FallbackGlobalsBlockTransform(v: Value, t: Option<string>)
    requires !v.Null? && DictRead(v).None? && !(v.Obj? && v.origin.Helper?)
    requires t != Some(SERVERLESS_TRANSFORM)
    ensures TransformErrors(GlobalsAssigned(v), t) == [TransformConflictsWithGlobals]
  {
  }

  /** Globals given as `""` or `[]` is read by `dict()` as the empty dict,
      which is falsy, so it leaves every Transform free, `None` included. */
  lemma EmptyGlobalsLeaveTransformFree(t: Option<string>)
    ensures GlobalsAssigned(Str("")) == Some(Dict([])) && TransformErrors(GlobalsAssigned(Str("")), t) == []
    ensures GlobalsAssigned(List([])) == Some(Dict([])) && TransformErrors(GlobalsAssigned(List([])), t) == []
  {
  }

  /** Globals given as a list of pairs is stored as the dict they spell,
      in order, the last pair for a key deciding its value. */
  lemma PairGlobals(k: string, x: Value, y: Value)
    ensures GlobalsAssigned(List([List([Str(k), x])])) == Some(Dict([(k, x)]))
    ensures GlobalsAssigned(List([List([Str(k), x]), List([Str(k), y])])) == Some(Dict([(k, y)]))
  {
    var one := [List([Str(k), x])];
    assert DictOfPairs(one, []) == DictOfPairs([], [(k, x)]);
    var two := [List([Str(k), x]), List([Str(k), y])];
    assert two[1..] == [List([Str(k), y])];
    assert DictOfPairs(two, []) == DictOfPairs([List([Str(k), y])], [(k, x)]);
    assert [(k, x)][1..] == [] && [List([Str(k), y])][1..] == [];
    assert Put([(k, x)], k, y) == [(k, y)];
    assert DictOfPairs([List([Str(k), y])], [(k, x)]) == DictOfPairs([], [(k, y)]);
  }

  /** `_validate_transform` on assignment: it sees the current Globals,
      and runs on `None` too. */
  function TransformErrors(globals: Option<Value>, t: Option<string>): (errs: seq<FieldError>)
    ensures errs == [] <==> !(globals.Some? && Truthy(globals.value)) || t == Some(SERVERLESS_TRANSFORM)
  {
    if globals.Some? && Truthy(globals.value) && t != Some(SERVERLESS_TRANSFORM) then [TransformConflictsWithGlobals] else []
  }

  /** At construction each validator sees only the fields declared before
      its own, and Transform comes after Globals: Globals given to the
      constructor is refused whatever Transform is given with it. */
  function InitErrors(globals: Option<Value>, transform: Option<string>): (errs: seq<FieldError>)
    ensures errs == [] <==> globals.None?
  {
    (if globals.Some? then GlobalsErrors(None) else [])
    + (if transform.Some? then TransformErrors(None, transform) else [])
  }

  /** Who the caller names: a Parameter or its title. */
  datatype ParamRef = ByName(name: string) | ByParameter(parameter: Entity)

  function ParamTitle(p: ParamRef): string {
    match p
    case ByName(n) => n
    case ByParameter(e) => e.title
  }

  /** `add_mapping`'s effect: the named mapping, created empty when absent,
      updated with the new keys. */
  function MappingUpdate(mappings: seq<(string, seq<(string, Value)>)>, name: string, mapping: seq<(string, Value)>): (r: seq<(string, seq<(string, Value)>)>)
    requires Distinct(Keys(mappings))
    ensures Distinct(Keys(r))
    ensures Keys(r) == if name in Keys(mappings) then Keys(mappings) else Keys(mappings) + [name]
    ensures forall other :: other != name ==> Get(r, other) == Get(mappings, other)
    ensures var old_ := if name in Keys(mappings) then Get(mappings, name).value else [];
            var new_ := Get(r, name).value;
            Keys(old_) <= Keys(new_) &&
            (Distinct(Keys(mapping)) ==> forall k :: k in Keys(mapping) ==> Get(new_, k) == Get(mapping, k)) &&
            (forall k :: k !in Keys(mapping) ==> Get(new_, k) == Get(old_, k))
  {
    var existing := if name in Keys(mappings) then Get(mappings, name).value else [];
    Put(mappings, name, Merge(existing, mapping))
  }

  /* ---------- The "AWS::CloudFormation::Interface" metadata ---------- */

  const INTERFACE: string := "AWS::CloudFormation::Interface"

  /** The interface dict's entries; none when it is missing or not a dict. */
  function InterfaceItems(metadata: seq<(string, Value)>): seq<(string, Value)> {
    var iface := Get(metadata, INTERFACE);
    if iface.Some? && iface.value.Dict? then iface.value.items else []
  }

  /** The stored parameter groups; none when missing or not a list. */
  function StoredGroups(metadata: seq<(string, Value)>): seq<Value> {
    var stored := Get(InterfaceItems(metadata), "ParameterGroups");
    if stored.Some? && stored.value.List? then stored.value.elems else []
  }

  /** The stored parameter labels; none when missing or not a dict. */
  function StoredLabels(metadata: seq<(string, Value)>): seq<(string, Value)> {
    var stored := Get(InterfaceItems(metadata), "ParameterLabels");
    if stored.Some? && stored.value.Dict? then stored.value.items else []
  }

  /** `group["Label"]["default"]`, or `None` where that lookup raises. */
  function GroupLabel(g: Value): Option<Value> {
    if g.Dict? then
      var heading := Get(g.items, "Label");
      if heading.Some? && heading.value.Dict? then Get(heading.value.items, "default") else None
    else None
  }

  /** The search loop of `add_parameter_to_group`: the first group from
      index `i` on labelled `name`, or `None` when no group is; a group the
      loop cannot read before that stops it with an error. */
  function FindGroup(groups: seq<Value>, name: string, i: nat): (r: Result<Option<nat>>)
    requires i <= |groups|
    ensures r.Ok? && r.value.Some? ==> i <= r.value.value < |groups| && GroupLabel(groups[r.value.value]) == Some(Str(name))
    ensures r.Ok? ==> forall j :: i <= j < (if r.value.Some? then r.value.value else |groups|) ==>
                        GroupLabel(groups[j]).Some? && GroupLabel(groups[j]) != Some(Str(name))
    ensures r.Fail? ==> r.error == MalformedInterface &&
                        exists j :: i <= j < |groups| && GroupLabel(groups[j]).None? &&
                                    forall k :: i <= k < j ==> GroupLabel(groups[k]) != Some(Str(name))
    decreases |groups| - i
  {
    if i == |groups| then Ok(None)
    else
      var heading := GroupLabel(groups[i]);
      if heading.None? then Fail(MalformedInterface)
      else if heading.value == Str(name) then Ok(Some(i))
      else FindGroup(groups, name, i + 1)
  }

  /** The group `add_parameter_to_group` creates for a new name. */
  function NewGroup(name: string, title: string): Value {
    Dict([("Label", Dict([("default", Str(name))])), ("Parameters", List([Str(title)]))])
  }

  /** `existing_group["Parameters"].append(title)`. */
  function AppendToGroup(g: Value, title: string): (r: Result<Value>)
    ensures r.Ok? <==> g.Dict? && Get(g.items, "Parameters").Some? && Get(g.items, "Parameters").value.List?
    ensures r.Ok? ==> r.value.Dict? && Keys(r.value.items) == Keys(g.items) &&
                      Get(r.value.items, "Parameters") == Some(List(Get(g.items, "Parameters").value.elems + [Str(title)])) &&
                      forall k :: k != "Parameters" ==> Get(r.value.items, k) == Get(g.items, k)
    ensures r.Fail? ==> r.error == MalformedInterface
  {
    if g.Dict? && Get(g.items, "Parameters").Some? && Get(g.items, "Parameters").value.List? then
      Ok(Dict(Put(g.items, "Parameters", List(Get(g.items, "Parameters").value.elems + [Str(title)]))))
    else Fail(MalformedInterface)
  }

  /** The groups after `add_parameter_to_group`: the parameter joins the
      first group labelled `name`, or one new group appended at the end;
      no other group changes. */
  function UpdatedGroups(groups: seq<Value>, title: string, name: string): (r: Result<seq<Value>>)
    ensures var found := FindGroup(groups, name, 0);
            r.Ok? <==> found.Ok? && (found.value.Some? ==> AppendToGroup(groups[found.value.value], title).Ok?)
    ensures var found := FindGroup(groups, name, 0);
            r.Ok? && found.value.None? ==> r.value == groups + [NewGroup(name, title)]
    ensures var found := FindGroup(groups, name, 0);
            r.Ok? && found.value.Some? ==>
              var idx := found.value.value;
              |r.value| == |groups| && r.value[idx] == AppendToGroup(groups[idx], title).value &&
              forall j :: 0 <= j < |groups| && j != idx ==> r.value[j] == groups[j]
    ensures r.Fail? ==> r.error == MalformedInterface
  {
    var found := FindGroup(groups, name, 0);
    if found.Fail? then Fail(found.error)
    else if found.value.None? then Ok(groups + [NewGroup(name, title)])
    else
      var updated := AppendToGroup(groups[found.value.value], title);
      if updated.Fail? then Fail(updated.error)
      else Ok(groups[found.value.value := updated.value])
  }

  /** `add_parameter_to_group` on the metadata dict: the new metadata
      (including what the two `setdefault` calls stored before a failure)
      and the outcome. */
  function AddToGroup(metadata: seq<(string, Value)>, title: string, name: string): (r: (seq<(string, Value)>, Result<string>))
    ensures r.1.Ok? ==> r.1.value == name
    ensures r.1.Fail? ==> r.1.error == MalformedInterface
    ensures forall k :: k != INTERFACE ==> Get(r.0, k) == Get(metadata, k)
    ensures Distinct(Keys(metadata)) ==> Distinct(Keys(r.0))
  {
    var iface := Get(metadata, INTERFACE);
    if iface.Some? && !iface.value.Dict? then (metadata, Fail(MalformedInterface))
    else
      var items := if iface.Some? then iface.value.items else [];
      var stored := Get(items, "ParameterGroups");
      if stored.Some? && !stored.value.List? then (Put(metadata, INTERFACE, Dict(items)), Fail(MalformedInterface))
      else
        var groups := if stored.Some? then stored.value.elems else [];
        var updated := UpdatedGroups(groups, title, name);
        if updated.Fail? then (Put(metadata, INTERFACE, Dict(Put(items, "ParameterGroups", List(groups)))), Fail(updated.error))
        else (Put(metadata, INTERFACE, Dict(Put(items, "ParameterGroups", List(updated.value)))), Ok(name))
  }

  /** On success the stored groups are the updated ones, and nothing else
      in the interface dict changes. */
  lemma AddToGroupEffect(metadata: seq<(string, Value)>, title: string, name: string)
    requires AddToGroup(metadata, title, name).1.Ok?
    ensures var m' := AddToGroup(metadata, title, name).0;
            var updated := UpdatedGroups(StoredGroups(metadata), title, name);
            updated.Ok? && StoredGroups(m') == updated.value
    ensures var m' := AddToGroup(metadata, title, name).0;
            forall k :: k != "ParameterGroups" ==> Get(InterfaceItems(m'), k) == Get(InterfaceItems(metadata), k)
  {
    var iface := Get(metadata, INTERFACE);
    var items := if iface.Some? then iface.value.items else [];
    assert InterfaceItems(metadata) == items;
    var stored := Get(items, "ParameterGroups");
    var groups := if stored.Some? then stored.value.elems else [];
    assert StoredGroups(metadata) == groups;
    var items' := Put(items, "ParameterGroups", List(UpdatedGroups(groups, title, name).value));
    var m' := Put(metadata, INTERFACE, Dict(items'));
    assert AddToGroup(metadata, title, name).0 == m';
    assert InterfaceItems(m') == items';
  }

  /** The call succeeds exactly when the interface entry is missing or a
      dict, its groups entry is missing or a list, and the groups up to the
      first one labelled `name` all carry a readable `Label.default` (and
      that group, when there is one, has a list of Parameters). */
  lemma AddToGroupSucceedsIff(metadata: seq<(string, Value)>, title: string, name: string)
    ensures var iface := Get(metadata, INTERFACE);
            var stored := Get(InterfaceItems(metadata), "ParameterGroups");
            AddToGroup(metadata, title, name).1.Ok? <==>
              (iface.None? || iface.value.Dict?) && (stored.None? || stored.value.List?) &&
              UpdatedGroups(StoredGroups(metadata), title, name).Ok?
  {
    var iface := Get(metadata, INTERFACE);
    if iface.None? || iface.value.Dict? {
      var items := if iface.Some? then iface.value.items else [];
      assert InterfaceItems(metadata) == items;
      var stored := Get(items, "ParameterGroups");
      if stored.None? || stored.value.List? {
        var groups := if stored.Some? then stored.value.elems else [];
        assert StoredGroups(metadata) == groups;
      }
    }
  }

  /** `set_parameter_label` on the metadata dict. */
  function SetLabel(metadata: seq<(string, Value)>, title: string, text: string): (r: (seq<(string, Value)>, Result<()>))
    ensures r.1.Fail? ==> r.1.error == MalformedInterface
    ensures forall k :: k != INTERFACE ==> Get(r.0, k) == Get(metadata, k)
    ensures Distinct(Keys(metadata)) ==> Distinct(Keys(r.0))
  {
    var iface := Get(metadata, INTERFACE);
    if iface.Some? && !iface.value.Dict? then (metadata, Fail(MalformedInterface))
    else
      var items := if iface.Some? then iface.value.items else [];
      var stored := Get(items, "ParameterLabels");
      if stored.Some? && !stored.value.Dict? then (Put(metadata, INTERFACE, Dict(items)), Fail(MalformedInterface))
      else
        var labels := if stored.Some? then stored.value.items else [];
        (Put(metadata, INTERFACE, Dict(Put(items, "ParameterLabels", Dict(Put(labels, title, Dict([("default", Str(text))])))))), Ok(()))
  }

  /** On success the parameter's label is `{"default": label}`, replacing
      any earlier one in place; no other label changes, and nothing else in
      the interface dict does. A failure happens exactly when the interface
      entry or its labels entry is there but not a dict. */
  lemma SetLabelEffect(metadata: seq<(string, Value)>, title: string, text: string)
    ensures var r := SetLabel(metadata, title, text);
            var iface := Get(metadata, INTERFACE);
            var stored := Get(InterfaceItems(metadata), "ParameterLabels");
            (r.1.Fail? <==> (iface.Some? && !iface.value.Dict?) || (stored.Some? && !stored.value.Dict?))
    ensures var r := SetLabel(metadata, title, text);
            r.1.Ok? ==>
              Get(StoredLabels(r.0), title) == Some(Dict([("default", Str(text))])) &&
              (forall p :: p != title ==> Get(StoredLabels(r.0), p) == Get(StoredLabels(metadata), p)) &&
              (title in Keys(StoredLabels(metadata)) ==> Keys(StoredLabels(r.0)) == Keys(StoredLabels(metadata))) &&
              (forall k :: k != "ParameterLabels" ==> Get(InterfaceItems(r.0), k) == Get(InterfaceItems(metadata), k))
  {
  }

  /** What `add_to_template` does to the collection `before` (becoming
      `after`) that entity `e` belongs in: at the cap the call fails and
      nothing changes; otherwise a title already present is a duplicate and
      the collection is left as it was, and a fresh one is stored last. */
  predicate RegisteredIn(s: Snapshot, s': Snapshot, before: seq<(string, Entity)>, after: seq<(string, Entity)>,
                         section: string, cap: nat, e: Entity, r: Result<seq<Entity>>)
  {
    if |before| >= cap then r == Fail(LimitReached(section, cap)) && s' == s
    else if e.title in Keys(before) then r == Fail(DuplicateKey(e.title)) && after == before
    else r == Ok([e]) && after == before + [(e.title, e)]
  }

  /** The scan of `add_parameter_to_group` over the stored groups: the
      index of the first group labelled `name`, `None` when there is none,
      failing on a group without a label. */
  method SearchGroups(groups: seq<Value>, name: string) returns (r: Result<Option<nat>>)
    ensures r == FindGroup(groups, name, 0)
  {
    var i := 0;
    while i < |groups|
      invariant 0 <= i <= |groups|
      invariant FindGroup(groups, name, i) == FindGroup(groups, name, 0)
    {
      var heading := GroupLabel(groups[i]);
      if heading.None? {
        return Fail(MalformedInterface);
      }
      if heading.value == Str(name) {
        return Ok(Some(i));
      }
      i := i + 1;
    }
    return Ok(None);
  }

  class Template {
    var conditions: seq<(string, Value)>
    var description: Option<string>
    var globals: Option<Value>
    var mappings: seq<(string, seq<(string, Value)>)>
    var metadata: seq<(string, Value)>
    var outputs: seq<(string, Entity)>
    var parameters: seq<(string, Entity)>
    var resources: seq<(string, Entity)>
    var rules: seq<(string, seq<(string, Value)>)>
    var transform: Option<string>
    var version: Option<string>

    function State(): Snapshot
      reads this
    {
      Snapshot(conditions, description, globals, mappings, metadata, outputs, parameters, resources, rules, transform, version)
    }

    predicate Valid()
      reads this
    {
      Consistent(State())
    }

    /** `Template(...)` with every field but Globals, which the constructor
        always refuses (see `InitErrors`). An omitted dict is the empty one,
        an omitted Description or Transform is `None`, and an omitted
        version is `Some(DEFAULT_VERSION)`. The collections are stored as
        given: their keys need not be the entities' titles. */
    constructor (conditions: seq<(string, Value)>, description: Option<string>,
                 mappings: seq<(string, seq<(string, Value)>)>, metadata: seq<(string, Value)>,
                 outputs: seq<(string, Entity)>, parameters: seq<(string, Entity)>,
                 resources: seq<(string, Entity)>, rules: seq<(string, seq<(string, Value)>)>,
                 transform: Option<string>, version: Option<string>)
      requires Distinct(Keys(conditions)) && Distinct(Keys(mappings)) && Distinct(Keys(metadata))
      requires Distinct(Keys(outputs)) && Distinct(Keys(parameters)) && Distinct(Keys(resources))
      requires Distinct(Keys(rules))
      ensures Valid()
      ensures State() == Snapshot(conditions, description, None, mappings, metadata, outputs,
                                  parameters, resources, rules, transform, version)
    {
      this.conditions := conditions;
      this.description := description;
      this.globals := None;
      this.mappings := mappings;
      this.metadata := metadata;
      this.outputs := outputs;
      this.parameters := parameters;
      this.resources := resources;
      this.rules := rules;
      this.transform := transform;
      this.version := version;
    }

    /** `add_parameter`: refused outright at the cap, otherwise `_update`. A
        single Parameter is the one-item list. */
    method AddParameter(items: seq<Entity>) returns (r: Result<seq<Entity>>)
      requires Valid()
      modifies this
      ensures Valid()
      ensures old(KeyedByTitles(State())) ==> KeyedByTitles(State())
      ensures |old(parameters)| >= MAX_PARAMETERS ==>
                r == Fail(LimitReached("parameters", MAX_PARAMETERS)) && State() == old(State())
      ensures |old(parameters)| < MAX_PARAMETERS ==>
                var ins := InsertAll(old(parameters), items);
                State() == old(State()).(parameters := ins.0) &&
                r == (if ins.1.None? then Ok(items) else Fail(DuplicateKey(ins.1.value)))
    {
      if |parameters| >= MAX_PARAMETERS {
        return Fail(LimitReached("parameters", MAX_PARAMETERS));
      }
      InsertAllOutcome(parameters, items);
      if KeyedByTitle(parameters) {
        InsertAllKeyed(parameters, items);
      }
      var d, dup := Insert(parameters, items);
      parameters := d;
      r := if dup.None? then Ok(items) else Fail(DuplicateKey(dup.value));
    }

    /** `add_output`: the same, with its own cap. */
    method AddOutput(items: seq<Entity>) returns (r: Result<seq<Entity>>)
      requires Valid()
      modifies this
      ensures Valid()
      ensures old(KeyedByTitles(State())) ==> KeyedByTitles(State())
      ensures |old(outputs)| >= MAX_OUTPUTS ==>
                r == Fail(LimitReached("outputs", MAX_OUTPUTS)) && State() == old(State())
      ensures |old(outputs)| < MAX_OUTPUTS ==>
                var ins := InsertAll(old(outputs), items);
                State() == old(State()).(outputs := ins.0) &&
                r == (if ins.1.None? then Ok(items) else Fail(DuplicateKey(ins.1.value)))
    {
      if |outputs| >= MAX_OUTPUTS {
        return Fail(LimitReached("outputs", MAX_OUTPUTS));
      }
      InsertAllOutcome(outputs, items);
      if KeyedByTitle(outputs) {
        InsertAllKeyed(outputs, items);
      }
      var d, dup := Insert(outputs, items);
      outputs := d;
      r := if dup.None? then Ok(items) else Fail(DuplicateKey(dup.value));
    }

    /** `add_resource`: the same, with its own cap. */
    method AddResource(items: seq<Entity>) returns (r: Result<seq<Entity>>)
      requires Valid()
      modifies this
      ensures Valid()
      ensures old(KeyedByTitles(State())) ==> KeyedByTitles(State())
      ensures |old(resources)| >= MAX_RESOURCES ==>
                r == Fail(LimitReached("resources", MAX_RESOURCES)) && State() == old(State())
      ensures |old(resources)| < MAX_RESOURCES ==>
                var ins := InsertAll(old(resources), items);
                State() == old(State()).(resources := ins.0) &&
                r == (if ins.1.None? then Ok(items) else Fail(DuplicateKey(ins.1.value)))
    {
      if |resources| >= MAX_RESOURCES {
        return Fail(LimitReached("resources", MAX_RESOURCES));
      }
      InsertAllOutcome(resources, items);
      if KeyedByTitle(resources) {
        InsertAllKeyed(resources, items);
      }
      var d, dup := Insert(resources, items);
      resources := d;
      r := if dup.None? then Ok(items) else Fail(DuplicateKey(dup.value));
    }

    /** `add_to_template`, run by every constructor given `template=`:
        Parameters and Outputs go to their own sections, every other entity
        (attributes and properties included) to Resources. */
    method Register(e: Entity) returns (r: Result<seq<Entity>>)
      requires Valid()
      modifies this
      ensures Valid()
      ensures old(KeyedByTitles(State())) ==> KeyedByTitles(State())
      ensures e.kind == ParameterKind ==> RegisteredIn(old(State()), State(), old(parameters), parameters, "parameters", MAX_PARAMETERS, e, r)
      ensures e.kind == ParameterKind ==> State() == old(State()).(parameters := parameters)
      ensures e.kind == OutputKind ==> RegisteredIn(old(State()), State(), old(outputs), outputs, "outputs", MAX_OUTPUTS, e, r)
      ensures e.kind == OutputKind ==> State() == old(State()).(outputs := outputs)
      ensures e.kind != ParameterKind && e.kind != OutputKind ==>
                RegisteredIn(old(State()), State(), old(resources), resources, "resources", MAX_RESOURCES, e, r)
      ensures e.kind != ParameterKind && e.kind != OutputKind ==> State() == old(State()).(resources := resources)
    {
      assert [e][1..] == [];
      match e.kind
      case ParameterKind => r := AddParameter([e]);
      case OutputKind => r := AddOutput([e]);
      case _ => r := AddResource([e]);
    }

    /** `get_or_add_parameter`: the stored Parameter when its title is
        present, whatever its fields; otherwise `add_parameter`. */
    method GetOrAddParameter(p: Entity) returns (r: Result<Entity>)
      requires Valid()
      modifies this
      ensures Valid()
      ensures old(KeyedByTitles(State())) ==> KeyedByTitles(State())
      ensures p.title in Keys(old(parameters)) ==>
                State() == old(State()) && r == Ok(Get(parameters, p.title).value)
      ensures p.title !in Keys(old(parameters)) && |old(parameters)| >= MAX_PARAMETERS ==>
                State() == old(State()) && r == Fail(LimitReached("parameters", MAX_PARAMETERS))
      ensures p.title !in Keys(old(parameters)) && |old(parameters)| < MAX_PARAMETERS ==>
                State() == old(State()).(parameters := old(parameters) + [(p.title, p)]) && r == Ok(p)
    {
      if p.title in Keys(parameters) {
        return Ok(Get(parameters, p.title).value);
      }
      var added := AddParameter([p]);
      assert [p][1..] == [];
      r := if added.Ok? then Ok(p) else Fail(added.error);
    }

    /** `add_condition`: stored under its name, replacing any previous
        condition of that name; the name is returned. */
    method AddCondition(name: string, condition: Value) returns (r: string)
      requires Valid()
      modifies this
      ensures Valid()
      ensures State() == old(State()).(conditions := Put(old(conditions), name, condition))
      ensures r == name
    {
      conditions := Put(conditions, name, condition);
      r := name;
    }

    /** `add_mapping`: refused at the cap even when the name exists;
        otherwise merged into the named mapping. */
    method AddMapping(name: string, mapping: seq<(string, Value)>) returns (r: Result<()>)
      requires Valid()
      modifies this
      ensures Valid()
      ensures |old(mappings)| >= MAX_MAPPINGS ==>
                r == Fail(LimitReached("mappings", MAX_MAPPINGS)) && State() == old(State())
      ensures |old(mappings)| < MAX_MAPPINGS ==>
                r == Ok(()) && State() == old(State()).(mappings := MappingUpdate(old(mappings), name, mapping))
    {
      if |mappings| >= MAX_MAPPINGS {
        return Fail(LimitReached("mappings", MAX_MAPPINGS));
      }
      mappings := MappingUpdate(mappings, name, mapping);
      r := Ok(());
    }

    /** `add_rule`: a name already present is refused; there is no cap. */
    method AddRule(name: string, rule: seq<(string, Value)>) returns (r: Result<()>)
      requires Valid()
      modifies this
      ensures Valid()
      ensures name in Keys(old(rules)) ==> r == Fail(DuplicateKey(name)) && State() == old(State())
      ensures name !in Keys(old(rules)) ==> r == Ok(()) && State() == old(State()).(rules := old(rules) + [(name, rule)])
    {
      if name in Keys(rules) {
        return Fail(DuplicateKey(name));
      }
      KeysAppend(rules, [(name, rule)]);
      assert Keys([(name, rule)]) == [name];
      DistinctAppend(Keys(rules), [name]);
      rules := rules + [(name, rule)];
      r := Ok(());
    }

    /** `add_parameter_to_group` in place: the steps of `AddToGroup`, with
        the scan over the groups done by the loop in `SearchGroups`; the
        first ensures ties the two together. */
    method AddParameterToGroup(parameter: ParamRef, groupName: string) returns (r: Result<string>)
      requires Valid()
      modifies this
      ensures Valid()
      ensures (metadata, r) == AddToGroup(old(metadata), ParamTitle(parameter), groupName)
      ensures State() == old(State()).(metadata := metadata)
    {
      var title := ParamTitle(parameter);
      var iface := Get(metadata, INTERFACE);
      if iface.Some? && !iface.value.Dict? {
        return Fail(MalformedInterface);
      }
      var items := if iface.Some? then iface.value.items else [];
      var stored := Get(items, "ParameterGroups");
      if stored.Some? && !stored.value.List? {
        metadata := Put(metadata, INTERFACE, Dict(items));
        return Fail(MalformedInterface);
      }
      var groups := if stored.Some? then stored.value.elems else [];
      var search := SearchGroups(groups, groupName);
      if search.Fail? {
        metadata := Put(metadata, INTERFACE, Dict(Put(items, "ParameterGroups", List(groups))));
        return Fail(MalformedInterface);
      }
      var found := search.value;
      if found.None? {
        groups := groups + [NewGroup(groupName, title)];
      } else {
        var updated := AppendToGroup(groups[found.value], title);
        if updated.Fail? {
          metadata := Put(metadata, INTERFACE, Dict(Put(items, "ParameterGroups", List(groups))));
          return Fail(MalformedInterface);
        }
        groups := groups[found.value := updated.value];
      }
      metadata := Put(metadata, INTERFACE, Dict(Put(items, "ParameterGroups", List(groups))));
      r := Ok(groupName);
    }

    /** `set_parameter_label`. */
    method SetParameterLabel(parameter: ParamRef, text: string) returns (r: Result<()>)
      requires Valid()
      modifies this
      ensures Valid()
      ensures (metadata, r) == SetLabel(old(metadata), ParamTitle(parameter), text)
      ensures State() == old(State()).(metadata := metadata)
    {
      var outcome := SetLabel(metadata, ParamTitle(parameter), text);
      metadata := outcome.0;
      r := outcome.1;
    }

    /** `set_globals`: any value, `None` included, is accepted only on a
        serverless template, and is stored as `GlobalsAssigned` reads it. */
    method SetGlobals(value: Value) returns (r: Result<()>)
      requires Valid()
      modifies this
      ensures Valid()
      ensures r.Ok? <==> GlobalsErrors(old(transform)) == []
      ensures r.Ok? ==> State() == old(State()).(globals := GlobalsAssigned(value))
      ensures r.Fail? ==> r.error == ValidationError(GlobalsErrors(old(transform))) && State() == old(State())
    {
      var errs := GlobalsErrors(transform);
      if errs != [] {
        return Fail(ValidationError(errs));
      }
      globals := GlobalsAssigned(value);
      r := Ok(());
    }

    /** `set_transform`: any other transform, `None` included, is refused
        while Globals is truthy. */
    method SetTransform(t: Option<string>) returns (r: Result<()>)
      requires Valid()
      modifies this
      ensures Valid()
      ensures r.Ok? <==> TransformErrors(old(globals), t) == []
      ensures r.Ok? ==> State() == old(State()).(transform := t)
      ensures r.Fail? ==> r.error == ValidationError(TransformErrors(old(globals), t)) && State() == old(State())
    {
      var errs := TransformErrors(globals, t);
      if errs != [] {
        return Fail(ValidationError(errs));
      }
      transform := t;
      r := Ok(());
    }

    /** `set_version`: a missing or empty version falls back to the
        default. */
    method SetVersion(v: Option<string>)
      requires Valid()
      modifies this
      ensures Valid()
      ensures State() == old(State()).(version := Some(if v.Some? && v.value != "" then v.value else DEFAULT_VERSION))
    {
      if v.Some? && v.value != "" {
        version := v;
      } else {
        version := Some(DEFAULT_VERSION);
      }
    }

    /** `set_description`: no validator; `None` clears it. */
    method SetDescription(d: Option<string>)
      requires Valid()
      modifies this
      ensures Valid()
      ensures State() == old(State()).(description := d)
    {
      description := d;
    }

    /** `set_metadata`: the whole metadata dict is replaced. */
    method SetMetadata(m: seq<(string, Value)>)
      requires Valid() && Distinct(Keys(m))
      modifies this
      ensures Valid()
      ensures State() == old(State()).(metadata := m)
    {
      metadata := m;
    }
  }
}
