/** The AWS::CloudFormation resources (troposphere/cloudformation.py):
    WaitCondition with its CreationPolicy rule, and WaitConditionHandle. */
module CloudFormation {
  import opened Wrappers
  import opened OrderedDict
  import opened Values
  import opened Encode
  import opened Entities
  import Helpers

  const WAIT_CONDITION_TYPE: string := "AWS::CloudFormation::WaitCondition"
  const WAIT_CONDITION_HANDLE_TYPE: string := "AWS::CloudFormation::WaitConditionHandle"
  const TIMEOUT_MAX: int := 43200

  /** The keyword arguments of `WaitCondition(...)`; `None` is an omitted
      field. CreationPolicy is kept as an opaque value. */
  datatype WaitConditionSpec = WaitConditionSpec(
    title: string,
    count: Option<int>,
    handle: Option<Value>,
    timeout: Option<int>,
    creationPolicy: Option<Value>)

  /** `values.get(k)` followed by a truth test. */
  predicate Given(v: Option<Value>) {
    v.Some? && Truthy(v.value)
  }

  predicate TimeoutGiven(t: Option<int>) {
    t.Some? && t.value != 0
  }

  /** The rule the root validator enforces, stated on its own: with a
      CreationPolicy neither Handle nor Timeout may be given; without one
      both must be. */
  predicate CreationPolicyRule(w: WaitConditionSpec) {
    if Given(w.creationPolicy) then !Given(w.handle) && !TimeoutGiven(w.timeout)
    else Given(w.handle) && TimeoutGiven(w.timeout)
  }

  /** `_validate_fields`, the `pre=True` root validator: it checks Handle
      before Timeout, stops at the first violation and otherwise returns the
      raw values unchanged. */
  function ValidateFields(w: WaitConditionSpec): (r: Result<WaitConditionSpec>)
    ensures r.Ok? <==> CreationPolicyRule(w)
    ensures r.Ok? ==> r.value == w
    ensures r.Fail? ==> r.error.ValidationError? && |r.error.errors| == 1
  {
    if Given(w.creationPolicy) then
      if Given(w.handle) then Fail(ValidationError([ForbiddenWithCreationPolicy("Handle")]))
      else if TimeoutGiven(w.timeout) then Fail(ValidationError([ForbiddenWithCreationPolicy("Timeout")]))
      else Ok(w)
    else
      if !Given(w.handle) then Fail(ValidationError([RequiredWithoutCreationPolicy("Handle")]))
      else if !TimeoutGiven(w.timeout) then Fail(ValidationError([RequiredWithoutCreationPolicy("Timeout")]))
      else Ok(w)
  }

  /** Handle is checked before Timeout, whichever way the rule is broken. */
  lemma HandleReportedFirst(w: WaitConditionSpec)
    ensures Given(w.creationPolicy) && Given(w.handle) ==>
              ValidateFields(w) == Fail(ValidationError([ForbiddenWithCreationPolicy("Handle")]))
    ensures !Given(w.creationPolicy) && !Given(w.handle) ==>
              ValidateFields(w) == Fail(ValidationError([RequiredWithoutCreationPolicy("Handle")]))
    ensures Given(w.creationPolicy) && !Given(w.handle) && TimeoutGiven(w.timeout) ==>
              ValidateFields(w) == Fail(ValidationError([ForbiddenWithCreationPolicy("Timeout")]))
    ensures !Given(w.creationPolicy) && Given(w.handle) && !TimeoutGiven(w.timeout) ==>
              ValidateFields(w) == Fail(ValidationError([RequiredWithoutCreationPolicy("Timeout")]))
  {
  }

  /** A zero Timeout counts as missing: without a CreationPolicy it is
      rejected exactly as an omitted one is. */
  lemma ZeroTimeoutIsMissing(w: WaitConditionSpec)
    requires !Given(w.creationPolicy) && Given(w.handle)
    ensures ValidateFields(w.(timeout := Some(0))) == ValidateFields(w.(timeout := None))
    ensures ValidateFields(w.(timeout := None)).Fail?
  {
  }

  /** `Handle: Optional[AWSHelperFnOrDict]`: a dict or a helper. */
  predicate HandleAccepted(h: Value) {
    h.Dict? || (h.Obj? && h.origin.Helper?)
  }

  /** The field errors pydantic reports once the root validator has
      passed, in field order: title, Handle, Timeout. */
  function WaitConditionFieldErrors(w: WaitConditionSpec): (errs: seq<FieldError>)
    ensures errs == [] <==>
              IsTitle(w.title) &&
              (w.handle.Some? ==> HandleAccepted(w.handle.value)) &&
              (w.timeout.Some? ==> w.timeout.value <= TIMEOUT_MAX)
    ensures |errs| <= 3
  {
    TitleErrors(w.title, None)
    + (if w.handle.Some? && !HandleAccepted(w.handle.value) then [HandleRejected] else [])
    + (if w.timeout.Some? && w.timeout.value > TIMEOUT_MAX then [TooLarge("Timeout", TIMEOUT_MAX)] else [])
  }

  const WAIT_CONDITION_FIELDS: seq<string> := ["Count", "Handle", "Timeout", "CreationPolicy"]

  /** Constructing a WaitCondition (before registration): the root
      validator's single error, or every field error, or the resource. */
  function ValidateWaitCondition(w: WaitConditionSpec): (r: Result<Entity>)
    ensures r.Ok? <==>
              CreationPolicyRule(w) && IsTitle(w.title) &&
              (w.handle.Some? ==> HandleAccepted(w.handle.value)) &&
              (w.timeout.Some? ==> w.timeout.value <= TIMEOUT_MAX)
    ensures !CreationPolicyRule(w) ==> r == Fail(ValidateFields(w).error)
    ensures CreationPolicyRule(w) && r.Fail? ==> r.error == ValidationError(WaitConditionFieldErrors(w))
    ensures r.Ok? ==> r.value.title == w.title && r.value.kind == ResourceKind(WAIT_CONDITION_TYPE) && WellFormed(r.value)
    ensures r.Ok? ==> r.value.fields == Zip(WAIT_CONDITION_FIELDS, [OptInt(w.count), w.handle, OptInt(w.timeout), w.creationPolicy])
  {
    var root := ValidateFields(w);
    if root.Fail? then Fail(root.error)
    else
      var errs := WaitConditionFieldErrors(root.value);
      if errs != [] then Fail(ValidationError(errs))
      else
        DistinctByIndex(WAIT_CONDITION_FIELDS);
        Ok(Entity(w.title, ResourceKind(WAIT_CONDITION_TYPE),
                  Zip(WAIT_CONDITION_FIELDS, [OptInt(w.count), root.value.handle, OptInt(root.value.timeout), root.value.creationPolicy])))
  }

  /** A WaitCondition renders with its resource type beside "Properties",
      and a CreationPolicy sits beside "Properties", never inside it, while
      Handle stays inside. */
  lemma WaitConditionRenders(w: WaitConditionSpec)
    requires ValidateWaitCondition(w).Ok?
    ensures var r := ToDict(ValidateWaitCondition(w).value);
            r.Dict? && r.items[0].0 == "Properties" && r.items[|r.items| - 1] == ("Type", Str(WAIT_CONDITION_TYPE)) &&
            "CreationPolicy" !in Keys(r.items[0].1.items) &&
            Get(r.items[1..|r.items| - 1], "CreationPolicy") == w.creationPolicy &&
            Get(r.items[0].1.items, "Handle") == w.handle
  {
    var e := ValidateWaitCondition(w).value;
    GetDistinct(e.fields, 1);
    GetDistinct(e.fields, 3);
    assert "CreationPolicy" in ATTRIBUTES;
    assert "Handle" !in ATTRIBUTES;
    ResourceShape(e, "CreationPolicy");
    ResourceShape(e, "Handle");
  }

  /** `WaitConditionHandle(title=...)`: no properties of its own. */
  function WaitConditionHandle(title: string): (r: Result<Entity>)
    ensures r.Ok? <==> IsTitle(title)
    ensures r.Fail? ==> r.error == ValidationError([TitleMismatch])
    ensures r.Ok? ==> r.value.title == title && r.value.kind == ResourceKind(WAIT_CONDITION_HANDLE_TYPE) && WellFormed(r.value)
  {
    var errs := TitleErrors(title, None);
    if errs != [] then Fail(ValidationError(errs))
    else Ok(Entity(title, ResourceKind(WAIT_CONDITION_HANDLE_TYPE), []))
  }

  /** It renders as an empty "Properties" dict and its resource type. */
  lemma WaitConditionHandleRenders(title: string)
    requires IsTitle(title)
    ensures ToDict(WaitConditionHandle(title).value) ==
              Dict([("Properties", Dict([])), ("Type", Str(WAIT_CONDITION_HANDLE_TYPE))])
  {
    var body := Present(WaitConditionHandle(title).value.fields);
    assert body == [];
    assert Lifted(body, ATTRIBUTES) == [] by {
      assert forall k :: k !in Keys(Lifted(body, ATTRIBUTES));
    }
  }

  /** The usage example's WaitCondition: a Ref to the handle and a Timeout
      of 30 without a CreationPolicy validate. */
  lemma ExampleWaitCondition(handle: Entity)
    requires handle.kind.ResourceKind?
    ensures ValidateWaitCondition(WaitConditionSpec("WaitCondition", None, Some(Entities.Ref(handle)), Some(30), None)).Ok?
  {
    var t := "WaitCondition";
    assert IsTitle(t) by {
      forall i | 0 <= i < |t| ensures IsAlnum(t[i]) {}
    }
  }
}
