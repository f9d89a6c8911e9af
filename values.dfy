/** The values a template document is built from: Python scalars, lists
    and tuples, dicts, and objects that know how to render themselves. */
module Values {
  import opened OrderedDict
  import opened Wrappers

  /** What kind of object an `Obj` is. */
  datatype Origin =
    | Helper(cls: string)     // an AWSHelperFn subclass such as Ref or GetAtt
    | Model(title: string)    // a BaseAWSObject (entity) with its title
    | Foreign                 // an external object that only has JSONrepr()

  /** A Python value as the object model sees it. `Obj` is an object with a
      `to_dict` (or `JSONrepr`) method; `payload` is the dict it renders from:
      a helper's `data`, an entity's `dict()` output, a foreign object's
      `JSONrepr()` result. Floats are kept as exact reals; nothing here
      computes with them. */
  datatype Value =
    | Null
    | Bool(b: bool)
    | Int(i: int)
    | Float(r: real)
    | Str(s: string)
    | List(elems: seq<Value>)
    | Dict(items: seq<(string, Value)>)
    | Obj(origin: Origin, payload: Value)

  /** An optional keyword argument as the field stores it. */
  function OptStr(s: Option<string>): Option<Value> {
    if s.Some? then Some(Str(s.value)) else None
  }

  function OptInt(n: Option<int>): Option<Value> {
    if n.Some? then Some(Int(n.value)) else None
  }

  function OptBool(b: Option<bool>): Option<Value> {
    if b.Some? then Some(Bool(b.value)) else None
  }

  /** Python truthiness. Objects define neither __bool__ nor __len__, so they
      are always true. */
  predicate Truthy(v: Value) {
    match v
    case Null => false
    case Bool(b) => b
    case Int(i) => i != 0
    case Float(r) => r != 0.0
    case Str(s) => s != ""
    case List(es) => es != []
    case Dict(kvs) => kvs != []
    case Obj(_, _) => true
  }

  /** One element of `dict(es)` read as a key and a value: a two-element
      list or tuple whose first element is a string, or a two-character
      string (its characters). */
  function PairOf(e: Value): Option<(string, Value)> {
    if e.List? && |e.elems| == 2 && e.elems[0].Str? then Some((e.elems[0].s, e.elems[1]))
    else if e.Str? && |e.s| == 2 then Some(([e.s[0]], Str([e.s[1]])))
    else None
  }

  /** `dict(es)` on a list of pairs, continuing from the entries `acc`: a
      later pair for a key replaces its value where the key already is.
      `None` when some element is not a pair, where Python raises. */
  function DictOfPairs(es: seq<Value>, acc: seq<(string, Value)>): (r: Option<seq<(string, Value)>>)
    ensures r.Some? <==> forall i :: 0 <= i < |es| ==> PairOf(es[i]).Some?
    ensures r.Some? ==> forall k :: k in Keys(acc) ==> k in Keys(r.value)
    ensures r.Some? ==> (r.value == [] <==> acc == [] && es == [])
    ensures r.Some? && Distinct(Keys(acc)) ==> Distinct(Keys(r.value))
    decreases |es|
  {
    if es == [] then Some(acc)
    else if PairOf(es[0]).None? then None
    else
      var r := DictOfPairs(es[1..], Put(acc, PairOf(es[0]).value.0, PairOf(es[0]).value.1));
      assert r.Some? <==> forall i :: 0 <= i < |es| ==> PairOf(es[i]).Some? by {
        assert forall i :: 1 <= i < |es| ==> es[i] == es[1..][i - 1];
      }
      r
  }

  /** The last pair given for a key decides its value. */
  lemma {:induction false} LastPairWins(es: seq<Value>, acc: seq<(string, Value)>, k: string, v: Value)
    requires DictOfPairs(es, acc).Some?
    requires es != [] && PairOf(es[|es| - 1]) == Some((k, v))
    ensures Get(DictOfPairs(es, acc).value, k) == Some(v)
    decreases |es|
  {
    var p := PairOf(es[0]).value;
    var next := Put(acc, p.0, p.1);
    assert DictOfPairs(es, acc) == DictOfPairs(es[1..], next);
    if |es| == 1 {
      assert es[1..] == [] && p == (k, v);
      assert Get(next, k) == Some(v);
    } else {
      assert es[1..][|es[1..]| - 1] == es[|es| - 1];
      LastPairWins(es[1..], next, k, v);
    }
  }

  /** pydantic's `dict_validator`: a dict is kept, and anything else goes
      through `dict(v)`, which reads the empty string and lists of pairs
      and raises on every other value modelled here. The entries read keep
      Python's truthiness: they are empty exactly when `v` is falsy. */
  function DictRead(v: Value): (r: Option<seq<(string, Value)>>)
    ensures v.Dict? ==> r == Some(v.items)
    ensures v.List? ==> r == DictOfPairs(v.elems, [])
    ensures v.Str? ==> (r.Some? <==> v.s == "")
    ensures r.Some? ==> v.Dict? || v.List? || v.Str?
    ensures r.Some? && !v.Dict? ==> Distinct(Keys(r.value))
    ensures r.Some? ==> (r.value == [] <==> !Truthy(v))
  {
    match v
    case Dict(items) => Some(items)
    case List(es) => DictOfPairs(es, [])
    case Str(s) => if s == "" then Some([]) else None
    case _ => None
  }

  /** Plain data: no object left anywhere in the tree, so the value can be
      written out as JSON directly. */
  predicate Plain(v: Value) {
    match v
    case Obj(_, _) => false
    case List(es) => forall i :: 0 <= i < |es| ==> Plain(es[i])
    case Dict(kvs) => forall i :: 0 <= i < |kvs| ==> Plain(kvs[i].1)
    case _ => true
  }
}
