/** `encode_to_dict` (troposphere/__init__.py): the single normalisation
    pathway that turns an object graph into plain nested dicts, lists and
    scalars. */
module Encode {
  import opened Wrappers
  import opened OrderedDict
  import opened Values

  /** An object is replaced by its rendering, normalised in turn; a list
      becomes a new list of normalised elements in the same order; a dict a
      new dict with the same keys in the same order and normalised values;
      any other value is returned unchanged. */
  function Normalize(v: Value): (r: Value)
    ensures Plain(r)
    ensures v.List? ==> r.List? && |r.elems| == |v.elems|
    ensures v.Dict? ==> r.Dict? && Keys(r.items) == Keys(v.items)
    ensures !v.Obj? && !v.List? && !v.Dict? ==> r == v
    decreases v
  {
    match v
    case Obj(_, payload) => Normalize(payload)
    case List(es) =>
      List(seq(|es|, i requires 0 <= i < |es| => Normalize(es[i])))
    case Dict(kvs) =>
      var items := seq(|kvs|, i requires 0 <= i < |kvs| => (kvs[i].0, Normalize(kvs[i].1)));
      assert Keys(items) == Keys(kvs) by {
        forall i | 0 <= i < |kvs| ensures Keys(items)[i] == Keys(kvs)[i] {
          KeysAt(items, i);
          KeysAt(kvs, i);
        }
      }
      Dict(items)
    case _ => v
  }

  /** Each pair of a normalised dict is the original key with its value
      normalised. */
  lemma NormalizeDictAt(kvs: seq<(string, Value)>, i: nat)
    requires i < |kvs|
    ensures Normalize(Dict(kvs)).items[i] == (kvs[i].0, Normalize(kvs[i].1))
  {
  }

  /** Each element of a normalised list is the original element
      normalised. */
  lemma NormalizeListAt(es: seq<Value>, i: nat)
    requires i < |es|
    ensures Normalize(List(es)).elems[i] == Normalize(es[i])
  {
  }

  /** Plain data is a fixed point: normalising it changes nothing. */
  lemma {:induction false} PlainIsFixedPoint(v: Value)
    requires Plain(v)
    ensures Normalize(v) == v
    decreases v
  {
    match v
    case List(es) =>
      forall i | 0 <= i < |es| ensures Normalize(es[i]) == es[i] {
        PlainIsFixedPoint(es[i]);
      }
    case Dict(kvs) =>
      forall i | 0 <= i < |kvs| ensures Normalize(kvs[i].1) == kvs[i].1 {
        PlainIsFixedPoint(kvs[i].1);
      }
      assert Normalize(v).items == kvs;
    case _ =>
  }

  /** Normalising twice is normalising once. */
  lemma NormalizeIdempotent(v: Value)
    ensures Normalize(Normalize(v)) == Normalize(v)
  {
    PlainIsFixedPoint(Normalize(v));
  }

  /** Order is preserved: the normalised list of a concatenation is the
      concatenation of the normalised lists. */
  lemma NormalizeListAppend(a: seq<Value>, b: seq<Value>)
    ensures Normalize(List(a + b)).elems == Normalize(List(a)).elems + Normalize(List(b)).elems
  {
    var l, la, lb := Normalize(List(a + b)).elems, Normalize(List(a)).elems, Normalize(List(b)).elems;
    forall i | 0 <= i < |a + b| ensures l[i] == (la + lb)[i] {
      if i < |a| { assert (a + b)[i] == a[i]; } else { assert (a + b)[i] == b[i - |a|]; }
    }
  }

  /** Order is preserved for dicts too: the normalised dict of a
      concatenation is the concatenation of the normalised dicts. */
  lemma NormalizeDictAppend(a: seq<(string, Value)>, b: seq<(string, Value)>)
    ensures Normalize(Dict(a + b)).items == Normalize(Dict(a)).items + Normalize(Dict(b)).items
  {
    var l, la, lb := Normalize(Dict(a + b)).items, Normalize(Dict(a)).items, Normalize(Dict(b)).items;
    forall i | 0 <= i < |a + b| ensures l[i] == (la + lb)[i] {
      if i < |a| { assert (a + b)[i] == a[i]; } else { assert (a + b)[i] == b[i - |a|]; }
    }
  }

  /** Every value of a normalised dict is the normalised value stored under
      the same key. */
  lemma NormalizeDictGet(kvs: seq<(string, Value)>, k: string)
    ensures var r := Get(Normalize(Dict(kvs)).items, k);
            match Get(kvs, k)
            case None => r.None?
            case Some(v) => r == Some(Normalize(v))
    decreases |kvs|
  {
    if kvs != [] {
      NormalizeDictAppend([kvs[0]], kvs[1..]);
      assert [kvs[0]] + kvs[1..] == kvs;
      NormalizeDictGet(kvs[1..], k);
    }
  }
}
