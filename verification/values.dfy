/**
 * The Python values a decoded property turns into, and `_json_safe`: what
 * `json.dumps` accepts is kept, anything else is replaced by its `str`.
 */
module Values {

  /**
   * A decoded value: JSON-able scalars, a string, a list or tuple (tuples
   * such as object identifiers serialise as lists), or a foreign object
   * that `json.dumps` refuses.
   */
  datatype Value =
    | NoneValue
    | Bool(b: bool)
    | Int(i: int)
    | Float(repr: string)
    | Text(s: string)
    | Items(elems: seq<Value>)
    | Foreign(kind: string)

  /** `json.dumps(v)` does not raise `TypeError`. */
  predicate Serialisable(v: Value)
  {
    match v
    case Foreign(_) => false
    case Items(elems) => forall i :: 0 <= i < |elems| ==> Serialisable(elems[i])
    case _ => true
  }

  /**
   * One step of `_json_safe` (and the same `try: json.dumps` in `read`):
   * `render` is Python's `str` on the value, which for foreign objects is
   * their own `__str__`.
   */
  function JsonSafeValue(v: Value, render: Value -> string): (r: Value)
    ensures Serialisable(r)
    ensures r == v <==> Serialisable(v)
    ensures !Serialisable(v) ==> r == Text(render(v))
  {
    if Serialisable(v) then v else Text(render(v))
  }

  /** `_json_safe(seq)`: one output per input, in the same order. */
  method JsonSafe(vs: seq<Value>, render: Value -> string) returns (out: seq<Value>)
    ensures |out| == |vs|
    ensures forall i :: 0 <= i < |vs| ==> out[i] == JsonSafeValue(vs[i], render)
  {
    out := [];
    var k := 0;
    while k < |vs|
      invariant 0 <= k <= |vs|
      invariant |out| == k
      invariant forall i :: 0 <= i < k ==> out[i] == JsonSafeValue(vs[i], render)
    {
      out := out + [JsonSafeValue(vs[k], render)];
      k := k + 1;
    }
  }

  /** The output of `_json_safe` is a list `json.dumps` accepts as a whole. */
  lemma JsonSafeListSerialisable(vs: seq<Value>, out: seq<Value>, render: Value -> string)
    requires |out| == |vs|
    requires forall i :: 0 <= i < |vs| ==> out[i] == JsonSafeValue(vs[i], render)
    ensures Serialisable(Items(out))
    ensures Serialisable(Items(vs)) ==> out == vs
  {
    forall i | 0 <= i < |out| ensures Serialisable(out[i]) {
      assert out[i] == JsonSafeValue(vs[i], render);
    }
  }
}
