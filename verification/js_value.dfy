/** The JavaScript values the flattening step reads, and the two JavaScript
    operations it relies on: property read and the `||` operator. */
module JsValue {

  /** A value produced by `JSON.parse`, plus `Undefined`, which is what a
      property read yields for a key the object does not have. JSON numbers
      are restricted to integers: the quantities in recipe dumps are whole
      numbers, and parsing never yields NaN. */
  datatype Value =
    | Undefined
    | Null
    | Bool(b: bool)
    | Num(n: int)
    | Str(s: string)
    | Arr(items: seq<Value>)
    | Obj(props: map<string, Value>)

  /** JavaScript's ToBoolean: `undefined`, `null`, `false`, `0` and `""` are
      falsy; every array and every object, even an empty one, is truthy. */
  predicate Truthy(v: Value) {
    match v
    case Undefined => false
    case Null => false
    case Bool(b) => b
    case Num(n) => n != 0
    case Str(s) => s != ""
    case Arr(_) => true
    case Obj(_) => true
  }

  /** Values whose property read throws a TypeError. */
  predicate Nullish(v: Value) {
    v.Undefined? || v.Null?
  }

  /** The property read `v.key` on a value that is not nullish. Strings,
      numbers, booleans and arrays have none of the keys the recipe code
      asks for, so only an object's own entry can answer. */
  function Get(v: Value, key: string): Value {
    if v.Obj? && key in v.props then v.props[key] else Undefined
  }

  /** JavaScript's `a || b`: the left operand if it is truthy, else the right one. */
  function Or(a: Value, b: Value): Value {
    if Truthy(a) then a else b
  }

  /** `xs[0] || xs[1] || ... || xs[n-1]`, grouped to the left as JavaScript
      parses it. The result is one of the operands, and it is truthy exactly
      when some operand is. */
  function OrChain(xs: seq<Value>): (r: Value)
    requires |xs| > 0
    ensures r in xs
    ensures Truthy(r) <==> exists i :: 0 <= i < |xs| && Truthy(xs[i])
  {
    if |xs| == 1 then xs[0] else Or(OrChain(xs[..|xs| - 1]), xs[|xs| - 1])
  }

  /** `i` is the position of the first truthy value of `xs`. */
  ghost predicate FirstTruthyAt(xs: seq<Value>, i: int) {
    && 0 <= i < |xs|
    && Truthy(xs[i])
    && forall j :: 0 <= j < i ==> !Truthy(xs[j])
  }

  /** An `||` chain evaluates to its first truthy operand, and to its last
      operand when none before it is truthy. */
  lemma {:induction false} OrChainYieldsFirstTruthy(xs: seq<Value>)
    requires |xs| > 0
    ensures forall i :: FirstTruthyAt(xs, i) ==> OrChain(xs) == xs[i]
    ensures (forall j :: 0 <= j < |xs| - 1 ==> !Truthy(xs[j])) ==> OrChain(xs) == xs[|xs| - 1]
  {
    if |xs| > 1 {
      var n := |xs| - 1;
      var init := xs[..n];
      OrChainYieldsFirstTruthy(init);
      forall i | FirstTruthyAt(xs, i)
        ensures OrChain(xs) == xs[i]
      {
        if i < n {
          assert FirstTruthyAt(init, i);
        } else {
          assert forall j :: 0 <= j < |init| - 1 ==> !Truthy(init[j]);
        }
      }
      if forall j :: 0 <= j < n ==> !Truthy(xs[j]) {
        assert forall j :: 0 <= j < |init| - 1 ==> !Truthy(init[j]);
        assert !Truthy(init[n - 1]);
      }
    }
  }

  /** The values `obj.k` for each key `k` of `keys`, in order. */
  function Reads(obj: Value, keys: seq<string>): seq<Value> {
    seq(|keys|, i requires 0 <= i < |keys| => Get(obj, keys[i]))
  }

  /** `keys[i]` is the first key whose value in `obj` is truthy. */
  ghost predicate FirstTruthyKey(obj: Value, keys: seq<string>, i: int) {
    && 0 <= i < |keys|
    && Truthy(Get(obj, keys[i]))
    && forall j :: 0 <= j < i ==> !Truthy(Get(obj, keys[j]))
  }

  /** The alias lookup `obj.k0 || obj.k1 || ... || default`, written as the
      `||` chain it is. */
  function Lookup(obj: Value, keys: seq<string>, default: Value): (r: Value)
    ensures forall i :: FirstTruthyKey(obj, keys, i) ==> r == Get(obj, keys[i])
    ensures (forall j :: 0 <= j < |keys| ==> !Truthy(Get(obj, keys[j]))) ==> r == default
  {
    LookupIsFirstTruthyAlias(obj, keys, default);
    OrChain(Reads(obj, keys) + [default])
  }

  /** The chain of reads yields the value of the first key whose value is
      truthy, else `default`. */
  lemma LookupIsFirstTruthyAlias(obj: Value, keys: seq<string>, default: Value)
    ensures forall i :: FirstTruthyKey(obj, keys, i) ==> OrChain(Reads(obj, keys) + [default]) == Get(obj, keys[i])
    ensures (forall j :: 0 <= j < |keys| ==> !Truthy(Get(obj, keys[j]))) ==> OrChain(Reads(obj, keys) + [default]) == default
  {
    var xs := Reads(obj, keys) + [default];
    assert xs[|keys|] == default;
    assert forall i :: 0 <= i < |keys| ==> xs[i] == Get(obj, keys[i]);
    OrChainYieldsFirstTruthy(xs);
    forall i | FirstTruthyKey(obj, keys, i)
      ensures OrChain(xs) == Get(obj, keys[i])
    {
      assert FirstTruthyAt(xs, i);
    }
  }
}
