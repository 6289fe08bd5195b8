/** Flux standard actions and the creators that mint them: the action record,
    the layered metadata merge, the error-flag policy, and the type guards that
    compare an action's type tag with a creator's. */
module Actions {
  import opened Wrappers

  /** The JavaScript values carried as payloads, metadata entries and states.
      `Undefined` is also what an omitted state argument is. */
  datatype Value =
    | Undefined
    | Null
    | Bool(b: bool)
    | Num(n: int)
    | Str(s: string)
    | Obj(fields: map<string, Value>)

  /** A metadata object: string keys to values. */
  type Meta = map<string, Value>

  /** A flux standard action; `error` and `meta` are optional fields. */
  datatype Action = Action(actionType: string, payload: Value, error: Option<bool>, meta: Option<Meta>)

  /** The separator between a factory's prefix and a local type. */
  const Delimiter: char := '/'

  /** The namespace prefix of a factory: the prefix followed by the delimiter,
      or nothing when the prefix is absent or empty (both are falsy). */
  function Base(prefix: Option<string>): (b: string)
    ensures b == "" <==> prefix.None? || prefix.value == ""
    ensures b != "" ==> b[|b| - 1] == Delimiter && b[..|b| - 1] == prefix.value
  {
    if prefix.Some? && prefix.value != "" then prefix.value + [Delimiter] else ""
  }

  /** The keys a metadata argument contributes; `null` and `undefined` contribute none. */
  function Layer(m: Option<Meta>): (r: Meta)
    ensures m.None? ==> r == map[]
    ensures m.Some? ==> r == m.value
  {
    m.GetOr(map[])
  }

  /** `Object.assign({}, factoryMeta, commonMeta, meta)`: every key of every
      layer, each bound to its value in the last layer that has it. */
  function MergeMeta(factoryMeta: Option<Meta>, commonMeta: Option<Meta>, meta: Option<Meta>): (r: Meta)
    ensures forall k :: k in r <==> k in Layer(factoryMeta) || k in Layer(commonMeta) || k in Layer(meta)
    ensures forall k :: k in Layer(meta) ==> r[k] == Layer(meta)[k]
    ensures forall k :: k in Layer(commonMeta) && k !in Layer(meta) ==> r[k] == Layer(commonMeta)[k]
    ensures forall k :: k in Layer(factoryMeta) && k !in Layer(commonMeta) && k !in Layer(meta) ==>
              r[k] == Layer(factoryMeta)[k]
  {
    map[] + Layer(factoryMeta) + Layer(commonMeta) + Layer(meta)
  }

  /** The `isError` argument of a creator: a literal boolean or a predicate on the payload. */
  datatype ErrorPolicy = Flag(raise: bool) | Predicate(test: Value -> bool)

  /** Whether a policy marks an action carrying `payload` as an error. */
  predicate Raises(policy: ErrorPolicy, payload: Value)
    ensures policy.Flag? ==> (Raises(policy, payload) <==> policy.raise)
    ensures policy.Predicate? ==> (Raises(policy, payload) <==> policy.test(payload))
  {
    match policy
    case Flag(b) => b
    case Predicate(f) => f(payload)
  }

  /** An action creator: its full type, its factory's base and metadata, its
      own common metadata and its error policy. */
  datatype Creator = Creator(
    actionType: string,
    base: string,
    factoryMeta: Option<Meta>,
    commonMeta: Option<Meta>,
    isError: ErrorPolicy)
  {
    /** The action this creator returns when called with `(payload, meta)`. */
    function Build(payload: Value, meta: Option<Meta>): (a: Action)
      ensures a.actionType == actionType && a.payload == payload
      ensures a.meta.Some? <==> commonMeta.Some? || meta.Some? || factoryMeta.Some?
      ensures a.meta.Some? ==> a.meta.value == MergeMeta(factoryMeta, commonMeta, meta)
      ensures a.error.Some? <==> Raises(isError, payload)
      ensures a.error != Some(false)
    {
      Action(
        actionType,
        payload,
        if Raises(isError, payload) then Some(true) else None,
        if commonMeta.Some? || meta.Some? || factoryMeta.Some?
        then Some(MergeMeta(factoryMeta, commonMeta, meta))
        else None)
    }

    /** Calling the creator: the record is built with type and payload, then
        `meta` and `error` are assigned to it when they apply. */
    method Call(payload: Value, meta: Option<Meta>) returns (a: Action)
      ensures a == Build(payload, meta)
    {
      a := Action(actionType, payload, None, None);
      if commonMeta.Some? || meta.Some? || factoryMeta.Some? {
        a := a.(meta := Some(MergeMeta(factoryMeta, commonMeta, meta)));
      }
      if Raises(isError, payload) {
        a := a.(error := Some(true));
      }
    }

    /** `creator.reduce(reducer)`: the reducer guarded by this creator's type. */
    function Reduce(reducer: (Value, Action) -> Value, state: Value, action: Action): (r: Value)
      ensures action.actionType == actionType ==> r == reducer(state, action)
      ensures action.actionType != actionType ==> r == state
    {
      ReducerFactory(reducer, a => IsType(this, a), state, action)
    }
  }

  /** `reducerFactory(reducer)(selector)`: runs the reducer on the actions the
      selector accepts and passes the state through on all others. */
  function ReducerFactory(
    reducer: (Value, Action) -> Value, selector: Action -> bool, state: Value, action: Action): (r: Value)
    ensures selector(action) ==> r == reducer(state, action)
    ensures !selector(action) ==> r == state
  {
    if selector(action) then reducer(state, action) else state
  }

  /** `isType(creator)(action)`: strict equality of the two type strings. */
  predicate IsType(creator: Creator, action: Action)
    ensures IsType(creator, action) <==> action.actionType == creator.actionType
  {
    action.actionType == creator.actionType
  }

  /** `isTypeOfAny(creators)(action)`: some creator of the list has the action's type. */
  function IsTypeOfAny(creators: seq<Creator>, action: Action): (r: bool)
    ensures r <==> exists i :: 0 <= i < |creators| && IsType(creators[i], action)
  {
    if creators == [] then false
    else
      var rest := IsTypeOfAny(creators[1..], action);
      assert rest ==> exists i :: 0 < i < |creators| && IsType(creators[i], action) by {
        if rest {
          var j :| 0 <= j < |creators[1..]| && IsType(creators[1..][j], action);
          assert IsType(creators[j + 1], action);
        }
      }
      IsType(creators[0], action) || rest
  }

  /** A creator recognises every action it builds. */
  lemma IsTypeAcceptsOwnActions(c: Creator, payload: Value, meta: Option<Meta>)
    ensures IsType(c, c.Build(payload, meta))
    ensures IsTypeOfAny([c], c.Build(payload, meta))
  {
  }

  /** Two creators under one base with different local types never accept
      each other's actions. */
  lemma IsTypeSeparatesLocalTypes(
    c1: Creator, c2: Creator, t1: string, t2: string, payload: Value, meta: Option<Meta>)
    requires c1.base == c2.base
    requires c1.actionType == c1.base + t1 && c2.actionType == c2.base + t2
    requires t1 != t2
    ensures !IsType(c2, c1.Build(payload, meta))
  {
    var b := c1.base;
    assert (b + t1)[|b|..] == t1;
    assert (b + t2)[|b|..] == t2;
  }

  /** The worked example of layered metadata: three disjoint layers all survive. */
  lemma MergeMetaExample()
    ensures MergeMeta(Some(map["a" := Num(1)]), Some(map["b" := Num(2)]), Some(map["c" := Num(3)]))
         == map["a" := Num(1), "b" := Num(2), "c" := Num(3)]
  {
  }
}
