/** The action-creator factory: a namespace prefix, factory-wide metadata, a
    default error predicate, and a private registry of the full types it has
    minted, which rejects a duplicate outside production. Also the async
    triad and the namespace guard. */
module Factories {
  import opened Wrappers
  import opened Actions

  /** The exception thrown on a duplicate registration. */
  datatype FactoryError = DuplicateActionType(fullType: string)

  /** The text of the thrown error. */
  function ErrorMessage(e: FactoryError): (msg: string)
    ensures |msg| >= |e.fullType| && msg[|msg| - |e.fullType|..] == e.fullType
  {
    "Duplicate action types   : " + e.fullType
  }

  const StartedSuffix: string := "_STARTED"
  const DoneSuffix: string := "_DONE"
  const FailedSuffix: string := "_FAILED"

  /** The three creators of an asynchronous operation and their shared type. */
  datatype AsyncCreators = AsyncCreators(actionType: string, started: Creator, done: Creator, failed: Creator)

  /** The keys every object literal inherits from `Object.prototype`, each
      bound to a truthy value (a function, or the prototype for `__proto__`). */
  const ObjectPrototypeKeys: set<string> := {
    "constructor", "hasOwnProperty", "isPrototypeOf", "propertyIsEnumerable",
    "toString", "toLocaleString", "valueOf", "__proto__",
    "__defineGetter__", "__defineSetter__", "__lookupGetter__", "__lookupSetter__"}

  /** `actionTypes[fullType]` on the registry's object literal: truthy for a
      registered type and also for an inherited `Object.prototype` key. */
  predicate SeenAsWritten(registry: set<string>, fullType: string)
    ensures fullType in registry ==> SeenAsWritten(registry, fullType)
    ensures fullType in ObjectPrototypeKeys ==> SeenAsWritten(registry, fullType)
    ensures SeenAsWritten(registry, fullType) ==> fullType in registry || fullType in ObjectPrototypeKeys
  {
    fullType in registry || fullType in ObjectPrototypeKeys
  }

  /** The default `factoryMeta`, an empty (and therefore truthy) object. */
  const DefaultFactoryMeta: Option<Meta> := Some(map[])

  class Factory {
    const base: string
    const factoryMeta: Option<Meta>
    const defaultIsError: Value -> bool
    /** The full types this factory has registered. */
    var registry: set<string>

    /** `actionCreatorFactory(prefix, factoryMeta, defaultIsError)`. `None`
        for `factoryMeta` stands for an explicit `null`; an omitted argument
        is `DefaultFactoryMeta`. */
    constructor (prefix: Option<string>, factoryMeta: Option<Meta>, defaultIsError: Value -> bool)
      ensures base == Base(prefix)
      ensures this.factoryMeta == factoryMeta && this.defaultIsError == defaultIsError
      ensures registry == {}
    {
      base := Base(prefix);
      this.factoryMeta := factoryMeta;
      this.defaultIsError := defaultIsError;
      registry := {};
    }

    /** The creator a successful `factory(localType, commonMeta, isError)`
        returns; an omitted `isError` falls back to the factory's predicate. */
    function CreatorFor(localType: string, commonMeta: Option<Meta>, isError: Option<ErrorPolicy>): (c: Creator)
      ensures c.actionType == base + localType && c.base == base
      ensures c.factoryMeta == factoryMeta && c.commonMeta == commonMeta
      ensures forall p :: Raises(c.isError, p) <==>
                if isError.Some? then Raises(isError.value, p) else defaultIsError(p)
    {
      Creator(base + localType, base, factoryMeta, commonMeta, isError.GetOr(Predicate(defaultIsError)))
    }

    /** `factory(localType, commonMeta, isError)`. Outside production a full
        type already in the registry is refused and the registry is left as
        it was; otherwise the full type is added. In production nothing is
        checked and nothing is recorded. */
    method Create(localType: string, commonMeta: Option<Meta>, isError: Option<ErrorPolicy>, production: bool)
      returns (r: Result<Creator, FactoryError>)
      modifies this
      ensures production ==>
                r == Success(CreatorFor(localType, commonMeta, isError)) && registry == old(registry)
      ensures !production && base + localType in old(registry) ==>
                r == Failure(DuplicateActionType(base + localType)) && registry == old(registry)
      ensures !production && base + localType !in old(registry) ==>
                r == Success(CreatorFor(localType, commonMeta, isError)) &&
                registry == old(registry) + {base + localType}
    {
      var fullType := base + localType;
      if !production {
        if fullType in registry {
          return Failure(DuplicateActionType(fullType));
        }
        registry := registry + {fullType};
      }
      r := Success(CreatorFor(localType, commonMeta, isError));
    }

    /** `factory(localType, commonMeta, isError)` with the lookup as written:
        the registry object also answers for inherited `Object.prototype` keys. */
    method CreateAsWritten(localType: string, commonMeta: Option<Meta>, isError: Option<ErrorPolicy>, production: bool)
      returns (r: Result<Creator, FactoryError>)
      modifies this
      ensures production ==>
                r == Success(CreatorFor(localType, commonMeta, isError)) && registry == old(registry)
      ensures !production && SeenAsWritten(old(registry), base + localType) ==>
                r == Failure(DuplicateActionType(base + localType)) && registry == old(registry)
      ensures !production && !SeenAsWritten(old(registry), base + localType) ==>
                r == Success(CreatorFor(localType, commonMeta, isError)) &&
                registry == old(registry) + {base + localType}
    {
      var fullType := base + localType;
      if !production {
        if SeenAsWritten(registry, fullType) {
          return Failure(DuplicateActionType(fullType));
        }
        registry := registry + {fullType};
      }
      r := Success(CreatorFor(localType, commonMeta, isError));
    }

    /** The triad a successful `factory.async(localType, commonMeta)` returns. */
    function TriadFor(localType: string, commonMeta: Option<Meta>): (t: AsyncCreators)
      ensures t.actionType == base + localType
      ensures t.started.actionType == t.actionType + StartedSuffix
      ensures t.done.actionType == t.actionType + DoneSuffix
      ensures t.failed.actionType == t.actionType + FailedSuffix
      ensures t.started.commonMeta == t.done.commonMeta == t.failed.commonMeta == commonMeta
      ensures forall p, m :: t.failed.Build(p, m).error == Some(true)
      ensures forall p, m :: t.started.Build(p, m).error == None && t.done.Build(p, m).error == None
    {
      AsyncCreators(
        base + localType,
        CreatorFor(localType + StartedSuffix, commonMeta, Some(Flag(false))),
        CreatorFor(localType + DoneSuffix, commonMeta, Some(Flag(false))),
        CreatorFor(localType + FailedSuffix, commonMeta, Some(Flag(true))))
    }

    /** `factory.async(localType, commonMeta)`: registers the started, done and
        failed types in that order. Outside production the first of them
        already registered is reported, and the ones before it stay registered. */
    method Async(localType: string, commonMeta: Option<Meta>, production: bool)
      returns (r: Result<AsyncCreators, FactoryError>)
      modifies this
      ensures var s, d, f := base + localType + StartedSuffix, base + localType + DoneSuffix,
                             base + localType + FailedSuffix;
        if production then
          r == Success(TriadFor(localType, commonMeta)) && registry == old(registry)
        else if s in old(registry) then
          r == Failure(DuplicateActionType(s)) && registry == old(registry)
        else if d in old(registry) then
          r == Failure(DuplicateActionType(d)) && registry == old(registry) + {s}
        else if f in old(registry) then
          r == Failure(DuplicateActionType(f)) && registry == old(registry) + {s, d}
        else
          r == Success(TriadFor(localType, commonMeta)) && registry == old(registry) + {s, d, f}
    {
      assert base + (localType + StartedSuffix) == base + localType + StartedSuffix;
      assert base + (localType + DoneSuffix) == base + localType + DoneSuffix;
      assert base + (localType + FailedSuffix) == base + localType + FailedSuffix;
      var started :- Create(localType + StartedSuffix, commonMeta, Some(Flag(false)), production);
      var done :- Create(localType + DoneSuffix, commonMeta, Some(Flag(false)), production);
      var failed :- Create(localType + FailedSuffix, commonMeta, Some(Flag(true)), production);
      r := Success(AsyncCreators(base + localType, started, done, failed));
    }
  }

  /** What `isNamespace` accepts: a factory, or an object holding one in its
      `factory` member. */
  datatype NamespaceSource = Direct(f: Factory) | Holder(factory: Factory)

  /** `isHasCreatorFactory`: the argument carries a `factory` member; a
      factory itself has none. */
  predicate IsHasCreatorFactory(n: NamespaceSource)
    ensures IsHasCreatorFactory(n) <==> n.Holder?
  {
    n.Holder?
  }

  /** The factory whose base the namespace test reads. */
  function FactoryOf(n: NamespaceSource): Factory {
    match n
    case Direct(f) => f
    case Holder(f) => f
  }

  /** `isNamespace(n)(action)`: the action's type starts with the base of the
      factory, whether given directly or through its holder. */
  predicate IsNamespace(n: NamespaceSource, action: Action)
    ensures IsNamespace(n, action) <==>
              |FactoryOf(n).base| <= |action.actionType| &&
              action.actionType[..|FactoryOf(n).base|] == FactoryOf(n).base
    ensures FactoryOf(n).base == "" ==> IsNamespace(n, action)
  {
    if IsHasCreatorFactory(n) then n.factory.base <= action.actionType else n.f.base <= action.actionType
  }

  /** An unprefixed factory's namespace holds every action, and a factory's
      actions are in its namespace however it is passed. */
  lemma NamespaceOfFactory(f: Factory, action: Action)
    ensures f.base == "" ==> IsNamespace(Direct(f), action) && IsNamespace(Holder(f), action)
    ensures IsNamespace(Direct(f), action) <==> IsNamespace(Holder(f), action)
    ensures IsNamespace(Direct(f), action) <==>
              |f.base| <= |action.actionType| && action.actionType[..|f.base|] == f.base
  {
  }

  /** Every action built by one of a factory's creators is in its namespace. */
  lemma OwnActionsInNamespace(
    f: Factory, localType: string, commonMeta: Option<Meta>, isError: Option<ErrorPolicy>,
    payload: Value, meta: Option<Meta>)
    ensures IsNamespace(Direct(f), f.CreatorFor(localType, commonMeta, isError).Build(payload, meta))
  {
  }

  /** A string that disagrees with `t` at some position is not a prefix of it. */
  lemma MismatchIsNotPrefix(b: string, t: string, i: nat)
    requires i < |b| && i < |t| && b[i] != t[i]
    ensures !(b <= t)
  {
  }

  /** Factories under two different non-empty prefixes that do not contain the
      delimiter have disjoint namespaces. */
  lemma {:induction false} NamespacesDisjoint(p1: string, p2: string, localType: string)
    requires p1 != "" && p2 != "" && p1 != p2
    requires Delimiter !in p1 && Delimiter !in p2
    ensures !(Base(Some(p2)) <= Base(Some(p1)) + localType)
  {
    var b2, t := Base(Some(p2)), Base(Some(p1)) + localType;
    if |p2| < |p1| {
      assert p1[|p2|] in p1;
      MismatchIsNotPrefix(b2, t, |p2|);
    } else if |p2| == |p1| {
      var i :| 0 <= i < |p1| && p1[i] != p2[i];
      MismatchIsNotPrefix(b2, t, i);
    } else {
      assert p2[|p1|] in p2;
      MismatchIsNotPrefix(b2, t, |p1|);
    }
  }

  /** A prefixed full type contains the delimiter, which no inherited key
      does, so the lookup as written agrees with the registry under a prefix. */
  lemma {:induction false} PrefixedTypesMissPrototypeKeys(registry: set<string>, prefix: string, localType: string)
    requires prefix != ""
    ensures SeenAsWritten(registry, Base(Some(prefix)) + localType) <==> Base(Some(prefix)) + localType in registry
  {
    var t := Base(Some(prefix)) + localType;
    assert t[|prefix|] == Delimiter;
    assert forall k :: k in ObjectPrototypeKeys ==> Delimiter !in k;
    assert t !in ObjectPrototypeKeys;
  }

  /** On a fresh unprefixed factory outside production, the lookup as written
      refuses the first `factory("constructor")`; the registry alone accepts it. */
  method PrototypeKeyScenario() returns (asWritten: Result<Creator, FactoryError>, corrected: Result<Creator, FactoryError>)
    ensures asWritten == Failure(DuplicateActionType("constructor"))
    ensures corrected.Success? && corrected.value.actionType == "constructor"
  {
    var f := new Factory(None, DefaultFactoryMeta, p => false);
    var g := new Factory(None, DefaultFactoryMeta, p => false);
    assert f.base + "constructor" == "constructor" && "constructor" in ObjectPrototypeKeys;
    asWritten := f.CreateAsWritten("constructor", None, None, false);
    corrected := g.Create("constructor", None, None, false);
  }

  /** The registry belongs to its factory: a duplicate within one factory is
      refused, the same type in a second factory is accepted, and in production
      a duplicate passes. */
  method RegistryScenario() returns (
    first: Result<Creator, FactoryError>, again: Result<Creator, FactoryError>,
    elsewhere: Result<Creator, FactoryError>, inProduction: Result<Creator, FactoryError>)
    ensures first.Success? && first.value.actionType == "todos/ADD"
    ensures again == Failure(DuplicateActionType("todos/ADD"))
    ensures elsewhere.Success? && elsewhere.value.actionType == "todos/ADD"
    ensures inProduction.Success? && inProduction.value.actionType == "todos/ADD"
  {
    var todos := new Factory(Some("todos"), DefaultFactoryMeta, p => false);
    var other := new Factory(Some("todos"), DefaultFactoryMeta, p => false);
    first := todos.Create("ADD", None, None, false);
    again := todos.Create("ADD", None, None, false);
    elsewhere := other.Create("ADD", None, None, false);
    inProduction := todos.Create("ADD", None, None, true);
  }

  /** The triad of a second `async` call with the same local type is refused
      outside production. */
  method AsyncTwiceScenario() returns (first: Result<AsyncCreators, FactoryError>, again: Result<AsyncCreators, FactoryError>)
    ensures first.Success? && first.value.started.actionType == "api/FETCH_STARTED"
    ensures again == Failure(DuplicateActionType("api/FETCH_STARTED"))
  {
    var api := new Factory(Some("api"), DefaultFactoryMeta, p => false);
    first := api.Async("FETCH", None, false);
    again := api.Async("FETCH", None, false);
  }
}
