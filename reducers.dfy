/** The reducer builder: a persistent, ordered list of (creator, handler) cases
    with an optional initial state, dispatching an action to the first case
    whose creator has the action's type. */
module Reducers {
  import opened Wrappers
  import opened Actions
  import opened Factories

  /** A case handler: `(state, payload)` to the object whose keys are spread
      into the next state. */
  type Handler = (Value, Value) -> Meta

  datatype Case = Case(creator: Creator, handler: Handler)

  /** The index of the first case whose creator has the action's type. */
  function FirstMatch(cases: seq<Case>, action: Action): (r: Option<nat>)
    ensures r.Some? ==> r.value < |cases| && IsType(cases[r.value].creator, action)
    ensures r.Some? ==> forall j :: 0 <= j < r.value ==> !IsType(cases[j].creator, action)
    ensures r.None? <==> forall j :: 0 <= j < |cases| ==> !IsType(cases[j].creator, action)
  {
    if cases == [] then None
    else if IsType(cases[0].creator, action) then Some(0)
    else
      var rest := FirstMatch(cases[1..], action);
      assert forall j :: 1 <= j < |cases| ==> cases[j] == cases[1..][j - 1];
      match rest
      case None => None
      case Some(i) => Some(i + 1)
  }

  /** A matching index with no match before it is the one `FirstMatch` finds. */
  lemma FirstMatchIsUnique(cases: seq<Case>, action: Action, i: nat)
    requires i < |cases| && IsType(cases[i].creator, action)
    requires forall j :: 0 <= j < i ==> !IsType(cases[j].creator, action)
    ensures FirstMatch(cases, action) == Some(i)
  {
  }

  /** `Object.assign({}, {state}, {...result})`: the prior state under the key
      `"state"`, overlaid with the handler result's own keys. */
  function MatchResult(state: Value, result: Meta): (r: Value)
    ensures r.Obj? && r.fields.Keys == {"state"} + result.Keys
    ensures r.fields["state"] == if "state" in result then result["state"] else state
    ensures forall k :: k in result ==> r.fields[k] == result[k]
    ensures "state" !in result ==> r != Obj(result)
  {
    Obj(map["state" := state] + result)
  }

  datatype Builder = Builder(cases: seq<Case>, init: Option<Value>) {
    /** The state a dispatch works on: an undefined state is replaced by the
        initial value, when there is one. */
    function Start(state: Value): (s: Value)
      ensures state.Undefined? && init.Some? ==> s == init.value
      ensures !state.Undefined? || init.None? ==> s == state
    {
      if state.Undefined? && init.Some? then init.value else state
    }

    /** Dispatch, as a function of the matching case: only the first case
        whose creator has the action's type decides the next state, and with
        no such case the (defaulted) state is returned as it is. */
    function Reduce(state: Value, action: Action): (r: Value)
      ensures forall i ::
                (0 <= i < |cases| && IsType(cases[i].creator, action) &&
                 forall j :: 0 <= j < i ==> !IsType(cases[j].creator, action)) ==>
                r == MatchResult(Start(state), cases[i].handler(Start(state), action.payload))
      ensures (forall j :: 0 <= j < |cases| ==> !IsType(cases[j].creator, action)) ==> r == Start(state)
      ensures (forall j :: 0 <= j < |cases| ==> !IsType(cases[j].creator, action)) && !state.Undefined? ==>
                r == state
    {
      var s := Start(state);
      assert forall i ::
        (0 <= i < |cases| && IsType(cases[i].creator, action) &&
         forall j :: 0 <= j < i ==> !IsType(cases[j].creator, action)) ==>
        FirstMatch(cases, action) == Some(i)
      by {
        forall i | 0 <= i < |cases| && IsType(cases[i].creator, action) &&
                   forall j :: 0 <= j < i ==> !IsType(cases[j].creator, action)
        {
          FirstMatchIsUnique(cases, action, i);
        }
      }
      match FirstMatch(cases, action)
      case None => s
      case Some(i) => MatchResult(s, cases[i].handler(s, action.payload))
    }

    /** The compiled reducer: scans the cases in registration order and
        returns on the first whose creator has the action's type. */
    method Dispatch(state: Value, action: Action) returns (next: Value)
      ensures next == Reduce(state, action)
    {
      var s := Start(state);
      var i, length := 0, |cases|;
      while i < length
        invariant 0 <= i <= length == |cases|
        invariant forall j :: 0 <= j < i ==> !IsType(cases[j].creator, action)
      {
        var c := cases[i];
        if IsType(c.creator, action) {
          assert FirstMatch(cases, action) == Some(i);
          return MatchResult(s, c.handler(s, action.payload));
        }
        i := i + 1;
      }
      next := s;
    }

    /** `builder.case(creator, handler)`: a new builder with the case appended;
        this builder is left as it was. */
    function AddCase(creator: Creator, handler: Handler): (b: Builder)
      ensures b.cases == cases + [Case(creator, handler)] && b.init == init
      ensures b.cases[..|cases|] == cases
    {
      Builder(cases + [Case(creator, handler)], init)
    }
  }

  /** `reducerWithInitialState(initialValue)`: with no cases, the only effect is
      the substitution of the initial value for an undefined state. */
  function WithInitialState(initialValue: Value): (b: Builder)
    ensures b.cases == []
    ensures forall s, a :: b.Reduce(s, a) == if s.Undefined? then initialValue else s
  {
    Builder([], Some(initialValue))
  }

  /** `reducerWithoutInitialState()`: with no cases, every state passes through. */
  function WithoutInitialState(): (b: Builder)
    ensures b.cases == []
    ensures forall s, a :: b.Reduce(s, a) == s
  {
    Builder([], None)
  }

  /** `upcastingReducer()`: the same builder as `reducerWithoutInitialState`;
      the two differ only in their static state types. */
  function Upcasting(): (b: Builder)
    ensures b == WithoutInitialState()
  {
    Builder([], None)
  }

  /** Appending a case changes dispatch only for actions no earlier case takes. */
  lemma AddCaseDispatch(b: Builder, creator: Creator, handler: Handler, state: Value, action: Action)
    ensures var s := b.Start(state);
      b.AddCase(creator, handler).Reduce(state, action) ==
      if FirstMatch(b.cases, action).Some? || !IsType(creator, action) then b.Reduce(state, action)
      else MatchResult(s, handler(s, action.payload))
  {
    var b' := b.AddCase(creator, handler);
    assert forall j :: 0 <= j < |b.cases| ==> b'.cases[j] == b.cases[j];
    var r := FirstMatch(b.cases, action);
    if r.Some? {
      assert IsType(b'.cases[r.value].creator, action);
    } else if IsType(creator, action) {
      assert IsType(b'.cases[|b.cases|].creator, action);
    } else {
      assert forall j :: 0 <= j < |b'.cases| ==> !IsType(b'.cases[j].creator, action);
    }
  }

  /** Of two cases for the same type, the first registered one wins. */
  lemma FirstRegisteredWins(
    b: Builder, c1: Creator, h1: Handler, c2: Creator, h2: Handler, state: Value, action: Action)
    requires FirstMatch(b.cases, action).None?
    requires IsType(c1, action) && IsType(c2, action)
    ensures var s := b.Start(state);
      b.AddCase(c1, h1).AddCase(c2, h2).Reduce(state, action) == MatchResult(s, h1(s, action.payload))
  {
    var b1 := b.AddCase(c1, h1);
    AddCaseDispatch(b, c1, h1, state, action);
    assert IsType(b1.cases[|b.cases|].creator, action);
    AddCaseDispatch(b1, c2, h2, state, action);
  }

  /** `creator.reduce` of a reducer that merges like a case handler behaves as
      a single-case builder without an initial state. */
  lemma CreatorReduceIsSingleCase(c: Creator, h: Handler, state: Value, action: Action)
    ensures c.Reduce((s, a: Action) => MatchResult(s, h(s, a.payload)), state, action) ==
            WithoutInitialState().AddCase(c, h).Reduce(state, action)
  {
  }

  /** The to-do example: a builder seeded with an empty object, dispatched an
      undefined state and an action of a factory's `ADD` creator, keeps the
      seed under `"state"` beside the handler's keys. */
  lemma TodoExample(todos: Factory, text: string)
    ensures var add := todos.CreatorFor("ADD", None, None);
      var b := WithInitialState(Obj(map[])).AddCase(add, (s, p) => map["text" := p]);
      b.Reduce(Undefined, add.Build(Str(text), None)) ==
      Obj(map["state" := Obj(map[]), "text" := Str(text)])
  {
  }
}
