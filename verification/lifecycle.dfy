/** The lifecycle methods the adapter synthesizes, run on a component instance. */
module Lifecycle {
  import opened Values
  import opened Components

  /** What a synthesized method throws: a value thrown by the code it calls, or the
      TypeError of calling a member that is not a function. */
  datatype Thrown = Raised(value: Value) | NotAFunction(member: string)

  /** One invocation of a method the component's author wrote: the name it was found
      under, what `this.props` and `this.state` were during the call, and the arguments. */
  datatype Call = Call(member: string, thisProps: Dict, thisState: Dict, args: seq<Value>)

  /** How a call the adapter makes ends for the adapter's own method: a return yields
      `undefined`, a throw passes through unchanged. */
  function Completion(r: Result<Value, Value>): (c: Result<(), Thrown>)
  {
    match r
    case Success(_) => Success(())
    case Failure(e) => Failure(Raised(e))
  }

  /** A derived-state hook run with `props`: it calls `getDerivedStateFromProps(props, before)`
      and folds the result into state only when it is neither null nor undefined. */
  ghost predicate DeriveStep(derive: Option<DeriveFn>, props: Dict, before: Dict, after: Dict, r: Result<(), Thrown>)
  {
    match derive
    case None => r == Failure(NotAFunction(GetDerivedStateFromProps)) && after == before
    case Some(f) =>
      match f(props, before)
      case Failure(e) => r == Failure(Raised(e)) && after == before
      case Success(PartialState(changes)) => r == Success(()) && after == Merge(before, changes)
      case Success(_) => r == Success(()) && after == before
  }

  /** The synthesized `componentDidUpdate` wrapping `original`, called as
      `componentDidUpdate(prevProps, prevState)` while `this.props`, `this.state` and the stored
      snapshot are as given: the author's method runs exactly once, with the two arguments
      unchanged and the stored snapshot as a third, and whatever it throws passes through. */
  function DidUpdateOutcome(original: Method, thisProps: Dict, thisState: Dict, prevProps: Dict, prevState: Dict, snapshot: Value)
    : (o: (Result<(), Thrown>, seq<Call>))
    requires DidUpdateChain(original)
    ensures |o.1| == 1
    ensures o.1[0] == Call(DidUpdate, thisProps, thisState, [Obj(prevProps), Obj(prevState), snapshot])
    ensures o.0 == Completion(AuthoredDidUpdate(original)(thisProps, thisState, o.1[0].args))
    decreases original
  {
    match original
    case Authored(body) =>
      var args := [Obj(prevProps), Obj(prevState), snapshot];
      (Completion(body(thisProps, thisState, args)), [Call(DidUpdate, thisProps, thisState, args)])
    case DidUpdatePolyfill(inner) =>
      DidUpdateOutcome(inner, thisProps, thisState, prevProps, prevState, snapshot)
  }

  /** A mounted component instance. */
  class Instance {
    /** `this.constructor`: the class the instance was created from, possibly a subclass. */
    const ctor: Component
    var props: Dict
    var state: Dict
    /** `this.__reactInternalSnapshot`. */
    var snapshot: Value
    /** The author-written instance methods (`getSnapshotBeforeUpdate`, `componentDidUpdate`) the
        synthesized hooks have run on this instance so far, oldest first. */
    ghost var calls: seq<Call>

    constructor (ctor: Component, props: Dict, state: Dict)
      ensures this.ctor == ctor && this.props == props && this.state == state
      ensures snapshot == Undefined && calls == []
    {
      this.ctor := ctor;
      this.props := props;
      this.state := state;
      snapshot := Undefined;
      calls := [];
    }

    /** React's `setState` with a partial state object. */
    method SetState(partial: Dict)
      modifies this
      ensures state == Merge(old(state), partial)
      ensures props == old(props) && snapshot == old(snapshot) && calls == old(calls)
    {
      state := Merge(state, partial);
    }

    /** Runs an author-written method found under `member` with `this` as it is now. */
    method CallAuthored(member: string, body: AuthoredBody, args: seq<Value>) returns (r: Result<Value, Value>)
      modifies this
      ensures r == body(props, state, args)
      ensures calls == old(calls) + [Call(member, props, state, args)]
      ensures props == old(props) && state == old(state) && snapshot == old(snapshot)
    {
      calls := calls + [Call(member, props, state, args)];
      r := body(props, state, args);
    }

    /** The body shared by the two derived-state hooks. */
    method DeriveAndSetState(nextProps: Dict) returns (r: Result<(), Thrown>)
      modifies this
      ensures DeriveStep(ctor.getDerivedStateFromProps, nextProps, old(state), state, r)
      ensures props == old(props) && snapshot == old(snapshot) && calls == old(calls)
    {
      match ctor.getDerivedStateFromProps
      case None =>
        r := Failure(NotAFunction(GetDerivedStateFromProps));
      case Some(getDerivedStateFromProps) =>
        var derived := getDerivedStateFromProps(nextProps, state);
        match derived
        case Failure(e) =>
          r := Failure(Raised(e));
        case Success(result) =>
          if result.PartialState? {
            SetState(result.changes);
          }
          r := Success(());
    }

    /** The synthesized `componentWillMount`: derives state from the current props and state,
        through the static of the instance's own constructor. */
    method ComponentWillMount() returns (r: Result<(), Thrown>)
      modifies this
      ensures DeriveStep(ctor.getDerivedStateFromProps, props, old(state), state, r)
      ensures props == old(props) && snapshot == old(snapshot) && calls == old(calls)
    {
      r := DeriveAndSetState(props);
    }

    /** The synthesized `componentWillReceiveProps(nextProps)`: derives state from the
        incoming props and the current state. */
    method ComponentWillReceiveProps(nextProps: Dict) returns (r: Result<(), Thrown>)
      modifies this
      ensures DeriveStep(ctor.getDerivedStateFromProps, nextProps, old(state), state, r)
      ensures props == old(props) && snapshot == old(snapshot) && calls == old(calls)
    {
      r := DeriveAndSetState(nextProps);
    }

    /** The synthesized `componentWillUpdate(nextProps, nextState)`: shows
        `getSnapshotBeforeUpdate(prevProps, prevState)` the next props and state, stores what it
        returns, and puts the current props and state back whether it returns or throws. */
    method ComponentWillUpdate(nextProps: Dict, nextState: Dict) returns (r: Result<(), Thrown>)
      requires GetSnapshotBeforeUpdate in ctor.proto ==> ctor.proto[GetSnapshotBeforeUpdate].Authored?
      modifies this
      ensures props == old(props) && state == old(state)
      ensures GetSnapshotBeforeUpdate !in ctor.proto ==>
                && r == Failure(NotAFunction(GetSnapshotBeforeUpdate))
                && snapshot == old(snapshot) && calls == old(calls)
      ensures GetSnapshotBeforeUpdate in ctor.proto ==>
                var args := [Obj(old(props)), Obj(old(state))];
                var taken := ctor.proto[GetSnapshotBeforeUpdate].body(nextProps, nextState, args);
                && calls == old(calls) + [Call(GetSnapshotBeforeUpdate, nextProps, nextState, args)]
                && r == Completion(taken)
                && snapshot == (if taken.Success? then taken.value else old(snapshot))
    {
      // try
      var prevProps := props;
      var prevState := state;
      props := nextProps;
      state := nextState;
      if GetSnapshotBeforeUpdate in ctor.proto {
        var getSnapshotBeforeUpdate := ctor.proto[GetSnapshotBeforeUpdate].body;
        var taken := CallAuthored(GetSnapshotBeforeUpdate, getSnapshotBeforeUpdate, [Obj(prevProps), Obj(prevState)]);
        match taken
        case Success(v) =>
          snapshot := v;
          r := Success(());
        case Failure(e) =>
          r := Failure(Raised(e));
      } else {
        r := Failure(NotAFunction(GetSnapshotBeforeUpdate));
      }
      // finally
      props := prevProps;
      state := prevState;
    }

    /** The synthesized `componentDidUpdate(prevProps, prevState)` wrapping `original`, the
        entry it replaced: forwards the stored snapshot as a third argument. A table entry
        `DidUpdatePolyfill(original)` runs as this method with that `original`, just as the
        entries `WillMountPolyfill`, `WillReceivePropsPolyfill` and `WillUpdatePolyfill` run as
        `ComponentWillMount`, `ComponentWillReceiveProps` and `ComponentWillUpdate`. */
    method ComponentDidUpdatePolyfill(original: Method, prevProps: Dict, prevState: Dict) returns (r: Result<(), Thrown>)
      requires DidUpdateChain(original)
      modifies this
      ensures props == old(props) && state == old(state) && snapshot == old(snapshot)
      ensures var o := DidUpdateOutcome(original, props, state, prevProps, prevState, snapshot);
              r == o.0 && calls == old(calls) + o.1
      decreases original
    {
      match original
      case Authored(componentDidUpdate) =>
        var returned := CallAuthored(DidUpdate, componentDidUpdate, [Obj(prevProps), Obj(prevState), snapshot]);
        r := Completion(returned);
      case DidUpdatePolyfill(inner) =>
        r := ComponentDidUpdatePolyfill(inner, prevProps, prevState);
    }
  }
}
