/** Components run through `polyfill` and the synthesized hooks: four from the repository's
    tests, and two with `getSnapshotBeforeUpdate`, which those tests do not exercise. */
module Scenarios {
  import opened Values
  import opened Components
  import opened Compat
  import opened Lifecycle

  /** A numeric property of an object, 0 when it is absent or not a number. */
  function NumberAt(d: Dict, key: string): (n: int)
  {
    if key in d && d[key].Num? then d[key].n else 0
  }

  /** `getDerivedStateFromProps(nextProps, prevState)` returning
      `{count: prevState.count + nextProps.incrementBy}`. */
  const CounterDerive: DeriveFn :=
    (props: Dict, state: Dict) =>
      Success(PartialState(map["count" := Num(NumberAt(state, "count") + NumberAt(props, "incrementBy"))]))

  /** A `render` whose body is not part of the model. */
  const Render: AuthoredBody := (props: Dict, state: Dict, args: seq<Value>) => Success(Null)

  /** A class component with state `{count: 1}` is mounted with `incrementBy: 2`, then
      receives `incrementBy: 3`: the count is 3 after mounting and 6 after the update. */
  method CounterScenario() returns (mounted: Value, updated: Value)
    ensures mounted == Num(3) && updated == Num(6)
  {
    var component := new Component(true, true, Some(CounterDerive), map["render" := Authored(Render)]);
    var polyfilled := Polyfill(component);
    assert polyfilled == Success(component);
    assert component.proto[WillMount].WillMountPolyfill?;
    assert component.proto[WillReceiveProps].WillReceivePropsPolyfill?;

    var instance := new Instance(component, map["incrementBy" := Num(2)], map["count" := Num(1)]);
    var _ := instance.ComponentWillMount();
    mounted := instance.state["count"];

    var nextProps := map["incrementBy" := Num(3)];
    var _ := instance.ComponentWillReceiveProps(nextProps);
    instance.props := nextProps;
    updated := instance.state["count"];
  }

  const BaseDerive: DeriveFn :=
    (props: Dict, state: Dict) => Success(PartialState(map["foo" := Str("foo")]))

  /** The subclass's static spreads the base class's result and adds `bar`. */
  const SubDerive: DeriveFn :=
    (props: Dict, state: Dict) =>
      match BaseDerive(props, state)
      case Success(PartialState(changes)) => Success(PartialState(changes["bar" := Str("bar")]))
      case other => other

  /** A base class is polyfilled and a subclass declares its own static: an instance of the
      subclass derives its state through the subclass's static, so it sees both keys. */
  method SubclassScenario() returns (foo: Value, bar: Value)
    ensures foo == Str("foo") && bar == Str("bar")
  {
    var base := new Component(true, true, Some(BaseDerive), map["render" := Authored(Render)]);
    var polyfilled := Polyfill(base);
    assert polyfilled.Success?;
    // the subclass's prototype lookup finds the entries the base class's prototype now has
    var sub := new Component(true, true, Some(SubDerive), base.proto);
    assert sub.proto[WillMount].WillMountPolyfill?;

    var instance := new Instance(sub, map[], map[]);
    var _ := instance.ComponentWillMount();
    foo := instance.state["foo"];
    bar := instance.state["bar"];
  }

  /** A `getSnapshotBeforeUpdate` that reads `this.props.scroll`. */
  const ReadScroll: AuthoredBody :=
    (props: Dict, state: Dict, args: seq<Value>) => Success(Num(NumberAt(props, "scroll")))

  const IgnoreArguments: AuthoredBody :=
    (props: Dict, state: Dict, args: seq<Value>) => Success(Undefined)

  /** A component with `getSnapshotBeforeUpdate` and `componentDidUpdate` is updated from
      `scroll: 1` to `scroll: 5`: the snapshot is taken against the next props, the current props
      are back afterwards, and the author's `componentDidUpdate` receives the snapshot. */
  method SnapshotScenario() returns (stored: Value, restored: Dict, ghost received: seq<Value>)
    ensures stored == Num(5)
    ensures restored == map["scroll" := Num(1)]
    ensures received == [Obj(map["scroll" := Num(1)]), Obj(map[]), Num(5)]
  {
    var component := new Component(true, true, None,
      map[GetSnapshotBeforeUpdate := Authored(ReadScroll), DidUpdate := Authored(IgnoreArguments)]);
    var polyfilled := Polyfill(component);
    assert polyfilled.Success?;
    assert component.proto[WillUpdate].WillUpdatePolyfill?;
    var wrapper := component.proto[DidUpdate];
    assert wrapper == DidUpdatePolyfill(Authored(IgnoreArguments));

    var prevProps := map["scroll" := Num(1)];
    var nextProps := map["scroll" := Num(5)];
    var instance := new Instance(component, prevProps, map[]);
    var _ := instance.ComponentWillUpdate(nextProps, map[]);
    stored := instance.snapshot;
    restored := instance.props;

    // React now calls `componentDidUpdate`; the table holds the wrapper closing over the
    // author's method, so it runs as `ComponentDidUpdatePolyfill` with that method
    instance.props := nextProps;
    var _ := instance.ComponentDidUpdatePolyfill(wrapper.original, prevProps, map[]);
    received := instance.calls[|instance.calls| - 1].args;
  }

  const Throwing: AuthoredBody :=
    (props: Dict, state: Dict, args: seq<Value>) => Failure(Str("boom"))

  /** When `getSnapshotBeforeUpdate` throws, the error reaches the caller unchanged, the
      stored snapshot is left alone and the current props and state are back. */
  method ThrowingSnapshotScenario() returns (thrown: Result<(), Thrown>, stored: Value, restored: Dict)
    ensures thrown == Failure(Raised(Str("boom")))
    ensures stored == Undefined
    ensures restored == map["scroll" := Num(1)]
  {
    var component := new Component(true, true, None,
      map[GetSnapshotBeforeUpdate := Authored(Throwing), DidUpdate := Authored(IgnoreArguments)]);
    var _ := Polyfill(component);
    var instance := new Instance(component, map["scroll" := Num(1)], map[]);
    thrown := instance.ComponentWillUpdate(map["scroll" := Num(5)], map[]);
    stored := instance.snapshot;
    restored := instance.props;
  }

  /** A function component has a prototype but no `isReactComponent` marker: `polyfill`
      refuses it and leaves it as it was. */
  method FunctionComponentScenario() returns (refused: PolyfillError)
    ensures refused == NotAClassComponent
  {
    var component := new Component(true, false, None, map[]);
    var r := Polyfill(component);
    refused := r.error;
    assert component.proto == map[];
  }

  /** A component with `componentWillMount`/`componentWillReceiveProps` and no new-style method
      passes through unchanged; with `getDerivedStateFromProps` added, each of them is refused. */
  method LegacyHooksScenario() returns (plain: bool, withWillMount: PolyfillError, withWillReceiveProps: PolyfillError)
    ensures plain
    ensures withWillMount == DefinesWillMount
    ensures withWillReceiveProps == DefinesWillReceiveProps
  {
    var legacy := map[WillMount := Authored(IgnoreArguments), WillReceiveProps := Authored(IgnoreArguments)];
    var lifecycles := new Component(true, true, None, legacy);
    var r := Polyfill(lifecycles);
    plain := r.Success?;
    assert lifecycles.proto == legacy;

    var willMount := new Component(true, true, Some(BaseDerive), map[WillMount := Authored(IgnoreArguments)]);
    r := Polyfill(willMount);
    withWillMount := r.error;

    var willReceiveProps := new Component(true, true, Some(BaseDerive), map[WillReceiveProps := Authored(IgnoreArguments)]);
    r := Polyfill(willReceiveProps);
    withWillReceiveProps := r.error;
  }
}
