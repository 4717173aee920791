/** Component definitions as the adapter sees them: a static derived-state function
    and a prototype whose method table the adapter reads and writes. */
module Components {
  import opened Values

  const GetDerivedStateFromProps := "getDerivedStateFromProps"
  const GetSnapshotBeforeUpdate := "getSnapshotBeforeUpdate"
  const WillMount := "componentWillMount"
  const WillReceiveProps := "componentWillReceiveProps"
  const WillUpdate := "componentWillUpdate"
  const DidUpdate := "componentDidUpdate"

  /** What a `getDerivedStateFromProps` call returns: null, undefined or a partial state. */
  datatype Derived = NullResult | UndefinedResult | PartialState(changes: Dict)

  /** A static `getDerivedStateFromProps(props, state)`; a Failure is the value it throws. */
  type DeriveFn = (Dict, Dict) -> Result<Derived, Value>

  /** The body of a method the component's author wrote, as a function of `this.props`,
      `this.state` and the argument list; a Failure is the value it throws. */
  type AuthoredBody = (Dict, Dict, seq<Value>) -> Result<Value, Value>

  /** An entry of `Component.prototype`: a method the author wrote, or one the adapter installs. */
  datatype Method =
    | Authored(body: AuthoredBody)
    | WillMountPolyfill
    | WillReceivePropsPolyfill
    | WillUpdatePolyfill
      /** The replacement `componentDidUpdate`, closing over the entry it replaced. */
    | DidUpdatePolyfill(original: Method)

  /** The three synthesized legacy hooks carry `__suppressDeprecationWarning = true`. */
  predicate SuppressesDeprecationWarning(m: Method)
  {
    m.WillMountPolyfill? || m.WillReceivePropsPolyfill? || m.WillUpdatePolyfill?
  }

  /** A `componentDidUpdate` entry that, after zero or more adapter wrappers,
      reaches a method the author wrote. */
  predicate DidUpdateChain(m: Method)
  {
    match m
    case Authored(_) => true
    case DidUpdatePolyfill(inner) => DidUpdateChain(inner)
    case _ => false
  }

  /** The innermost author-written `componentDidUpdate` of a wrapper chain. */
  function AuthoredDidUpdate(m: Method): (body: AuthoredBody)
    requires DidUpdateChain(m)
  {
    match m
    case Authored(body) => body
    case DidUpdatePolyfill(inner) => AuthoredDidUpdate(inner)
  }

  /** A component definition as a value: what `polyfill` inspects and the table it rewrites.
      `proto` is the method table as property lookup on the prototype sees it. */
  datatype Definition = Definition(
    hasPrototype: bool,
    isReactComponent: bool,
    hasDerivedStateFromProps: bool,
    proto: map<string, Method>)
  {
    /** `Component.prototype` exists and carries React's `isReactComponent` marker. */
    predicate IsClassComponent()
    {
      hasPrototype && isReactComponent
    }
  }

  /** A component class (the constructor function) whose prototype `polyfill` edits in place. */
  class Component {
    var hasPrototype: bool
    var isReactComponent: bool
    /** The static `getDerivedStateFromProps`, when it is a function. */
    var getDerivedStateFromProps: Option<DeriveFn>
    /** The prototype's method table; a key is present when `typeof` finds a function there. */
    var proto: map<string, Method>

    constructor (hasPrototype: bool, isReactComponent: bool, derive: Option<DeriveFn>, proto: map<string, Method>)
      ensures this.hasPrototype == hasPrototype && this.isReactComponent == isReactComponent
      ensures getDerivedStateFromProps == derive && this.proto == proto
    {
      this.hasPrototype := hasPrototype;
      this.isReactComponent := isReactComponent;
      getDerivedStateFromProps := derive;
      this.proto := proto;
    }

    function View(): Definition
      reads this
    {
      Definition(hasPrototype, isReactComponent, getDerivedStateFromProps.Some?, proto)
    }
  }
}
