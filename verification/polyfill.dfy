/** `polyfill(Component)`: the guard checks and the in-place installation of the
    synthesized lifecycle methods on `Component.prototype`. */
module Compat {
  import opened Values
  import opened Components

  /** The errors `polyfill` throws, in the order its checks run. */
  datatype PolyfillError =
    | NotAClassComponent
    | DefinesWillMount
    | DefinesWillReceiveProps
    | DefinesWillUpdate
    | MissingDidUpdate

  const DerivedStatePrefix := "Cannot polyfill getDerivedStateFromProps() for components that "
  const SnapshotPrefix := "Cannot polyfill getSnapshotBeforeUpdate() for components that "

  /** The message each thrown `Error` carries: a conflict names the new-style method that
      cannot be polyfilled. */
  function Message(e: PolyfillError): (text: string)
    ensures e in {DefinesWillMount, DefinesWillReceiveProps} ==> DerivedStatePrefix <= text
    ensures e in {DefinesWillUpdate, MissingDidUpdate} ==> SnapshotPrefix <= text
  {
    match e
    case NotAClassComponent => "Can only polyfill class components"
    case DefinesWillMount => DerivedStatePrefix + "define componentWillMount()"
    case DefinesWillReceiveProps => DerivedStatePrefix + "define componentWillReceiveProps()"
    case DefinesWillUpdate => SnapshotPrefix + "define componentWillUpdate()"
    case MissingDidUpdate => SnapshotPrefix + "do not define componentDidUpdate() on the prototype"
  }

  /** A thrown message identifies the check that threw it. */
  lemma MessagesDistinct(e1: PolyfillError, e2: PolyfillError)
    ensures Message(e1) == Message(e2) ==> e1 == e2
  {
    // the five messages have lengths 34, 90, 97, 90 and 113; the two of length 90
    // differ where they name the new-style method
    assert DerivedStatePrefix[19] == 'D' && SnapshotPrefix[19] == 'S';
    assert Message(DefinesWillMount)[19] == DerivedStatePrefix[19];
    assert Message(DefinesWillUpdate)[19] == SnapshotPrefix[19];
  }

  /** What a call answers, together with the prototype's table when it returns or throws. */
  datatype Outcome = Outcome(result: Result<(), PolyfillError>, proto: map<string, Method>)

  /** The derived-state stage, run when the static `getDerivedStateFromProps` is a function:
      refuse an existing `componentWillMount` (checked first) or `componentWillReceiveProps`,
      otherwise install both synthesized hooks. */
  function InstallDerivedState(proto: map<string, Method>): (r: Result<map<string, Method>, PolyfillError>)
    ensures r == Failure(DefinesWillMount) <==> WillMount in proto
    ensures r == Failure(DefinesWillReceiveProps) <==> WillMount !in proto && WillReceiveProps in proto
    ensures r.Success? <==> WillMount !in proto && WillReceiveProps !in proto
    ensures r.Success? ==>
              && r.value.Keys == proto.Keys + {WillMount, WillReceiveProps}
              && r.value[WillMount] == WillMountPolyfill
              && r.value[WillReceiveProps] == WillReceivePropsPolyfill
              && forall k :: k in proto ==> r.value[k] == proto[k]
  {
    if WillMount in proto then
      Failure(DefinesWillMount)
    else if WillReceiveProps in proto then
      Failure(DefinesWillReceiveProps)
    else
      Success(proto[WillMount := WillMountPolyfill][WillReceiveProps := WillReceivePropsPolyfill])
  }

  /** The snapshot stage, run when the prototype has `getSnapshotBeforeUpdate`: refuse an
      existing `componentWillUpdate` (checked first) or a missing `componentDidUpdate`,
      otherwise install the synthesized `componentWillUpdate` and wrap `componentDidUpdate`. */
  function InstallSnapshot(proto: map<string, Method>): (o: Outcome)
    ensures GetSnapshotBeforeUpdate !in proto ==> o.result == Success(()) && o.proto == proto
    ensures o.result == Failure(DefinesWillUpdate) <==>
              GetSnapshotBeforeUpdate in proto && WillUpdate in proto
    ensures o.result == Failure(MissingDidUpdate) <==>
              GetSnapshotBeforeUpdate in proto && WillUpdate !in proto && DidUpdate !in proto
    ensures o.result.Failure? ==> o.result.error in {DefinesWillUpdate, MissingDidUpdate} && o.proto == proto
    ensures o.result.Success? && GetSnapshotBeforeUpdate in proto ==>
              && DidUpdate in proto
              && o.proto.Keys == proto.Keys + {WillUpdate}
              && o.proto[WillUpdate] == WillUpdatePolyfill
              && o.proto[DidUpdate] == DidUpdatePolyfill(proto[DidUpdate])
              && forall k :: k in proto && k != DidUpdate ==> o.proto[k] == proto[k]
  {
    if GetSnapshotBeforeUpdate !in proto then
      Outcome(Success(()), proto)
    else if WillUpdate in proto then
      Outcome(Failure(DefinesWillUpdate), proto)
    else if DidUpdate !in proto then
      Outcome(Failure(MissingDidUpdate), proto)
    else
      var withWillUpdate := proto[WillUpdate := WillUpdatePolyfill];
      var componentDidUpdate := withWillUpdate[DidUpdate];
      Outcome(Success(()), withWillUpdate[DidUpdate := DidUpdatePolyfill(componentDidUpdate)])
  }

  /** The definition has `getDerivedStateFromProps` together with a legacy hook it replaces. */
  predicate DerivedStateConflict(d: Definition)
  {
    d.hasDerivedStateFromProps && (WillMount in d.proto || WillReceiveProps in d.proto)
  }

  /** The whole of `polyfill`: the class check, then the derived-state stage, then the
      snapshot stage, each of which may throw after the earlier stages have written. */
  function PolyfillSpec(d: Definition): (o: Outcome)
    // the class check, which changes nothing when it fails
    ensures o.result == Failure(NotAClassComponent) <==> !d.IsClassComponent()
    ensures !d.IsClassComponent() ==> o.proto == d.proto
    // the derived-state conflicts, checked only when getDerivedStateFromProps is a function
    ensures o.result == Failure(DefinesWillMount) <==>
              d.IsClassComponent() && d.hasDerivedStateFromProps && WillMount in d.proto
    ensures o.result == Failure(DefinesWillReceiveProps) <==>
              && d.IsClassComponent() && d.hasDerivedStateFromProps
              && WillMount !in d.proto && WillReceiveProps in d.proto
    ensures DerivedStateConflict(d) ==> o.proto == d.proto
    // the snapshot conflicts, checked after the derived-state stage
    ensures o.result == Failure(DefinesWillUpdate) <==>
              && d.IsClassComponent() && !DerivedStateConflict(d)
              && GetSnapshotBeforeUpdate in d.proto && WillUpdate in d.proto
    ensures o.result == Failure(MissingDidUpdate) <==>
              && d.IsClassComponent() && !DerivedStateConflict(d)
              && GetSnapshotBeforeUpdate in d.proto && WillUpdate !in d.proto && DidUpdate !in d.proto
    // the derived-state hooks are in place once that stage passes, even if the snapshot stage throws
    ensures d.IsClassComponent() && d.hasDerivedStateFromProps && !DerivedStateConflict(d) ==>
              && WillMount in o.proto && o.proto[WillMount] == WillMountPolyfill
              && WillReceiveProps in o.proto && o.proto[WillReceiveProps] == WillReceivePropsPolyfill
    // the snapshot hooks are in place on success
    ensures o.result.Success? && GetSnapshotBeforeUpdate in d.proto ==>
              && WillUpdate in o.proto && o.proto[WillUpdate] == WillUpdatePolyfill
              && DidUpdate in d.proto && DidUpdate in o.proto
              && o.proto[DidUpdate] == DidUpdatePolyfill(d.proto[DidUpdate])
    // nothing else is touched
    ensures o.proto.Keys <= d.proto.Keys + {WillMount, WillReceiveProps, WillUpdate}
    ensures WillMount in o.proto ==>
              WillMount in d.proto || (d.IsClassComponent() && d.hasDerivedStateFromProps && !DerivedStateConflict(d))
    ensures WillReceiveProps in o.proto ==>
              WillReceiveProps in d.proto || (d.IsClassComponent() && d.hasDerivedStateFromProps && !DerivedStateConflict(d))
    ensures WillUpdate in o.proto ==>
              WillUpdate in d.proto || (o.result.Success? && GetSnapshotBeforeUpdate in d.proto)
    ensures forall k :: k in d.proto && k != DidUpdate ==> k in o.proto && o.proto[k] == d.proto[k]
    ensures DidUpdate in d.proto && !(o.result.Success? && GetSnapshotBeforeUpdate in d.proto) ==>
              DidUpdate in o.proto && o.proto[DidUpdate] == d.proto[DidUpdate]
    // a component with neither new-style method passes unchanged
    ensures d.IsClassComponent() && !d.hasDerivedStateFromProps && GetSnapshotBeforeUpdate !in d.proto ==>
              o.result == Success(()) && o.proto == d.proto
  {
    if !d.IsClassComponent() then
      Outcome(Failure(NotAClassComponent), d.proto)
    else if d.hasDerivedStateFromProps then
      match InstallDerivedState(d.proto)
      case Failure(e) => Outcome(Failure(e), d.proto)
      case Success(installed) => InstallSnapshot(installed)
    else
      InstallSnapshot(d.proto)
  }

  /** `polyfill(Component)`: rewrites `Component.prototype` in place and returns the same
      component, or throws partway through, leaving what the earlier stages wrote. */
  method Polyfill(component: Component) returns (r: Result<Component, PolyfillError>)
    modifies component
    ensures component.hasPrototype == old(component.hasPrototype)
    ensures component.isReactComponent == old(component.isReactComponent)
    ensures component.getDerivedStateFromProps == old(component.getDerivedStateFromProps)
    ensures component.proto == PolyfillSpec(old(component.View())).proto
    ensures r.Success? <==> PolyfillSpec(old(component.View())).result.Success?
    ensures r.Success? ==> r.value == component
    ensures r.Failure? ==> PolyfillSpec(old(component.View())).result == Failure(r.error)
  {
    if !component.hasPrototype || !component.isReactComponent {
      return Failure(NotAClassComponent);
    }

    if component.getDerivedStateFromProps.Some? {
      if WillMount in component.proto {
        return Failure(DefinesWillMount);
      } else if WillReceiveProps in component.proto {
        return Failure(DefinesWillReceiveProps);
      }
      component.proto := component.proto[WillMount := WillMountPolyfill];
      component.proto := component.proto[WillReceiveProps := WillReceivePropsPolyfill];
    }

    if GetSnapshotBeforeUpdate in component.proto {
      if WillUpdate in component.proto {
        return Failure(DefinesWillUpdate);
      }
      if DidUpdate !in component.proto {
        return Failure(MissingDidUpdate);
      }
      component.proto := component.proto[WillUpdate := WillUpdatePolyfill];
      var componentDidUpdate := component.proto[DidUpdate];
      component.proto := component.proto[DidUpdate := DidUpdatePolyfill(componentDidUpdate)];
    }

    return Success(component);
  }

  /** A second `polyfill` of a definition whose first call installed the derived-state
      hooks throws, because it now finds its own `componentWillMount`; this holds even when
      the first call went on to throw in the snapshot stage. */
  lemma SecondPolyfillFails(d: Definition)
    requires d.IsClassComponent() && d.hasDerivedStateFromProps && !DerivedStateConflict(d)
    ensures PolyfillSpec(d.(proto := PolyfillSpec(d).proto)).result == Failure(DefinesWillMount)
  {
  }

  /** Likewise for a definition with only `getSnapshotBeforeUpdate`: the second call finds
      the synthesized `componentWillUpdate`. */
  lemma SecondSnapshotPolyfillFails(d: Definition)
    requires d.IsClassComponent() && !d.hasDerivedStateFromProps && GetSnapshotBeforeUpdate in d.proto
    requires PolyfillSpec(d).result.Success?
    ensures PolyfillSpec(d.(proto := PolyfillSpec(d).proto)).result == Failure(DefinesWillUpdate)
  {
  }

  /** Every legacy hook `polyfill` adds is one marked to suppress React's deprecation warning,
      and a `componentDidUpdate` chain stays a chain once wrapped. */
  lemma PolyfillInstallsMarkedHooks(d: Definition)
    ensures forall k :: k in PolyfillSpec(d).proto && k !in d.proto ==>
              SuppressesDeprecationWarning(PolyfillSpec(d).proto[k])
    ensures DidUpdate in d.proto && DidUpdateChain(d.proto[DidUpdate]) ==>
              DidUpdateChain(PolyfillSpec(d).proto[DidUpdate])
  {
  }
}
