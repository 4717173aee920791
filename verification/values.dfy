/** The JavaScript values the adapter passes around: props and state objects,
    snapshots, and the values that lifecycle methods throw. */
module Values {

  /** A Failure stands for a thrown exception; Success for a normal return. */
  datatype Result<+T, +E> = Success(value: T) | Failure(error: E)

  datatype Option<+T> = None | Some(value: T)

  /** A JavaScript value, restricted to the shapes props, state and snapshots take here. */
  datatype Value =
    | Undefined
    | Null
    | Bool(b: bool)
    | Num(n: int)
    | Str(s: string)
    | Obj(fields: map<string, Value>)

  /** A plain object such as `this.props` or `this.state`: property name to value. */
  type Dict = map<string, Value>

  /** React's `setState(partialState)` for an object argument: a shallow merge in which
      the returned keys overwrite and every other key of the state persists. */
  function Merge(state: Dict, partial: Dict): (r: Dict)
    ensures r.Keys == state.Keys + partial.Keys
    ensures forall k :: k in partial ==> r[k] == partial[k]
    ensures forall k :: k in state && k !in partial ==> r[k] == state[k]
  {
    state + partial
  }
}
