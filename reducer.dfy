/** The pure reducer of one instance, and `initialPromiseState`. */
module Reducer {
  import opened Values
  import opened Actions

  /** The promise state kept in the store. `pending` holds the payload of the
      last `setPending` message, which is `true` unless the caller passed
      another value. */
  datatype State = State(pending: Value, fulfilled: bool, rejected: bool, value: Value, reason: Value)

  /** `{pending: false, fulfilled: false, rejected: false, value: null, reason: null}` */
  function DefaultState(): State
  {
    State(Bool(false), false, false, Null, Null)
  }

  /** At most one phase holds, a value only when fulfilled, a reason only
      when rejected; every state the reducer builds from distinct
      identifiers satisfies it. */
  predicate WellFormed(s: State)
  {
    && !(s.fulfilled && s.rejected)
    && (s.pending != Bool(false) ==> !s.fulfilled && !s.rejected)
    && (s.value != Null ==> s.fulfilled)
    && (s.reason != Null ==> s.rejected)
  }

  /** `reducer(state, action)`. Unrelated messages leave an existing state
      alone; otherwise the new state is computed from the message only. */
  function Reduce(types: ActionTypes, prior: Option<State>, action: Message): (r: State)
    ensures !IsPromiseAction(types, action.kind) && prior.Some? ==> r == prior.value
    ensures !IsPromiseAction(types, action.kind) && prior.None? ==> r == DefaultState()
    ensures Distinct(types) && action.kind == types.setPending ==>
              r == State(action.payload, false, false, Null, Null)
    ensures Distinct(types) && action.kind == types.resolve ==>
              r == State(Bool(false), true, false, action.payload, Null)
    ensures Distinct(types) && action.kind == types.reject ==>
              r == State(Bool(false), false, true, Null, action.payload)
    ensures Distinct(types) && (prior.Some? ==> WellFormed(prior.value)) ==> WellFormed(r)
  {
    var kind := action.kind;
    if kind != types.setPending && kind != types.resolve && kind != types.reject && prior.Some? then
      prior.value
    else
      State(
        if kind == types.setPending then action.payload else Bool(false),
        kind == types.resolve,
        kind == types.reject,
        if kind == types.resolve then action.payload else Null,
        if kind == types.reject then action.payload else Null)
  }

  /** `initialPromiseState`: the default instance's reducer applied to no
      state and the message `{type: ''}`. */
  function InitialPromiseState(): (s: State)
    ensures s == DefaultState()
    ensures WellFormed(s)
  {
    DefaultTypes();
    Reduce(MakeTypes(Identity), None, Message("", Undefined, false))
  }

  /** A recognised message determines the new state whatever the prior one. */
  lemma ReduceIgnoresPrior(types: ActionTypes, prior: Option<State>, other: Option<State>, action: Message)
    requires IsPromiseAction(types, action.kind)
    ensures Reduce(types, prior, action) == Reduce(types, other, action)
  {
  }

  /** Reducing `setPending(p)` from any prior state. */
  lemma ReduceSetPending(types: ActionTypes, prior: Option<State>, p: Value)
    requires Distinct(types)
    ensures Reduce(types, prior, SetPending(types, p))
         == State(if p == Undefined then Bool(true) else p, false, false, Null, Null)
  {
  }

  /** Reducing `resolve(v)` from any prior state. */
  lemma ReduceResolve(types: ActionTypes, prior: Option<State>, v: Value)
    requires Distinct(types)
    ensures Reduce(types, prior, Resolve(types, v)) == State(Bool(false), true, false, v, Null)
  {
  }

  /** Reducing `reject(r)` from any prior state. */
  lemma ReduceReject(types: ActionTypes, prior: Option<State>, r: Value)
    requires Distinct(types)
    ensures Reduce(types, prior, Reject(types, r)) == State(Bool(false), false, true, Null, r)
  {
  }

  /** The state after a message of the instance always reports its payload
      back: the value of a resolution, the reason of a rejection. */
  lemma ReduceReportsPayload(types: ActionTypes, prior: Option<State>, v: Value)
    ensures Reduce(types, prior, Resolve(types, v)).fulfilled
    ensures Reduce(types, prior, Resolve(types, v)).value == v
    ensures Reduce(types, prior, Reject(types, v)).rejected
    ensures Reduce(types, prior, Reject(types, v)).reason == v
  {
  }

  /** Without distinct identifiers the exclusivity of the phases fails: when
      every name is renamed to the same string, a resolution reports the
      state as fulfilled and rejected at once. */
  lemma CollidingTypesBreakExclusivity(v: Value)
    ensures var types := MakeTypes(_ => "X");
            !Distinct(types) && !WellFormed(Reduce(types, None, Resolve(types, v)))
  {
  }
}
