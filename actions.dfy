/** The three message type identifiers and the message builders
    (`setPending`, `resolve`, `reject`) of one `createReduxTrackPromise`
    instance. */
module Actions {
  import opened Values

  /** The canonical type names exported by the component. */
  const SET_PENDING: string := "SET_PENDING"
  const RESOLVE: string := "RESOLVE"
  const REJECT: string := "REJECT"

  /** The renaming applied when the factory is called without one. */
  function Identity(actionType: string): string { actionType }

  /** The three identifiers after renaming, fixed for the life of an instance. */
  datatype ActionTypes = ActionTypes(setPending: string, resolve: string, reject: string)

  /** A Redux action. `error` is false when the field is absent. */
  datatype Message = Message(kind: string, payload: Value, error: bool)

  /** The renaming function is applied once to each canonical name. */
  function MakeTypes(customize: string -> string): ActionTypes
  {
    ActionTypes(customize(SET_PENDING), customize(RESOLVE), customize(REJECT))
  }

  /** The three identifiers are pairwise different. */
  predicate Distinct(types: ActionTypes)
  {
    && types.setPending != types.resolve
    && types.setPending != types.reject
    && types.resolve != types.reject
  }

  /** The message type is one the reducer reacts to. */
  predicate IsPromiseAction(types: ActionTypes, kind: string)
  {
    kind == types.setPending || kind == types.resolve || kind == types.reject
  }

  /** `setPending(pending = true)`: an explicit `undefined` argument also
      takes the default, as JavaScript default parameters do. */
  function SetPending(types: ActionTypes, pending: Value): Message
  {
    Message(types.setPending, if pending == Undefined then Bool(true) else pending, false)
  }

  function Resolve(types: ActionTypes, result: Value): Message
  {
    Message(types.resolve, result, false)
  }

  function Reject(types: ActionTypes, reason: Value): Message
  {
    Message(types.reject, reason, true)
  }

  /** Each builder uses its own identifier, which the reducer reacts to; only
      a rejection is flagged as an error, and `setPending()` carries `true`. */
  lemma BuiltMessages(types: ActionTypes, v: Value)
    ensures SetPending(types, v).kind == types.setPending
    ensures Resolve(types, v).kind == types.resolve
    ensures Reject(types, v).kind == types.reject
    ensures IsPromiseAction(types, SetPending(types, v).kind) && !SetPending(types, v).error
    ensures IsPromiseAction(types, Resolve(types, v).kind) && !Resolve(types, v).error
    ensures IsPromiseAction(types, Reject(types, v).kind) && Reject(types, v).error
    ensures SetPending(types, Undefined).payload == Bool(true)
    ensures v != Undefined ==> SetPending(types, v).payload == v
    ensures Resolve(types, v).payload == v && Reject(types, v).payload == v
  {
  }

  /** Without a renaming function the identifiers are the canonical names,
      and they are distinct. */
  lemma DefaultTypes()
    ensures MakeTypes(Identity) == ActionTypes(SET_PENDING, RESOLVE, REJECT)
    ensures Distinct(MakeTypes(Identity))
  {
  }

  /** An injective renaming keeps the identifiers distinct, since the three
      canonical names differ. */
  lemma InjectiveRenamingDistinct(customize: string -> string)
    requires forall a, b :: customize(a) == customize(b) ==> a == b
    ensures Distinct(MakeTypes(customize))
  {
  }

  /** Prefixing every name (as in `actionType => '@@test/' + actionType`)
      keeps the identifiers distinct. */
  lemma PrefixRenamingDistinct(prefix: string)
    ensures Distinct(MakeTypes(s => prefix + s))
  {
  }
}
