/** The store: the state reached by folding the reducer over the messages
    dispatched to it, oldest first. */
module Store {
  import opened Values
  import opened Actions
  import opened Reducer

  /** The state after `log` has been dispatched, starting from `prior`. */
  function StateAfter(types: ActionTypes, prior: Option<State>, log: seq<Message>): Option<State>
    decreases |log|
  {
    if log == [] then prior
    else Some(Reduce(types, StateAfter(types, prior, log[..|log| - 1]), log[|log| - 1]))
  }

  /** The position of the last message in `log` the reducer reacts to. */
  function LastPromiseAction(types: ActionTypes, log: seq<Message>): (r: Option<nat>)
    decreases |log|
    ensures r.Some? ==> r.value < |log| && IsPromiseAction(types, log[r.value].kind)
    ensures r.Some? ==> forall j :: r.value < j < |log| ==> !IsPromiseAction(types, log[j].kind)
    ensures r.None? ==> forall j :: 0 <= j < |log| ==> !IsPromiseAction(types, log[j].kind)
  {
    if log == [] then None
    else if IsPromiseAction(types, log[|log| - 1].kind) then Some(|log| - 1)
    else LastPromiseAction(types, log[..|log| - 1])
  }

  /** The store shows the effect of the last recognised message alone; when
      there is none, it keeps the prior state (or the default one). */
  lemma {:induction false} StateAfterLastPromiseAction(types: ActionTypes, prior: Option<State>, log: seq<Message>)
    ensures LastPromiseAction(types, log).Some? ==>
              StateAfter(types, prior, log)
              == Some(Reduce(types, None, log[LastPromiseAction(types, log).value]))
    ensures LastPromiseAction(types, log).None? && log != [] ==>
              StateAfter(types, prior, log)
              == Some(if prior.Some? then prior.value else DefaultState())
    decreases |log|
  {
    if log != [] {
      var init := log[..|log| - 1];
      StateAfterLastPromiseAction(types, prior, init);
      if !IsPromiseAction(types, log[|log| - 1].kind) {
        assert LastPromiseAction(types, log) == LastPromiseAction(types, init);
        if LastPromiseAction(types, init).Some? {
          assert init[LastPromiseAction(types, init).value] == log[LastPromiseAction(types, log).value];
        }
      }
    }
  }

  /** When the identifiers are distinct, every state the store goes through
      is well formed. */
  lemma {:induction false} StateAfterWellFormed(types: ActionTypes, prior: Option<State>, log: seq<Message>)
    requires Distinct(types)
    requires prior.Some? ==> WellFormed(prior.value)
    ensures StateAfter(types, prior, log).Some? ==> WellFormed(StateAfter(types, prior, log).value)
    decreases |log|
  {
    if log != [] {
      StateAfterWellFormed(types, prior, log[..|log| - 1]);
    }
  }
}
