/** The tracking half of one instance: the `currentPromise` slot and
    `track(promise, dispatch)`, with the promise's later settlement made an
    explicit event. */
module Tracker {
  import opened Values
  import opened Actions
  import opened Reducer
  import opened Store

  /** A promise, known only by identity. */
  type PromiseId = nat

  /** How a promise settles. */
  datatype Outcome = Fulfilled(value: Value) | Rejected(reason: Value)

  /** What a dispatched message was dispatched for: the pending message of a
      `track` call, or the settlement seen by the reaction that the
      `handle`-th `track` call registered. */
  datatype Event =
    | Tracked(promise: PromiseId)
    | Settled(handle: nat, promise: PromiseId, outcome: Outcome)

  /** The message sent for a settlement. */
  function SettlementMessage(types: ActionTypes, outcome: Outcome): Message
  {
    match outcome
    case Fulfilled(v) => Resolve(types, v)
    case Rejected(r) => Reject(types, r)
  }

  /** The message sent for an event. */
  function EventMessage(types: ActionTypes, e: Event): Message
  {
    match e
    case Tracked(_) => SetPending(types, Undefined)
    case Settled(_, _, outcome) => SettlementMessage(types, outcome)
  }

  /** The promise of the most recent `track` call in `trace`. */
  function LastTracked(trace: seq<Event>): Option<PromiseId>
    decreases |trace|
  {
    if trace == [] then None
    else if trace[|trace| - 1].Tracked? then Some(trace[|trace| - 1].promise)
    else LastTracked(trace[..|trace| - 1])
  }

  /** The promises of the `track` calls in `trace`, in call order. */
  function TrackedPromises(trace: seq<Event>): seq<PromiseId>
    decreases |trace|
  {
    if trace == [] then []
    else if trace[|trace| - 1].Tracked? then TrackedPromises(trace[..|trace| - 1]) + [trace[|trace| - 1].promise]
    else TrackedPromises(trace[..|trace| - 1])
  }

  /** The most recent track call of `trace` is one of its track calls. */
  lemma {:induction false} LastTrackedWasTracked(trace: seq<Event>)
    requires LastTracked(trace).Some?
    ensures exists j :: 0 <= j < |trace| && trace[j] == Tracked(LastTracked(trace).value)
    decreases |trace|
  {
    if !trace[|trace| - 1].Tracked? {
      var init := trace[..|trace| - 1];
      LastTrackedWasTracked(init);
      var j :| 0 <= j < |init| && init[j] == Tracked(LastTracked(init).value);
      assert trace[j] == init[j];
    }
  }

  /** The settlement event at `i` was produced by a handler that has run,
      for the outcome its promise settled with, while that promise was still
      the most recently tracked one, after the handler's own `track` call. */
  ghost predicate SettledOk(trace: seq<Event>, ran: set<nat>, settledWith: map<PromiseId, Outcome>, i: nat)
    requires i < |trace| && trace[i].Settled?
  {
    var e := trace[i];
    && e.handle in ran
    && e.promise in settledWith && settledWith[e.promise] == e.outcome
    && LastTracked(trace[..i]) == Some(e.promise)
    && e.handle < |TrackedPromises(trace[..i])|
    && TrackedPromises(trace[..i])[e.handle] == e.promise
  }

  /** The invariant of the events behind the dispatched messages: the track
      calls are the registered reactions, every settlement event is
      `SettledOk`, and no handler reports twice. */
  ghost predicate TraceOk(trace: seq<Event>, reactions: seq<PromiseId>, ran: set<nat>,
                          settledWith: map<PromiseId, Outcome>)
  {
    && TrackedPromises(trace) == reactions
    && (forall h :: h in ran ==> h < |reactions|)
    && (forall i :: 0 <= i < |trace| && trace[i].Settled? ==> SettledOk(trace, ran, settledWith, i))
    && (forall i, j :: 0 <= i < j < |trace| && trace[i].Settled? && trace[j].Settled? ==>
          trace[i].handle != trace[j].handle)
  }

  /** A `track` call keeps the invariant. */
  lemma TrackKeepsTraceOk(trace: seq<Event>, reactions: seq<PromiseId>, ran: set<nat>,
                          settledWith: map<PromiseId, Outcome>, p: PromiseId)
    requires TraceOk(trace, reactions, ran, settledWith)
    ensures TraceOk(trace + [Tracked(p)], reactions + [p], ran, settledWith)
  {
    var t := trace + [Tracked(p)];
    assert t[..|t| - 1] == trace;
    forall i | 0 <= i < |t| && t[i].Settled?
      ensures SettledOk(t, ran, settledWith, i)
    {
      assert t[..i] == trace[..i];
      assert SettledOk(trace, ran, settledWith, i);
    }
  }

  /** A handler that runs while its promise is current, and reports, keeps
      the invariant. */
  lemma ReportKeepsTraceOk(trace: seq<Event>, reactions: seq<PromiseId>, ran: set<nat>,
                           settledWith: map<PromiseId, Outcome>, h: nat, o: Outcome)
    requires TraceOk(trace, reactions, ran, settledWith)
    requires h < |reactions| && h !in ran
    requires reactions[h] in settledWith ==> settledWith[reactions[h]] == o
    requires LastTracked(trace) == Some(reactions[h])
    ensures TraceOk(trace + [Settled(h, reactions[h], o)], reactions, ran + {h},
                    settledWith[reactions[h] := o])
  {
    var p := reactions[h];
    var t := trace + [Settled(h, p, o)];
    var ran', sw' := ran + {h}, settledWith[p := o];
    assert t[..|trace|] == trace;
    assert TrackedPromises(t) == TrackedPromises(trace);
    forall i | 0 <= i < |t| && t[i].Settled?
      ensures SettledOk(t, ran', sw', i)
    {
      if i < |trace| {
        assert t[..i] == trace[..i];
        assert SettledOk(trace, ran, settledWith, i);
      }
    }
    forall i, j | 0 <= i < j < |t| && t[i].Settled? && t[j].Settled?
      ensures t[i].handle != t[j].handle
    {
      if j == |trace| {
        assert SettledOk(trace, ran, settledWith, i);
      }
    }
  }

  /** A handler that runs after its promise was superseded keeps the
      invariant without adding an event. */
  lemma SilentKeepsTraceOk(trace: seq<Event>, reactions: seq<PromiseId>, ran: set<nat>,
                           settledWith: map<PromiseId, Outcome>, h: nat, o: Outcome)
    requires TraceOk(trace, reactions, ran, settledWith)
    requires h < |reactions|
    requires reactions[h] in settledWith ==> settledWith[reactions[h]] == o
    ensures TraceOk(trace, reactions, ran + {h}, settledWith[reactions[h] := o])
  {
  }

  /** One `createReduxTrackPromise` instance's tracker. */
  class PromiseTracker {
    /** The identifiers, computed once at construction. */
    const types: ActionTypes
    /** The slot `currentPromise`. */
    var currentPromise: Option<PromiseId>
    /** Every message passed to `dispatch`, in order. */
    var dispatched: seq<Message>
    /** The promise each `track` call attached its settlement handlers to;
        the index is that call's handle (the promise `track` returns). */
    var reactions: seq<PromiseId>

    /** The handles whose settlement handlers have already run. */
    ghost var ran: set<nat>
    /** The outcome of every promise that has settled. */
    ghost var settledWith: map<PromiseId, Outcome>
    /** Why each message was dispatched. */
    ghost var trace: seq<Event>

    ghost predicate Valid()
      reads this
    {
      && |trace| == |dispatched|
      && (forall i :: 0 <= i < |trace| ==> dispatched[i] == EventMessage(types, trace[i]))
      && currentPromise == LastTracked(trace)
      && TraceOk(trace, reactions, ran, settledWith)
    }

    /** `createReduxTrackPromise(customize)`: nothing tracked, nothing sent. */
    constructor (customize: string -> string)
      ensures Valid()
      ensures types == MakeTypes(customize)
      ensures currentPromise == None && dispatched == [] && reactions == []
      ensures ran == {} && settledWith == map[] && trace == []
    {
      types := MakeTypes(customize);
      currentPromise := None;
      dispatched := [];
      reactions := [];
      ran := {};
      settledWith := map[];
      trace := [];
    }

    /** `track(promise, dispatch)`: make `promise` the current one, dispatch
        `setPending()` at once, and attach the settlement handlers. */
    method Track(promise: PromiseId) returns (handle: nat)
      requires Valid()
      modifies this
      ensures Valid()
      ensures currentPromise == Some(promise)
      ensures dispatched == old(dispatched) + [SetPending(types, Undefined)]
      ensures handle == old(|reactions|) && reactions == old(reactions) + [promise]
      ensures trace == old(trace) + [Tracked(promise)]
      ensures ran == old(ran) && settledWith == old(settledWith)
    {
      TrackKeepsTraceOk(trace, reactions, ran, settledWith, promise);
      currentPromise := Some(promise);
      dispatched := dispatched + [SetPending(types, Undefined)];
      handle := |reactions|;
      reactions := reactions + [promise];
      ghost var before := trace;
      trace := trace + [Tracked(promise)];
      assert trace[..|before|] == before;
    }

    /** The settlement handlers attached by the `handle`-th `track` call run,
        seeing `outcome`. Only while that call's promise is still the current
        one is `resolve(value)` or `reject(reason)` dispatched; a rejection
        so reported is thrown again, so `derived` (the outcome of the promise
        `track` returned) is rejected exactly then, and fulfilled with
        `undefined` otherwise. */
    method RunReaction(handle: nat, outcome: Outcome) returns (derived: Outcome)
      requires Valid()
      requires handle < |reactions| && handle !in ran
      requires reactions[handle] in settledWith ==> settledWith[reactions[handle]] == outcome
      modifies this
      ensures Valid()
      ensures currentPromise == old(currentPromise) && reactions == old(reactions)
      ensures ran == old(ran) + {handle}
      ensures settledWith == old(settledWith)[reactions[handle] := outcome]
      ensures old(currentPromise) == Some(reactions[handle]) ==>
                && dispatched == old(dispatched) + [SettlementMessage(types, outcome)]
                && trace == old(trace) + [Settled(handle, reactions[handle], outcome)]
      ensures old(currentPromise) != Some(reactions[handle]) ==>
                dispatched == old(dispatched) && trace == old(trace)
      ensures derived == if old(currentPromise) == Some(reactions[handle]) && outcome.Rejected?
                         then outcome else Fulfilled(Undefined)
    {
      var promise := reactions[handle];
      derived := Fulfilled(Undefined);
      if currentPromise == Some(promise) {
        ReportKeepsTraceOk(trace, reactions, ran, settledWith, handle, outcome);
        ghost var before := trace;
        trace := trace + [Settled(handle, promise, outcome)];
        assert trace[..|before|] == before;
        dispatched := dispatched + [SettlementMessage(types, outcome)];
        if outcome.Rejected? {
          derived := outcome;
        }
      } else {
        SilentKeepsTraceOk(trace, reactions, ran, settledWith, handle, outcome);
      }
      ran := ran + {handle};
      settledWith := settledWith[promise := outcome];
    }
  }

  /** Every settlement message was sent while its promise was the most
      recently tracked one, so a superseded promise never reaches the log;
      and the pending message of the same `track` call came before it. */
  lemma SettlementsAreCurrent(t: PromiseTracker, i: nat)
    requires t.Valid()
    requires i < |t.trace| && t.trace[i].Settled?
    ensures LastTracked(t.trace[..i]) == Some(t.trace[i].promise)
    ensures exists j :: 0 <= j < i && t.trace[j] == Tracked(t.trace[i].promise)
    ensures t.dispatched[i] == SettlementMessage(t.types, t.trace[i].outcome)
  {
    assert SettledOk(t.trace, t.ran, t.settledWith, i);
    LastTrackedWasTracked(t.trace[..i]);
    var j :| 0 <= j < i && t.trace[..i][j] == Tracked(t.trace[i].promise);
    assert t.trace[j] == Tracked(t.trace[i].promise);
  }

  /** The store fed by the tracker shows either the pending state or the
      outcome of the current promise, never that of a superseded one. */
  lemma StoreShowsCurrentPromise(t: PromiseTracker)
    requires t.Valid()
    requires t.dispatched != []
    ensures t.currentPromise.Some?
    ensures var p := t.currentPromise.value;
            var shown := StateAfter(t.types, None, t.dispatched);
            || shown == Some(Reduce(t.types, None, SetPending(t.types, Undefined)))
            || (p in t.settledWith && shown == Some(Reduce(t.types, None, SettlementMessage(t.types, t.settledWith[p]))))
  {
  }
}
