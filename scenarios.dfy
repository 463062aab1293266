/** Runs of `track` and the reducer: the scenarios of the repository's
    tests, and two runs of the slot rule they do not cover. */
module Scenarios {
  import opened Values
  import opened Actions
  import opened Reducer
  import opened Store
  import opened Tracker

  /** The state the store shows while a promise is pending. */
  function PendingState(): State { State(Bool(true), false, false, Null, Null) }

  /** A single tracked promise: pending at once, fulfilled once it resolves. */
  method SingleResolve() returns (pendingShown: Option<State>, finalShown: Option<State>)
    ensures pendingShown == Some(PendingState())
    ensures finalShown == Some(State(Bool(false), true, false, Num(1), Null))
  {
    DefaultTypes();
    var t := new PromiseTracker(Identity);
    var h := t.Track(1);
    pendingShown := StateAfter(t.types, None, t.dispatched);
    var derived := t.RunReaction(h, Fulfilled(Num(1)));
    finalShown := StateAfter(t.types, None, t.dispatched);
  }

  /** Promise 1 resolves with 1 after promise 2 resolved with 2: only 2
      reaches the store. */
  method LatestResolveWins() returns (pendingShown: Option<State>, finalShown: Option<State>, log: seq<Message>)
    ensures pendingShown == Some(PendingState())
    ensures finalShown == Some(State(Bool(false), true, false, Num(2), Null))
    ensures log == [SetPending(MakeTypes(Identity), Undefined), SetPending(MakeTypes(Identity), Undefined),
                    Resolve(MakeTypes(Identity), Num(2))]
  {
    DefaultTypes();
    var t := new PromiseTracker(Identity);
    var h1 := t.Track(1);
    var h2 := t.Track(2);
    pendingShown := StateAfter(t.types, None, t.dispatched);
    var d2 := t.RunReaction(h2, Fulfilled(Num(2)));
    var d1 := t.RunReaction(h1, Fulfilled(Num(1)));
    finalShown := StateAfter(t.types, None, t.dispatched);
    log := t.dispatched;
  }

  /** Both promises reject, the later one first: only its reason reaches the
      store, its rejection is thrown again, and the stale one is absorbed. */
  method LatestRejectWins() returns (finalShown: Option<State>, derived1: Outcome, derived2: Outcome)
    ensures finalShown == Some(State(Bool(false), false, true, Null, Ref(2)))
    ensures derived2 == Rejected(Ref(2))
    ensures derived1 == Fulfilled(Undefined)
  {
    DefaultTypes();
    var oldError, reason := Ref(1), Ref(2);
    var t := new PromiseTracker(Identity);
    var h1 := t.Track(1);
    var h2 := t.Track(2);
    derived2 := t.RunReaction(h2, Rejected(reason));
    derived1 := t.RunReaction(h1, Rejected(oldError));
    finalShown := StateAfter(t.types, None, t.dispatched);
  }

  /** The superseded promise settles first: it is still ignored, and the
      store stays pending until the current one settles. */
  method StaleSettlesFirst() returns (midShown: Option<State>, finalShown: Option<State>)
    ensures midShown == Some(PendingState())
    ensures finalShown == Some(State(Bool(false), true, false, Num(2), Null))
  {
    DefaultTypes();
    var t := new PromiseTracker(Identity);
    var h1 := t.Track(1);
    var h2 := t.Track(2);
    var d1 := t.RunReaction(h1, Fulfilled(Num(1)));
    midShown := StateAfter(t.types, None, t.dispatched);
    var d2 := t.RunReaction(h2, Fulfilled(Num(2)));
    finalShown := StateAfter(t.types, None, t.dispatched);
  }

  /** Tracking the same promise twice attaches two sets of handlers, and
      both see it as current: its resolution is dispatched twice. */
  method SamePromiseTwice() returns (log: seq<Message>)
    ensures log == [SetPending(MakeTypes(Identity), Undefined), SetPending(MakeTypes(Identity), Undefined),
                    Resolve(MakeTypes(Identity), Num(7)), Resolve(MakeTypes(Identity), Num(7))]
  {
    var t := new PromiseTracker(Identity);
    var h1 := t.Track(5);
    var h2 := t.Track(5);
    var d1 := t.RunReaction(h1, Fulfilled(Num(7)));
    var d2 := t.RunReaction(h2, Fulfilled(Num(7)));
    log := t.dispatched;
  }

  /** With the `'@@test/'` prefix, built messages reduce as without it and an
      unrelated `'@@test/blah'` leaves the state alone. */
  lemma PrefixedInstance(s: State, v: Value)
    ensures var types := MakeTypes(x => "@@test/" + x);
            && Reduce(types, Some(s), Message("@@test/blah", Undefined, false)) == s
            && Reduce(types, None, SetPending(types, Undefined)) == PendingState()
            && Reduce(types, None, Resolve(types, v)) == State(Bool(false), true, false, v, Null)
            && Reduce(types, None, Reject(types, v)) == State(Bool(false), false, true, Null, v)
  {
  }
}
