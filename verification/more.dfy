/**
 * The pagination combinator `moreOperator(more, getMore)` of src/lib/more.ts,
 * one chain at a time. For each source value the chain emits the value, then,
 * while `more` holds of the latest value, awaits `getMore` of it and emits
 * the result, stopping without emission once the subscriber is closed.
 *
 * The environment is given as parameters: `getMore` is a deterministic
 * continuation that either yields the next value or fails, `closedAt(n)` says
 * whether the subscriber is closed at the moment the n-th reply arrives, and
 * `fuel` is the number of replies observed (a chain that would need more ends
 * `Pending`).
 */
module More {
  import opened Chains

  /**
   * The rest of a chain once `state` has been emitted and `n` replies have
   * arrived.
   */
  function Continue<T, E>(more: T -> bool, getMore: T -> Reply<T, E>, closedAt: nat -> bool,
                          state: T, n: nat, fuel: nat): Trace<T, E>
    decreases fuel
  {
    if !more(state) then Trace([], [], Finished)
    else if fuel == 0 then Trace([], [], Pending)
    else match getMore(state)
      case Failure(e) => Trace([], [state], Errored(e))
      case Next(v) =>
        if closedAt(n + 1) then Trace([], [state], Cancelled)
        else
          var rest := Continue(more, getMore, closedAt, v, n + 1, fuel - 1);
          Trace([v] + rest.emitted, [state] + rest.fetched, rest.end)
  }

  /** The whole chain started by one source value. */
  function Chain<T, E>(more: T -> bool, getMore: T -> Reply<T, E>, closedAt: nat -> bool,
                       value: T, fuel: nat): Trace<T, E>
  {
    var rest := Continue(more, getMore, closedAt, value, 0, fuel);
    Trace([value] + rest.emitted, rest.fetched, rest.end)
  }

  /** The loop body of the source's value handler, proved against `Chain`. */
  method RunChain<T, E>(more: T -> bool, getMore: T -> Reply<T, E>, closedAt: nat -> bool,
                        value: T, fuel: nat) returns (t: Trace<T, E>)
    ensures t == Chain(more, getMore, closedAt, value, fuel)
  {
    var state := value;
    var emitted := [state];
    var fetched: seq<T> := [];
    var left := fuel;
    ghost var whole := Chain(more, getMore, closedAt, value, fuel);
    ghost var tail := Continue(more, getMore, closedAt, state, 0, left);
    while more(state)
      invariant |fetched| + left == fuel
      invariant tail == Continue(more, getMore, closedAt, state, |fetched|, left)
      invariant whole == Trace(emitted + tail.emitted, fetched + tail.fetched, tail.end)
      decreases left
    {
      if left == 0 {
        assert tail == Trace([], [], Pending);
        assert emitted + [] == emitted && fetched + [] == fetched;
        return Trace(emitted, fetched, Pending);
      }
      var reply := getMore(state);
      match reply
      case Failure(e) =>
        assert tail == Trace([], [state], Errored(e));
        return Trace(emitted, fetched + [state], Errored(e));
      case Next(v) =>
        if closedAt(|fetched| + 1) {
          assert tail == Trace([], [state], Cancelled);
          return Trace(emitted, fetched + [state], Cancelled);
        }
        ghost var rest := Continue(more, getMore, closedAt, v, |fetched| + 1, left - 1);
        assert tail == Trace([v] + rest.emitted, [state] + rest.fetched, rest.end);
        assert emitted + tail.emitted == (emitted + [v]) + rest.emitted;
        assert fetched + tail.fetched == (fetched + [state]) + rest.fetched;
        fetched, left := fetched + [state], left - 1;
        state, tail := v, rest;
        emitted := emitted + [state];
    }
    assert tail == Trace([], [], Finished);
    assert emitted + [] == emitted && fetched + [] == fetched;
    t := Trace(emitted, fetched, Finished);
  }

  /**
   * The source's value handler: the chain is bracketed by `processing++` and
   * the `finally` block's `processing--`, which runs on an error as well;
   * a chain still pending has not reached its `finally` block.
   */
  method OnValue<T, E>(tracker: Tracker, more: T -> bool, getMore: T -> Reply<T, E>,
                       closedAt: nat -> bool, value: T, fuel: nat) returns (t: Trace<T, E>)
    requires tracker.Valid() && !tracker.SourceDone()
    modifies tracker
    ensures tracker.Valid()
    ensures t == Chain(more, getMore, closedAt, value, fuel)
    ensures tracker.events == old(tracker.events) +
              (if t.end.Pending? then [ChainStarted] else [ChainStarted, ChainFinished])
    ensures tracker.processing == old(tracker.processing) + (if t.end.Pending? then 1 else 0)
    ensures tracker.signals == 0
  {
    tracker.ChainStart();
    t := RunChain(more, getMore, closedAt, value, fuel);
    if !t.end.Pending? {
      var signalled := tracker.ChainFinish();
    }
  }

  /** How many replies a tail of a chain awaits, and which values it fetches. */
  lemma {:induction false} ContinueCounts<T, E>(more: T -> bool, getMore: T -> Reply<T, E>,
                                               closedAt: nat -> bool, state: T, n: nat, fuel: nat)
    ensures var t := Continue(more, getMore, closedAt, state, n, fuel);
            var s := [state] + t.emitted;
            && |t.fetched| == |t.emitted| + (if t.end.Cancelled? || t.end.Errored? then 1 else 0)
            && t.fetched == s[..|t.fetched|]
            && |t.fetched| <= fuel
            && (t.end.Pending? ==> |t.fetched| == fuel)
    decreases fuel
  {
    if more(state) && fuel > 0 && getMore(state).Next? && !closedAt(n + 1) {
      var v := getMore(state).value;
      ContinueCounts(more, getMore, closedAt, v, n + 1, fuel - 1);
      var rest := Continue(more, getMore, closedAt, v, n + 1, fuel - 1);
      assert rest.fetched == ([v] + rest.emitted)[..|rest.fetched|];
      assert [state] + rest.fetched == ([state] + ([v] + rest.emitted))[..|rest.fetched| + 1];
    }
  }

  /** Each step a tail of a chain takes, and why it ends. */
  lemma {:induction false} ContinueSteps<T, E>(more: T -> bool, getMore: T -> Reply<T, E>,
                                              closedAt: nat -> bool, state: T, n: nat, fuel: nat)
    ensures var t := Continue(more, getMore, closedAt, state, n, fuel);
            var s := [state] + t.emitted;
            && (forall i :: 0 <= i < |s| - 1 ==> more(s[i]) && getMore(s[i]) == Next(s[i + 1]))
            && (forall k :: n < k < n + |s| ==> !closedAt(k))
            && (t.end.Finished? ==> !more(s[|s| - 1]))
            && (t.end.Pending? ==> more(s[|s| - 1]))
            && (t.end.Errored? ==> more(s[|s| - 1]) && getMore(s[|s| - 1]) == Failure(t.end.error))
            && (t.end.Cancelled? ==> more(s[|s| - 1]) && getMore(s[|s| - 1]).Next? &&
                                     closedAt(n + |s|))
    decreases fuel
  {
    if more(state) && fuel > 0 && getMore(state).Next? && !closedAt(n + 1) {
      var v := getMore(state).value;
      ContinueSteps(more, getMore, closedAt, v, n + 1, fuel - 1);
      var rest := Continue(more, getMore, closedAt, v, n + 1, fuel - 1);
      var s' := [v] + rest.emitted;
      var s := [state] + s';
      assert Continue(more, getMore, closedAt, state, n, fuel) ==
             Trace(s', [state] + rest.fetched, rest.end);
      assert forall i :: 0 < i < |s| ==> s[i] == s'[i - 1];
      assert s[|s| - 1] == s'[|s'| - 1];
    }
  }

  /** What every tail of a chain looks like; the generalisation behind `ChainShape`. */
  lemma ContinueShape<T, E>(more: T -> bool, getMore: T -> Reply<T, E>,
                            closedAt: nat -> bool, state: T, n: nat, fuel: nat)
    ensures var t := Continue(more, getMore, closedAt, state, n, fuel);
            var s := [state] + t.emitted;
            && |t.fetched| == |t.emitted| + (if t.end.Cancelled? || t.end.Errored? then 1 else 0)
            && t.fetched == s[..|t.fetched|]
            && |t.fetched| <= fuel
            && (forall i :: 0 <= i < |s| - 1 ==> more(s[i]) && getMore(s[i]) == Next(s[i + 1]))
            && (forall k :: n < k < n + |s| ==> !closedAt(k))
            && (t.end.Finished? ==> !more(s[|s| - 1]))
            && (t.end.Pending? ==> more(s[|s| - 1]) && |t.fetched| == fuel)
            && (t.end.Errored? ==> more(s[|s| - 1]) && getMore(s[|s| - 1]) == Failure(t.end.error))
            && (t.end.Cancelled? ==> more(s[|s| - 1]) && getMore(s[|s| - 1]).Next? &&
                                     closedAt(n + |s|))
  {
    ContinueCounts(more, getMore, closedAt, state, n, fuel);
    ContinueSteps(more, getMore, closedAt, state, n, fuel);
  }

  /**
   * A chain's emissions start with the source value; each fetch takes the
   * latest emitted value as its argument, and each emitted successor is what
   * the fetch of its predecessor returned, for a value of which `more` held.
   * A finished chain ends with a value of which `more` is false and made one
   * fetch fewer than it emitted values; a failed fetch and a closed
   * subscriber end the chain with the fetched value not emitted; no value is
   * emitted once the subscriber is closed.
   */
  lemma ChainShape<T, E>(more: T -> bool, getMore: T -> Reply<T, E>, closedAt: nat -> bool,
                         value: T, fuel: nat)
    ensures var t := Chain(more, getMore, closedAt, value, fuel);
            && |t.emitted| >= 1 && t.emitted[0] == value
            && |t.fetched| == |t.emitted| - (if t.end.Cancelled? || t.end.Errored? then 0 else 1)
            && t.fetched == t.emitted[..|t.fetched|]
            && (forall i :: 0 <= i < |t.emitted| - 1 ==>
                  more(t.emitted[i]) && getMore(t.emitted[i]) == Next(t.emitted[i + 1]))
            && (forall k :: 0 < k < |t.emitted| ==> !closedAt(k))
            && (t.end.Finished? ==> !more(t.emitted[|t.emitted| - 1]))
            && (t.end.Errored? ==> getMore(t.emitted[|t.emitted| - 1]) == Failure(t.end.error))
            && (t.end.Cancelled? ==> getMore(t.emitted[|t.emitted| - 1]).Next? &&
                                     closedAt(|t.emitted|))
            && (t.end.Pending? ==> more(t.emitted[|t.emitted| - 1]) && |t.fetched| == fuel)
  {
    ContinueShape(more, getMore, closedAt, value, 0, fuel);
  }

  /**
   * Cancellation: once the subscriber is closed at the k-th reply, no value
   * after the first k is emitted and no fetch after the k-th is issued.
   */
  lemma ClosedStopsChain<T, E>(more: T -> bool, getMore: T -> Reply<T, E>, closedAt: nat -> bool,
                               value: T, fuel: nat, k: nat)
    requires 0 < k && closedAt(k)
    ensures |Chain(more, getMore, closedAt, value, fuel).emitted| <= k
    ensures |Chain(more, getMore, closedAt, value, fuel).fetched| <= k
  {
    ChainShape(more, getMore, closedAt, value, fuel);
  }

  /**
   * `fuel` only bounds observation: a chain that ended within `fuel` replies
   * ends the same way with any larger allowance.
   */
  lemma {:induction false} MoreFuelIsObservationOnly<T, E>(more: T -> bool, getMore: T -> Reply<T, E>,
                                                          closedAt: nat -> bool, state: T, n: nat,
                                                          fuel: nat, fuel': nat)
    requires fuel <= fuel'
    requires !Continue(more, getMore, closedAt, state, n, fuel).end.Pending?
    ensures Continue(more, getMore, closedAt, state, n, fuel') ==
            Continue(more, getMore, closedAt, state, n, fuel)
    decreases fuel
  {
    if more(state) && fuel > 0 && getMore(state).Next? && !closedAt(n + 1) {
      MoreFuelIsObservationOnly(more, getMore, closedAt, getMore(state).value, n + 1, fuel - 1, fuel' - 1);
    }
  }

  /**
   * A chain observed with more replies extends the one observed with fewer:
   * what was emitted and fetched stays a prefix, including for a chain that
   * ended `Pending`.
   */
  lemma {:induction false} MoreFuelExtends<T, E>(more: T -> bool, getMore: T -> Reply<T, E>,
                                                closedAt: nat -> bool, state: T, n: nat,
                                                fuel: nat, fuel': nat)
    requires fuel <= fuel'
    ensures Continue(more, getMore, closedAt, state, n, fuel).emitted <=
            Continue(more, getMore, closedAt, state, n, fuel').emitted
    ensures Continue(more, getMore, closedAt, state, n, fuel).fetched <=
            Continue(more, getMore, closedAt, state, n, fuel').fetched
    decreases fuel
  {
    if more(state) && fuel > 0 && getMore(state).Next? && !closedAt(n + 1) {
      MoreFuelExtends(more, getMore, closedAt, getMore(state).value, n + 1, fuel - 1, fuel' - 1);
    }
  }
}
