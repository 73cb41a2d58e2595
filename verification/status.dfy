/**
 * The collapsing poll combinator `statusOperator(wait, status)` of
 * src/lib/status.ts, one chain at a time. For each source value the chain
 * replaces the value by `status` of it while `wait` holds, and then emits the
 * final value alone, unless the subscriber is closed by then.
 *
 * As in `More`: `status` is a deterministic continuation that yields the next
 * value or fails, `closedAt(n)` says whether the subscriber is closed once n
 * replies have arrived, and `fuel` is the number of replies observed.
 */
module Status {
  import opened Chains

  /**
   * The poll loop from `state` on, before the final `closed` check: a
   * finished loop carries its final value in `emitted`.
   */
  function Settle<T, E>(wait: T -> bool, status: T -> Reply<T, E>, state: T, fuel: nat): Trace<T, E>
    decreases fuel
  {
    if !wait(state) then Trace([state], [], Finished)
    else if fuel == 0 then Trace([], [], Pending)
    else match status(state)
      case Failure(e) => Trace([], [state], Errored(e))
      case Next(v) =>
        var rest := Settle(wait, status, v, fuel - 1);
        Trace(rest.emitted, [state] + rest.fetched, rest.end)
  }

  /** The whole chain started by one source value. */
  function Chain<T, E>(wait: T -> bool, status: T -> Reply<T, E>, closedAt: nat -> bool,
                       value: T, fuel: nat): Trace<T, E>
  {
    var r := Settle(wait, status, value, fuel);
    if r.end.Finished? && closedAt(|r.fetched|) then Trace([], r.fetched, Cancelled) else r
  }

  /** The loop body of the source's value handler, proved against `Chain`. */
  method RunChain<T, E>(wait: T -> bool, status: T -> Reply<T, E>, closedAt: nat -> bool,
                        value: T, fuel: nat) returns (t: Trace<T, E>)
    ensures t == Chain(wait, status, closedAt, value, fuel)
  {
    var state := value;
    var fetched: seq<T> := [];
    var left := fuel;
    ghost var whole := Settle(wait, status, value, fuel);
    while wait(state)
      invariant |fetched| + left == fuel
      invariant whole.fetched == fetched + Settle(wait, status, state, left).fetched
      invariant whole.emitted == Settle(wait, status, state, left).emitted
      invariant whole.end == Settle(wait, status, state, left).end
      decreases left
    {
      if left == 0 {
        assert fetched + [] == fetched;
        return Trace([], fetched, Pending);
      }
      var reply := status(state);
      ghost var before := fetched;
      fetched, left := fetched + [state], left - 1;
      match reply
      case Failure(e) =>
        return Trace([], fetched, Errored(e));
      case Next(v) =>
        ghost var rest := Settle(wait, status, v, left);
        assert Settle(wait, status, state, left + 1) == Trace(rest.emitted, [state] + rest.fetched, rest.end);
        assert before + ([state] + rest.fetched) == fetched + rest.fetched;
        state := v;
    }
    assert Settle(wait, status, state, left) == Trace([state], [], Finished);
    assert whole == Trace([state], fetched, Finished);
    if !closedAt(|fetched|) {
      t := Trace([state], fetched, Finished);
    } else {
      t := Trace([], fetched, Cancelled);
    }
  }

  /**
   * The source's value handler: the chain is bracketed by `processing++` and
   * the `finally` block's `processing--`, which runs on an error as well;
   * a chain still pending has not reached its `finally` block.
   */
  method OnValue<T, E>(tracker: Tracker, wait: T -> bool, status: T -> Reply<T, E>,
                       closedAt: nat -> bool, value: T, fuel: nat) returns (t: Trace<T, E>)
    requires tracker.Valid() && !tracker.SourceDone()
    modifies tracker
    ensures tracker.Valid()
    ensures t == Chain(wait, status, closedAt, value, fuel)
    ensures tracker.events == old(tracker.events) +
              (if t.end.Pending? then [ChainStarted] else [ChainStarted, ChainFinished])
    ensures tracker.processing == old(tracker.processing) + (if t.end.Pending? then 1 else 0)
    ensures tracker.signals == 0
  {
    tracker.ChainStart();
    t := RunChain(wait, status, closedAt, value, fuel);
    if !t.end.Pending? {
      var signalled := tracker.ChainFinish();
    }
  }

  /** What every tail of the poll loop looks like; the generalisation behind `ChainShape`. */
  lemma {:induction false} SettleShape<T, E>(wait: T -> bool, status: T -> Reply<T, E>,
                                            state: T, fuel: nat)
    ensures var t := Settle(wait, status, state, fuel);
            && |t.fetched| <= fuel
            && (|t.emitted| == 1 <==> t.end.Finished?) && |t.emitted| <= 1
            && (t.end.Finished? || t.end.Pending? || t.end.Errored?)
            && (t.fetched != [] ==> t.fetched[0] == state)
            && (t.fetched == [] && !t.end.Pending? ==> t.end.Finished? && t.emitted == [state])
            && (forall i :: 0 <= i < |t.fetched| ==> wait(t.fetched[i]))
            && (forall i :: 0 <= i < |t.fetched| - 1 ==> status(t.fetched[i]) == Next(t.fetched[i + 1]))
            && (t.end.Finished? ==> !wait(t.emitted[0]))
            && (t.end.Finished? && t.fetched != [] ==>
                  status(t.fetched[|t.fetched| - 1]) == Next(t.emitted[0]))
            && (t.end.Errored? ==>
                  t.fetched != [] && status(t.fetched[|t.fetched| - 1]) == Failure(t.end.error))
            && (t.end.Pending? ==> |t.fetched| == fuel)
    decreases fuel
  {
    if wait(state) && fuel > 0 && status(state).Next? {
      var v := status(state).value;
      SettleShape(wait, status, v, fuel - 1);
      var rest := Settle(wait, status, v, fuel - 1);
      assert ([state] + rest.fetched)[1..] == rest.fetched;
    }
  }

  /**
   * A chain emits at most one value, and only a value of which `wait` is
   * false: a source value that needs no waiting is emitted unchanged with no
   * poll, otherwise the poll arguments run from the source value through each
   * poll's result, every one of them still waiting, and the emitted value is
   * the last poll's result. Intermediate values are never emitted, and a
   * finished chain emits nothing exactly when the subscriber is closed.
   */
  lemma ChainShape<T, E>(wait: T -> bool, status: T -> Reply<T, E>, closedAt: nat -> bool,
                         value: T, fuel: nat)
    ensures var t := Chain(wait, status, closedAt, value, fuel);
            && |t.emitted| <= 1
            && (|t.emitted| == 1 <==> t.end.Finished?)
            && (!wait(value) ==>
                  t.fetched == [] && t.emitted == (if closedAt(0) then [] else [value]))
            && (t.fetched != [] ==> t.fetched[0] == value)
            && (forall i :: 0 <= i < |t.fetched| ==> wait(t.fetched[i]))
            && (forall i :: 0 <= i < |t.fetched| - 1 ==> status(t.fetched[i]) == Next(t.fetched[i + 1]))
            && (t.end.Finished? ==> !wait(t.emitted[0]) && !closedAt(|t.fetched|))
            && (t.end.Finished? && t.fetched != [] ==>
                  status(t.fetched[|t.fetched| - 1]) == Next(t.emitted[0]))
            && (t.end.Cancelled? ==> closedAt(|t.fetched|))
            && (t.end.Errored? ==>
                  t.fetched != [] && status(t.fetched[|t.fetched| - 1]) == Failure(t.end.error))
  {
    SettleShape(wait, status, value, fuel);
  }

  /**
   * The `closed` check happens only before the final emission: how far the
   * polling goes does not depend on when the subscriber closes, and a chain
   * whose polling finished emits its value exactly when the subscriber is
   * still open at the end.
   */
  lemma PollingIgnoresClosed<T, E>(wait: T -> bool, status: T -> Reply<T, E>,
                                   closedAt: nat -> bool, closedAt': nat -> bool,
                                   value: T, fuel: nat)
    ensures Chain(wait, status, closedAt, value, fuel).fetched ==
            Chain(wait, status, closedAt', value, fuel).fetched
    ensures var t := Chain(wait, status, closedAt, value, fuel);
            var t' := Chain(wait, status, closedAt', value, fuel);
            t.end.Finished? || t.end.Cancelled? ==>
              (t'.end.Finished? || t'.end.Cancelled?) &&
              (t.end.Finished? <==> !closedAt(|t.fetched|))
  {
    SettleShape(wait, status, value, fuel);
  }

  /**
   * `fuel` only bounds observation: a poll loop that ended within `fuel`
   * replies ends the same way with any larger allowance.
   */
  lemma {:induction false} StatusFuelIsObservationOnly<T, E>(wait: T -> bool, status: T -> Reply<T, E>,
                                                            state: T, fuel: nat, fuel': nat)
    requires fuel <= fuel'
    requires !Settle(wait, status, state, fuel).end.Pending?
    ensures Settle(wait, status, state, fuel') == Settle(wait, status, state, fuel)
    decreases fuel
  {
    if wait(state) && fuel > 0 && status(state).Next? {
      StatusFuelIsObservationOnly(wait, status, status(state).value, fuel - 1, fuel' - 1);
    }
  }

  /**
   * A poll loop observed with more replies extends the one observed with
   * fewer: its polls stay a prefix, and a value it emitted is still emitted.
   */
  lemma {:induction false} StatusFuelExtends<T, E>(wait: T -> bool, status: T -> Reply<T, E>,
                                                  state: T, fuel: nat, fuel': nat)
    requires fuel <= fuel'
    ensures Settle(wait, status, state, fuel).emitted <= Settle(wait, status, state, fuel').emitted
    ensures Settle(wait, status, state, fuel).fetched <= Settle(wait, status, state, fuel').fetched
    decreases fuel
  {
    if wait(state) && fuel > 0 && status(state).Next? {
      StatusFuelExtends(wait, status, status(state).value, fuel - 1, fuel' - 1);
    }
  }
}
