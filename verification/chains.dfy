/**
 * What the pagination combinator (`moreOperator`, src/lib/more.ts) and the
 * collapsing poll combinator (`statusOperator`, src/lib/status.ts) have in
 * common: the shape of one chain's observable effects, and the completion
 * accounting (the `processing` counter and the `complete` flag) that decides
 * when the downstream subscriber is told that the stream is done.
 */
module Chains {

  /** What one asynchronous continuation (`getMore(x)` or `status(x)`) resolves to. */
  datatype Reply<T, E> = Next(value: T) | Failure(error: E)

  /** How one chain ended. */
  datatype End<E> =
    | Finished          // the loop predicate became false
    | Cancelled         // the subscriber was found closed
    | Errored(error: E) // a continuation rejected; forwarded with `subscriber.error`
    | Pending           // a continuation was still due when observation stopped

  /**
   * The observable effects of one chain: the values handed to
   * `subscriber.next`, in order, the arguments of the continuation calls, in
   * the order they were issued, and how the chain ended.
   */
  datatype Trace<T, E> = Trace(emitted: seq<T>, fetched: seq<T>, end: End<E>)

  /** The events the completion accounting reacts to. */
  datatype Event =
    | ChainStarted     // a source value arrived: `processing++`
    | ChainFinished    // a chain left its `finally` block: `processing--`
    | SourceCompleted  // the source's completion callback ran

  /**
   * The accounting state: the `processing` counter, the `complete` flag, and
   * the number of times `subscriber.complete()` has been called so far.
   */
  datatype Counters = Counters(processing: int, complete: bool, signals: nat)

  const Initial := Counters(0, false, 0)

  /** One event's effect, exactly as the two source handlers perform it. */
  function Step(c: Counters, e: Event): Counters
  {
    match e
    case ChainStarted => c.(processing := c.processing + 1)
    case ChainFinished =>
      var p := c.processing - 1;
      if p == 0 && c.complete then Counters(p, c.complete, c.signals + 1)
      else c.(processing := p)
    case SourceCompleted =>
      if c.processing == 0 then c.(signals := c.signals + 1)
      else c.(complete := true)
  }

  /** The accounting state after a whole sequence of events. */
  function Run(events: seq<Event>): Counters
  {
    if events == [] then Initial
    else Step(Run(events[..|events| - 1]), events[|events| - 1])
  }

  /** How many events of kind `e` occur in `events`. */
  function Count(events: seq<Event>, e: Event): nat
  {
    multiset(events)[e]
  }

  /**
   * Whether `e` may follow `prefix` under the observable protocol and the
   * `try`/`finally` structure: no value after the source completed, the
   * source completes once, and a chain finishes only after it started.
   */
  predicate Allowed(prefix: seq<Event>, e: Event)
  {
    match e
    case ChainStarted => SourceCompleted !in prefix
    case ChainFinished => Count(prefix, ChainFinished) < Count(prefix, ChainStarted)
    case SourceCompleted => SourceCompleted !in prefix
  }

  /** Every event of the sequence is allowed after the events before it. */
  predicate WellFormed(events: seq<Event>)
  {
    events == [] ||
    (WellFormed(events[..|events| - 1]) &&
     Allowed(events[..|events| - 1], events[|events| - 1]))
  }

  /**
   * The completion invariant, for every interleaving of chains: the counter
   * is the number of chains in flight (so never negative), completion is
   * signalled at most once, and it has been signalled exactly when the
   * source has completed and no chain is in flight.
   */
  lemma {:induction false} AccountingInvariant(events: seq<Event>)
    requires WellFormed(events)
    ensures Run(events).processing == Count(events, ChainStarted) - Count(events, ChainFinished)
    ensures Run(events).processing >= 0
    ensures Run(events).signals <= 1
    ensures Run(events).complete ==> SourceCompleted in events
    ensures SourceCompleted in events && Run(events).processing > 0 ==> Run(events).complete
    ensures Run(events).signals == 1 <==> SourceCompleted in events && Run(events).processing == 0
  {
    if events != [] {
      var prefix, e := events[..|events| - 1], events[|events| - 1];
      assert events == prefix + [e];
      AccountingInvariant(prefix);
      assert multiset(events) == multiset(prefix) + multiset{e};
    }
  }

  /** Appending one event extends the fold by one step. */
  lemma RunSnoc(events: seq<Event>, e: Event)
    ensures Run(events + [e]) == Step(Run(events), e)
    ensures WellFormed(events + [e]) <==> WellFormed(events) && Allowed(events, e)
  {
    assert (events + [e])[..|events|] == events;
  }

  /**
   * The per-subscription completion state of either combinator. The ghost
   * `events` records what has happened so far; `Valid` ties the counters to it.
   */
  class Tracker {
    var processing: int
    var complete: bool
    /** How many times `subscriber.complete()` has been called. */
    ghost var signals: nat
    ghost var events: seq<Event>

    ghost predicate Valid()
      reads this
    {
      WellFormed(events) && Run(events) == Counters(processing, complete, signals) &&
      processing >= 0
    }

    /** Whether the source's completion callback has run. */
    ghost predicate SourceDone()
      reads this
    {
      SourceCompleted in events
    }

    constructor ()
      ensures Valid() && events == []
      ensures processing == 0 && !complete && signals == 0
    {
      processing, complete, signals := 0, false, 0;
      events := [];
    }

    /** A source value arrived and its chain begins: `processing++`. */
    method ChainStart()
      requires Valid() && !SourceDone()
      modifies this
      ensures Valid() && events == old(events) + [ChainStarted]
      ensures processing == old(processing) + 1
      ensures complete == old(complete) && signals == old(signals) == 0
    {
      AccountingInvariant(events);
      RunSnoc(events, ChainStarted);
      processing := processing + 1;
      events := events + [ChainStarted];
      AccountingInvariant(events);
    }

    /**
     * A chain's `finally` block: `processing--`, then completion is signalled
     * when this was the last chain and the source had already completed.
     */
    method ChainFinish() returns (signalled: bool)
      requires Valid() && processing > 0
      modifies this
      ensures Valid() && events == old(events) + [ChainFinished]
      ensures processing == old(processing) - 1 >= 0 && complete == old(complete)
      ensures signalled <==> processing == 0 && complete
      ensures signals == old(signals) + (if signalled then 1 else 0)
      ensures signals <= 1
      ensures signalled ==> SourceDone()
    {
      AccountingInvariant(events);
      RunSnoc(events, ChainFinished);
      processing := processing - 1;
      signalled := processing == 0 && complete;
      if signalled {
        signals := signals + 1;
      }
      events := events + [ChainFinished];
      AccountingInvariant(events);
    }

    /**
     * The source's completion callback: signal completion now when no chain
     * is in flight, otherwise set `complete` so that the last chain does.
     */
    method SourceComplete() returns (signalled: bool)
      requires Valid() && !SourceDone()
      modifies this
      ensures Valid() && events == old(events) + [SourceCompleted]
      ensures processing == old(processing)
      ensures signalled <==> processing == 0
      ensures complete <==> processing > 0
      ensures signals == (if signalled then 1 else 0)
    {
      AccountingInvariant(events);
      RunSnoc(events, SourceCompleted);
      signalled := processing == 0;
      if signalled {
        signals := signals + 1;
      } else {
        complete := true;
      }
      events := events + [SourceCompleted];
      AccountingInvariant(events);
    }
  }
}
