/**
 * The fail-fast request pool `RequestPool` of src/lib/requestPool.ts. Every
 * request becomes a message pushed into one long-lived pipeline, and the
 * caller gets a promise that the pipeline settles. If the pipeline itself
 * ends, by error or completion, the pool is poisoned: `err` is set, and every
 * later request is rejected at once with it and pushes nothing.
 *
 * The pipeline's concurrency gate, the retry with backoff and the HTTP call
 * itself are not modelled; the final outcome of a message's attempts is
 * handed to `Settle`.
 */
module Pool {
  import opened Wrappers
  import opened Json

  /** An error object, with its message. */
  datatype Error = Error(message: string)

  /** The error that poisons the pool when the pipeline completes. */
  const ClosedMessage := "Request stream is closed, please instantiate a new one"

  /** A message pushed into the pipeline: the URI and the request options. */
  datatype Message = Message(uri: string, request: Options)

  /** The state of one message's promise. */
  datatype Settlement = Unsettled | Resolved(response: string) | Rejected(error: Error)

  /**
   * What `request` hands back: a promise already rejected with the stored
   * error, or the promise of the message with index `ticket`.
   */
  datatype Submission = RejectedAtOnce(error: Error) | Enqueued(ticket: nat)

  /**
   * The options of `post`, `get`, `put` and `patch`: the caller's options
   * with `method` set, whatever it was before, and every other option kept.
   */
  function WithMethod(options: Options, verb: string): (r: Options)
    ensures "method" in r && r["method"] == Str(verb)
    ensures r.Keys == options.Keys + {"method"}
    ensures forall k :: k in options && k != "method" ==> r[k] == options[k]
  {
    options["method" := Str(verb)]
  }

  class RequestPool {
    const concurrency: nat
    const retry: nat
    const logResponse: bool
    /** Set when the pipeline ends; never cleared. */
    var err: Option<Error>
    /** Every message pushed into the pipeline, in order. */
    var messages: seq<Message>
    /** The state of each message's promise, by index. */
    var settled: seq<Settlement>

    ghost predicate Valid()
      reads this
    {
      |settled| == |messages|
    }

    constructor (concurrency: nat := 5, retry: nat := 5, logResponse: bool := false)
      ensures Valid()
      ensures this.concurrency == concurrency && this.retry == retry
      ensures this.logResponse == logResponse
      ensures err == None && messages == [] && settled == []
    {
      this.concurrency := concurrency;
      this.retry := retry;
      this.logResponse := logResponse;
      err := None;
      messages, settled := [], [];
    }

    /**
     * Fail fast when poisoned: reject with exactly the stored error and push
     * nothing; otherwise push exactly one message with the given URI and
     * options and hand back its pending promise.
     */
    method Request(uri: string, options: Options) returns (s: Submission)
      requires Valid()
      modifies this
      ensures Valid() && err == old(err)
      ensures old(err).Some? ==>
                s == RejectedAtOnce(old(err).value) &&
                messages == old(messages) && settled == old(settled)
      ensures old(err).None? ==>
                s == Enqueued(|old(messages)|) &&
                messages == old(messages) + [Message(uri, options)] &&
                settled == old(settled) + [Unsettled]
    {
      if err.Some? {
        return RejectedAtOnce(err.value);
      }
      s := Enqueued(|messages|);
      messages := messages + [Message(uri, options)];
      settled := settled + [Unsettled];
    }

    method Post(uri: string, options: Options := map[]) returns (s: Submission)
      requires Valid()
      modifies this
      ensures Valid() && err == old(err)
      ensures old(err).Some? ==>
                s == RejectedAtOnce(old(err).value) &&
                messages == old(messages) && settled == old(settled)
      ensures old(err).None? ==>
                s == Enqueued(|old(messages)|) &&
                messages == old(messages) + [Message(uri, WithMethod(options, "POST"))] &&
                settled == old(settled) + [Unsettled]
    {
      s := Request(uri, WithMethod(options, "POST"));
    }

    method Get(uri: string, options: Options := map[]) returns (s: Submission)
      requires Valid()
      modifies this
      ensures Valid() && err == old(err)
      ensures old(err).Some? ==>
                s == RejectedAtOnce(old(err).value) &&
                messages == old(messages) && settled == old(settled)
      ensures old(err).None? ==>
                s == Enqueued(|old(messages)|) &&
                messages == old(messages) + [Message(uri, WithMethod(options, "GET"))] &&
                settled == old(settled) + [Unsettled]
    {
      s := Request(uri, WithMethod(options, "GET"));
    }

    method Put(uri: string, options: Options := map[]) returns (s: Submission)
      requires Valid()
      modifies this
      ensures Valid() && err == old(err)
      ensures old(err).Some? ==>
                s == RejectedAtOnce(old(err).value) &&
                messages == old(messages) && settled == old(settled)
      ensures old(err).None? ==>
                s == Enqueued(|old(messages)|) &&
                messages == old(messages) + [Message(uri, WithMethod(options, "PUT"))] &&
                settled == old(settled) + [Unsettled]
    {
      s := Request(uri, WithMethod(options, "PUT"));
    }

    method Patch(uri: string, options: Options := map[]) returns (s: Submission)
      requires Valid()
      modifies this
      ensures Valid() && err == old(err)
      ensures old(err).Some? ==>
                s == RejectedAtOnce(old(err).value) &&
                messages == old(messages) && settled == old(settled)
      ensures old(err).None? ==>
                s == Enqueued(|old(messages)|) &&
                messages == old(messages) + [Message(uri, WithMethod(options, "PATCH"))] &&
                settled == old(settled) + [Unsettled]
    {
      s := Request(uri, WithMethod(options, "PATCH"));
    }

    /**
     * The end of one message's attempts: success resolves its promise with
     * the response, final failure rejects it with the error. A promise
     * settles once; a failed message does not poison the pool.
     */
    method Settle(ticket: nat, outcome: Result<string, Error>)
      requires Valid() && ticket < |messages|
      modifies this
      ensures Valid() && err == old(err) && messages == old(messages)
      ensures |settled| == |old(settled)|
      ensures forall i :: 0 <= i < |settled| && i != ticket ==> settled[i] == old(settled)[i]
      ensures old(settled)[ticket].Unsettled? ==>
                settled[ticket] == (match outcome
                                    case Success(response) => Resolved(response)
                                    case Failure(e) => Rejected(e))
      ensures !old(settled)[ticket].Unsettled? ==> settled[ticket] == old(settled)[ticket]
    {
      if settled[ticket].Unsettled? {
        var fate := match outcome
          case Success(response) => Resolved(response)
          case Failure(e) => Rejected(e);
        settled := settled[ticket := fate];
      }
    }

    /** The pipeline's error callback: the pool is poisoned with that error. */
    method PipelineError(e: Error)
      requires Valid()
      modifies this
      ensures Valid() && err == Some(e)
      ensures messages == old(messages) && settled == old(settled)
    {
      err := Some(e);
    }

    /** The pipeline's completion callback: the pool is poisoned with the closed error. */
    method PipelineComplete()
      requires Valid()
      modifies this
      ensures Valid() && err == Some(Error(ClosedMessage))
      ensures messages == old(messages) && settled == old(settled)
    {
      err := Some(Error(ClosedMessage));
    }
  }
}
