/**
 * `LimitAttemptsExtension`: the retry governor. A requeued delivery is either
 * republished as a copy with an incremented `attempts` property (and the
 * current delivery rejected) or, once the attempts are used up, rejected for
 * good with a `failed` event.
 */
module Attempts {
  import opened Wrappers
  import opened Php
  import opened Envelope

  const FAILED_EVENT: string := "Consumption.LimitAttemptsExtension.failed"
  const COPY_SENT: string := "A copy of the message was sent with an incremented attempt count."

  const EXHAUSTED_BEFORE: string := "The maximum number of "
  const EXHAUSTED_AFTER: string := " allowed attempts was reached."

  function ExhaustedReason(max: int): string
  {
    EXHAUSTED_BEFORE + IntToString(max) + EXHAUSTED_AFTER
  }

  /** An event's `logger` entry: a PSR logger, or some other (possibly falsy) value. */
  datatype Logger = Psr(name: string) | NotALogger(v: Value)

  /** The `failed` event: its subject and its `exception` and `logger` data. */
  datatype FailedEvent = FailedEvent(subject: Message, exception: string, logger: Logger)

  /** A message handed to the producer for a queue. */
  datatype Sent = Sent(queue: string, message: QueueMessage)

  /** `$result != Processor::REQUEUE`, negated: a `Result` compares by its status string. */
  predicate IsRequeue(v: Verdict)
  {
    v.status == Requeue
  }

  /** `$jobMessage->getMaxAttempts() ?? $this->maxAttempts`. */
  function EffectiveMax(default: Option<int>, catalog: Catalog, body: Value): (r: Option<int>)
    ensures DeclaredMaxAttempts(catalog, body).Some? ==> r == DeclaredMaxAttempts(catalog, body)
    ensures DeclaredMaxAttempts(catalog, body).None? ==> r == default
  {
    var declared := DeclaredMaxAttempts(catalog, body);
    if declared.Some? then declared else default
  }

  /** What one `onResult` call does: the new result, the copies sent and the events fired. */
  datatype Governed = Governed(result: Verdict, sent: seq<Sent>, failed: seq<FailedEvent>)

  /** The specification of `onResult` for a delivery of `message` whose result is `result`. */
  function Govern(default: Option<int>, catalog: Catalog, message: QueueMessage, context: Context,
                  queue: string, logger: string, result: Verdict): (g: Governed)
    ensures !IsRequeue(result) || EffectiveMax(default, catalog, message.body).None? ==> g == Governed(result, [], [])
    ensures IsRequeue(result) && EffectiveMax(default, catalog, message.body).Some? ==>
              |g.sent| + |g.failed| == 1 && g.result.status == Reject && HasReason(g.result)
    ensures g.failed != [] ==>
              && AttemptsOf(message) + 1 >= EffectiveMax(default, catalog, message.body).value
              && g.result == WithReason(Reject, ExhaustedReason(EffectiveMax(default, catalog, message.body).value))
              && g.failed == [FailedEvent(NewMessage(message, context), message.jobException.GetOr(""), Psr(logger))]
    ensures g.sent != [] ==>
              && AttemptsOf(message) + 1 < EffectiveMax(default, catalog, message.body).value
              && g.result == WithReason(Reject, COPY_SENT)
              && g.sent == [Sent(queue, message.(attempts := Some(AttemptsOf(message) + 1)))]
  {
    var max := EffectiveMax(default, catalog, message.body);
    if !IsRequeue(result) || max.None? then Governed(result, [], [])
    else
      var attemptNumber := AttemptsOf(message) + 1;
      if attemptNumber >= max.value then
        var reason := ExhaustedReason(max.value);
        assert reason[0] == 'T';
        Governed(WithReason(Reject, reason), [],
                 [FailedEvent(NewMessage(message, context), message.jobException.GetOr(""), Psr(logger))])
      else
        Governed(WithReason(Reject, COPY_SENT), [Sent(queue, message.(attempts := Some(attemptNumber)))], [])
  }

  /** The copy that is sent keeps the body and the recorded exception: only `attempts` changes. */
  lemma CopyChangesOnlyAttempts(default: Option<int>, catalog: Catalog, message: QueueMessage, context: Context,
                                queue: string, logger: string, result: Verdict)
    requires Govern(default, catalog, message, context, queue, logger, result).sent != []
    ensures var copy := Govern(default, catalog, message, context, queue, logger, result).sent[0].message;
            copy.body == message.body && copy.jobException == message.jobException
            && AttemptsOf(copy) == AttemptsOf(message) + 1
  {
  }

  // ---------------------------------------------------------------------------
  // A job that always asks to be requeued

  /**
   * The `k`-th delivery of `m` when every delivery ends with REQUEUE: the copy
   * the governor sent after the previous delivery, if it sent one.
   */
  function Delivery(default: Option<int>, catalog: Catalog, m: QueueMessage, context: Context,
                    queue: string, logger: string, k: nat): QueueMessage
  {
    if k == 0 then m
    else
      var previous := Delivery(default, catalog, m, context, queue, logger, k - 1);
      var g := Govern(default, catalog, previous, context, queue, logger, Plain(Requeue));
      if g.sent == [] then previous else g.sent[0].message
  }

  /** How many times a job with effective maximum `n` runs: at least once. */
  function Runs(n: int): nat
  {
    if n < 1 then 1 else n
  }

  lemma {:induction false} DeliveryCountsAttempts(default: Option<int>, catalog: Catalog, m: QueueMessage, context: Context,
                                                  queue: string, logger: string, n: int, k: nat)
    requires AttemptsOf(m) == 0
    requires EffectiveMax(default, catalog, m.body) == Some(n)
    requires k < Runs(n)
    ensures var d := Delivery(default, catalog, m, context, queue, logger, k);
            AttemptsOf(d) == k && d.body == m.body
  {
    if k > 0 {
      DeliveryCountsAttempts(default, catalog, m, context, queue, logger, n, k - 1);
    }
  }

  /**
   * With an effective maximum of `n` and a job that always fails, the job runs
   * exactly `Runs(n)` times: each of the first `Runs(n) - 1` deliveries sends one
   * copy, and the last one fires the `failed` event instead.
   */
  lemma AlwaysFailingJobRunsMaxTimes(default: Option<int>, catalog: Catalog, m: QueueMessage, context: Context,
                                     queue: string, logger: string, n: int)
    requires AttemptsOf(m) == 0
    requires EffectiveMax(default, catalog, m.body) == Some(n)
    ensures forall k: nat :: k < Runs(n) - 1 ==>
              Govern(default, catalog, Delivery(default, catalog, m, context, queue, logger, k), context, queue, logger, Plain(Requeue)).sent != []
    ensures Govern(default, catalog, Delivery(default, catalog, m, context, queue, logger, Runs(n) - 1), context, queue, logger, Plain(Requeue)).failed != []
  {
    forall k: nat | k < Runs(n) - 1
      ensures Govern(default, catalog, Delivery(default, catalog, m, context, queue, logger, k), context, queue, logger, Plain(Requeue)).sent != []
    {
      DeliveryCountsAttempts(default, catalog, m, context, queue, logger, n, k);
    }
    DeliveryCountsAttempts(default, catalog, m, context, queue, logger, n, Runs(n) - 1);
  }

  // ---------------------------------------------------------------------------
  // The objects

  /** The broker's `MessageResult` context: the delivery and its (changeable) result. */
  class MessageResult {
    const message: QueueMessage
    const context: Context
    /** The queue the consumer reads from. */
    const consumerQueue: string
    /** The consumer's logger. */
    const logger: string
    var result: Verdict

    constructor (message: QueueMessage, context: Context, consumerQueue: string, logger: string, result: Verdict)
      ensures this.message == message && this.context == context && this.consumerQueue == consumerQueue
      ensures this.logger == logger && this.result == result
    {
      this.message := message;
      this.context := context;
      this.consumerQueue := consumerQueue;
      this.logger := logger;
      this.result := result;
    }

    method ChangeResult(v: Verdict)
      modifies this
      ensures result == v
    {
      result := v;
    }
  }

  /** The producer of the broker context: what it has sent, oldest first. */
  class Producer {
    var sent: seq<Sent>

    constructor ()
      ensures sent == []
    {
      sent := [];
    }

    method Send(queue: string, message: QueueMessage)
      modifies this
      ensures sent == old(sent) + [Sent(queue, message)]
    {
      sent := sent + [Sent(queue, message)];
    }
  }

  class LimitAttemptsExtension {
    /** The default maximum; a job's own `$maxAttempts` overrides it. */
    const maxAttempts: Option<int>
    /** The `failed` events dispatched, oldest first. */
    var failed: seq<FailedEvent>

    constructor (maxAttempts: Option<int>)
      ensures this.maxAttempts == maxAttempts && failed == []
    {
      this.maxAttempts := maxAttempts;
      failed := [];
    }

    method OnResult(ctx: MessageResult, catalog: Catalog, producer: Producer)
      modifies this, ctx, producer
      ensures var g := Govern(maxAttempts, catalog, ctx.message, ctx.context, ctx.consumerQueue, ctx.logger, old(ctx.result));
              && ctx.result == g.result
              && producer.sent == old(producer.sent) + g.sent
              && failed == old(failed) + g.failed
    {
      if !IsRequeue(ctx.result) {
        return;
      }
      var message := ctx.message;
      var jobMessage := NewMessage(message, ctx.context);
      var max := EffectiveMax(maxAttempts, catalog, jobMessage.parsedBody);
      if max.None? {
        return;
      }
      var attemptNumber := AttemptsOf(message) + 1;
      if attemptNumber >= max.value {
        ctx.ChangeResult(WithReason(Reject, ExhaustedReason(max.value)));
        failed := failed + [FailedEvent(jobMessage, message.jobException.GetOr(""), Psr(ctx.logger))];
        return;
      }
      var copy := message.(attempts := Some(attemptNumber));
      producer.Send(ctx.consumerQueue, copy);
      ctx.ChangeResult(WithReason(Reject, COPY_SENT));
    }
  }
}
