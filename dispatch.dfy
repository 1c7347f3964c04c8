/**
 * `Processor`: runs the job a message names and maps what the job does to the
 * verdict the broker receives, announcing each step as an event.
 */
module Dispatch {
  import opened Wrappers
  import opened Php
  import opened Envelope

  /** The lifecycle events `process` dispatches. */
  datatype Event = Seen | Invalid | Start | Thrown | Succeeded | Rejected | Failed

  function EventName(e: Event): string
  {
    match e
    case Seen => "Processor.message.seen"
    case Invalid => "Processor.message.invalid"
    case Start => "Processor.message.start"
    case Thrown => "Processor.message.exception"
    case Succeeded => "Processor.message.success"
    case Rejected => "Processor.message.reject"
    case Failed => "Processor.message.failure"
  }

  /** The events that end a delivery. */
  predicate Terminal(e: Event)
  {
    e in {Invalid, Thrown, Succeeded, Rejected, Failed}
  }

  /** What the job named by the message does when it is looked up and called. */
  datatype Run = Returns(response: Response) | Throws(cause: Throwable)

  datatype Handler = Unresolvable(cause: Throwable) | Resolvable(run: Run)

  /** `processMessage`: a job that returns nothing acknowledges the message. */
  function ProcessMessage(run: Run): (r: Run)
    ensures run.Throws? ==> r == run
    ensures run == Returns(Nothing) ==> r == Returns(Text(ACK))
    ensures run.Returns? && run.response != Nothing ==> r == run
    ensures r != Returns(Nothing)
  {
    if run == Returns(Nothing) then Returns(Text(ACK)) else run
  }

  /** The verdict (or the throwable `process` lets escape) and the events dispatched. */
  datatype Dispatched = Dispatched(result: Result<Verdict, Throwable>, trace: seq<Event>)

  const EXCEPTION_REASON: string := "Exception occurred while processing message: "

  /**
   * The specification of `process`. A job that cannot be resolved (a
   * RuntimeException or an Error while looking it up) is rejected; an
   * Exception from the job requeues with a reason; the exact strings ACK and
   * REJECT are passed on; anything else requeues. Other throwables escape.
   */
  function Dispatch(h: Handler): Dispatched
  {
    match h
    case Unresolvable(cause) =>
      if cause.IsRuntimeException() || cause.IsError() then Dispatched(Success(Plain(Reject)), [Seen, Invalid])
      else Dispatched(Failure(cause), [Seen])
    case Resolvable(run) =>
      match ProcessMessage(run)
      case Throws(cause) =>
        if cause.IsException() then Dispatched(Success(WithReason(Requeue, EXCEPTION_REASON + cause.Describe())), [Seen, Start, Thrown])
        else Dispatched(Failure(cause), [Seen, Start])
      case Returns(response) =>
        if response == Text(ACK) then Dispatched(Success(Plain(Ack)), [Seen, Start, Succeeded])
        else if response == Text(REJECT) then Dispatched(Success(Plain(Reject)), [Seen, Start, Rejected])
        else Dispatched(Success(Plain(Requeue)), [Seen, Start, Failed])
  }

  /**
   * The trace starts with `seen` and, when a verdict is returned, ends with
   * exactly one terminal event. Each terminal event goes with its verdict:
   * `success` with ACK, `failure` with a plain REQUEUE, `exception` with a
   * requeue that has a reason, and `invalid` or `reject` with REJECT. `start`
   * is dispatched exactly when the job resolves.
   */
  lemma DispatchLifecycle(h: Handler)
    ensures var d := Dispatch(h);
            && |d.trace| >= 1 && d.trace[0] == Seen
            && (d.result.Success? ==> Terminal(d.trace[|d.trace| - 1]))
            && (forall k :: 0 <= k < |d.trace| - 1 ==> !Terminal(d.trace[k]))
            && (d.result == Success(Plain(Ack)) <==> Succeeded in d.trace)
            && (d.result == Success(Plain(Requeue)) <==> Failed in d.trace)
            && (d.result.Success? && d.result.value.WithReason? <==> Thrown in d.trace)
            && (Invalid in d.trace <==> d.trace == [Seen, Invalid])
            && (Invalid in d.trace || Rejected in d.trace ==> d.result == Success(Plain(Reject)))
            && (Start in d.trace <==> h.Resolvable?)
  {
  }

  /** A job that runs without throwing ends in exactly three events: seen, start, terminal. */
  lemma CleanRunHasThreeEvents(response: Response)
    ensures var d := Dispatch(Resolvable(Returns(response)));
            |d.trace| == 3 && d.trace[..2] == [Seen, Start] && d.result.Success?
  {
  }

  /**
   * The job's return value decides the verdict: nothing or ACK acknowledges,
   * REJECT rejects, REQUEUE, any other string and any object requeue.
   */
  lemma ResponseDecidesVerdict(response: Response)
    ensures var v := Dispatch(Resolvable(Returns(response))).result;
            && (response == Nothing || response == Text(ACK) <==> v == Success(Plain(Ack)))
            && (response == Text(REJECT) <==> v == Success(Plain(Reject)))
            && (response.Object? || (response.Text? && response.text != ACK && response.text != REJECT) <==> v == Success(Plain(Requeue)))
  {
  }

  class Processor {
    /** The events dispatched so far, oldest first. */
    var events: seq<Event>

    constructor ()
      ensures events == []
    {
      events := [];
    }

    method Emit(e: Event)
      modifies this
      ensures events == old(events) + [e]
    {
      events := events + [e];
    }

    /** `process`: dispatches the events of `Dispatch(handler)` in order and returns its verdict. */
    method Process(message: QueueMessage, context: Context, handler: Handler) returns (r: Result<Verdict, Throwable>)
      modifies this
      ensures r == Dispatch(handler).result
      ensures events == old(events) + Dispatch(handler).trace
    {
      Emit(Seen);
      var jobMessage := NewMessage(message, context);
      if handler.Unresolvable? {
        if handler.cause.IsRuntimeException() || handler.cause.IsError() {
          Emit(Invalid);
          assert Dispatch(handler) == Dispatched(Success(Plain(Reject)), [Seen, Invalid]);
          return Success(Plain(Reject));
        }
        assert Dispatch(handler) == Dispatched(Failure(handler.cause), [Seen]);
        return Failure(handler.cause);
      }
      Emit(Start);
      var run := ProcessMessage(handler.run);
      if run.Throws? {
        if run.cause.IsException() {
          Emit(Thrown);
          assert Dispatch(handler) == Dispatched(Success(WithReason(Requeue, EXCEPTION_REASON + run.cause.Describe())), [Seen, Start, Thrown]);
          return Success(WithReason(Requeue, EXCEPTION_REASON + run.cause.Describe()));
        }
        assert Dispatch(handler) == Dispatched(Failure(run.cause), [Seen, Start]);
        return Failure(run.cause);
      }
      if run.response == Text(ACK) {
        Emit(Succeeded);
        assert Dispatch(handler) == Dispatched(Success(Plain(Ack)), [Seen, Start, Succeeded]);
        return Success(Plain(Ack));
      }
      if run.response == Text(REJECT) {
        Emit(Rejected);
        assert Dispatch(handler) == Dispatched(Success(Plain(Reject)), [Seen, Start, Rejected]);
        return Success(Plain(Reject));
      }
      Emit(Failed);
      assert Dispatch(handler) == Dispatched(Success(Plain(Requeue)), [Seen, Start, Failed]);
      r := Success(Plain(Requeue));
    }
  }
}
