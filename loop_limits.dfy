/**
 * The loop governors of the consumer: `QueueExtension` (iteration and runtime
 * budgets) and `LimitConsumedMessagesExtension` (a message budget). Each one
 * counts and asks the consumer to stop by interrupting its execution. The
 * clock is a parameter `now`, a whole number of seconds.
 */
module LoopLimits {
  import opened Wrappers
  import opened Php
  import opened Envelope
  import opened Attempts

  const MAX_RUNTIME_EVENT: string := "Processor.maxRuntime"
  const MAX_ITERATIONS_EVENT: string := "Processor.maxIterations"

  /** The budgets of a `QueueExtension` and the time it was created. */
  datatype Budget = Budget(maxIterations: int, maxRuntime: int, startedAt: int)

  datatype Counters = Counters(iterations: int, runtime: int)

  /** One callback: the new counters, the events fired and whether execution is interrupted. */
  datatype Step = Step(counters: Counters, events: seq<string>, interrupt: bool)

  /** A budget of 0 (or less) disables its dimension. */
  predicate RuntimeSpent(b: Budget, runtime: int)
  {
    b.maxRuntime > 0 && runtime >= b.maxRuntime
  }

  predicate IterationsSpent(b: Budget, iterations: int)
  {
    b.maxIterations > 0 && iterations >= b.maxIterations
  }

  /** `$result instanceof Result && $result->getReason()`: such deliveries are not counted. */
  predicate Reasoned(result: Option<Verdict>)
  {
    result.Some? && HasReason(result.value)
  }

  /** The specification of `onPreConsume`: only the runtime budget is checked. */
  function PreConsume(b: Budget, c: Counters, now: int): (s: Step)
    ensures s.counters == Counters(c.iterations, now - b.startedAt)
    ensures s.interrupt <==> RuntimeSpent(b, now - b.startedAt)
    ensures s.events == (if s.interrupt then [MAX_RUNTIME_EVENT] else [])
  {
    var runtime := now - b.startedAt;
    if RuntimeSpent(b, runtime) then Step(Counters(c.iterations, runtime), [MAX_RUNTIME_EVENT], true)
    else Step(Counters(c.iterations, runtime), [], false)
  }

  /**
   * The specification of `onPostMessageReceived`: a delivery whose result
   * carries a reason changes nothing; any other delivery updates the runtime,
   * counts one iteration, and checks the runtime and then the iteration budget
   * (both may fire).
   */
  function PostMessageReceived(b: Budget, c: Counters, result: Option<Verdict>, now: int): (s: Step)
    ensures Reasoned(result) ==> s == Step(c, [], false)
    ensures !Reasoned(result) ==> s.counters == Counters(c.iterations + 1, now - b.startedAt)
    ensures MAX_RUNTIME_EVENT in s.events <==> !Reasoned(result) && RuntimeSpent(b, now - b.startedAt)
    ensures MAX_ITERATIONS_EVENT in s.events <==> !Reasoned(result) && IterationsSpent(b, c.iterations + 1)
    ensures s.interrupt <==> |s.events| > 0
    ensures |s.events| == 2 ==> s.events == [MAX_RUNTIME_EVENT, MAX_ITERATIONS_EVENT]
  {
    if Reasoned(result) then Step(c, [], false)
    else
      var runtime := now - b.startedAt;
      var first := if RuntimeSpent(b, runtime) then [MAX_RUNTIME_EVENT] else [];
      var iterations := c.iterations + 1;
      var second := if IterationsSpent(b, iterations) then [MAX_ITERATIONS_EVENT] else [];
      Step(Counters(iterations, runtime), first + second, RuntimeSpent(b, runtime) || IterationsSpent(b, iterations))
  }

  /** The counters after a run of post-message callbacks at the times `nows`. */
  function RunPost(b: Budget, c: Counters, results: seq<Option<Verdict>>, nows: seq<int>): Counters
    requires |results| == |nows|
    decreases |results|
  {
    if results == [] then c
    else RunPost(b, PostMessageReceived(b, c, results[0], nows[0]).counters, results[1..], nows[1..])
  }

  /** How many of the results carry no reason. */
  function Unreasoned(results: seq<Option<Verdict>>): nat
  {
    if results == [] then 0 else (if Reasoned(results[0]) then 0 else 1) + Unreasoned(results[1..])
  }

  /** A run of callbacks counts exactly the deliveries without a reason. */
  lemma {:induction false} RunCountsUnreasoned(b: Budget, c: Counters, results: seq<Option<Verdict>>, nows: seq<int>)
    requires |results| == |nows|
    decreases |results|
    ensures RunPost(b, c, results, nows).iterations == c.iterations + Unreasoned(results)
  {
    if results != [] {
      RunCountsUnreasoned(b, PostMessageReceived(b, c, results[0], nows[0]).counters, results[1..], nows[1..]);
    }
  }

  /**
   * Starting from a fresh extension, the iteration budget interrupts a
   * delivery without a reason exactly when it is the `maxIterations`-th such
   * delivery or later.
   */
  lemma IterationBudgetTripsOnTheNth(b: Budget, results: seq<Option<Verdict>>, nows: seq<int>, last: Option<Verdict>, now: int)
    requires |results| == |nows| && !Reasoned(last)
    ensures var c := RunPost(b, Counters(0, 0), results, nows);
            (MAX_ITERATIONS_EVENT in PostMessageReceived(b, c, last, now).events
             <==> b.maxIterations > 0 && Unreasoned(results) + 1 >= b.maxIterations)
  {
    RunCountsUnreasoned(b, Counters(0, 0), results, nows);
  }

  /**
   * A requeued delivery that the retry governor handled (the job has an
   * effective maximum) ends with a reason, so this extension does not count it.
   */
  lemma GovernedRetriesAreNotCounted(b: Budget, c: Counters, now: int,
                                     default: Option<int>, catalog: Catalog, message: QueueMessage, context: Context,
                                     queue: string, logger: string, result: Verdict)
    requires IsRequeue(result) && EffectiveMax(default, catalog, message.body).Some?
    ensures var g := Govern(default, catalog, message, context, queue, logger, result);
            PostMessageReceived(b, c, Some(g.result), now) == Step(c, [], false)
  {
  }

  class QueueExtension {
    const maxIterations: int
    const maxRuntime: int
    /** The time the extension was created; never reset. */
    const startedAt: int
    var iterations: int
    var runtime: int
    /** The events dispatched, oldest first. */
    var fired: seq<string>

    function BudgetOf(): Budget
    {
      Budget(maxIterations, maxRuntime, startedAt)
    }

    function CountersOf(): Counters
      reads this
    {
      Counters(iterations, runtime)
    }

    constructor (maxIterations: int, maxRuntime: int, now: int)
      ensures BudgetOf() == Budget(maxIterations, maxRuntime, now)
      ensures CountersOf() == Counters(0, 0) && fired == []
    {
      this.maxIterations := maxIterations;
      this.maxRuntime := maxRuntime;
      startedAt := now;
      iterations := 0;
      runtime := 0;
      fired := [];
    }

    /** `dispatchEvent($e)`: records the event; whether to stop is decided by the caller. */
    method Fire(e: string)
      modifies this
      ensures fired == old(fired) + [e] && CountersOf() == old(CountersOf())
    {
      fired := fired + [e];
    }

    method OnPostMessageReceived(result: Option<Verdict>, now: int) returns (interrupt: bool)
      modifies this
      ensures var s := PostMessageReceived(BudgetOf(), old(CountersOf()), result, now);
              CountersOf() == s.counters && fired == old(fired) + s.events && interrupt == s.interrupt
    {
      interrupt := false;
      if result.Some? && result.value.WithReason? && TruthyString(result.value.reason) {
        return;
      }
      runtime := now - startedAt;
      if maxRuntime > 0 && runtime >= maxRuntime {
        Fire(MAX_RUNTIME_EVENT);
        interrupt := true;
      }
      iterations := iterations + 1;
      if maxIterations > 0 && iterations >= maxIterations {
        Fire(MAX_ITERATIONS_EVENT);
        interrupt := true;
      }
    }

    method OnPreConsume(now: int) returns (interrupt: bool)
      modifies this
      ensures var s := PreConsume(BudgetOf(), old(CountersOf()), now);
              CountersOf() == s.counters && fired == old(fired) + s.events && interrupt == s.interrupt
    {
      interrupt := false;
      runtime := now - startedAt;
      if maxRuntime > 0 && runtime >= maxRuntime {
        Fire(MAX_RUNTIME_EVENT);
        interrupt := true;
      }
    }
  }

  // ---------------------------------------------------------------------------
  // LimitConsumedMessagesExtension

  /** `shouldBeStopped`: the budget of messages is used up. */
  predicate Exhausted(messageLimit: int, messageConsumed: int)
  {
    messageConsumed >= messageLimit
  }

  /**
   * The interrupt answers of `calls` successive `onPostConsume` callbacks of an
   * extension that has consumed `consumed` messages so far.
   */
  function PostConsumeAnswers(messageLimit: int, consumed: int, calls: nat): (r: seq<bool>)
    ensures |r| == calls
    decreases calls
  {
    if calls == 0 then []
    else [Exhausted(messageLimit, consumed + 1)] + PostConsumeAnswers(messageLimit, consumed + 1, calls - 1)
  }

  /**
   * From a fresh extension the `i`-th post-consume callback (counting from 1)
   * interrupts exactly when `i >= messageLimit`: with a limit of at least 1 the
   * first interrupt is on call number `messageLimit`, and once it interrupts it
   * keeps interrupting.
   */
  lemma {:induction false} PostConsumeStopsAtLimit(messageLimit: int, consumed: int, calls: nat)
    ensures forall i :: 0 <= i < calls ==>
              (PostConsumeAnswers(messageLimit, consumed, calls)[i] <==> consumed + i + 1 >= messageLimit)
    decreases calls
  {
    if calls > 0 {
      PostConsumeStopsAtLimit(messageLimit, consumed + 1, calls - 1);
      var r := PostConsumeAnswers(messageLimit, consumed, calls);
      var rest := PostConsumeAnswers(messageLimit, consumed + 1, calls - 1);
      assert r[1..] == rest;
      forall i | 1 <= i < calls
        ensures r[i] <==> consumed + i + 1 >= messageLimit
      {
        assert r[i] == rest[i - 1];
      }
    }
  }

  class LimitConsumedMessagesExtension {
    const messageLimit: int
    var messageConsumed: int

    constructor (messageLimit: int)
      ensures this.messageLimit == messageLimit && messageConsumed == 0
    {
      this.messageLimit := messageLimit;
      messageConsumed := 0;
    }

    predicate ShouldBeStopped()
      reads this
    {
      Exhausted(messageLimit, messageConsumed)
    }

    /** Checks the budget without counting: a limit of 0 stops before the first message. */
    method OnPreConsume() returns (interrupt: bool)
      ensures interrupt <==> messageConsumed >= messageLimit
    {
      interrupt := ShouldBeStopped();
    }

    method OnPostConsume() returns (interrupt: bool)
      modifies this
      ensures messageConsumed == old(messageConsumed) + 1
      ensures interrupt <==> messageConsumed >= messageLimit
    {
      messageConsumed := messageConsumed + 1;
      interrupt := ShouldBeStopped();
    }
  }
}
