/**
 * The legacy publish path under `src/Queue`: the two static registries
 * `Queue` and `QueueManager` (same `setConfig`, `getConfig` and `engine`,
 * each with its own configurations and clients), their `push`, the
 * `pushEvent` of `QueueManager`, and the budgets of the legacy
 * `QueueExtension`. A legacy configuration is a plain PHP array, read with
 * `Hash::get`.
 */
module Legacy {
  import opened Wrappers
  import opened Php
  import opened Envelope
  import opened LoopLimits

  /** A legacy configuration array (string keys). */
  type Settings = seq<Field>

  /** Which of the two registries: their `engine` asks for a logger differently and only `QueueManager::push` applies message options. */
  datatype Flavour = QueueClass | ManagerClass

  /** The first argument of `setConfig`: one name, or an array of name => settings (null settings allowed). */
  datatype Key = Name(name: string) | Batch(entries: seq<(string, Option<Settings>)>)

  const NULL_CONFIG_NEEDS_ARRAY: string := "If config is null, key must be an array."
  const MISSING_URL: string := "Must specify \"url\" key"

  /** An array key with a non-null config reaches `isset($_config[$key])`, which refuses an array offset. */
  const ARRAY_OFFSET := Throwable(TypeError, "Illegal offset type in isset or empty")

  /** `setConfig($name, $settings)` with non-null settings: the new configurations, or what it throws. */
  function Register(configs: map<string, Settings>, name: string, s: Settings): (r: Result<map<string, Settings>, Throwable>)
    ensures name in configs ==> r == Failure(Throwable(BadMethodCallException, "Cannot reconfigure existing key \"" + name + "\""))
    ensures name !in configs && !Truthy(Index(Dict(s), "url")) ==> r == Failure(Throwable(BadMethodCallException, MISSING_URL))
    ensures r.Success? <==> name !in configs && Truthy(Index(Dict(s), "url"))
    ensures r.Success? ==> r.value == configs[name := s]
  {
    if name in configs then Failure(Throwable(BadMethodCallException, "Cannot reconfigure existing key \"" + name + "\""))
    else if !Truthy(Index(Dict(s), "url")) then Failure(Throwable(BadMethodCallException, MISSING_URL))
    else Success(configs[name := s])
  }

  /** The configurations after registering `entries` in order, and the first throwable, which stops the loop. */
  datatype Registration = Registration(configs: map<string, Settings>, outcome: Outcome<Throwable>)

  function RegisterEntry(configs: map<string, Settings>, name: string, s: Option<Settings>): Registration
  {
    if s.None? then Registration(configs, Fail(Throwable(LogicException, NULL_CONFIG_NEEDS_ARRAY)))
    else
      var r := Register(configs, name, s.value);
      if r.Failure? then Registration(configs, Fail(r.error)) else Registration(r.value, Pass)
  }

  function RegisterAll(configs: map<string, Settings>, entries: seq<(string, Option<Settings>)>): Registration
    decreases |entries|
  {
    if entries == [] then Registration(configs, Pass)
    else
      var before := RegisterAll(configs, entries[..|entries| - 1]);
      if before.outcome.Fail? then before
      else RegisterEntry(before.configs, entries[|entries| - 1].0, entries[|entries| - 1].1)
  }

  /** The specification of `setConfig($key, $config)`. */
  function SetConfigSpec(configs: map<string, Settings>, key: Key, config: Option<Settings>): Registration
  {
    match key
    case Name(n) => RegisterEntry(configs, n, config)
    case Batch(entries) =>
      if config.None? then RegisterAll(configs, entries) else Registration(configs, Fail(ARRAY_OFFSET))
  }

  /** Once an entry of a batch throws, the later entries are never registered. */
  lemma {:induction false} RegisterAllStops(configs: map<string, Settings>, entries: seq<(string, Option<Settings>)>, i: nat)
    requires i <= |entries| && RegisterAll(configs, entries[..i]).outcome.Fail?
    ensures RegisterAll(configs, entries) == RegisterAll(configs, entries[..i])
    decreases |entries| - i
  {
    if i < |entries| {
      assert entries[..i + 1][..i] == entries[..i];
      RegisterAllStops(configs, entries, i + 1);
    } else {
      assert entries[..i] == entries;
    }
  }

  /** A batch never forgets a configuration: what was registered before stays, unchanged. */
  lemma {:induction false} RegisterAllKeeps(configs: map<string, Settings>, entries: seq<(string, Option<Settings>)>)
    ensures forall n :: n in configs ==> n in RegisterAll(configs, entries).configs
                                         && RegisterAll(configs, entries).configs[n] == configs[n]
    decreases |entries|
  {
    if entries != [] {
      RegisterAllKeeps(configs, entries[..|entries| - 1]);
    }
  }

  /** The names of a batch. */
  function Names(entries: seq<(string, Option<Settings>)>): set<string>
    decreases |entries|
  {
    if entries == [] then {} else Names(entries[..|entries| - 1]) + {entries[|entries| - 1].0}
  }

  /** Only the names of its entries are names of a batch. */
  lemma {:induction false} NamesOnly(entries: seq<(string, Option<Settings>)>, n: string)
    requires forall i :: 0 <= i < |entries| ==> entries[i].0 != n
    ensures n !in Names(entries)
    decreases |entries|
  {
    if entries != [] {
      var prefix := entries[..|entries| - 1];
      assert forall i :: 0 <= i < |prefix| ==> prefix[i] == entries[i];
      NamesOnly(prefix, n);
    }
  }

  /**
   * A batch of fresh, distinct names, each with settings that carry a `url`,
   * registers every one of them and nothing else.
   */
  lemma {:induction false} FreshBatchRegistersAll(configs: map<string, Settings>, entries: seq<(string, Option<Settings>)>)
    requires forall i :: 0 <= i < |entries| ==> entries[i].0 !in configs
    requires forall i, j :: 0 <= i < j < |entries| ==> entries[i].0 != entries[j].0
    requires forall i :: 0 <= i < |entries| ==> entries[i].1.Some? && Truthy(Index(Dict(entries[i].1.value), "url"))
    ensures RegisterAll(configs, entries).outcome == Pass
    ensures RegisterAll(configs, entries).configs.Keys == configs.Keys + Names(entries)
    ensures forall i :: 0 <= i < |entries| ==>
              entries[i].0 in RegisterAll(configs, entries).configs
              && RegisterAll(configs, entries).configs[entries[i].0] == entries[i].1.value
    decreases |entries|
  {
    if entries != [] {
      var prefix := entries[..|entries| - 1];
      var last := entries[|entries| - 1];
      assert forall i :: 0 <= i < |prefix| ==> prefix[i] == entries[i];
      FreshBatchRegistersAll(configs, prefix);
      var before := RegisterAll(configs, prefix);
      NamesOnly(prefix, last.0);
    }
  }

  // ---------------------------------------------------------------------------
  // Publishing

  /** The options `push` reads; an absent option and a null one are the same to `Hash::get`. */
  datatype Options = Options(config: Option<string>, queue: Option<string>, delay: Option<int>,
                             expiresAt: Option<int>, priority: Option<string>, eventClass: Option<string>)

  /** A client message: its body and the properties `QueueManager::push` may set. */
  datatype LegacyMessage = LegacyMessage(body: Value, delay: Option<int>, expire: Option<int>, priority: Option<string>)

  /** A broker client: a serial number, the `url` and the name of the logger it was built with. */
  datatype LegacyClient = LegacyClient(serial: nat, url: Value, logger: Value)

  /** An event sent by a client: the configuration name, the client, the queue and the message. */
  datatype Sent = Sent(config: string, client: nat, queue: Value, message: LegacyMessage)

  /** What `push` sends, before a client is chosen. */
  datatype Plan = Plan(name: string, queue: Value, message: LegacyMessage)

  /**
   * `engine`'s client for a configuration: `Queue` always asks `Log` for the
   * configured logger, `debug` by default; `QueueManager` only for a truthy one.
   */
  function NewClient(flavour: Flavour, serial: nat, s: Settings): LegacyClient
  {
    var url := IssetGet(Dict(s), "url", Null);
    var loggerName := IssetGet(Dict(s), "logger", if flavour == QueueClass then Str("debug") else Null);
    LegacyClient(serial, url, if flavour == QueueClass || Truthy(loggerName) then loggerName else Null)
  }

  /** The body of a legacy job: queue, callable and the arguments wrapped as `args[0]`. */
  function Body(queue: Value, callable: Value, args: Value): Value
  {
    Dict([Field("queue", queue), Field("class", callable), Field("args", List([args]))])
  }

  /** Each entry of a three-entry array with distinct keys reads back. */
  lemma ThreeFields(a: Field, b: Field, c: Field)
    requires a.key != b.key && a.key != c.key && b.key != c.key
    ensures Index(Dict([a, b, c]), a.key) == a.val
    ensures Index(Dict([a, b, c]), b.key) == b.val
    ensures Index(Dict([a, b, c]), c.key) == c.val
  {
    var fields := [a, b, c];
    assert fields[1..] == [b, c] && fields[1..][1..] == [c];
    assert Lookup(fields[1..][1..], c.key) == Some(c.val);
    assert Lookup(fields[1..], c.key) == Lookup(fields[1..][1..], c.key);
    assert Lookup(fields, c.key) == Lookup(fields[1..], c.key);
    assert Lookup(fields[1..], b.key) == Some(b.val);
    assert Lookup(fields, b.key) == Lookup(fields[1..], b.key);
  }

  /** The body's entries read back as the queue, the callable and the arguments. */
  lemma BodyReadsBack(queue: Value, callable: Value, args: Value)
    ensures Index(Body(queue, callable, args), "queue") == queue
    ensures Index(Body(queue, callable, args), "class") == callable
    ensures LegacyArguments(Body(queue, callable, args)) == args
  {
    var fields := Body(queue, callable, args).fields;
    ThreeFields(Field("queue", queue), Field("class", callable), Field("args", List([args])));
  }

  /**
   * The specification of `push`: the configuration is `options.config` or
   * `default`, and reading its `queue` from a missing configuration throws;
   * the queue is the configuration's or `default`, never the options'. Only
   * `QueueManager` applies delay, expiry and priority, each only when set.
   */
  function PlanPush(flavour: Flavour, configs: map<string, Settings>, callable: Value, args: Value, options: Options): (r: Result<Plan, Throwable>)
    requires args.IsArray()
    ensures r.Failure? <==> options.config.GetOr("default") !in configs
    ensures r.Failure? ==> r.error == HASH_NOT_ARRAY
    ensures r.Success? ==>
              && r.value.name == options.config.GetOr("default") && r.value.name in configs
              && r.value.queue == IssetGet(Dict(configs[r.value.name]), "queue", Str("default"))
              && r.value.message.body == Body(r.value.queue, callable, args)
              && (flavour == QueueClass ==> r.value.message == LegacyMessage(r.value.message.body, None, None, None))
              && (flavour == ManagerClass ==>
                    r.value.message == LegacyMessage(r.value.message.body, options.delay, options.expiresAt, options.priority))
  {
    var name := options.config.GetOr("default");
    if name !in configs then Failure(HASH_NOT_ARRAY)
    else
      var queue := IssetGet(Dict(configs[name]), "queue", Str("default"));
      var body := Body(queue, callable, args);
      var message :=
        if flavour == QueueClass then LegacyMessage(body, None, None, None)
        else LegacyMessage(body, options.delay, options.expiresAt, options.priority);
      Success(Plan(name, queue, message))
  }

  /** The `queue` option is ignored: only the configuration chooses the queue. */
  lemma QueueOptionIsIgnored(flavour: Flavour, configs: map<string, Settings>, callable: Value, args: Value, options: Options, queue: Option<string>)
    requires args.IsArray()
    ensures PlanPush(flavour, configs, callable, args, options.(queue := queue)) == PlanPush(flavour, configs, callable, args, options)
  {
  }

  /**
   * A consumer reads back what was pushed: the legacy `Message::getArgument()`
   * and `Job\Base::data()` return the pushed arguments, and `getCallable()`
   * the pushed callable.
   */
  lemma PushedArgumentsReadBack(flavour: Flavour, configs: map<string, Settings>, callable: Value, args: Value, options: Options,
                                context: Context, default: Value)
    requires args.IsArray() && PlanPush(flavour, configs, callable, args, options).Success?
    ensures var body := PlanPush(flavour, configs, callable, args, options).value.message.body;
            var m := NewMessage(QueueMessage(body, None, None), context);
            && GetArgument(m, None, default) == Success(args)
            && Data(NewBaseJob(QueueMessage(body, None, None)), None, default) == Success(args)
            && (callable != Null ==> GetCallable(m) == Success(callable))
  {
    var plan := PlanPush(flavour, configs, callable, args, options).value;
    BodyReadsBack(plan.queue, callable, args);
  }

  const EVENT_JOB: string := "Queue\\Job\\EventJob"
  const DISPATCH_EVENT: string := "dispatchEvent"
  const EVENT_CLASS: string := "Cake\\Event\\Event"

  /** The arguments `pushEvent` publishes: the event class (`Event` by default), its name and its data. */
  function EventData(eventName: string, data: Value, options: Options): Value
  {
    Dict([Field("className", Str(options.eventClass.GetOr(EVENT_CLASS))), Field("eventName", Str(eventName)), Field("data", data)])
  }

  /**
   * An event pushed by `pushEvent` reaches the consumer as a call of
   * `EventJob::dispatchEvent` whose argument names the event class, the event
   * and its data.
   */
  lemma PushedEventReadsBack(configs: map<string, Settings>, eventName: string, data: Value, options: Options, context: Context)
    requires data.IsArray()
    requires PlanPush(QueueClass, configs, List([Str(EVENT_JOB), Str(DISPATCH_EVENT)]), EventData(eventName, data, options), options).Success?
    ensures var plan := PlanPush(QueueClass, configs, List([Str(EVENT_JOB), Str(DISPATCH_EVENT)]), EventData(eventName, data, options), options);
            var m := NewMessage(QueueMessage(plan.value.message.body, None, None), context);
            && GetCallable(m) == Success(List([Str(EVENT_JOB), Str(DISPATCH_EVENT)]))
            && GetArgument(m, Some("className"), Null) == Success(Str(options.eventClass.GetOr(EVENT_CLASS)))
            && GetArgument(m, Some("eventName"), Null) == Success(Str(eventName))
            && GetArgument(m, Some("data"), Null) == Success(data)
  {
    var callable := List([Str(EVENT_JOB), Str(DISPATCH_EVENT)]);
    var args := EventData(eventName, data, options);
    PushedArgumentsReadBack(QueueClass, configs, callable, args, options, context, Null);
    ThreeFields(args.fields[0], args.fields[1], args.fields[2]);
  }

  /** One of the two static registries, with its own configurations, clients and sent events. */
  class LegacyRegistry {
    const flavour: Flavour
    var configs: map<string, Settings>
    var clients: map<string, LegacyClient>
    var nextClient: nat
    /** Every event sent by any of this registry's clients, in order. */
    var sent: seq<Sent>

    ghost predicate Valid()
      reads this
    {
      && clients.Keys <= configs.Keys
      && (forall n :: n in clients ==> clients[n].serial < nextClient)
    }

    constructor (flavour: Flavour)
      ensures Valid() && this.flavour == flavour
      ensures configs == map[] && clients == map[] && sent == []
    {
      this.flavour := flavour;
      configs := map[];
      clients := map[];
      nextClient := 0;
      sent := [];
    }

    /** `getConfig`: the stored settings, or null for an unknown name. */
    function GetConfig(name: string): Option<Settings>
      reads this
    {
      if name in configs then Some(configs[name]) else None
    }

    /** `setConfig`, in its single-name and batch forms; a batch stops at its first throwable. */
    method SetConfig(key: Key, config: Option<Settings>) returns (r: Outcome<Throwable>)
      requires Valid()
      modifies this
      ensures Valid()
      ensures var spec := SetConfigSpec(old(configs), key, config);
              configs == spec.configs && r == spec.outcome
      ensures clients == old(clients) && nextClient == old(nextClient) && sent == old(sent)
    {
      match key
      case Name(n) =>
        if config.None? {
          return Fail(Throwable(LogicException, NULL_CONFIG_NEEDS_ARRAY));
        }
        r := SetOne(n, config.value);
      case Batch(entries) =>
        if config.Some? {
          return Fail(ARRAY_OFFSET);
        }
        r := SetBatch(entries);
    }

    /** `setConfig($entries)`: registers the entries in order and stops at the first throwable. */
    method SetBatch(entries: seq<(string, Option<Settings>)>) returns (r: Outcome<Throwable>)
      requires Valid()
      modifies this
      ensures Valid()
      ensures var spec := RegisterAll(old(configs), entries);
              configs == spec.configs && r == spec.outcome
      ensures clients == old(clients) && nextClient == old(nextClient) && sent == old(sent)
    {
      ghost var configs0 := configs;
      var i := 0;
      r := Pass;
      while i < |entries|
        invariant 0 <= i <= |entries|
        invariant Valid()
        invariant clients == old(clients) && nextClient == old(nextClient) && sent == old(sent)
        invariant RegisterAll(configs0, entries[..i]) == Registration(configs, Pass)
        invariant r == Pass
      {
        assert entries[..i + 1][..i] == entries[..i];
        var (name, settings) := entries[i];
        if settings.None? {
          RegisterAllStops(configs0, entries, i + 1);
          return Fail(Throwable(LogicException, NULL_CONFIG_NEEDS_ARRAY));
        }
        r := SetOne(name, settings.value);
        if r.Fail? {
          RegisterAllStops(configs0, entries, i + 1);
          return;
        }
        i := i + 1;
      }
      assert entries[..i] == entries;
    }

    /** `setConfig($name, $settings)` with non-null settings. */
    method SetOne(name: string, s: Settings) returns (r: Outcome<Throwable>)
      requires Valid()
      modifies this
      ensures Valid()
      ensures var reg := Register(old(configs), name, s);
              && (reg.Failure? ==> r == Fail(reg.error) && configs == old(configs))
              && (reg.Success? ==> r == Pass && configs == reg.value)
      ensures clients == old(clients) && nextClient == old(nextClient) && sent == old(sent)
    {
      if name in configs {
        return Fail(Throwable(BadMethodCallException, "Cannot reconfigure existing key \"" + name + "\""));
      }
      if !Truthy(Index(Dict(s), "url")) {
        return Fail(Throwable(BadMethodCallException, MISSING_URL));
      }
      configs := configs[name := s];
      r := Pass;
    }

    /**
     * `engine`: the client cached for the name, or a new one built from its
     * configuration and cached; an unknown name makes `Hash::get` throw.
     */
    method Engine(name: string) returns (r: Result<LegacyClient, Throwable>)
      requires Valid()
      modifies this
      ensures Valid()
      ensures configs == old(configs) && sent == old(sent)
      ensures name in old(clients) ==> r == Success(old(clients)[name]) && clients == old(clients) && nextClient == old(nextClient)
      ensures name !in old(clients) && name !in configs ==>
                r == Failure(HASH_NOT_ARRAY) && clients == old(clients) && nextClient == old(nextClient)
      ensures name !in old(clients) && name in configs ==>
                && r == Success(NewClient(flavour, old(nextClient), configs[name]))
                && clients == old(clients)[name := r.value]
                && nextClient == old(nextClient) + 1
    {
      if name in clients {
        return Success(clients[name]);
      }
      if name !in configs {
        return Failure(HASH_NOT_ARRAY);
      }
      var client := NewClient(flavour, nextClient, configs[name]);
      clients := clients[name := client];
      nextClient := nextClient + 1;
      r := Success(client);
    }

    /** `push`: sends the job's message to its queue on the configuration's client. */
    method Push(callable: Value, args: Value, options: Options) returns (r: Outcome<Throwable>)
      requires Valid() && args.IsArray()
      modifies this
      ensures Valid()
      ensures configs == old(configs)
      ensures var plan := PlanPush(flavour, old(configs), callable, args, options);
              && (plan.Failure? ==> r == Fail(plan.error) && sent == old(sent) && clients == old(clients) && nextClient == old(nextClient))
              && (plan.Success? ==>
                    && r == Pass
                    && plan.value.name in clients
                    && (plan.value.name in old(clients) ==> clients == old(clients) && nextClient == old(nextClient))
                    && sent == old(sent) + [Sent(plan.value.name, clients[plan.value.name].serial, plan.value.queue, plan.value.message)])
    {
      var plan := PlanPush(flavour, configs, callable, args, options);
      if plan.Failure? {
        return Fail(plan.error);
      }
      var p := plan.value;
      var client := Engine(p.name);
      sent := sent + [Sent(p.name, client.value.serial, p.queue, p.message)];
      r := Pass;
    }
  }

  /**
   * `QueueManager::pushEvent`: publishes a call of `EventJob::dispatchEvent`
   * through `Queue::push`, so through the configurations and clients of the
   * `Queue` registry, not those of `QueueManager`.
   */
  method PushEvent(queue: LegacyRegistry, eventName: string, data: Value, options: Options) returns (r: Outcome<Throwable>)
    requires queue.Valid() && queue.flavour == QueueClass && data.IsArray()
    modifies queue
    ensures queue.Valid() && queue.configs == old(queue.configs)
    ensures var plan := PlanPush(QueueClass, old(queue.configs), List([Str(EVENT_JOB), Str(DISPATCH_EVENT)]), EventData(eventName, data, options), options);
            && (plan.Failure? ==> r == Fail(plan.error) && queue.sent == old(queue.sent))
            && (plan.Success? ==>
                  && r == Pass && plan.value.name in queue.clients
                  && queue.sent == old(queue.sent) + [Sent(plan.value.name, queue.clients[plan.value.name].serial, plan.value.queue, plan.value.message)])
  {
    r := queue.Push(List([Str(EVENT_JOB), Str(DISPATCH_EVENT)]), EventData(eventName, data, options), options);
  }

  // ---------------------------------------------------------------------------
  // The legacy QueueExtension

  /**
   * `onPreConsume` as intended: the runtime budget is checked first and the
   * iteration budget only when the runtime one did not trip, so at most one
   * event fires; the iteration count is left alone.
   */
  function LegacyPreConsume(b: Budget, c: Counters, now: int): (s: Step)
    ensures s.counters == Counters(c.iterations, now - b.startedAt)
    ensures s.interrupt <==> RuntimeSpent(b, now - b.startedAt) || IterationsSpent(b, c.iterations)
    ensures s.events == if RuntimeSpent(b, now - b.startedAt) then [MAX_RUNTIME_EVENT]
                        else if IterationsSpent(b, c.iterations) then [MAX_ITERATIONS_EVENT]
                        else []
  {
    var runtime := now - b.startedAt;
    if RuntimeSpent(b, runtime) then Step(Counters(c.iterations, runtime), [MAX_RUNTIME_EVENT], true)
    else if IterationsSpent(b, c.iterations) then Step(Counters(c.iterations, runtime), [MAX_ITERATIONS_EVENT], true)
    else Step(Counters(c.iterations, runtime), [], false)
  }

  /** `onPostConsume`: one more iteration. */
  function LegacyPostConsume(c: Counters): Counters
  {
    Counters(c.iterations + 1, c.runtime)
  }

  /** The counters after `k` post-consume callbacks. */
  function PostConsumes(c: Counters, k: nat): Counters
    decreases k
  {
    if k == 0 then c else LegacyPostConsume(PostConsumes(c, k - 1))
  }

  lemma {:induction false} PostConsumesCount(c: Counters, k: nat)
    ensures PostConsumes(c, k) == Counters(c.iterations + k, c.runtime)
    decreases k
  {
    if k > 0 {
      PostConsumesCount(c, k - 1);
    }
  }

  /**
   * With no runtime budget, the pre-consume after `k` post-consumes of a fresh
   * extension interrupts exactly when `maxIterations` is positive and `k`
   * has reached it: first after the `maxIterations`-th post-consume.
   */
  lemma IterationBudgetTripsAfterN(b: Budget, k: nat, now: int)
    requires b.maxRuntime <= 0
    ensures var s := LegacyPreConsume(b, PostConsumes(Counters(0, 0), k), now);
            && (s.interrupt <==> b.maxIterations > 0 && k >= b.maxIterations)
            && (s.interrupt ==> s.events == [MAX_ITERATIONS_EVENT])
  {
    PostConsumesCount(Counters(0, 0), k);
  }

  /** What a callback leaves behind when it may also throw: the counters are updated before any throw. */
  datatype Attempt = Attempt(counters: Counters, events: seq<string>, interrupt: bool, thrown: Option<Throwable>)

  /** What PHP throws for `LogLevel::DEBUG` in namespace `Queue\Queue`, where `LogLevel` is not imported. */
  const UNDEFINED_LOG_LEVEL := Throwable(OtherError, "Class \"Queue\\Queue\\LogLevel\" not found")

  /**
   * `onPreConsume` as written: the arguments of `$this->log(...)` are evaluated
   * before the event is dispatched, and `LogLevel::DEBUG` names a class that
   * does not exist, so whenever a budget trips the callback throws an `Error`
   * with the runtime already updated and neither the event nor the interrupt
   * done.
   */
  function LegacyPreConsumeAsWritten(b: Budget, c: Counters, now: int): (a: Attempt)
    ensures a.counters == Counters(c.iterations, now - b.startedAt)
    ensures a.events == [] && !a.interrupt
    ensures a.thrown.Some? <==> RuntimeSpent(b, now - b.startedAt) || IterationsSpent(b, c.iterations)
  {
    var runtime := now - b.startedAt;
    if RuntimeSpent(b, runtime) || IterationsSpent(b, c.iterations) then
      Attempt(Counters(c.iterations, runtime), [], false, Some(UNDEFINED_LOG_LEVEL))
    else Attempt(Counters(c.iterations, runtime), [], false, None)
  }

  /**
   * The discrepancy: with `maxIterations` 1 and no runtime budget, the
   * pre-consume after one post-consume is meant to fire
   * `Processor.maxIterations` and interrupt; as written it throws an `Error`
   * instead. The two agree whenever no budget trips.
   */
  lemma BudgetTripThrows(now: int)
    ensures var b := Budget(1, 0, 0);
            var c := PostConsumes(Counters(0, 0), 1);
            && LegacyPreConsumeAsWritten(b, c, now).thrown == Some(UNDEFINED_LOG_LEVEL)
            && LegacyPreConsumeAsWritten(b, c, now).events == []
            && LegacyPreConsume(b, c, now) == Step(Counters(1, now), [MAX_ITERATIONS_EVENT], true)
  {
  }

  lemma AsWrittenAgreesWhenNothingTrips(b: Budget, c: Counters, now: int)
    requires !LegacyPreConsume(b, c, now).interrupt
    ensures var a := LegacyPreConsumeAsWritten(b, c, now);
            var s := LegacyPreConsume(b, c, now);
            a == Attempt(s.counters, s.events, s.interrupt, None)
  {
  }

  /** The legacy extension, with `LogLevel` resolved as intended. */
  class LegacyQueueExtension {
    const maxIterations: int
    const maxRuntime: int
    /** The time the extension was created; never reset. */
    const startedAt: int
    var iterations: int
    var runtime: int
    /** The events dispatched, oldest first. */
    var fired: seq<string>

    function BudgetOf(): Budget
    {
      Budget(maxIterations, maxRuntime, startedAt)
    }

    function CountersOf(): Counters
      reads this
    {
      Counters(iterations, runtime)
    }

    constructor (maxIterations: int, maxRuntime: int, now: int)
      ensures BudgetOf() == Budget(maxIterations, maxRuntime, now)
      ensures CountersOf() == Counters(0, 0) && fired == []
    {
      this.maxIterations := maxIterations;
      this.maxRuntime := maxRuntime;
      startedAt := now;
      iterations := 0;
      runtime := 0;
      fired := [];
    }

    method OnPreConsume(now: int) returns (interrupt: bool)
      modifies this
      ensures var s := LegacyPreConsume(BudgetOf(), old(CountersOf()), now);
              CountersOf() == s.counters && fired == old(fired) + s.events && interrupt == s.interrupt
    {
      interrupt := false;
      runtime := now - startedAt;
      if maxRuntime > 0 && runtime >= maxRuntime {
        fired := fired + [MAX_RUNTIME_EVENT];
        interrupt := true;
      } else if maxIterations > 0 && iterations >= maxIterations {
        fired := fired + [MAX_ITERATIONS_EVENT];
        interrupt := true;
      }
    }

    method OnPostConsume()
      modifies this
      ensures CountersOf() == LegacyPostConsume(old(CountersOf())) && fired == old(fired)
    {
      iterations := iterations + 1;
    }
  }
}
