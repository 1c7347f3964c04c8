/**
 * `QueueManager`: the registry of named queue configurations, the client
 * cache, and the publish path with its dedup guard for unique jobs.
 */
module Registry {
  import opened Wrappers
  import opened Php
  import opened Envelope
  import opened UniqueStore

  /** A connection `url`: a DSN string, or an array with a transport and client options. */
  datatype Url = Dsn(dsn: string) | Structured(transport: Option<string>, client: Option<map<string, string>>)

  /** The keys of a queue configuration the core reads or writes. */
  datatype Config = Config(
    url: Option<Url>,
    queue: Option<string>,
    logger: Option<string>,
    receiveTimeout: Option<int>,
    uniqueCache: Option<map<string, string>>,
    uniqueCacheKey: Option<string>,
    storeFailedJobs: bool)

  /** `empty($config['url'])`. */
  predicate EmptyUrl(u: Option<Url>)
  {
    match u
    case None => true
    case Some(Dsn(d)) => !TruthyString(d)
    case Some(Structured(t, c)) => t.None? && c.None?
  }

  /** `!empty($config['queue'])`. */
  predicate HasQueue(c: Config)
  {
    c.queue.Some? && TruthyString(c.queue.value)
  }

  /** `!empty($config['uniqueCache'])`. */
  predicate HasUniqueCache(c: Config)
  {
    c.uniqueCache.Some? && |c.uniqueCache.value| > 0
  }

  const ROUTING_KEYS: set<string> := {"router_topic", "router_queue", "default_queue"}

  /** Client options that route every topic and queue to `q`. */
  function Routing(q: string): (r: map<string, string>)
    ensures r.Keys == ROUTING_KEYS && forall k :: k in r ==> r[k] == q
  {
    map["router_topic" := q, "router_queue" := q, "default_queue" := q]
  }

  function UniqueCacheKey(name: string): string
  {
    "Cake/Queue.queueUnique." + name
  }

  /**
   * The configuration as stored: with a queue, the url is made to route to it,
   * client options already present winning; with a unique cache, the cache
   * configuration key is derived from the name.
   */
  function Normalize(name: string, c: Config): (r: Config)
    requires !EmptyUrl(c.url)
    ensures Stored(name, r)
    ensures r.queue == c.queue && r.uniqueCache == c.uniqueCache
  {
    var routed :=
      if !HasQueue(c) then c
      else match c.url.value
        case Dsn(d) => c.(url := Some(Structured(Some(d), Some(Routing(c.queue.value)))))
        case Structured(t, cl) => c.(url := Some(Structured(t, Some(Routing(c.queue.value) + cl.GetOr(map[])))));
    if HasUniqueCache(c) then routed.(uniqueCacheKey := Some(UniqueCacheKey(name))) else routed
  }

  /**
   * With a queue, a DSN url becomes a transport whose client routes to the
   * queue; an array url keeps its transport and its client options and gains
   * the routing options it lacks. Without a queue the url is kept. A unique
   * cache sets the cache key from the name. Nothing else changes.
   */
  lemma NormalizeRoutesToQueue(name: string, c: Config)
    requires !EmptyUrl(c.url)
    ensures var r := Normalize(name, c);
      && r.logger == c.logger && r.receiveTimeout == c.receiveTimeout && r.storeFailedJobs == c.storeFailedJobs
      && (!HasQueue(c) ==> r.url == c.url)
      && (HasQueue(c) ==> r.url.Some? && r.url.value.Structured? && r.url.value.client.Some?)
      && (HasQueue(c) && c.url.value.Dsn? ==>
            r.url.value.transport == Some(c.url.value.dsn) && r.url.value.client.value == Routing(c.queue.value))
      && (HasQueue(c) && c.url.value.Structured? ==>
            var before := c.url.value.client.GetOr(map[]);
            var after := r.url.value.client.value;
            && r.url.value.transport == c.url.value.transport
            && after.Keys == before.Keys + ROUTING_KEYS
            && (forall k :: k in before ==> after[k] == before[k])
            && (forall k :: k in ROUTING_KEYS && k !in before ==> after[k] == c.queue.value))
      && (!HasUniqueCache(c) ==> r.uniqueCacheKey == c.uniqueCacheKey)
  {
    if HasQueue(c) && c.url.value.Structured? {
      RoutingMerge(c.queue.value, c.url.value.client.GetOr(map[]));
    }
  }

  /** Routing options merged under existing client options: the existing ones win. */
  lemma RoutingMerge(q: string, before: map<string, string>)
    ensures var after := Routing(q) + before;
            && after.Keys == before.Keys + ROUTING_KEYS
            && (forall k :: k in before ==> after[k] == before[k])
            && (forall k :: k in ROUTING_KEYS && k !in before ==> after[k] == q)
  {
  }

  /** `array_merge(['duration' => '+24 hours'], $config['uniqueCache'])`. */
  function CacheSettings(c: Config): (r: map<string, string>)
    requires HasUniqueCache(c)
    ensures r.Keys == c.uniqueCache.value.Keys + {"duration"}
    ensures forall k :: k in c.uniqueCache.value ==> r[k] == c.uniqueCache.value[k]
    ensures "duration" !in c.uniqueCache.value ==> r["duration"] == "+24 hours"
  {
    map["duration" := "+24 hours"] + c.uniqueCache.value
  }

  /** What every stored configuration satisfies. */
  predicate Stored(name: string, c: Config)
  {
    !EmptyUrl(c.url) && (HasUniqueCache(c) ==> c.uniqueCacheKey == Some(UniqueCacheKey(name)))
  }

  predicate AllStored(configs: map<string, Config>)
  {
    forall n :: n in configs ==> Stored(n, configs[n])
  }

  /** Registering one name: refused when taken or without a url, otherwise normalised. */
  function Register(configs: map<string, Config>, name: string, c: Config): (r: Result<Config, Throwable>)
    ensures r.Failure? <==> name in configs || EmptyUrl(c.url)
    ensures name in configs ==> r == Failure(ExistingKey(name))
    ensures name !in configs && EmptyUrl(c.url) ==> r == Failure(Throwable(BadMethodCallException, "Must specify `url` key."))
    ensures r.Success? ==> Stored(name, r.value) && r.value.queue == c.queue && r.value.uniqueCache == c.uniqueCache
  {
    if name in configs then Failure(ExistingKey(name))
    else if EmptyUrl(c.url) then Failure(Throwable(BadMethodCallException, "Must specify `url` key."))
    else Success(Normalize(name, c))
  }

  /** `setConfig`'s first argument: one name, or an array of name => settings. */
  datatype ConfigKey = Name(name: string) | Batch(entries: seq<(string, Option<Config>)>)

  const NULL_CONFIG_NEEDS_ARRAY: string := "If config is null, key must be an array."
  const CONFIG_NEEDS_STRING_KEY: string := "If config is not null, key must be a string."

  /** The registry and cache settings after registering one entry. */
  datatype Registration = Registration(configs: map<string, Config>, cacheSettings: map<string, map<string, string>>, outcome: Outcome<Throwable>)

  /**
   * A unique cache whose configuration `Cache::setConfig` already holds (left
   * behind by an earlier registration of the name, which `drop` keeps).
   */
  predicate CacheTaken(settings: map<string, map<string, string>>, name: string, c: Config)
  {
    HasUniqueCache(c) && UniqueCacheKey(name) in settings
  }

  function RegisterEntry(configs: map<string, Config>, settings: map<string, map<string, string>>, name: string, c: Option<Config>): (r: Registration)
    ensures r.outcome.Fail? ==> r.configs == configs && r.cacheSettings == settings
    ensures r.outcome.Pass? <==> c.Some? && name !in configs && !EmptyUrl(c.value.url) && !CacheTaken(settings, name, c.value)
    ensures c.Some? && name !in configs && !EmptyUrl(c.value.url) && CacheTaken(settings, name, c.value) ==>
              r.outcome == Fail(ExistingKey(UniqueCacheKey(name)))
    ensures r.outcome.Pass? ==> r.configs == configs[name := Normalize(name, c.value)]
    ensures r.outcome.Pass? ==>
              r.cacheSettings == if HasUniqueCache(c.value) then settings[UniqueCacheKey(name) := CacheSettings(c.value)] else settings
  {
    if c.None? then Registration(configs, settings, Fail(Throwable(LogicException, NULL_CONFIG_NEEDS_ARRAY)))
    else match Register(configs, name, c.value)
      case Failure(e) => Registration(configs, settings, Fail(e))
      case Success(stored) =>
        if CacheTaken(settings, name, c.value) then Registration(configs, settings, Fail(ExistingKey(UniqueCacheKey(name))))
        else
          Registration(configs[name := stored],
                       if HasUniqueCache(c.value) then settings[UniqueCacheKey(name) := CacheSettings(c.value)] else settings,
                       Pass)
  }

  /**
   * `drop` keeps the unique cache's configuration, so registering the same
   * name again with a unique cache throws from `Cache::setConfig` and leaves
   * the name unregistered.
   */
  lemma ReregisteringAfterDropThrows(configs: map<string, Config>, settings: map<string, map<string, string>>, name: string, c: Config)
    requires name !in configs && !EmptyUrl(c.url) && HasUniqueCache(c)
    ensures var first := RegisterEntry(configs, settings, name, Some(c));
            var second := RegisterEntry(first.configs - {name}, first.cacheSettings, name, Some(c));
            && UniqueCacheKey(name) in first.cacheSettings
            && second.outcome == Fail(ExistingKey(UniqueCacheKey(name)))
            && name !in second.configs
  {
    var first := RegisterEntry(configs, settings, name, Some(c));
    assert name !in first.configs - {name};
  }

  /** Registering entries in order, stopping at the first one that throws. */
  function RegisterAll(configs: map<string, Config>, settings: map<string, map<string, string>>, entries: seq<(string, Option<Config>)>): (r: Registration)
    ensures configs.Keys <= r.configs.Keys
    ensures r.outcome.Pass? ==> forall k :: 0 <= k < |entries| ==> entries[k].0 in r.configs
    decreases |entries|
  {
    if |entries| == 0 then Registration(configs, settings, Pass)
    else
      var before := RegisterAll(configs, settings, entries[..|entries| - 1]);
      if before.outcome.Fail? then before
      else
        var last := entries[|entries| - 1];
        var after := RegisterEntry(before.configs, before.cacheSettings, last.0, last.1);
        assert forall k :: 0 <= k < |entries| - 1 ==> entries[k] == entries[..|entries| - 1][k];
        after
  }

  /** Once an entry throws, the later entries are not registered. */
  lemma {:induction false} RegisterAllStops(configs: map<string, Config>, settings: map<string, map<string, string>>, entries: seq<(string, Option<Config>)>, i: nat)
    requires i <= |entries|
    requires RegisterAll(configs, settings, entries[..i]).outcome.Fail?
    ensures RegisterAll(configs, settings, entries) == RegisterAll(configs, settings, entries[..i])
    decreases |entries|
  {
    if i < |entries| {
      var shorter := entries[..|entries| - 1];
      assert shorter[..i] == entries[..i];
      RegisterAllStops(configs, settings, shorter, i);
    } else {
      assert entries[..i] == entries;
    }
  }

  function SetConfigSpec(configs: map<string, Config>, settings: map<string, map<string, string>>, key: ConfigKey, config: Option<Config>): Registration
  {
    match (key, config)
    case (Name(_), None) => Registration(configs, settings, Fail(Throwable(LogicException, NULL_CONFIG_NEEDS_ARRAY)))
    case (Batch(entries), None) => RegisterAll(configs, settings, entries)
    case (Batch(_), Some(_)) => Registration(configs, settings, Fail(Throwable(LogicException, CONFIG_NEEDS_STRING_KEY)))
    case (Name(n), Some(c)) => RegisterEntry(configs, settings, n, Some(c))
  }

  lemma RegisterEntryKeepsStored(configs: map<string, Config>, settings: map<string, map<string, string>>, name: string, c: Option<Config>)
    requires AllStored(configs)
    ensures AllStored(RegisterEntry(configs, settings, name, c).configs)
  {
  }

  lemma {:induction false} RegisterAllKeepsStored(configs: map<string, Config>, settings: map<string, map<string, string>>, entries: seq<(string, Option<Config>)>)
    requires AllStored(configs)
    ensures AllStored(RegisterAll(configs, settings, entries).configs)
    decreases |entries|
  {
    if |entries| > 0 {
      var before := RegisterAll(configs, settings, entries[..|entries| - 1]);
      RegisterAllKeepsStored(configs, settings, entries[..|entries| - 1]);
      var last := entries[|entries| - 1];
      RegisterEntryKeepsStored(before.configs, before.cacheSettings, last.0, last.1);
    }
  }

  /**
   * Registering a name that is already registered throws and changes nothing,
   * whichever form of `setConfig` is used.
   */
  lemma RegisteringTakenNameChangesNothing(configs: map<string, Config>, settings: map<string, map<string, string>>, name: string, c: Config)
    requires name in configs
    ensures SetConfigSpec(configs, settings, Name(name), Some(c)) ==
              Registration(configs, settings, Fail(ExistingKey(name)))
    ensures SetConfigSpec(configs, settings, Batch([(name, Some(c))]), None).configs == configs
    ensures SetConfigSpec(configs, settings, Batch([(name, Some(c))]), None).outcome.Fail?
  {
    var entries := [(name, Some(c))];
    assert entries[..0] == [];
    assert RegisterAll(configs, settings, entries[..0]) == Registration(configs, settings, Pass);
  }

  // ---------------------------------------------------------------------------
  // The publish path

  /** `push`'s first argument: a class (method `execute`) or a `[class, method]` pair. */
  datatype JobRef = Named(cls: string) | Pair(cls: string, methodName: string)

  function MethodOf(job: JobRef): string
  {
    match job
    case Named(_) => "execute"
    case Pair(_, m) => m
  }

  datatype PushOptions = PushOptions(config: Option<string>, queue: Option<string>, priority: Option<string>, delay: Option<int>, expires: Option<int>)

  /** A client message: its body and the headers set only when the option is set. */
  datatype ClientMessage = ClientMessage(body: Value, delay: Option<int>, expire: Option<int>, priority: Option<string>)

  /** Where a unique job's dedup id is kept. */
  datatype Slot = Slot(store: string, id: string)

  /** What a push that does not throw will do: which client, which queue, what message, which dedup slot. */
  datatype PushPlan = PushPlan(name: string, queue: string, message: ClientMessage, slot: Option<Slot>)

  /** The body of a pushed job. */
  function PushBody(cls: string, methodName: string, data: Value, name: string, priority: Option<string>, queue: string): Value
  {
    Dict([
      Field("class", List([Str(cls), Str(methodName)])),
      Field("args", List([data])),
      Field("data", data),
      Field("requeueOptions", Dict([
        Field("config", Str(name)),
        Field("priority", OptionalString(priority)),
        Field("queue", Str(queue))]))])
  }

  /** A pushed body hands the job its target and its data, by either lookup. */
  lemma PushBodyReadsBack(cls: string, methodName: string, data: Value, name: string, priority: Option<string>, queue: string)
    ensures var body := PushBody(cls, methodName, data, name, priority, queue);
            && TargetOf(body) == Success((cls, methodName))
            && Index(body, "data") == data
            && CurrentArguments(body) == data
            && LegacyArguments(body) == data
            && Index(Index(body, "requeueOptions"), "config") == Str(name)
            && Index(Index(body, "requeueOptions"), "priority") == OptionalString(priority)
            && Index(Index(body, "requeueOptions"), "queue") == Str(queue)
  {
    var body := PushBody(cls, methodName, data, name, priority, queue);
    var fs := body.fields;
    assert fs[1..][1..][0] == Field("data", data);
    assert Lookup(fs[1..][1..], "data") == Some(data);
    assert Lookup(fs[1..], "data") == Some(data);
    assert Lookup(fs, "data") == Some(data);
    assert Lookup(fs[1..], "args") == Some(List([data]));
    assert Lookup(fs, "args") == Some(List([data]));
    var options := fs[3].val.fields;
    assert Lookup(fs[1..][1..][1..], "requeueOptions") == Some(fs[3].val);
    assert Lookup(fs[1..][1..], "requeueOptions") == Some(fs[3].val);
    assert Lookup(fs[1..], "requeueOptions") == Some(fs[3].val);
    assert Lookup(fs, "requeueOptions") == Some(fs[3].val);
    assert Lookup(options, "config") == Some(Str(name));
    assert Lookup(options[1..], "priority") == Some(OptionalString(priority));
    assert Lookup(options, "priority") == Some(OptionalString(priority));
    assert Lookup(options[1..][1..], "queue") == Some(Str(queue));
    assert Lookup(options[1..], "queue") == Some(Str(queue));
    assert Lookup(options, "queue") == Some(Str(queue));
  }

  const UNIQUE_WITHOUT_CACHE: string := "::$shouldBeUnique is set to `true` but `uniqueCache` configuration is missing."

  function QueueChoice(options: PushOptions, c: Config): string
  {
    if options.queue.Some? then options.queue.value else c.queue.GetOr("default")
  }

  /**
   * Everything `push` decides before it touches the cache or the broker, or
   * the exception it throws: an unknown class, an unknown configuration (a
   * TypeError from `null + array`), or a unique class without a unique cache.
   */
  function PlanPush(configs: map<string, Config>, catalog: Catalog, job: JobRef, data: Value, options: PushOptions): (r: Result<PushPlan, Throwable>)
    requires AllStored(configs) && data.IsArray()
    ensures ResolveClass(catalog, job.cls).None? ==> r == Failure(Throwable(InvalidArgumentException, "`` class does not exist."))
    ensures r.Success? <==>
              && ResolveClass(catalog, job.cls).Some?
              && options.config.GetOr("default") in configs
              && (ShouldBeUnique(catalog, ResolveClass(catalog, job.cls).value) ==> HasUniqueCache(configs[options.config.GetOr("default")]))
    ensures r.Failure? && ResolveClass(catalog, job.cls).Some? && options.config.GetOr("default") !in configs ==> r.error.kind == TypeError
    ensures ResolveClass(catalog, job.cls).Some? && options.config.GetOr("default") in configs
            && ShouldBeUnique(catalog, ResolveClass(catalog, job.cls).value) && !HasUniqueCache(configs[options.config.GetOr("default")]) ==>
              r == Failure(Throwable(InvalidArgumentException, ResolveClass(catalog, job.cls).value + UNIQUE_WITHOUT_CACHE))
    ensures r.Success? ==>
              var cls := ResolveClass(catalog, job.cls).value;
              var name := options.config.GetOr("default");
              && r.value.name == name
              && r.value.queue == (if options.queue.Some? then options.queue.value else configs[name].queue.GetOr("default"))
              && r.value.message.body == PushBody(cls, MethodOf(job), data, name, options.priority, r.value.queue)
              && r.value.message.delay == options.delay
              && r.value.message.expire == options.expires
              && r.value.message.priority == options.priority
              && (r.value.slot.Some? <==> ShouldBeUnique(catalog, cls))
              && (r.value.slot.Some? ==> r.value.slot.value == Slot(UniqueCacheKey(name), GetUniqueId(cls, MethodOf(job), data)))
  {
    match ResolveClass(catalog, job.cls)
    case None => Failure(Throwable(InvalidArgumentException, "`` class does not exist."))
    case Some(cls) =>
      var name := options.config.GetOr("default");
      if name !in configs then Failure(Throwable(TypeError, "Unsupported operand types: null + array"))
      else
        var c := configs[name];
        var unique := ShouldBeUnique(catalog, cls);
        if unique && !HasUniqueCache(c) then
          Failure(Throwable(InvalidArgumentException, cls + UNIQUE_WITHOUT_CACHE))
        else
          var queue := QueueChoice(options, c);
          var message := ClientMessage(PushBody(cls, MethodOf(job), data, name, options.priority, queue), options.delay, options.expires, options.priority);
          Success(PushPlan(name, queue, message, if unique then Some(Slot(c.uniqueCacheKey.value, GetUniqueId(cls, MethodOf(job), data))) else None))
  }

  /** The cache already holds the plan's dedup id: the push is ignored. */
  predicate Duplicate(plan: PushPlan, stores: map<string, set<string>>)
  {
    plan.slot.Some? && plan.slot.value.id in Entries(stores, plan.slot.value.store)
  }

  /** The cache after a published push has recorded its dedup id. */
  function Remember(stores: map<string, set<string>>, slot: Option<Slot>): map<string, set<string>>
  {
    if slot.None? then stores else stores[slot.value.store := Entries(stores, slot.value.store) + {slot.value.id}]
  }

  /**
   * Dedup idempotence: once a unique job has been published, pushing the same
   * job again while its id is in the cache is ignored, and so is a push whose
   * data holds the same values under other keys or in another order, when
   * `sort()` orders those values strictly.
   */
  lemma SecondPushIsIgnored(configs: map<string, Config>, catalog: Catalog, job: JobRef, d1: Value, d2: Value, options: PushOptions, stores: map<string, set<string>>)
    requires AllStored(configs) && d1.IsArray() && d2.IsArray()
    requires d2 == d1 || (SortsStrictly(ValuesOf(d1)) && multiset(ValuesOf(d1)) == multiset(ValuesOf(d2)))
    requires PlanPush(configs, catalog, job, d1, options).Success?
    requires PlanPush(configs, catalog, job, d1, options).value.slot.Some?
    ensures PlanPush(configs, catalog, job, d2, options).Success?
    ensures Duplicate(PlanPush(configs, catalog, job, d2, options).value, Remember(stores, PlanPush(configs, catalog, job, d1, options).value.slot))
  {
    if d2 != d1 {
      var cls := ResolveClass(catalog, job.cls).value;
      UniqueIdIgnoresKeysAndOrder(cls, MethodOf(job), d1, d2);
    }
  }

  /** A published message: the configuration name, the client's serial, the queue and the message. */
  datatype Published = Published(config: string, client: nat, queue: string, message: ClientMessage)

  /** A broker client, identified by a serial number, and what it was built from. */
  datatype Client = Client(serial: nat, url: Option<Url>, logger: Option<string>, receiveTimeout: Option<int>)

  function NewClient(serial: nat, c: Config): Client
  {
    Client(serial, c.url, if c.logger.Some? && TruthyString(c.logger.value) then c.logger else None, c.receiveTimeout)
  }

  /**
   * The part of the manager's state a push changes: the cached clients, the
   * next client serial, the published messages and the unique cache's ids.
   */
  datatype Broker = Broker(clients: map<string, Client>, nextClient: nat, published: seq<Published>, stores: map<string, set<string>>)

  /**
   * The specification of what `push` does to the broker: a push that throws
   * or that the cache recognises as a duplicate changes nothing; otherwise the
   * name's client is built if missing, the message is published on it, and a
   * unique job's id is remembered.
   */
  function PushEffect(configs: map<string, Config>, b: Broker, plan: Result<PushPlan, Throwable>): Broker
    requires plan.Success? ==> plan.value.name in configs
  {
    if plan.Failure? || Duplicate(plan.value, b.stores) then b
    else
      var p := plan.value;
      var clients := if p.name in b.clients then b.clients else b.clients[p.name := NewClient(b.nextClient, configs[p.name])];
      var next := if p.name in b.clients then b.nextClient else b.nextClient + 1;
      Broker(clients, next, b.published + [Published(p.name, clients[p.name].serial, p.queue, p.message)], Remember(b.stores, p.slot))
  }

  /**
   * A published push appends exactly its message, on a client that existed
   * before or was built with the next serial, keeps every earlier client, and
   * leaves its dedup id in the cache.
   */
  lemma PushPublishesOnce(configs: map<string, Config>, b: Broker, plan: Result<PushPlan, Throwable>)
    requires plan.Success? ==> plan.value.name in configs
    requires plan.Success? && !Duplicate(plan.value, b.stores)
    ensures var after := PushEffect(configs, b, plan);
            var p := plan.value;
            && p.name in after.clients
            && |after.published| == |b.published| + 1
            && after.published[..|b.published|] == b.published
            && after.published[|b.published|] == Published(p.name, after.clients[p.name].serial, p.queue, p.message)
            && (p.name in b.clients ==> after.clients[p.name] == b.clients[p.name])
            && (p.name !in b.clients ==> after.clients[p.name] == NewClient(b.nextClient, configs[p.name]))
            && (forall n :: n in b.clients ==> n in after.clients && after.clients[n] == b.clients[n])
            && (p.slot.Some? ==> Duplicate(p, after.stores))
  {
    var after := PushEffect(configs, b, plan);
    assert after.published[..|b.published|] == b.published;
  }

  /**
   * Pushing a unique job a second time changes nothing: the first push
   * remembered its id, so the second is a duplicate.
   */
  lemma UniquePushIsIdempotent(configs: map<string, Config>, b: Broker, plan: Result<PushPlan, Throwable>)
    requires plan.Success? ==> plan.value.name in configs
    requires plan.Success? ==> plan.value.slot.Some?
    ensures PushEffect(configs, PushEffect(configs, b, plan), plan) == PushEffect(configs, b, plan)
  {
    if plan.Success? && !Duplicate(plan.value, b.stores) {
      PushPublishesOnce(configs, b, plan);
    }
  }

  class QueueManager {
    var configs: map<string, Config>
    var clients: map<string, Client>
    var nextClient: nat
    /** Every message sent by any client, in order. */
    var published: seq<Published>
    const cache: UniqueCache

    ghost predicate Valid()
      reads this
    {
      && AllStored(configs)
      && clients.Keys <= configs.Keys
      && (forall n :: n in clients ==> clients[n].serial < nextClient)
    }

    constructor (cache: UniqueCache)
      ensures Valid() && this.cache == cache
      ensures configs == map[] && clients == map[] && published == []
    {
      configs := map[];
      clients := map[];
      nextClient := 0;
      published := [];
      this.cache := cache;
    }

    /** The part of the state a push changes. */
    ghost function Snapshot(): Broker
      reads this, cache
    {
      Broker(clients, nextClient, published, cache.stores)
    }

    /** `getConfig`: the stored configuration, or null for an unknown name. */
    function GetConfig(name: string): Option<Config>
      reads this
    {
      if name in configs then Some(configs[name]) else None
    }

    /** `drop`: forgets the configuration and its client. */
    method Drop(name: string)
      requires Valid()
      modifies this
      ensures Valid()
      ensures configs == old(configs) - {name} && clients == old(clients) - {name}
      ensures nextClient == old(nextClient) && published == old(published)
      ensures GetConfig(name) == None
    {
      configs := configs - {name};
      clients := clients - {name};
    }

    /** `setConfig`, in its single-name and its batch forms. */
    method SetConfig(key: ConfigKey, config: Option<Config>) returns (r: Outcome<Throwable>)
      requires Valid()
      modifies this, cache
      ensures Valid()
      ensures var spec := SetConfigSpec(old(configs), old(cache.settings), key, config);
              configs == spec.configs && cache.settings == spec.cacheSettings && r == spec.outcome
      ensures clients == old(clients) && nextClient == old(nextClient) && published == old(published)
      ensures cache.stores == old(cache.stores)
    {
      match (key, config)
      case (Name(_), None) =>
        r := Fail(Throwable(LogicException, NULL_CONFIG_NEEDS_ARRAY));
      case (Batch(_), Some(_)) =>
        r := Fail(Throwable(LogicException, CONFIG_NEEDS_STRING_KEY));
      case (Name(n), Some(c)) =>
        r := SetOne(n, c);
      case (Batch(entries), None) =>
        r := SetBatch(entries);
    }

    /** `setConfig` with an array of entries: registers them in order up to the first that throws. */
    method SetBatch(entries: seq<(string, Option<Config>)>) returns (r: Outcome<Throwable>)
      requires Valid()
      modifies this, cache
      ensures Valid()
      ensures var spec := RegisterAll(old(configs), old(cache.settings), entries);
              configs == spec.configs && cache.settings == spec.cacheSettings && r == spec.outcome
      ensures clients == old(clients) && nextClient == old(nextClient) && published == old(published)
      ensures cache.stores == old(cache.stores)
    {
      ghost var configs0, settings0 := configs, cache.settings;
      var i := 0;
      r := Pass;
      while i < |entries|
        invariant 0 <= i <= |entries|
        invariant Valid()
        invariant clients == old(clients) && nextClient == old(nextClient) && published == old(published)
        invariant cache.stores == old(cache.stores)
        invariant RegisterAll(configs0, settings0, entries[..i]) == Registration(configs, cache.settings, Pass)
        invariant r == Pass
      {
        assert entries[..i + 1][..i] == entries[..i];
        var (name, settings) := entries[i];
        ghost var step := RegisterEntry(configs, cache.settings, name, settings);
        assert RegisterAll(configs0, settings0, entries[..i + 1]) == step;
        if settings.None? {
          RegisterAllStops(configs0, settings0, entries, i + 1);
          return Fail(Throwable(LogicException, NULL_CONFIG_NEEDS_ARRAY));
        }
        r := SetOne(name, settings.value);
        if r.Fail? {
          RegisterAllStops(configs0, settings0, entries, i + 1);
          return;
        }
        i := i + 1;
      }
      assert entries[..i] == entries;
    }

    /** `setConfig($name, $config)` with a non-null config. */
    method SetOne(name: string, c: Config) returns (r: Outcome<Throwable>)
      requires Valid()
      modifies this, cache
      ensures Valid()
      ensures name in old(configs) || EmptyUrl(c.url) ==>
                r == Fail(Register(old(configs), name, c).error) && configs == old(configs) && cache.settings == old(cache.settings)
      ensures name !in old(configs) && !EmptyUrl(c.url) && CacheTaken(old(cache.settings), name, c) ==>
                r == Fail(ExistingKey(UniqueCacheKey(name))) && configs == old(configs) && cache.settings == old(cache.settings)
      ensures name !in old(configs) && !EmptyUrl(c.url) && !CacheTaken(old(cache.settings), name, c) ==>
                && r == Pass
                && configs == old(configs)[name := Normalize(name, c)]
                && cache.settings == if HasUniqueCache(c) then old(cache.settings)[UniqueCacheKey(name) := CacheSettings(c)] else old(cache.settings)
      ensures clients == old(clients) && nextClient == old(nextClient) && published == old(published)
      ensures cache.stores == old(cache.stores)
    {
      if name in configs {
        return Fail(ExistingKey(name));
      }
      if EmptyUrl(c.url) {
        return Fail(Throwable(BadMethodCallException, "Must specify `url` key."));
      }
      if HasUniqueCache(c) {
        r := cache.Configure(UniqueCacheKey(name), CacheSettings(c));
        if r.Fail? {
          return;
        }
      }
      configs := configs[name := Normalize(name, c)];
      r := Pass;
    }

    /**
     * `engine`: the client cached for the name, or a new one built from its
     * configuration and cached. An unknown name is a TypeError.
     */
    method Engine(name: string) returns (r: Result<Client, Throwable>)
      requires Valid()
      modifies this
      ensures Valid()
      ensures configs == old(configs) && published == old(published)
      ensures name in old(clients) ==> r == Success(old(clients)[name]) && clients == old(clients) && nextClient == old(nextClient)
      ensures name !in old(clients) && name !in configs ==>
                r.Failure? && r.error.kind == TypeError && clients == old(clients) && nextClient == old(nextClient)
      ensures name !in old(clients) && name in configs ==>
                && r == Success(NewClient(old(nextClient), configs[name]))
                && clients == old(clients)[name := r.value]
                && nextClient == old(nextClient) + 1
    {
      if name !in clients && name !in configs {
        return Failure(Throwable(TypeError, "Unsupported operand types: null + array"));
      }
      var client := ClientFor(name);
      r := Success(client);
    }

    method ClientFor(name: string) returns (client: Client)
      requires Valid() && name in configs
      modifies this
      ensures Valid()
      ensures configs == old(configs) && published == old(published)
      ensures name in clients && client == clients[name]
      ensures name in old(clients) ==> client == old(clients)[name] && clients == old(clients) && nextClient == old(nextClient)
      ensures name !in old(clients) ==>
                && client == NewClient(old(nextClient), configs[name])
                && clients == old(clients)[name := client]
                && nextClient == old(nextClient) + 1
    {
      if name in clients {
        return clients[name];
      }
      client := NewClient(nextClient, configs[name]);
      clients := clients[name := client];
      nextClient := nextClient + 1;
    }

    /**
     * `push`: publishes the job's message on the name's client, unless it is a
     * unique job whose id the cache already holds; a published unique job's id
     * is then added to the cache.
     */
    method Push(job: JobRef, data: Value, options: PushOptions, catalog: Catalog) returns (r: Outcome<Throwable>)
      requires Valid() && data.IsArray()
      modifies this, cache
      ensures Valid()
      ensures configs == old(configs) && cache.settings == old(cache.settings)
      ensures var plan := PlanPush(old(configs), catalog, job, data, options);
              && (plan.Failure? ==> r == Fail(plan.error))
              && (plan.Success? ==> r == Pass)
              && (plan.Failure? || Duplicate(plan.value, old(cache.stores)) ==>
                    published == old(published) && clients == old(clients) && nextClient == old(nextClient)
                    && cache.stores == old(cache.stores))
              && (plan.Success? && !Duplicate(plan.value, old(cache.stores)) ==>
                    && plan.value.name in clients
                    && (plan.value.name in old(clients) ==> clients == old(clients) && nextClient == old(nextClient))
                    && published == old(published) + [Published(plan.value.name, clients[plan.value.name].serial, plan.value.queue, plan.value.message)]
                    && cache.stores == Remember(old(cache.stores), plan.value.slot))
      ensures clients.Keys <= old(clients.Keys) + configs.Keys
      ensures forall n :: n in old(clients) ==> n in clients && clients[n] == old(clients)[n]
      ensures Snapshot() == PushEffect(old(configs), old(Snapshot()), PlanPush(old(configs), catalog, job, data, options))
    {
      var plan := PlanPush(configs, catalog, job, data, options);
      if plan.Failure? {
        return Fail(plan.error);
      }
      var p := plan.value;
      if p.slot.Some? && cache.Holds(p.slot.value.store, p.slot.value.id) {
        return Pass;
      }
      var client := ClientFor(p.name);
      published := published + [Published(p.name, client.serial, p.queue, p.message)];
      if p.slot.Some? {
        cache.Add(p.slot.value.store, p.slot.value.id);
      }
      r := Pass;
    }
  }
}
