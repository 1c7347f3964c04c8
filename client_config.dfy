/**
 * `SimpleClientConfig`: the client configuration array a worker hands to the
 * broker client, built from a queue name and one queue configuration. The
 * chosen queue routes topics, queues and the default queue alike.
 */
module ClientConfig {
  import opened Wrappers
  import opened Php
  import opened Registry

  /** `$queue !== 'default' ? $queue : $config['queue']` (a missing entry reads as null). */
  function ChosenQueue(queue: string, config: Value): Value
  {
    if queue != "default" then Str(queue) else Index(config, "queue")
  }

  /** The `client` entry: fixed prefix, separator and application name, and the chosen queue for all routing. */
  function ClientEntry(q: Value): Value
  {
    Dict([Field("prefix", Str("enqueue")), Field("separator", Str(".")), Field("app_name", Str("app")),
          Field("router_topic", q), Field("router_queue", q), Field("default_queue", q)])
  }

  /** The array `create` builds: the configuration's `url` as transport, the client entry, and two disabled extensions. */
  function ConfigArray(queue: string, config: Value): Value
  {
    Dict([Field("transport", Index(config, "url")),
          Field("client", ClientEntry(ChosenQueue(queue, config))),
          Field("extensions", EXTENSIONS)])
  }

  /** Both broker extensions switched off. */
  const EXTENSIONS: Value := Dict([Field("signal_extension", Bool(false)), Field("reply_extension", Bool(false))])

  const QUEUE_NOT_STRING: string := "SimpleClientConfig::getQueue(): Return value must be of type string"

  /**
   * `getQueue(): string` in a file without strict types: a string is returned
   * as is, an integer or a boolean is converted, and anything else (a missing
   * `queue`, read as null) is a TypeError.
   */
  function AsReturnedString(v: Value): (r: Result<string, Throwable>)
    ensures v.Str? ==> r == Success(v.s)
    ensures v.Null? || v.IsArray() ==> r.Failure? && r.error.kind == TypeError
  {
    match v
    case Str(s) => Success(s)
    case Int(i) => Success(IntToString(i))
    case Bool(b) => Success(if b then "1" else "")
    case _ => Failure(Throwable(TypeError, QUEUE_NOT_STRING))
  }

  /**
   * The built array reads back as promised: the transport is the
   * configuration's `url` unchanged, the three routing entries all hold the
   * chosen queue, the constants are `enqueue`, `.` and `app`, and both
   * extensions are off.
   */
  lemma ConfigArrayReadsBack(queue: string, config: Value)
    ensures var r := ConfigArray(queue, config);
            var client := Index(r, "client");
            var q := ChosenQueue(queue, config);
            && Index(r, "transport") == Index(config, "url")
            && Index(client, "router_topic") == q && Index(client, "router_queue") == q && Index(client, "default_queue") == q
            && Index(client, "prefix") == Str("enqueue") && Index(client, "separator") == Str(".") && Index(client, "app_name") == Str("app")
            && Index(Index(r, "extensions"), "signal_extension") == Bool(false)
            && Index(Index(r, "extensions"), "reply_extension") == Bool(false)
  {
    var q := ChosenQueue(queue, config);
    ClientEntryReadsBack(q);
    var fields := [Field("transport", Index(config, "url")), Field("client", ClientEntry(q)), Field("extensions", EXTENSIONS)];
    assert ConfigArray(queue, config) == Dict(fields);
    LookupDistinct(fields, 0);
    LookupDistinct(fields, 1);
    LookupDistinct(fields, 2);
    LookupDistinct(EXTENSIONS.fields, 0);
    LookupDistinct(EXTENSIONS.fields, 1);
  }

  /** Every entry of the client entry reads back under its own key. */
  lemma ClientEntryReadsBack(q: Value)
    ensures var client := ClientEntry(q);
            && Index(client, "router_topic") == q && Index(client, "router_queue") == q && Index(client, "default_queue") == q
            && Index(client, "prefix") == Str("enqueue") && Index(client, "separator") == Str(".") && Index(client, "app_name") == Str("app")
  {
    var fields := ClientEntry(q).fields;
    LookupDistinct(fields, 0);
    LookupDistinct(fields, 1);
    LookupDistinct(fields, 2);
    LookupDistinct(fields, 3);
    LookupDistinct(fields, 4);
    LookupDistinct(fields, 5);
  }

  /**
   * With a named queue the worker's routing is the one `QueueManager` gives a
   * configuration with that queue: every routing key maps to the queue.
   */
  lemma RoutingAgreesWithRegistry(queue: string, config: Value)
    requires queue != "default"
    ensures forall k :: k in ROUTING_KEYS ==>
              Index(Index(ConfigArray(queue, config), "client"), k) == Str(Routing(queue)[k])
  {
    ConfigArrayReadsBack(queue, config);
  }

  /**
   * The queue `getQueue` reports is the one the built array routes to; with
   * the `default` queue name and no `queue` entry in the configuration,
   * `getQueue` throws.
   */
  lemma ReportedQueueIsRouted(q: string, config: Value)
    ensures var reported := AsReturnedString(ChosenQueue(q, config));
            && (reported.Success? && ChosenQueue(q, config).Str? ==>
                  Index(Index(ConfigArray(q, config), "client"), "router_queue") == Str(reported.value))
            && (q == "default" && !KeyExists(config, "queue") ==> reported.Failure?)
            && (q != "default" ==> reported == Success(q))
  {
    ConfigArrayReadsBack(q, config);
  }

  class SimpleClientConfig {
    var simpleClientConfig: Value
    var queue: Value

    /** The constructor builds the configuration at once; `get` and `getQueue` read it back. */
    constructor (queue: string, config: Value)
      requires config.IsArray()
      ensures this.queue == ChosenQueue(queue, config) && simpleClientConfig == ConfigArray(queue, config)
      ensures Get() == ConfigArray(queue, config) && GetQueue() == AsReturnedString(ChosenQueue(queue, config))
    {
      this.queue := Str("default");
      simpleClientConfig := List([]);
      new;
      Create(queue, config);
    }

    /** `create`: chooses the queue and builds the array. */
    method Create(queue: string, config: Value)
      modifies this
      ensures this.queue == ChosenQueue(queue, config) && simpleClientConfig == ConfigArray(queue, config)
    {
      this.queue := if queue != "default" then Str(queue) else Index(config, "queue");
      simpleClientConfig := Dict([
        Field("transport", Index(config, "url")),
        Field("client", ClientEntry(this.queue)),
        Field("extensions", Dict([Field("signal_extension", Bool(false)), Field("reply_extension", Bool(false))]))]);
    }

    function Get(): Value
      reads this
    {
      simpleClientConfig
    }

    function GetQueue(): Result<string, Throwable>
      reads this
    {
      AsReturnedString(queue)
    }
  }
}
