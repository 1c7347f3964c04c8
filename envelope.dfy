/**
 * Message envelopes: the broker message as delivered, the job message wrapper
 * handed to a job (`Cake\Queue\Job\Message`, and the legacy `Message`,
 * `JobData` and `Job\Base` wrappers), and the verdicts a delivery ends with.
 */
module Envelope {
  import opened Wrappers
  import opened Php

  /** The status strings of the broker interop `Processor` interface. */
  const ACK: string := "enqueue.ack"
  const REJECT: string := "enqueue.reject"
  const REQUEUE: string := "enqueue.requeue"

  /** Name of the message property that counts delivery attempts. */
  const ATTEMPTS_PROPERTY: string := "attempts"

  datatype Status = Ack | Reject | Requeue

  function StatusString(s: Status): string
  {
    match s
    case Ack => ACK
    case Reject => REJECT
    case Requeue => REQUEUE
  }

  /**
   * What a delivery ends with: a bare status string, or a `Result` object that
   * carries a status and a reason (`Result::requeue($reason)`,
   * `Result::reject($reason)`). A `Result` compares equal to its status string.
   */
  datatype Verdict = Plain(status: Status) | WithReason(status: Status, reason: string)

  /** `$result instanceof Result && $result->getReason()`. */
  predicate HasReason(v: Verdict)
  {
    v.WithReason? && TruthyString(v.reason)
  }

  /** What a job's method returns: nothing, a string, or an object (such as a `Result`). */
  datatype Response = Nothing | Text(text: string) | Object(text: string)

  /**
   * A message as the broker delivers it: its decoded body and the two
   * properties the core reads (`attempts` and `jobException`).
   */
  datatype QueueMessage = QueueMessage(body: Value, attempts: Option<int>, jobException: Option<string>)

  /** `getProperty(ATTEMPTS_PROPERTY, 0)`. */
  function AttemptsOf(m: QueueMessage): int
  {
    m.attempts.GetOr(0)
  }

  /** The broker context a message was received in; opaque to the core. */
  type Context = nat

  /** A job message wrapper: the context, the original message and the body decoded once. */
  datatype Message = Message(context: Context, original: QueueMessage, parsedBody: Value)

  function NewMessage(original: QueueMessage, context: Context): Message
  {
    Message(context, original, original.body)
  }

  function GetContext(m: Message): Context { m.context }

  function GetOriginalMessage(m: Message): QueueMessage { m.original }

  function GetParsedBody(m: Message): Value { m.parsedBody }

  function JsonSerialize(m: Message): Value { m.parsedBody }

  /** The wrapper hands back exactly what it was built from. */
  lemma WrapperRoundTrip(original: QueueMessage, context: Context)
    ensures GetContext(NewMessage(original, context)) == context
    ensures GetOriginalMessage(NewMessage(original, context)) == original
    ensures JsonSerialize(NewMessage(original, context)) == original.body
    ensures GetParsedBody(NewMessage(original, context)) == original.body
  {
  }

  /**
   * `getCallable()`: `Hash::get` of the body's `class` entry, unchecked, or
   * null; a body that is not an array (JSON that did not decode to one) throws.
   */
  function GetCallable(m: Message): (r: Result<Value, Throwable>)
    ensures r.Failure? <==> !m.parsedBody.IsArray()
    ensures r.Failure? ==> r.error == HASH_NOT_ARRAY
    ensures r.Success? ==> (r.value == Null <==> !KeyExists(m.parsedBody, "class") || Index(m.parsedBody, "class") == Null)
    ensures r.Success? && r.value != Null ==> r.value == Index(m.parsedBody, "class")
  {
    HashGet(m.parsedBody, "class", Null)
  }

  /** The first job argument of a legacy body: `$body['args'][0]`. */
  function LegacyArguments(body: Value): Value
  {
    First(Index(body, "args"))
  }

  /**
   * `getArgument($key, $default)` of the legacy `Message` and of `JobData`:
   * the whole first argument, or one key of it read with `Hash::get`.
   */
  function GetArgument(m: Message, key: Option<string>, default: Value): Result<Value, Throwable>
  {
    var args := LegacyArguments(m.parsedBody);
    match key
    case None => Success(args)
    case Some(k) => HashGet(args, k, default)
  }

  /**
   * The job data of a current body: its `data` entry when the body has one,
   * otherwise the legacy first argument.
   */
  function CurrentArguments(body: Value): (r: Value)
    ensures KeyExists(body, "data") ==> r == Index(body, "data")
    ensures !KeyExists(body, "data") ==> r == LegacyArguments(body)
  {
    if KeyExists(body, "data") then Index(body, "data") else LegacyArguments(body)
  }

  /**
   * The legacy `getArgument` hands back the first argument whole, or, when
   * that argument is an array, the value under a key of it when that value is
   * set and the caller's default otherwise; `Hash::get` throws when the first
   * argument is not an array. The current one reads the body's `data` entry
   * instead whenever the body has one, and throws from `array_key_exists`
   * when the body is not an array.
   */
  lemma ArgumentLookups(original: QueueMessage, context: Context, key: string, default: Value)
    ensures var m := NewMessage(original, context);
            var args := Index(original.body, "args");
            && GetArgument(m, None, default) == Success(if args.List? && |args.items| > 0 then args.items[0] else Null)
            && (!First(args).IsArray() ==> GetArgument(m, Some(key), default) == Failure(HASH_NOT_ARRAY))
            && (First(args).IsArray() && KeyExists(First(args), key) && Index(First(args), key) != Null ==>
                  GetArgument(m, Some(key), default) == Success(Index(First(args), key)))
            && (First(args).IsArray() && (!KeyExists(First(args), key) || Index(First(args), key) == Null) ==>
                  GetArgument(m, Some(key), default) == Success(default))
            && (!original.body.IsArray() ==>
                  GetCurrentArgument(m, None, default) == Failure(Throwable(TypeError, KEY_EXISTS_NEEDS_ARRAY)))
            && (KeyExists(original.body, "data") ==>
                  GetCurrentArgument(m, None, default) == Success(Index(original.body, "data"))
                  && GetCurrentArgument(m, Some(key), default) == HashGet(Index(original.body, "data"), key, default))
  {
  }

  /**
   * `getArgument($key, $default)` of the current `Message`: `array_key_exists`
   * on the body, then the job data whole or `Hash::get` of one key of it.
   */
  function GetCurrentArgument(m: Message, key: Option<string>, default: Value): Result<Value, Throwable>
  {
    if !m.parsedBody.IsArray() then Failure(Throwable(TypeError, KEY_EXISTS_NEEDS_ARRAY))
    else
      var data := CurrentArguments(m.parsedBody);
      match key
      case None => Success(data)
      case Some(k) => HashGet(data, k, default)
  }

  /**
   * `getTarget()`: the body's `class` entry must be a pair of strings, the job
   * class and the method to call; anything else is a RuntimeException.
   */
  function GetTarget(m: Message): Result<(string, string), Throwable>
  {
    TargetOf(m.parsedBody)
  }

  function TargetOf(body: Value): (r: Result<(string, string), Throwable>)
    ensures r.Success? <==> Index(body, "class").List? && |Index(body, "class").items| == 2
                             && Index(body, "class").items[0].Str? && Index(body, "class").items[1].Str?
    ensures r.Success? ==> Index(body, "class") == List([Str(r.value.0), Str(r.value.1)])
    ensures r.Failure? ==> r.error.kind == RuntimeException
  {
    var c := Index(body, "class");
    if c.List? && |c.items| == 2 && c.items[0].Str? && c.items[1].Str? then
      Success((c.items[0].s, c.items[1].s))
    else
      Failure(Throwable(RuntimeException, MALFORMED_TARGET + Encode(c) + "`."))
  }

  const KEY_EXISTS_NEEDS_ARRAY: string := "array_key_exists(): Argument #2 ($array) must be of type array"
  const MALFORMED_TARGET: string := "Message class should be in the form `[class, method]`, got `"

  // ---------------------------------------------------------------------------
  // What class lookups answer

  /** The static settings of a job class: `$shouldBeUnique` and `$maxAttempts`. */
  datatype JobClass = JobClass(shouldBeUnique: bool, maxAttempts: Option<int>)

  /**
   * The answers of `App::className($name, 'Job', 'Job')` for the names it
   * resolves, and the static settings of each resolved job class.
   */
  datatype Catalog = Catalog(classNames: map<string, string>, jobs: map<string, JobClass>)

  function ResolveClass(c: Catalog, name: string): Option<string>
  {
    if name in c.classNames then Some(c.classNames[name]) else None
  }

  /** `!empty($class::$shouldBeUnique)`; a class without the setting is not unique. */
  predicate ShouldBeUnique(c: Catalog, fqn: string)
  {
    fqn in c.jobs && c.jobs[fqn].shouldBeUnique
  }

  /** `getMaxAttempts()`: the target class's static `$maxAttempts`, or null. */
  function DeclaredMaxAttempts(c: Catalog, body: Value): Option<int>
  {
    var t := TargetOf(body);
    if t.Success? && t.value.0 in c.jobs then c.jobs[t.value.0].maxAttempts else None
  }

  // ---------------------------------------------------------------------------
  // The legacy `Job\Base` job

  datatype BaseJob = BaseJob(item: Value)

  /** A job built from its broker message decodes the body once and keeps it. */
  function NewBaseJob(original: QueueMessage): BaseJob
  {
    BaseJob(original.body)
  }

  function Item(job: BaseJob): Value { job.item }

  function BaseJsonSerialize(job: BaseJob): Value { job.item }

  function Acknowledge(job: BaseJob): string { ACK }

  function RejectJob(job: BaseJob): string { REJECT }

  /**
   * `data($key, $default)`: the first argument, or one key of it. A stored
   * null is returned as null; only a missing key yields the default. Testing a
   * key of something that is not an array is a TypeError.
   */
  function Data(job: BaseJob, key: Option<string>, default: Value): (r: Result<Value, Throwable>)
    ensures key.None? ==> r == Success(LegacyArguments(job.item))
    ensures key.Some? && KeyExists(LegacyArguments(job.item), key.value) ==>
              r == Success(Index(LegacyArguments(job.item), key.value))
    ensures key.Some? && LegacyArguments(job.item).IsArray() && !KeyExists(LegacyArguments(job.item), key.value) ==>
              r == Success(default)
    ensures key.Some? && !LegacyArguments(job.item).IsArray() ==> r.Failure? && r.error.kind == TypeError
  {
    var args := LegacyArguments(job.item);
    match key
    case None => Success(args)
    case Some(k) =>
      if !args.IsArray() then Failure(Throwable(TypeError, KEY_EXISTS_NEEDS_ARRAY))
      else if KeyExists(args, k) then Success(Index(args, k))
      else Success(default)
  }

  /** The job's handles on the body agree with the message wrapper's. */
  lemma BaseJobRoundTrip(original: QueueMessage)
    ensures Item(NewBaseJob(original)) == original.body
    ensures BaseJsonSerialize(NewBaseJob(original)) == original.body
    ensures Acknowledge(NewBaseJob(original)) == StatusString(Ack)
    ensures RejectJob(NewBaseJob(original)) == StatusString(Reject)
  {
  }

  /**
   * `Job\Base::data` and `Message::getArgument` read the same key of the same
   * first argument and differ exactly when the stored value is null and the
   * caller's default is not.
   */
  lemma DataVersusGetArgument(original: QueueMessage, context: Context, key: string, default: Value)
    requires LegacyArguments(original.body).IsArray()
    ensures var args := LegacyArguments(original.body);
            Data(NewBaseJob(original), Some(key), default) == GetArgument(NewMessage(original, context), Some(key), default)
            <==> !(KeyExists(args, key) && Index(args, key) == Null && default != Null)
  {
  }
}
