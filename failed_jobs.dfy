/**
 * The failed-job archive: the `queue_failed_jobs` table with its validation
 * rules, and `FailedJobsListener`, which stores a job that ran out of attempts.
 */
module FailedJobs {
  import opened Wrappers
  import opened Php
  import opened Envelope
  import opened Attempts
  import opened Registry

  // ---------------------------------------------------------------------------
  // Validation (`FailedJobsTable::validationDefault`)

  /** The validator's notion of an empty string field: null or ''. */
  predicate IsEmpty(v: Value)
  {
    v == Null || v == Str("")
  }

  predicate IsScalar(v: Value)
  {
    v.Bool? || v.Int? || v.Str?
  }

  /** `(string)$v` of a scalar. */
  function ScalarText(v: Value): string
  {
    match v
    case Str(s) => s
    case Int(i) => IntToString(i)
    case Bool(b) => if b then "1" else ""
    case _ => ""
  }

  /** An integer, or a string of an optional minus sign and decimal digits. */
  predicate IsInteger(v: Value)
  {
    v.Int? || (v.Str? && ParseInt(v.s).Some?)
  }

  /** The rules of one field: presence, emptiness, and the checks on a non-empty value. */
  datatype Rule = Rule(required: bool, emptyAllowed: bool, maxLength: Option<nat>, integer: bool)

  predicate FieldOk(record: map<string, Value>, field: string, rule: Rule)
  {
    if field !in record then !rule.required
    else if IsEmpty(record[field]) then rule.emptyAllowed
    else
      && (if rule.integer then IsInteger(record[field]) else IsScalar(record[field]))
      && (rule.maxLength.Some? ==> |ScalarText(record[field])| <= rule.maxLength.value)
  }

  /** A record passes `validationDefault`, on create or on update. */
  predicate ValidRecord(record: map<string, Value>, create: bool)
  {
    && FieldOk(record, "id", Rule(false, create, None, true))
    && FieldOk(record, "class", Rule(create, false, Some(255), false))
    && FieldOk(record, "method", Rule(create, false, Some(255), false))
    && FieldOk(record, "data", Rule(create, false, None, false))
    && FieldOk(record, "config", Rule(false, false, Some(255), false))
    && FieldOk(record, "priority", Rule(false, true, Some(255), false))
    && FieldOk(record, "queue", Rule(false, false, Some(255), false))
    && FieldOk(record, "exception", Rule(false, true, None, false))
  }

  /** `class`, `method` and `data` must be present on create, non-empty and scalar; `class` and `method` fit 255 characters. */
  lemma CreateNeedsClassMethodAndData(record: map<string, Value>)
    requires ValidRecord(record, true)
    ensures forall f :: f in {"class", "method", "data"} ==> f in record && !IsEmpty(record[f]) && IsScalar(record[f])
    ensures |ScalarText(record["class"])| <= 255 && |ScalarText(record["method"])| <= 255
  {
  }

  /**
   * `config` and `queue` are not required, but when given they must be
   * non-empty; `priority`, `exception` and, on create, `id` may be empty.
   */
  lemma OptionalFields(cls: string, methodName: string, data: string)
    requires cls != "" && methodName != "" && data != "" && |cls| <= 255 && |methodName| <= 255
    ensures var record := map["class" := Str(cls), "method" := Str(methodName), "data" := Str(data)];
            && ValidRecord(record, true)
            && ValidRecord(record["priority" := Null]["exception" := Str("")]["id" := Null], true)
            && !ValidRecord(record["config" := Str("")], true)
            && !ValidRecord(record["queue" := Null], true)
            && !ValidRecord(record["id" := Null], false)
  {
  }

  /** Over-long `config` and `queue` are refused; a long `data` or `exception` is not. */
  lemma LengthBounds(record: map<string, Value>, long: string)
    requires ValidRecord(record, true) && |long| > 255
    ensures !ValidRecord(record["config" := Str(long)], true)
    ensures !ValidRecord(record["queue" := Str(long)], true)
    ensures !ValidRecord(record["priority" := Str(long)], true)
    ensures ValidRecord(record["data" := Str(long)], true)
    ensures ValidRecord(record["exception" := Str(long)], true)
  {
  }

  // ---------------------------------------------------------------------------
  // The table

  /**
   * A stored failed job. `data` holds the job data as `decoded_data` returns
   * it; the column itself holds its JSON text.
   */
  datatype FailedJob = FailedJob(id: int, cls: string, methodName: string, data: Value,
                                 config: string, priority: Option<string>, queue: string, exception: Option<string>)

  /** A nullable text column as read back. */
  function NullableText(v: Value): Option<string>
  {
    if v == Null then None else Some(ScalarText(v))
  }

  /** The row stored for a valid record under a new id. */
  function RowOf(id: int, record: map<string, Value>, decoded: Value): (row: FailedJob)
    requires ValidRecord(record, true)
    ensures row.id == id && row.data == decoded
    ensures row.cls == ScalarText(record["class"]) && row.methodName == ScalarText(record["method"])
  {
    FailedJob(id, ScalarText(record["class"]), ScalarText(record["method"]), decoded,
              if "config" in record then ScalarText(record["config"]) else "",
              if "priority" in record then NullableText(record["priority"]) else None,
              if "queue" in record then ScalarText(record["queue"]) else "",
              if "exception" in record then NullableText(record["exception"]) else None)
  }

  /** The ids of the rows, in order. */
  function Ids(rows: seq<FailedJob>): (r: seq<int>)
    ensures |r| == |rows| && forall k :: 0 <= k < |rows| ==> r[k] == rows[k].id
  {
    if rows == [] then [] else [rows[0].id] + Ids(rows[1..])
  }

  class FailedJobsTable {
    /** The rows in storage order. */
    var rows: seq<FailedJob>
    /** The next auto-increment id. */
    var nextId: int

    ghost predicate Valid()
      reads this
    {
      && (forall k :: 0 <= k < |rows| ==> rows[k].id < nextId)
      && (forall j, k :: 0 <= j < k < |rows| ==> rows[j].id != rows[k].id)
    }

    constructor ()
      ensures Valid() && rows == [] && nextId == 1
    {
      rows := [];
      nextId := 1;
    }

    /** `saveOrFail` of a new entity that passed validation: one row more, under a fresh id. */
    method Insert(record: map<string, Value>, decoded: Value) returns (row: FailedJob)
      requires Valid() && ValidRecord(record, true)
      modifies this
      ensures Valid()
      ensures row == RowOf(old(nextId), record, decoded)
      ensures rows == old(rows) + [row] && nextId == old(nextId) + 1
    {
      row := RowOf(nextId, record, decoded);
      rows := rows + [row];
      nextId := nextId + 1;
    }

    /** `deleteManyOrFail`: removes the rows with the given ids. */
    method DeleteMany(ids: set<int>)
      requires Valid()
      modifies this
      ensures Valid() && nextId == old(nextId)
      ensures rows == Without(old(rows), ids)
    {
      WithoutKeepsBound(rows, ids, nextId);
      WithoutKeepsDistinct(rows, ids);
      rows := Without(rows, ids);
    }

    /** `deleteOrFail`: removes the row with the given id. */
    method Delete(id: int)
      requires Valid()
      modifies this
      ensures Valid() && nextId == old(nextId)
      ensures rows == Without(old(rows), {id})
    {
      WithoutKeepsBound(rows, {id}, nextId);
      WithoutKeepsDistinct(rows, {id});
      rows := Without(rows, {id});
    }
  }

  /** The rows whose id is not in `ids`, in their order. */
  function Without(rows: seq<FailedJob>, ids: set<int>): (r: seq<FailedJob>)
    ensures forall row :: row in r <==> row in rows && row.id !in ids
  {
    if rows == [] then []
    else if rows[0].id in ids then Without(rows[1..], ids)
    else [rows[0]] + Without(rows[1..], ids)
  }

  /** Removing rows keeps every remaining id below a bound the ids were below. */
  lemma {:induction false} WithoutKeepsBound(rows: seq<FailedJob>, ids: set<int>, n: int)
    requires forall k :: 0 <= k < |rows| ==> rows[k].id < n
    ensures forall k :: 0 <= k < |Without(rows, ids)| ==> Without(rows, ids)[k].id < n
  {
    if rows != [] {
      assert forall k :: 0 <= k < |rows[1..]| ==> rows[1..][k] == rows[k + 1];
      WithoutKeepsBound(rows[1..], ids, n);
    }
  }

  /** Removing rows keeps distinct ids distinct. */
  lemma {:induction false} WithoutKeepsDistinct(rows: seq<FailedJob>, ids: set<int>)
    requires forall j, k :: 0 <= j < k < |rows| ==> rows[j].id != rows[k].id
    ensures forall j, k :: 0 <= j < k < |Without(rows, ids)| ==> Without(rows, ids)[j].id != Without(rows, ids)[k].id
  {
    if rows != [] {
      assert forall k :: 0 <= k < |rows[1..]| ==> rows[1..][k] == rows[k + 1];
      WithoutKeepsDistinct(rows[1..], ids);
      if rows[0].id !in ids {
        HeadIdNotInTail(rows);
        PrependDistinct(rows[0], Without(rows[1..], ids));
      }
    }
  }

  /** With distinct ids, no later row has the first row's id. */
  lemma HeadIdNotInTail(rows: seq<FailedJob>)
    requires |rows| > 0
    requires forall j, k :: 0 <= j < k < |rows| ==> rows[j].id != rows[k].id
    ensures forall row :: row in rows[1..] ==> row.id != rows[0].id
  {
    forall row | row in rows[1..] ensures row.id != rows[0].id {
      var i :| 0 <= i < |rows[1..]| && rows[1..][i] == row;
      assert rows[i + 1] == row;
    }
  }

  /** A row whose id no other row has keeps the ids distinct when put in front. */
  lemma PrependDistinct(first: FailedJob, rest: seq<FailedJob>)
    requires forall j, k :: 0 <= j < k < |rest| ==> rest[j].id != rest[k].id
    requires forall row :: row in rest ==> row.id != first.id
    ensures forall j, k :: 0 <= j < k < |[first] + rest| ==> ([first] + rest)[j].id != ([first] + rest)[k].id
  {
    var r := [first] + rest;
    forall j, k | 0 <= j < k < |r| ensures r[j].id != r[k].id {
      assert r[k] == rest[k - 1];
      if j > 0 {
        assert r[j] == rest[j - 1];
      } else {
        assert rest[k - 1] in rest;
      }
    }
  }

  // ---------------------------------------------------------------------------
  // The listener

  const CONFIG_NAME_NOT_STRING: string := "QueueManager::getConfig(): Argument #1 ($key) must be of type string"
  const LOGGER_UNDEFINED: string := "`logger` was not defined on " + FAILED_EVENT + " event."
  const LOGGER_NOT_PSR: string := "`logger` is not an instance of `LoggerInterface` on " + FAILED_EVENT + " event."
  const STORE_FAILED_JOB: string := "storeFailedJob"

  /** `implementedEvents`: the one event the listener handles, and the method it calls. */
  function ImplementedEvents(): (r: map<string, string>)
    ensures r.Keys == {FAILED_EVENT} && r[FAILED_EVENT] == STORE_FAILED_JOB
  {
    map[FAILED_EVENT := STORE_FAILED_JOB]
  }

  /** The record `storeFailedJob` builds from a failed job. */
  function NewRecord(cls: string, methodName: string, data: Value, requeueOptions: Value, exception: string): map<string, Value>
  {
    map[
      "class" := Str(cls),
      "method" := Str(methodName),
      "data" := Str(Encode(data)),
      "config" := Index(requeueOptions, "config"),
      "priority" := Index(requeueOptions, "priority"),
      "queue" := Index(requeueOptions, "queue"),
      "exception" := Str(exception)
    ]
  }

  /** What `storeFailedJob` ends with. */
  datatype Archiving =
    | Ignored
    | Saved(record: map<string, Value>, decoded: Value)
    | LoggedError(text: string)
    | Thrown(cause: Throwable)

  const SAVE_FAILURE: Throwable := Throwable(PersistenceFailedException, "Entity save failure.")

  /**
   * The specification of `storeFailedJob`. The target must be well formed and
   * the configuration name a string; only a configuration with
   * `storeFailedJobs` archives. A record that fails validation is not saved:
   * with a PSR logger the failure is logged, otherwise a RuntimeException
   * says what is wrong with the event's `logger`.
   */
  function Archive(event: FailedEvent, configs: map<string, Config>): (a: Archiving)
    ensures GetTarget(event.subject).Failure? ==> a == Thrown(GetTarget(event.subject).error)
    ensures a.Saved? <==>
              && GetTarget(event.subject).Success?
              && var options := Index(event.subject.original.body, "requeueOptions");
              && Index(options, "config").Str?
              && Index(options, "config").s in configs
              && configs[Index(options, "config").s].storeFailedJobs
              && ValidRecord(NewRecord(GetTarget(event.subject).value.0, GetTarget(event.subject).value.1,
                                       Index(event.subject.original.body, "data"), options, event.exception), true)
    ensures a.Saved? ==>
              var body := event.subject.original.body;
              && a.decoded == Index(body, "data")
              && a.record == NewRecord(GetTarget(event.subject).value.0, GetTarget(event.subject).value.1,
                                       Index(body, "data"), Index(body, "requeueOptions"), event.exception)
    ensures GetTarget(event.subject).Success? && !Index(Index(event.subject.original.body, "requeueOptions"), "config").Str? ==>
              a == Thrown(Throwable(TypeError, CONFIG_NAME_NOT_STRING))
    ensures var name := Index(Index(event.subject.original.body, "requeueOptions"), "config");
            GetTarget(event.subject).Success? && name.Str? && (name.s !in configs || !configs[name.s].storeFailedJobs) ==>
              a == Ignored
    ensures var options := Index(event.subject.original.body, "requeueOptions");
            var name := Index(options, "config");
            && GetTarget(event.subject).Success?
            && name.Str? && name.s in configs && configs[name.s].storeFailedJobs
            && !ValidRecord(NewRecord(GetTarget(event.subject).value.0, GetTarget(event.subject).value.1,
                                      Index(event.subject.original.body, "data"), options, event.exception), true) ==>
              && (event.logger.Psr? ==> a == LoggedError(SAVE_FAILURE.Describe()))
              && (event.logger.NotALogger? ==>
                    a == Thrown(Throwable(RuntimeException, if Truthy(event.logger.v) then LOGGER_NOT_PSR else LOGGER_UNDEFINED)))
    ensures a.Thrown? && GetTarget(event.subject).Success? && a.cause.kind == RuntimeException ==>
              event.logger.NotALogger?
    ensures a.LoggedError? ==> event.logger.Psr?
  {
    match GetTarget(event.subject)
    case Failure(e) => Thrown(e)
    case Success((cls, methodName)) =>
      var body := event.subject.original.body;
      var data := Index(body, "data");
      var options := Index(body, "requeueOptions");
      var name := Index(options, "config");
      if !name.Str? then Thrown(Throwable(TypeError, CONFIG_NAME_NOT_STRING))
      else if name.s !in configs || !configs[name.s].storeFailedJobs then Ignored
      else
        var record := NewRecord(cls, methodName, data, options, event.exception);
        if ValidRecord(record, true) then Saved(record, data)
        else match event.logger
          case Psr(_) => LoggedError(SAVE_FAILURE.Describe())
          case NotALogger(v) =>
            if !Truthy(v) then Thrown(Throwable(RuntimeException, LOGGER_UNDEFINED))
            else Thrown(Throwable(RuntimeException, LOGGER_NOT_PSR))
  }

  /**
   * The failure the retry governor reports for a pushed job is archived
   * whenever its configuration stores failed jobs and its names fit their
   * columns: the record holds the push's class, method, data, configuration,
   * priority and queue, and the event's exception.
   */
  lemma PushedJobIsArchived(cls: string, methodName: string, data: Value, name: string, priority: Option<string>, queue: string,
                            configs: map<string, Config>, attempts: Option<int>, context: Context, exception: string, logger: Logger)
    requires name in configs && configs[name].storeFailedJobs
    requires cls != "" && methodName != "" && name != "" && queue != ""
    requires |cls| <= 255 && |methodName| <= 255 && |name| <= 255 && |queue| <= 255
    requires priority.Some? ==> |priority.value| <= 255
    ensures var body := PushBody(cls, methodName, data, name, priority, queue);
            var event := FailedEvent(NewMessage(QueueMessage(body, attempts, Some(exception)), context), exception, logger);
            Archive(event, configs) == Saved(NewRecord(cls, methodName, data, Index(body, "requeueOptions"), exception), data)
  {
    PushBodyReadsBack(cls, methodName, data, name, priority, queue);
    var body := PushBody(cls, methodName, data, name, priority, queue);
    var record := NewRecord(cls, methodName, data, Index(body, "requeueOptions"), exception);
    var event := FailedEvent(NewMessage(QueueMessage(body, attempts, Some(exception)), context), exception, logger);
    assert GetTarget(event.subject) == Success((cls, methodName));
    assert ValidRecord(record, true);
  }

  class FailedJobsListener {
    constructor ()
    {
    }

    /** `storeFailedJob`: archives the failed job as `Archive` decides. */
    method StoreFailedJob(event: FailedEvent, configs: map<string, Config>, table: FailedJobsTable)
      returns (r: Outcome<Throwable>, logged: Option<string>)
      requires table.Valid()
      modifies table
      ensures table.Valid()
      ensures var a := Archive(event, configs);
              && (a.Thrown? <==> r.Fail?)
              && (a.Thrown? ==> r.error == a.cause)
              && (a.LoggedError? <==> logged.Some?)
              && (a.LoggedError? ==> logged.value == a.text)
              && (a.Saved? ==> table.rows == old(table.rows) + [RowOf(old(table.nextId), a.record, a.decoded)]
                                && table.nextId == old(table.nextId) + 1)
              && (!a.Saved? ==> table.rows == old(table.rows) && table.nextId == old(table.nextId))
    {
      logged := None;
      var a := Archive(event, configs);
      match a
      case Saved(record, decoded) =>
        var _ := table.Insert(record, decoded);
        r := Pass;
      case Thrown(cause) =>
        r := Fail(cause);
      case LoggedError(text) =>
        logged := Some(text);
        r := Pass;
      case Ignored =>
        r := Pass;
    }
  }
}
