/**
 * The console commands over the failed-job archive: `queue requeue` pushes
 * the matching failed jobs again and removes each one that was pushed;
 * `queue purge_failed` deletes the matching failed jobs.
 */
module Commands {
  import opened Wrappers
  import opened Php
  import opened Envelope
  import opened UniqueStore
  import opened Registry
  import opened FailedJobs

  /** The `ids` argument and the `class`, `queue` and `config` options; absent ones do not filter. */
  datatype Filter = Filter(ids: Option<string>, cls: Option<string>, queue: Option<string>, config: Option<string>)

  /** The ids named by the comma-separated `ids` argument; a part that is not an integer names none. */
  function IdSet(parts: seq<string>): (r: set<int>)
    ensures forall id :: id in r <==> exists k :: 0 <= k < |parts| && ParseInt(parts[k]) == Some(id)
  {
    if parts == [] then {}
    else
      var rest := IdSet(parts[1..]);
      assert forall k :: 0 < k < |parts| ==> parts[k] == parts[1..][k - 1];
      (if ParseInt(parts[0]).Some? then {ParseInt(parts[0]).value} else {}) + rest
  }

  /** The filters combine by conjunction. */
  predicate Matches(f: Filter, row: FailedJob)
  {
    && (f.ids.Some? ==> row.id in IdSet(Explode(f.ids.value, ',')))
    && (f.cls.Some? ==> row.cls == f.cls.value)
    && (f.queue.Some? ==> row.queue == f.queue.value)
    && (f.config.Some? ==> row.config == f.config.value)
  }

  /** `find()` with the filters: the matching rows in storage order. */
  function Find(rows: seq<FailedJob>, f: Filter): (r: seq<FailedJob>)
    ensures |r| <= |rows|
    ensures forall row :: row in r <==> row in rows && Matches(f, row)
  {
    if rows == [] then []
    else if Matches(f, rows[0]) then [rows[0]] + Find(rows[1..], f)
    else Find(rows[1..], f)
  }

  function IdsOf(rows: seq<FailedJob>): (r: set<int>)
    ensures forall id :: id in r <==> exists k :: 0 <= k < |rows| && rows[k].id == id
  {
    set k | 0 <= k < |rows| :: rows[k].id
  }

  /** A line of console output: `out`, `err` or `success`. */
  datatype Line = OutLine(text: string) | ErrLine(text: string) | SuccessLine(text: string)

  /** The table after a command, what it printed, and what escaped from it. */
  datatype Run = Run(rows: seq<FailedJob>, lines: seq<Line>, r: Outcome<Throwable>)

  function Jobs(n: int): string
  {
    IntToString(n) + " jobs"
  }

  // The messages the commands print.
  const NONE_FOUND := OutLine("0 jobs found.")

  function Deleting(n: int): Line { OutLine("Deleting " + Jobs(n) + ".") }

  function Deleted(n: int): Line { SuccessLine(Jobs(n) + " deleted.") }

  function Requeueing(n: int): Line { OutLine("Requeueing " + Jobs(n) + ".") }

  function Requeued(n: int): Line { SuccessLine(Jobs(n) + " requeued.") }

  function FailedToRequeue(n: int): Line { ErrLine("Failed to requeue " + Jobs(n) + ".") }

  const REQUEUE_FAILED: string := "Exception occurred while requeueing FailedJob with ID "

  /** The two error lines for a row whose push threw an `Exception`. */
  function ExceptionReport(id: int, e: Throwable): seq<Line>
  {
    [ErrLine(REQUEUE_FAILED + IntToString(id)), ErrLine(e.Describe())]
  }

  /** Only an answer of exactly "y" confirms; the default answer is "n". */
  predicate Confirmed(force: bool, answer: string)
  {
    force || answer == "y"
  }

  // ---------------------------------------------------------------------------
  // purge_failed

  /** The specification of `purge_failed`. */
  function PurgeJobs(rows: seq<FailedJob>, f: Filter, force: bool, answer: string): (run: Run)
    ensures run.r == Pass
    ensures Find(rows, f) == [] ==> run == Run(rows, [NONE_FOUND], Pass)
    ensures Find(rows, f) != [] && !Confirmed(force, answer) ==> run == Run(rows, [], Pass)
    ensures Find(rows, f) != [] && Confirmed(force, answer) ==>
              && run.rows == Without(rows, IdsOf(Find(rows, f)))
              && run.lines == [Deleting(|Find(rows, f)|), Deleted(|Find(rows, f)|)]
  {
    var matched := Find(rows, f);
    if |matched| == 0 then Run(rows, [NONE_FOUND], Pass)
    else if !Confirmed(force, answer) then Run(rows, [], Pass)
    else Run(Without(rows, IdsOf(matched)), [Deleting(|matched|), Deleted(|matched|)], Pass)
  }

  predicate DistinctIds(rows: seq<FailedJob>)
  {
    forall j, k :: 0 <= j < k < |rows| ==> rows[j].id != rows[k].id
  }

  /**
   * A confirmed purge deletes every matching row and keeps every other one
   * (the ids of the table are distinct), and reports the number matched.
   */
  lemma PurgeDeletesExactlyMatches(rows: seq<FailedJob>, f: Filter, force: bool, answer: string)
    requires DistinctIds(rows) && Confirmed(force, answer)
    ensures forall row :: row in rows ==> (row in PurgeJobs(rows, f, force, answer).rows <==> !Matches(f, row))
  {
    var matched := Find(rows, f);
    forall row | row in rows
      ensures row in PurgeJobs(rows, f, force, answer).rows <==> !Matches(f, row)
    {
      if matched != [] && !Matches(f, row) {
        forall k | 0 <= k < |matched|
          ensures matched[k].id != row.id
        {
          assert matched[k] in matched;
          DistinctRowsHaveDistinctIds(rows, matched[k], row);
        }
      }
    }
  }

  /** In a table with distinct ids, two different rows have different ids. */
  lemma DistinctRowsHaveDistinctIds(rows: seq<FailedJob>, x: FailedJob, y: FailedJob)
    requires DistinctIds(rows) && x in rows && y in rows && x != y
    ensures x.id != y.id
  {
    var a :| 0 <= a < |rows| && rows[a] == x;
    var b :| 0 <= b < |rows| && rows[b] == y;
    if a < b {
      assert rows[a].id != rows[b].id;
    } else {
      assert rows[b].id != rows[a].id;
    }
  }

  // ---------------------------------------------------------------------------
  // requeue

  /** The push options a failed job is requeued with: its own configuration, priority and queue. */
  function RequeueOptions(row: FailedJob): PushOptions
  {
    PushOptions(Some(row.config), Some(row.queue), row.priority, None, None)
  }

  /** The `TypeError` of `QueueManager::push` given data that is not an array. */
  const DATA_NOT_ARRAY := Throwable(TypeError, "QueueManager::push(): Argument #2 ($data) must be of type array")

  /** What `QueueManager::push` of a failed job does: the exception it throws, if any. */
  function PushOutcome(configs: map<string, Config>, catalog: Catalog, row: FailedJob): Outcome<Throwable>
    requires AllStored(configs)
  {
    if !row.data.IsArray() then Fail(DATA_NOT_ARRAY)
    else
      var plan := PlanPush(configs, catalog, Pair(row.cls, row.methodName), row.data, RequeueOptions(row));
      if plan.Failure? then Fail(plan.error) else Pass
  }

  /** `PushOutcome` for a fixed registry and catalog. */
  function Pusher(configs: map<string, Config>, catalog: Catalog): FailedJob -> Outcome<Throwable>
    requires AllStored(configs)
  {
    row => PushOutcome(configs, catalog, row)
  }

  /** What `QueueManager::push` of a failed job does to the broker: nothing when it throws. */
  function RowEffect(configs: map<string, Config>, catalog: Catalog, b: Broker, row: FailedJob): Broker
    requires AllStored(configs)
  {
    if !row.data.IsArray() then b
    else PushEffect(configs, b, PlanPush(configs, catalog, Pair(row.cls, row.methodName), row.data, RequeueOptions(row)))
  }

  /** `RowEffect` for a fixed registry and catalog. */
  function Effect(configs: map<string, Config>, catalog: Catalog): (Broker, FailedJob) -> Broker
    requires AllStored(configs)
  {
    (b, row) => RowEffect(configs, catalog, b, row)
  }

  /**
   * A failed job whose push returns is published with its own class, method,
   * data, configuration, priority and queue, unless the cache already holds
   * its dedup id; a push that throws changes nothing.
   */
  lemma RequeuedRowIsPublished(configs: map<string, Config>, catalog: Catalog, b: Broker, row: FailedJob)
    requires AllStored(configs)
    ensures PushOutcome(configs, catalog, row).Fail? ==> RowEffect(configs, catalog, b, row) == b
    ensures PushOutcome(configs, catalog, row).Pass? ==>
              var cls := ResolveClass(catalog, row.cls).value;
              var after := RowEffect(configs, catalog, b, row);
              var unique := ShouldBeUnique(catalog, cls);
              var slot := Slot(UniqueCacheKey(row.config), GetUniqueId(cls, row.methodName, row.data));
              && (unique && slot.id in Entries(b.stores, slot.store) ==> after == b)
              && (!(unique && slot.id in Entries(b.stores, slot.store)) ==>
                    && row.config in after.clients
                    && after.published == b.published + [Published(row.config, after.clients[row.config].serial, row.queue,
                         ClientMessage(PushBody(cls, row.methodName, row.data, row.config, row.priority, row.queue), None, None, row.priority))]
                    && after.stores == Remember(b.stores, if unique then Some(slot) else None))
  {
  }

  /** The requeue loop so far: ids deleted, counters, error lines, and a throwable that escaped it. */
  datatype Loop = Loop(deleted: set<int>, succeeded: nat, failed: nat, errors: seq<(int, Throwable)>, escaped: Option<Throwable>)

  /** The error lines of the caught failures, in the order they happened. */
  function Reports(errors: seq<(int, Throwable)>): seq<Line>
    decreases |errors|
  {
    if errors == [] then []
    else
      var last := errors[|errors| - 1];
      Reports(errors[..|errors| - 1]) + ExceptionReport(last.0, last.1)
  }

  /** A throwable the loop's `catch` handles: an `Exception`, or anything when `catchAll`. */
  predicate Caught(t: Throwable, catchAll: bool)
  {
    catchAll || t.IsException()
  }

  /**
   * One pass of the requeue loop's body: once a throwable has escaped nothing
   * more happens; a row whose push returned is deleted; a caught failure is
   * reported and counted; any other throwable leaves the loop.
   */
  function Advance(before: Loop, row: FailedJob, outcome: Outcome<Throwable>, catchAll: bool): Loop
  {
    if before.escaped.Some? then before
    else match outcome
      case Pass => Loop(before.deleted + {row.id}, before.succeeded + 1, before.failed, before.errors, None)
      case Fail(e) =>
        if Caught(e, catchAll) then
          Loop(before.deleted, before.succeeded, before.failed + 1, before.errors + [(row.id, e)], None)
        else Loop(before.deleted, before.succeeded, before.failed, before.errors, Some(e))
  }

  /**
   * The requeue loop over the matching rows, in order, given what pushing a
   * row does. The command's `catch (Exception $e)` is `catchAll == false`.
   */
  function RequeueLoop(matched: seq<FailedJob>, push: FailedJob -> Outcome<Throwable>, catchAll: bool): (l: Loop)
    ensures l.escaped.None? ==> l.succeeded + l.failed == |matched|
    ensures catchAll ==> l.escaped.None?
    ensures l.escaped.Some? ==> !Caught(l.escaped.value, catchAll)
    decreases |matched|
  {
    if matched == [] then Loop({}, 0, 0, [], None)
    else
      var last := matched[|matched| - 1];
      Advance(RequeueLoop(matched[..|matched| - 1], push, catchAll), last, push(last), catchAll)
  }

  /**
   * The loop deletes only rows whose push returned, and, when nothing
   * escaped, every such row.
   */
  lemma LoopDeletesPassedRows(matched: seq<FailedJob>, push: FailedJob -> Outcome<Throwable>, catchAll: bool)
    ensures var l := RequeueLoop(matched, push, catchAll);
            && (l.escaped.None? ==>
                  forall k :: 0 <= k < |matched| && push(matched[k]).Pass? ==> matched[k].id in l.deleted)
            && (forall id :: id in l.deleted ==>
                  exists k :: 0 <= k < |matched| && matched[k].id == id && push(matched[k]).Pass?)
  {
    if RequeueLoop(matched, push, catchAll).escaped.None? {
      forall k | 0 <= k < |matched| && push(matched[k]).Pass?
        ensures matched[k].id in RequeueLoop(matched, push, catchAll).deleted
      {
        PassedRowDeleted(matched, push, catchAll, k);
      }
    }
    LoopDeletesOnlyPassed(matched, push, catchAll);
  }

  /** One step of the loop deletes the row exactly when the loop is still running and its push returned. */
  lemma AdvanceDeletes(before: Loop, row: FailedJob, outcome: Outcome<Throwable>, catchAll: bool)
    ensures var l := Advance(before, row, outcome, catchAll);
            && l.deleted == (if before.escaped.None? && outcome.Pass? then before.deleted + {row.id} else before.deleted)
            && (l.escaped.None? ==> before.escaped.None?)
  {
  }

  /** A row whose push returned is deleted, unless a throwable escaped the loop. */
  lemma {:induction false} PassedRowDeleted(matched: seq<FailedJob>, push: FailedJob -> Outcome<Throwable>, catchAll: bool, k: nat)
    requires k < |matched| && push(matched[k]).Pass?
    requires RequeueLoop(matched, push, catchAll).escaped.None?
    ensures matched[k].id in RequeueLoop(matched, push, catchAll).deleted
    decreases |matched|
  {
    var prefix := matched[..|matched| - 1];
    var last := matched[|matched| - 1];
    AdvanceDeletes(RequeueLoop(prefix, push, catchAll), last, push(last), catchAll);
    if k < |prefix| {
      assert prefix[k] == matched[k];
      PassedRowDeleted(prefix, push, catchAll, k);
    }
  }

  lemma {:induction false} LoopDeletesOnlyPassed(matched: seq<FailedJob>, push: FailedJob -> Outcome<Throwable>, catchAll: bool)
    ensures forall id :: id in RequeueLoop(matched, push, catchAll).deleted ==>
              exists k :: 0 <= k < |matched| && matched[k].id == id && push(matched[k]).Pass?
    decreases |matched|
  {
    if matched != [] {
      var prefix := matched[..|matched| - 1];
      var last := matched[|matched| - 1];
      LoopDeletesOnlyPassed(prefix, push, catchAll);
      AdvanceDeletes(RequeueLoop(prefix, push, catchAll), last, push(last), catchAll);
      forall id | id in RequeueLoop(matched, push, catchAll).deleted
        ensures exists k :: 0 <= k < |matched| && matched[k].id == id && push(matched[k]).Pass?
      {
        if id in RequeueLoop(prefix, push, catchAll).deleted {
          var k :| 0 <= k < |prefix| && prefix[k].id == id && push(prefix[k]).Pass?;
          assert matched[k] == prefix[k];
        } else {
          assert matched[|matched| - 1].id == id && push(matched[|matched| - 1]).Pass?;
        }
      }
    }
  }

  /** The summary lines: the failed count, then the succeeded count, each only when non-zero. */
  function Summary(l: Loop): seq<Line>
  {
    (if l.failed > 0 then [FailedToRequeue(l.failed)] else [])
    + (if l.succeeded > 0 then [Requeued(l.succeeded)] else [])
  }

  /** The specification of `requeue`, given what pushing a row does. */
  function RequeueJobs(rows: seq<FailedJob>, push: FailedJob -> Outcome<Throwable>,
                       f: Filter, force: bool, answer: string, catchAll: bool): Run
  {
    var matched := Find(rows, f);
    if |matched| == 0 then Run(rows, [NONE_FOUND], Pass)
    else if !Confirmed(force, answer) then Run(rows, [], Pass)
    else RequeueConfirmed(rows, matched, push, catchAll)
  }

  /** A confirmed requeue of the matches: the header line, the loop, and the summary unless a throwable escaped. */
  function RequeueConfirmed(rows: seq<FailedJob>, matched: seq<FailedJob>, push: FailedJob -> Outcome<Throwable>, catchAll: bool): Run
  {
    var l := RequeueLoop(matched, push, catchAll);
    var head := [Requeueing(|matched|)];
    if l.escaped.Some? then Run(Without(rows, l.deleted), head + Reports(l.errors), Fail(l.escaped.value))
    else Run(Without(rows, l.deleted), head + Reports(l.errors) + Summary(l), Pass)
  }

  /**
   * The broker after the loop over `matched`: each row the loop reaches is
   * pushed in turn, including the one whose throwable escapes; the rows after
   * it are not.
   */
  function Pushed(matched: seq<FailedJob>, push: FailedJob -> Outcome<Throwable>, catchAll: bool,
                  effect: (Broker, FailedJob) -> Broker, b: Broker): Broker
    decreases |matched|
  {
    if matched == [] then b
    else
      var prefix := matched[..|matched| - 1];
      if RequeueLoop(prefix, push, catchAll).escaped.Some? then Pushed(prefix, push, catchAll, effect, b)
      else effect(Pushed(prefix, push, catchAll, effect, b), matched[|matched| - 1])
  }

  /**
   * The specification of what `requeue` does to the broker: nothing when no
   * row matches or the run is not confirmed, otherwise the loop's pushes.
   */
  function RequeueBroker(rows: seq<FailedJob>, push: FailedJob -> Outcome<Throwable>, effect: (Broker, FailedJob) -> Broker,
                         f: Filter, force: bool, answer: string, catchAll: bool, b: Broker): Broker
  {
    var matched := Find(rows, f);
    if |matched| == 0 || !Confirmed(force, answer) then b else Pushed(matched, push, catchAll, effect, b)
  }

  /** Every row pushed in order, as a loop that never stops early would. */
  function PushAll(matched: seq<FailedJob>, effect: (Broker, FailedJob) -> Broker, b: Broker): Broker
    decreases |matched|
  {
    if matched == [] then b else effect(PushAll(matched[..|matched| - 1], effect, b), matched[|matched| - 1])
  }

  /** When nothing escapes, the loop pushes every matching row, in order. */
  lemma {:induction false} PushesEveryMatch(matched: seq<FailedJob>, push: FailedJob -> Outcome<Throwable>, catchAll: bool,
                                            effect: (Broker, FailedJob) -> Broker, b: Broker)
    requires forall k :: 0 <= k < |matched| && push(matched[k]).Fail? ==> Caught(push(matched[k]).error, catchAll)
    ensures Pushed(matched, push, catchAll, effect, b) == PushAll(matched, effect, b)
    decreases |matched|
  {
    if matched != [] {
      var prefix := matched[..|matched| - 1];
      assert forall k :: 0 <= k < |prefix| ==> prefix[k] == matched[k];
      NothingEscapes(prefix, push, catchAll);
      PushesEveryMatch(prefix, push, catchAll, effect, b);
    }
  }

  /** When every failure of a matching row is caught, nothing escapes the loop. */
  lemma {:induction false} NothingEscapes(matched: seq<FailedJob>, push: FailedJob -> Outcome<Throwable>, catchAll: bool)
    requires forall k :: 0 <= k < |matched| && push(matched[k]).Fail? ==> Caught(push(matched[k]).error, catchAll)
    ensures RequeueLoop(matched, push, catchAll).escaped.None?
    decreases |matched|
  {
    if matched != [] {
      var prefix := matched[..|matched| - 1];
      assert forall k :: 0 <= k < |prefix| ==> prefix[k] == matched[k];
      NothingEscapes(prefix, push, catchAll);
    }
  }

  /**
   * As long as every push that fails throws an `Exception` (or every
   * throwable is caught), requeueing isolates each failed job: a matching row
   * is removed exactly when its push returns, every other row stays, and the
   * succeeded and failed counts add up to the number of matches.
   */
  lemma RequeueIsolatesEveryFailure(rows: seq<FailedJob>, push: FailedJob -> Outcome<Throwable>, f: Filter, answer: string, catchAll: bool)
    requires DistinctIds(rows)
    requires forall row :: row in rows && push(row).Fail? ==> Caught(push(row).error, catchAll)
    ensures var run := RequeueJobs(rows, push, f, true, answer, catchAll);
            var l := RequeueLoop(Find(rows, f), push, catchAll);
            && run.r == Pass
            && l.succeeded + l.failed == |Find(rows, f)|
            && forall row :: row in rows ==> (row in run.rows <==> !(Matches(f, row) && push(row).Pass?))
  {
    var matched := Find(rows, f);
    var l := RequeueLoop(matched, push, catchAll);
    assert forall k :: 0 <= k < |matched| ==> matched[k] in matched;
    NothingEscapes(matched, push, catchAll);
    LoopDeletesPassedRows(matched, push, catchAll);
    forall row | row in rows
      ensures row in Without(rows, l.deleted) <==> !(Matches(f, row) && push(row).Pass?)
    {
      if Matches(f, row) && push(row).Pass? {
        assert row in matched;
        var k :| 0 <= k < |matched| && matched[k] == row;
      } else if row.id in l.deleted {
        var k :| 0 <= k < |matched| && matched[k].id == row.id && push(matched[k]).Pass?;
        assert matched[k] in matched;
        DistinctRowsHaveDistinctIds(rows, matched[k], row);
      }
    }
  }

  /** A failed job whose configuration has since been removed makes `push` throw an `Error` (`null + array`). */
  lemma RemovedConfigIsAnError(configs: map<string, Config>, catalog: Catalog, row: FailedJob)
    requires AllStored(configs) && row.data.IsArray()
    requires ResolveClass(catalog, row.cls).Some? && row.config !in configs
    ensures PushOutcome(configs, catalog, row).Fail?
    ensures PushOutcome(configs, catalog, row).error.kind == TypeError && PushOutcome(configs, catalog, row).error.IsError()
  {
    var plan := PlanPush(configs, catalog, Pair(row.cls, row.methodName), row.data, RequeueOptions(row));
    assert plan.Failure? && plan.error.kind == TypeError;
  }

  /**
   * The loop catches only `Exception`. When the first matching job fails with
   * an `Error` (such as the TypeError of a removed configuration), the error
   * escapes the loop: the job after it is neither pushed nor deleted, and no
   * summary is printed. Were every throwable caught, the second job would be
   * requeued and deleted.
   */
  lemma RequeueAbortsOnError(first: FailedJob, second: FailedJob, push: FailedJob -> Outcome<Throwable>,
                             effect: (Broker, FailedJob) -> Broker, b: Broker)
    requires push(first).Fail? && push(first).error.IsError() && push(second) == Pass
    requires first.id != second.id
    ensures var f := Filter(None, None, None, None);
            && RequeueJobs([first, second], push, f, true, "", false).r == Fail(push(first).error)
            && RequeueJobs([first, second], push, f, true, "", false).rows == [first, second]
            && RequeueBroker([first, second], push, effect, f, true, "", false, b) == effect(b, first)
            && RequeueJobs([first, second], push, f, true, "", true).r == Pass
            && RequeueJobs([first, second], push, f, true, "", true).rows == [first]
            && RequeueBroker([first, second], push, effect, f, true, "", true, b) == effect(effect(b, first), second)
  {
    var f := Filter(None, None, None, None);
    var rows := [first, second];
    assert Find(rows, f) == rows by {
      assert Find(rows[1..], f) == [second];
    }
    assert rows[..1] == [first];
    assert [first][..0] == [];
    assert RequeueLoop([first], push, false) == Loop({}, 0, 0, [], Some(push(first).error));
    assert RequeueLoop(rows, push, false) == RequeueLoop([first], push, false);
    assert RequeueLoop([first], push, true).deleted == {};
    assert RequeueLoop(rows, push, true).deleted == {second.id};
    assert Pushed([first], push, false, effect, b) == effect(b, first);
    assert Pushed(rows, push, false, effect, b) == effect(b, first);
    assert Pushed([first], push, true, effect, b) == effect(b, first);
    assert Pushed(rows, push, true, effect, b) == effect(effect(b, first), second);
    WithoutNothing(rows);
    assert Without(rows, {second.id}) == [first] by {
      assert Without(rows[1..], {second.id}) == [];
    }
  }

  // ---------------------------------------------------------------------------
  // The command

  lemma {:induction false} WithoutTwice(rows: seq<FailedJob>, a: set<int>, b: set<int>)
    ensures Without(Without(rows, a), b) == Without(rows, a + b)
  {
    if rows != [] {
      WithoutTwice(rows[1..], a, b);
    }
  }

  lemma {:induction false} WithoutNothing(rows: seq<FailedJob>)
    ensures Without(rows, {}) == rows
  {
    if rows != [] {
      WithoutNothing(rows[1..]);
    }
  }

  /** The three ways a requeue goes, in terms of the loop over the matches. */
  lemma RequeueCases(rows: seq<FailedJob>, push: FailedJob -> Outcome<Throwable>, f: Filter, force: bool, answer: string)
    ensures var run := RequeueJobs(rows, push, f, force, answer, false);
            var matched := Find(rows, f);
            var l := RequeueLoop(matched, push, false);
            var head := [Requeueing(|matched|)];
            && (matched == [] ==> run == Run(rows, [NONE_FOUND], Pass))
            && (matched != [] && !Confirmed(force, answer) ==> run == Run(rows, [], Pass))
            && (matched != [] && Confirmed(force, answer) ==>
                  run == if l.escaped.Some? then Run(Without(rows, l.deleted), head + Reports(l.errors), Fail(l.escaped.value))
                         else Run(Without(rows, l.deleted), head + Reports(l.errors) + Summary(l), Pass))
  {
  }

  /**
   * Requeue leaves the broker alone when nothing matches and when the run is
   * not confirmed; a confirmed run pushes what the loop reaches.
   */
  lemma RequeueBrokerCases(rows: seq<FailedJob>, push: FailedJob -> Outcome<Throwable>, effect: (Broker, FailedJob) -> Broker,
                           f: Filter, force: bool, answer: string, b: Broker)
    ensures var after := RequeueBroker(rows, push, effect, f, force, answer, false, b);
            && (Find(rows, f) == [] ==> after == b)
            && (!Confirmed(force, answer) ==> after == b)
            && (Find(rows, f) != [] && Confirmed(force, answer) ==> after == Pushed(Find(rows, f), push, false, effect, b))
  {
  }

  /** The loop over one more row is one more pass of its body. */
  lemma LoopStep(matched: seq<FailedJob>, push: FailedJob -> Outcome<Throwable>, i: nat)
    requires i < |matched|
    ensures RequeueLoop(matched[..i + 1], push, false)
            == Advance(RequeueLoop(matched[..i], push, false), matched[i], push(matched[i]), false)
  {
    assert matched[..i + 1][..i] == matched[..i];
  }

  /** Once a throwable has left the loop, later rows change nothing. */
  lemma {:induction false} EscapedStays(matched: seq<FailedJob>, push: FailedJob -> Outcome<Throwable>, i: nat)
    requires i <= |matched|
    requires RequeueLoop(matched[..i], push, false).escaped.Some?
    ensures RequeueLoop(matched, push, false) == RequeueLoop(matched[..i], push, false)
    decreases |matched| - i
  {
    if i < |matched| {
      assert matched[..i + 1][..i] == matched[..i];
      EscapedStays(matched, push, i + 1);
    } else {
      assert matched[..i] == matched;
    }
  }

  /** While the loop runs, one more row is one more push. */
  lemma PushedStep(matched: seq<FailedJob>, push: FailedJob -> Outcome<Throwable>, effect: (Broker, FailedJob) -> Broker, b: Broker, i: nat)
    requires i < |matched| && RequeueLoop(matched[..i], push, false).escaped.None?
    ensures Pushed(matched[..i + 1], push, false, effect, b) == effect(Pushed(matched[..i], push, false, effect, b), matched[i])
  {
    assert matched[..i + 1][..i] == matched[..i];
  }

  /** Once a throwable has left the loop, later rows are not pushed. */
  lemma {:induction false} PushedStays(matched: seq<FailedJob>, push: FailedJob -> Outcome<Throwable>,
                                       effect: (Broker, FailedJob) -> Broker, b: Broker, i: nat)
    requires i <= |matched|
    requires RequeueLoop(matched[..i], push, false).escaped.Some?
    ensures Pushed(matched, push, false, effect, b) == Pushed(matched[..i], push, false, effect, b)
    decreases |matched|
  {
    if i < |matched| {
      var prefix := matched[..|matched| - 1];
      assert prefix[..i] == matched[..i];
      EscapedStays(prefix, push, i);
      PushedStays(prefix, push, effect, b, i);
    } else {
      assert matched[..i] == matched;
    }
  }

  /** `QueueManager::push` of a failed job with its own class, method, data and options. */
  method PushRow(manager: QueueManager, catalog: Catalog, row: FailedJob) returns (outcome: Outcome<Throwable>)
    requires manager.Valid()
    modifies manager, manager.cache
    ensures manager.Valid() && manager.configs == old(manager.configs) && manager.cache.settings == old(manager.cache.settings)
    ensures outcome == PushOutcome(old(manager.configs), catalog, row)
    ensures manager.Snapshot() == RowEffect(old(manager.configs), catalog, old(manager.Snapshot()), row)
  {
    if !row.data.IsArray() {
      return Fail(DATA_NOT_ARRAY);
    }
    outcome := manager.Push(Pair(row.cls, row.methodName), row.data, RequeueOptions(row), catalog);
  }

  /** A caught failure adds its two error lines after the earlier ones. */
  lemma ReportsAppend(errors: seq<(int, Throwable)>, error: (int, Throwable))
    ensures Reports(errors + [error]) == Reports(errors) + ExceptionReport(error.0, error.1)
  {
    assert (errors + [error])[..|errors|] == errors;
  }

  /** One row of the loop: push it, and delete it when the push returned. */
  method RequeueRow(table: FailedJobsTable, manager: QueueManager, catalog: Catalog, row: FailedJob,
                    ghost rows0: seq<FailedJob>, ghost deleted: set<int>)
    returns (outcome: Outcome<Throwable>)
    requires table.Valid() && manager.Valid() && table.rows == Without(rows0, deleted)
    modifies table, manager, manager.cache
    ensures table.Valid() && manager.Valid() && manager.configs == old(manager.configs) && manager.cache.settings == old(manager.cache.settings)
    ensures outcome == Pusher(old(manager.configs), catalog)(row)
    ensures manager.Snapshot() == Effect(old(manager.configs), catalog)(old(manager.Snapshot()), row)
    ensures table.rows == if outcome.Pass? then Without(rows0, deleted + {row.id}) else old(table.rows)
  {
    outcome := PushRow(manager, catalog, row);
    if outcome.Pass? {
      WithoutTwice(rows0, deleted, {row.id});
      table.Delete(row.id);
    }
  }

  /** One pass of the loop body: the row's push, its deletion, and the counters and error lines. */
  method RequeueStep(table: FailedJobsTable, manager: QueueManager, catalog: Catalog, row: FailedJob,
                     ghost rows0: seq<FailedJob>, ghost before: Loop, succeeded0: nat, failed0: nat, lines0: seq<Line>)
    returns (escaped: Option<Throwable>, succeeded: nat, failed: nat, lines: seq<Line>)
    requires table.Valid() && manager.Valid() && before.escaped.None?
    requires succeeded0 == before.succeeded && failed0 == before.failed
    requires table.rows == Without(rows0, before.deleted) && lines0 == Reports(before.errors)
    modifies table, manager, manager.cache
    ensures table.Valid() && manager.Valid() && manager.configs == old(manager.configs) && manager.cache.settings == old(manager.cache.settings)
    ensures var after := Advance(before, row, Pusher(old(manager.configs), catalog)(row), false);
            && escaped == after.escaped && succeeded == after.succeeded && failed == after.failed
            && table.rows == Without(rows0, after.deleted) && lines == Reports(after.errors)
    ensures manager.Snapshot() == Effect(old(manager.configs), catalog)(old(manager.Snapshot()), row)
  {
    var outcome := RequeueRow(table, manager, catalog, row, rows0, before.deleted);
    escaped, succeeded, failed, lines := None, succeeded0, failed0, lines0;
    match outcome {
      case Pass =>
        succeeded := succeeded + 1;
      case Fail(e) =>
        if !e.IsException() {
          escaped := Some(e);
        } else {
          ReportsAppend(before.errors, (row.id, e));
          lines := lines + ExceptionReport(row.id, e);
          failed := failed + 1;
        }
    }
  }

  /**
   * The `foreach` of `execute` over the matching rows: each push that returns
   * deletes its row, an `Exception` adds two error lines, anything else stops
   * the loop and escapes.
   */
  method RequeueMatched(table: FailedJobsTable, manager: QueueManager, catalog: Catalog, matched: seq<FailedJob>)
    returns (escaped: Option<Throwable>, succeeded: nat, failed: nat, lines: seq<Line>)
    requires table.Valid() && manager.Valid()
    modifies table, manager, manager.cache
    ensures table.Valid() && manager.Valid() && manager.configs == old(manager.configs) && manager.cache.settings == old(manager.cache.settings)
    ensures var l := RequeueLoop(matched, Pusher(old(manager.configs), catalog), false);
            && escaped == l.escaped && succeeded == l.succeeded && failed == l.failed
            && lines == Reports(l.errors) && table.rows == Without(old(table.rows), l.deleted)
    ensures manager.Snapshot() == Pushed(matched, Pusher(old(manager.configs), catalog), false, Effect(old(manager.configs), catalog), old(manager.Snapshot()))
  {
    ghost var rows0 := table.rows;
    ghost var configs := manager.configs;
    ghost var settings := manager.cache.settings;
    ghost var push := Pusher(configs, catalog);
    ghost var effect := Effect(configs, catalog);
    ghost var b0 := manager.Snapshot();
    WithoutNothing(rows0);
    escaped, succeeded, failed, lines := None, 0, 0, [];
    var i := 0;
    ghost var l := RequeueLoop(matched[..0], push, false);
    assert l == RequeueLoop(matched[..i], push, false);
    while i < |matched|
      invariant 0 <= i <= |matched|
      invariant table.Valid() && manager.Valid() && manager.configs == configs && manager.cache.settings == settings
      invariant l == RequeueLoop(matched[..i], push, false)
      invariant manager.Snapshot() == Pushed(matched[..i], push, false, effect, b0)
      invariant l.escaped.None? && escaped.None? && succeeded == l.succeeded && failed == l.failed
      invariant table.rows == Without(rows0, l.deleted) && lines == Reports(l.errors)
    {
      LoopStep(matched, push, i);
      PushedStep(matched, push, effect, b0, i);
      escaped, succeeded, failed, lines := RequeueStep(table, manager, catalog, matched[i], rows0, l, succeeded, failed, lines);
      l := RequeueLoop(matched[..i + 1], push, false);
      if escaped.Some? {
        EscapedStays(matched, push, i + 1);
        PushedStays(matched, push, effect, b0, i + 1);
        return;
      }
      i := i + 1;
    }
    assert matched[..i] == matched;
  }

  class RequeueCommand {
    constructor ()
    {
    }

    /**
     * `execute`: pushes each matching failed job through the queue manager and
     * deletes it once the push returned; an `Exception` is reported and the
     * loop goes on, anything else escapes.
     */
    method Execute(table: FailedJobsTable, manager: QueueManager, catalog: Catalog, f: Filter, force: bool, answer: string)
      returns (r: Outcome<Throwable>, lines: seq<Line>)
      requires table.Valid() && manager.Valid()
      modifies table, manager, manager.cache
      ensures table.Valid() && manager.Valid() && manager.configs == old(manager.configs) && manager.cache.settings == old(manager.cache.settings)
      ensures var run := RequeueJobs(old(table.rows), Pusher(old(manager.configs), catalog), f, force, answer, false);
              table.rows == run.rows && lines == run.lines && r == run.r
      ensures manager.Snapshot() == RequeueBroker(old(table.rows), Pusher(old(manager.configs), catalog), Effect(old(manager.configs), catalog),
                                                  f, force, answer, false, old(manager.Snapshot()))
    {
      var matched := Find(table.rows, f);
      if |matched| == 0 {
        return Pass, [NONE_FOUND];
      }
      if !(force || answer == "y") {
        return Pass, [];
      }
      r, lines := RequeueAndReport(table, manager, catalog, matched);
    }
  }

  /** The confirmed part of `execute`: the header, the loop over the matches, and the summary. */
  method RequeueAndReport(table: FailedJobsTable, manager: QueueManager, catalog: Catalog, matched: seq<FailedJob>)
    returns (r: Outcome<Throwable>, lines: seq<Line>)
    requires table.Valid() && manager.Valid()
    modifies table, manager, manager.cache
    ensures table.Valid() && manager.Valid() && manager.configs == old(manager.configs) && manager.cache.settings == old(manager.cache.settings)
    ensures var run := RequeueConfirmed(old(table.rows), matched, Pusher(old(manager.configs), catalog), false);
            table.rows == run.rows && lines == run.lines && r == run.r
    ensures manager.Snapshot() == Pushed(matched, Pusher(old(manager.configs), catalog), false, Effect(old(manager.configs), catalog), old(manager.Snapshot()))
  {
    ghost var l := RequeueLoop(matched, Pusher(manager.configs, catalog), false);
    var head := [Requeueing(|matched|)];
    var escaped, succeeded, failed, report := RequeueMatched(table, manager, catalog, matched);
    if escaped.Some? {
      return Fail(escaped.value), head + report;
    }
    var summary := [];
    if failed > 0 {
      summary := summary + [FailedToRequeue(failed)];
    }
    if succeeded > 0 {
      summary := summary + [Requeued(succeeded)];
    }
    assert summary == Summary(l);
    lines, r := head + report + summary, Pass;
  }

  class PurgeFailedCommand {
    constructor ()
    {
    }

    /** `execute`: deletes every matching failed job at once, after confirmation. */
    method Execute(table: FailedJobsTable, f: Filter, force: bool, answer: string) returns (lines: seq<Line>)
      requires table.Valid()
      modifies table
      ensures table.Valid()
      ensures var run := PurgeJobs(old(table.rows), f, force, answer);
              table.rows == run.rows && lines == run.lines
    {
      var matched := Find(table.rows, f);
      var count := |matched|;
      if count == 0 {
        return [NONE_FOUND];
      }
      if !(force || answer == "y") {
        return [];
      }
      lines := [Deleting(count)];
      table.DeleteMany(IdsOf(matched));
      lines := lines + [Deleted(count)];
    }
  }
}
