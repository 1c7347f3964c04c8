/**
 * `RemoveUniqueJobIdFromCacheExtension`: after every delivery of a unique job,
 * whatever its result, the job's dedup id is deleted from the unique cache so
 * that the job can be pushed again.
 */
module UniqueRelease {
  import opened Wrappers
  import opened Php
  import opened Envelope
  import opened UniqueStore
  import opened Attempts
  import opened Registry

  /** The cache after `Cache::delete($slot.id, $slot.store)`. */
  function Forget(stores: map<string, set<string>>, slot: Slot): (r: map<string, set<string>>)
    ensures forall s, id :: id in Entries(r, s) <==> id in Entries(stores, s) && !(s == slot.store && id == slot.id)
  {
    stores[slot.store := Entries(stores, slot.store) - {slot.id}]
  }

  /**
   * The specification of `onResult`: the dedup id to delete from the cache
   * named `cacheName`, none for a job that is not unique, or the exception
   * thrown (a malformed target, or job data that is not an array, which
   * `getUniqueId` refuses).
   */
  function ReleaseSlot(cacheName: string, catalog: Catalog, m: Message): (r: Result<Option<Slot>, Throwable>)
    ensures GetTarget(m).Failure? ==> r == Failure(GetTarget(m).error)
    ensures GetTarget(m).Success? && !ShouldBeUnique(catalog, GetTarget(m).value.0) ==> r == Success(None)
    ensures GetTarget(m).Success? && ShouldBeUnique(catalog, GetTarget(m).value.0) ==>
              var data := GetCurrentArgument(m, None, Null);
              && (data.Failure? ==> r == Failure(data.error))
              && (data.Success? && data.value.IsArray() ==>
                    r == Success(Some(Slot(cacheName, GetUniqueId(GetTarget(m).value.0, GetTarget(m).value.1, data.value)))))
              && (data.Success? && !data.value.IsArray() ==> r.Failure? && r.error.kind == TypeError)
  {
    match GetTarget(m)
    case Failure(e) => Failure(e)
    case Success((cls, methodName)) =>
      if !ShouldBeUnique(catalog, cls) then Success(None)
      else match GetCurrentArgument(m, None, Null)
        case Failure(e) => Failure(e)
        case Success(data) =>
          if !data.IsArray() then Failure(Throwable(TypeError, UNIQUE_ID_NEEDS_ARRAY))
          else Success(Some(Slot(cacheName, GetUniqueId(cls, methodName, data))))
  }

  const UNIQUE_ID_NEEDS_ARRAY: string := "getUniqueId(): Argument #3 ($data) must be of type array"

  /**
   * Push, then release: the message a unique push publishes, once delivered to
   * an extension configured with the configuration's unique cache, releases
   * exactly the id the push recorded, and after that the cache no longer holds
   * it (whatever else it held before).
   */
  lemma PushThenReleaseForgetsId(configs: map<string, Config>, catalog: Catalog, job: JobRef, data: Value,
                                 options: PushOptions, stores: map<string, set<string>>,
                                 attempts: Option<int>, jobException: Option<string>, context: Context)
    requires AllStored(configs) && data.IsArray()
    requires PlanPush(configs, catalog, job, data, options).Success?
    requires PlanPush(configs, catalog, job, data, options).value.slot.Some?
    ensures var p := PlanPush(configs, catalog, job, data, options).value;
            var delivered := NewMessage(QueueMessage(p.message.body, attempts, jobException), context);
            && p.slot.value.store == UniqueCacheKey(p.name)
            && ReleaseSlot(p.slot.value.store, catalog, delivered) == Success(p.slot)
            && p.slot.value.id in Entries(Remember(stores, p.slot), p.slot.value.store)
            && p.slot.value.id !in Entries(Forget(Remember(stores, p.slot), p.slot.value), p.slot.value.store)
  {
    var p := PlanPush(configs, catalog, job, data, options).value;
    var cls := ResolveClass(catalog, job.cls).value;
    PushBodyReadsBack(cls, MethodOf(job), data, p.name, options.priority, p.queue);
  }

  class RemoveUniqueJobIdFromCacheExtension {
    /** The name of the cache configuration that holds the dedup ids. */
    const cache: string

    constructor (cache: string)
      ensures this.cache == cache
    {
      this.cache := cache;
    }

    /**
     * `onResult`: deletes the job's dedup id. The result is not read and not
     * changed, and no other id is touched.
     */
    method OnResult(ctx: MessageResult, catalog: Catalog, store: UniqueCache) returns (r: Outcome<Throwable>)
      modifies store
      ensures var release := ReleaseSlot(cache, catalog, NewMessage(ctx.message, ctx.context));
              && (release.Failure? ==> r == Fail(release.error) && store.stores == old(store.stores))
              && (release.Success? ==> r == Pass)
              && (release.Success? && release.value.None? ==> store.stores == old(store.stores))
              && (release.Success? && release.value.Some? ==> store.stores == Forget(old(store.stores), release.value.value))
      ensures store.settings == old(store.settings)
    {
      var jobMessage := NewMessage(ctx.message, ctx.context);
      var target := GetTarget(jobMessage);
      if target.Failure? {
        return Fail(target.error);
      }
      var (cls, methodName) := target.value;
      if !ShouldBeUnique(catalog, cls) {
        return Pass;
      }
      var argument := GetCurrentArgument(jobMessage, None, Null);
      if argument.Failure? {
        return Fail(argument.error);
      }
      var data := argument.value;
      if !data.IsArray() {
        return Fail(Throwable(TypeError, UNIQUE_ID_NEEDS_ARRAY));
      }
      var uniqueId := GetUniqueId(cls, methodName, data);
      store.Delete(cache, uniqueId);
      r := Pass;
    }
  }
}
