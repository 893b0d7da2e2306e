/**
 * A bucket of the in-memory (memcached) kind: it routes each key through the latest
 * cluster configuration to a primary server, refuses every asynchronous, view and N1QL
 * request, and tells its cluster manager once that it is going away.
 */
module Buckets {
  import opened Common
  import Views

  type ServerId = nat

  /** The mapped key (`IMappedKey`) for a key: the servers that own its partition. */
  datatype MappedKey = MappedKey(primary: ServerId) {
    function LocatePrimary(): ServerId { primary }
  }

  datatype KeyMapper = KeyMapper(mapping: string -> MappedKey) {
    function MapKey(key: string): MappedKey { mapping(key) }
  }

  /** A configuration snapshot (`IConfigInfo`), replaced whole on every change. */
  datatype ConfigInfo = ConfigInfo(keyMappers: string -> KeyMapper) {
    function GetKeyMapper(bucketName: string): KeyMapper { keyMappers(bucketName) }
  }

  /** The server that a key of bucket `bucketName` is sent to under `config`. */
  function LocateServer(config: ConfigInfo, bucketName: string, key: string): ServerId
  {
    config.GetKeyMapper(bucketName).MapKey(key).LocatePrimary()
  }

  datatype Operation<T> = SetOperation(key: string, value: T) | GetOperation(key: string)

  datatype OperationKind = SetKind | GetKind

  datatype OperationResult<T> = OperationResult(success: bool, value: Option<T>, message: string)

  /** An N1QL query result; this bucket never produces one. */
  datatype QueryResult<T> = QueryResult(success: bool, rows: seq<T>)

  datatype BucketException = NullReferenceException | NotImplementedException(message: string)

  const CouchbaseBucketOnly: string := "This method is only supported on Couchbase Bucket (persistent) types."

  predicate Unsupported<R>(r: Outcome<R, BucketException>)
  {
    r == Threw(NotImplementedException(CouchbaseBucketOnly))
  }

  /** What the bucket does to the world outside it. */
  datatype BucketEvent =
    | DestroyBucket           // `_clusterManager.DestroyBucket(this)`
    | SuppressFinalize        // `GC.SuppressFinalize(this)`
    | Sent(server: ServerId, kind: OperationKind, key: string)

  datatype BucketState = BucketState(name: string, config: Option<ConfigInfo>, disposed: bool, events: seq<BucketEvent>)

  /** The state after `Dispose(disposing)`. */
  function AfterDispose(s: BucketState, disposing: bool): (r: BucketState)
  {
    if s.disposed then s
    else s.(disposed := true,
            events := s.events + [DestroyBucket] + (if disposing then [SuppressFinalize] else []))
  }

  /** The state after a sequence of disposals: `true` for `Dispose()`, `false` for the finalizer. */
  function AfterDisposals(s: BucketState, calls: seq<bool>): (r: BucketState)
    decreases |calls|
  {
    if calls == [] then s else AfterDisposals(AfterDispose(s, calls[0]), calls[1..])
  }

  /** The manager has been told exactly when the bucket is disposed, and at most once. */
  ghost predicate WellFormed(s: BucketState)
  {
    Count(s.events, DestroyBucket) == if s.disposed then 1 else 0
  }

  lemma {:induction false} DisposalsOfDisposed(s: BucketState, calls: seq<bool>)
    requires s.disposed
    ensures AfterDisposals(s, calls) == s
    decreases |calls|
  {
    if calls != [] {
      DisposalsOfDisposed(AfterDispose(s, calls[0]), calls[1..]);
    }
  }

  /**
   * Any sequence of disposals: the first one, and only it, tells the manager and, if it is
   * the public `Dispose()`, suppresses finalization; the bucket ends disposed iff there
   * was a call or it already was; name and configuration are untouched.
   */
  lemma {:induction false} DisposalSequence(s: BucketState, calls: seq<bool>)
    ensures var t := AfterDisposals(s, calls);
            && t.disposed == (s.disposed || calls != [])
            && t.events == s.events + (if s.disposed || calls == [] then []
                                       else [DestroyBucket] + (if calls[0] then [SuppressFinalize] else []))
            && t.name == s.name && t.config == s.config
  {
    if calls != [] {
      if s.disposed {
        DisposalsOfDisposed(s, calls);
      } else {
        DisposalsOfDisposed(AfterDispose(s, calls[0]), calls[1..]);
        if calls[0] {
          assert s.events + [DestroyBucket] + [SuppressFinalize] == s.events + ([DestroyBucket] + [SuppressFinalize]);
        } else {
          assert s.events + [DestroyBucket] + [] == s.events + ([DestroyBucket] + []);
        }
      }
    }
  }

  /** From a bucket that was never disposed, any non-empty run of disposals destroys it exactly once. */
  lemma DestroyBucketExactlyOnce(s: BucketState, calls: seq<bool>)
    requires !s.disposed && Count(s.events, DestroyBucket) == 0
    requires calls != []
    ensures AfterDisposals(s, calls).disposed
    ensures Count(AfterDisposals(s, calls).events, DestroyBucket) == 1
    ensures Count(AfterDisposals(s, calls).events, SuppressFinalize)
         == Count(s.events, SuppressFinalize) + (if calls[0] then 1 else 0)
  {
    DisposalSequence(s, calls);
    var tail := [DestroyBucket] + (if calls[0] then [SuppressFinalize] else []);
    CountConcat(s.events, tail, DestroyBucket);
    CountConcat(s.events, tail, SuppressFinalize);
    CountConcat([DestroyBucket], if calls[0] then [SuppressFinalize] else [], DestroyBucket);
    CountConcat([DestroyBucket], if calls[0] then [SuppressFinalize] else [], SuppressFinalize);
  }

  /** A disposal keeps the "told exactly once" invariant. */
  lemma DisposePreservesWellFormed(s: BucketState, disposing: bool)
    requires WellFormed(s)
    ensures WellFormed(AfterDispose(s, disposing))
  {
    if !s.disposed {
      var tail := [DestroyBucket] + (if disposing then [SuppressFinalize] else []);
      assert s.events + [DestroyBucket] + (if disposing then [SuppressFinalize] else []) == s.events + tail;
      CountConcat(s.events, tail, DestroyBucket);
      CountConcat([DestroyBucket], if disposing then [SuppressFinalize] else [], DestroyBucket);
    }
  }

  class MemcachedBucket {
    /** `Name`, an auto-property with a public setter (see SetName). */
    var name: string
    /** `_configInfo`; `None` until the first configuration arrives. */
    var config: Option<ConfigInfo>
    var disposed: bool
    ghost var events: seq<BucketEvent>

    ghost function State(): BucketState
      reads this
    {
      BucketState(name, config, disposed, events)
    }

    ghost predicate Valid()
      reads this
    {
      WellFormed(State())
    }

    constructor (bucketName: string)
      ensures Valid()
      ensures name == bucketName && config == None && !disposed && events == []
    {
      name := bucketName;
      config := None;
      disposed := false;
      events := [];
    }

    /** The `Name` setter: later keys are routed under the new bucket name. */
    method SetName(newName: string)
      requires Valid()
      modifies this`name
      ensures Valid()
      ensures State() == old(State()).(name := newName)
    {
      name := newName;
    }

    /**
     * `IConfigObserver.NotifyConfigChanged`: the new snapshot replaces the old one whole.
     * A null snapshot (`None`) is stored too, after which Insert and Get throw again.
     */
    method NotifyConfigChanged(configInfo: Option<ConfigInfo>)
      requires Valid()
      modifies this`config
      ensures Valid()
      ensures State() == old(State()).(config := configInfo)
    {
      config := configInfo;
    }

    /** Stores `value` under `key` on the key's primary server; dereferences a null configuration. */
    method Insert<T>(key: string, value: T, send: (ServerId, Operation<T>) -> OperationResult<T>)
      returns (r: Outcome<OperationResult<T>, BucketException>)
      requires Valid()
      modifies this`events
      ensures Valid()
      ensures config.None? ==> r == Threw(NullReferenceException) && events == old(events)
      ensures config.Some? ==>
                var server := LocateServer(config.value, name, key);
                && r == Returned(send(server, SetOperation(key, value)))
                && events == old(events) + [Sent(server, SetKind, key)]
    {
      if config.None? {
        return Threw(NullReferenceException);
      }
      var keyMapper := config.value.GetKeyMapper(name);
      var bucket := keyMapper.MapKey(key);
      var server := bucket.LocatePrimary();
      var operation := SetOperation(key, value);
      var operationResult := send(server, operation);
      events := events + [Sent(server, SetKind, key)];
      CountConcat(old(events), [Sent(server, SetKind, key)], DestroyBucket);
      r := Returned(operationResult);
    }

    /** Reads `key` from the key's primary server, found exactly as Insert finds it. */
    method Get<T>(key: string, send: (ServerId, Operation<T>) -> OperationResult<T>)
      returns (r: Outcome<OperationResult<T>, BucketException>)
      requires Valid()
      modifies this`events
      ensures Valid()
      ensures config.None? ==> r == Threw(NullReferenceException) && events == old(events)
      ensures config.Some? ==>
                var server := LocateServer(config.value, name, key);
                && r == Returned(send(server, GetOperation(key)))
                && events == old(events) + [Sent(server, GetKind, key)]
    {
      if config.None? {
        return Threw(NullReferenceException);
      }
      var keyMapper := config.value.GetKeyMapper(name);
      var bucket := keyMapper.MapKey(key);
      var server := bucket.LocatePrimary();
      var operation: Operation<T> := GetOperation(key);
      var operationResult := send(server, operation);
      events := events + [Sent(server, GetKind, key)];
      CountConcat(old(events), [Sent(server, GetKind, key)], DestroyBucket);
      r := Returned(operationResult);
    }

    // The members below read no field of the bucket (they have no reads clause) and send nothing.

    function GetAsync<T>(key: string): (r: Outcome<OperationResult<T>, BucketException>)
      ensures Unsupported(r)
    {
      Threw(NotImplementedException(CouchbaseBucketOnly))
    }

    function InsertAsync<T>(key: string, value: T): (r: Outcome<OperationResult<T>, BucketException>)
      ensures Unsupported(r)
    {
      Threw(NotImplementedException(CouchbaseBucketOnly))
    }

    /** The view overload of `Get`. */
    function GetView<T>(query: Views.ViewQuery): (r: Outcome<Views.ViewResult<T>, BucketException>)
      ensures Unsupported(r)
    {
      Threw(NotImplementedException(CouchbaseBucketOnly))
    }

    function Query<T>(query: string): (r: Outcome<QueryResult<T>, BucketException>)
      ensures Unsupported(r)
    {
      Threw(NotImplementedException(CouchbaseBucketOnly))
    }

    function CreateQuery(development: bool): (r: Outcome<Views.ViewQuery, BucketException>)
      ensures Unsupported(r)
    {
      Threw(NotImplementedException(CouchbaseBucketOnly))
    }

    function CreateDesignDocQuery(designDoc: string, development: bool): (r: Outcome<Views.ViewQuery, BucketException>)
      ensures Unsupported(r)
    {
      Threw(NotImplementedException(CouchbaseBucketOnly))
    }

    function CreateViewQuery(designDoc: string, view: string, development: bool)
      : (r: Outcome<Views.ViewQuery, BucketException>)
      ensures Unsupported(r)
    {
      Threw(NotImplementedException(CouchbaseBucketOnly))
    }

    /** The public `Dispose()`. */
    method Dispose()
      requires Valid()
      modifies this`disposed, this`events
      ensures Valid()
      ensures State() == AfterDispose(old(State()), true)
    {
      DisposeCore(true);
    }

    /** The private `Dispose(bool disposing)`. */
    method DisposeCore(disposing: bool)
      requires Valid()
      modifies this`disposed, this`events
      ensures Valid()
      ensures State() == AfterDispose(old(State()), disposing)
    {
      ghost var before := State();
      DisposePreservesWellFormed(before, disposing);
      if !disposed {
        events := events + [DestroyBucket];
        if disposing {
          events := events + [SuppressFinalize];
        }
        disposed := true;
      }
      assert State() == AfterDispose(before, disposing);
    }

    /** The finalizer, `~MemcachedBucket()`. */
    method Finalize()
      requires Valid()
      modifies this`disposed, this`events
      ensures Valid()
      ensures State() == AfterDispose(old(State()), false)
    {
      DisposeCore(false);
    }
  }

  /** A caller's view: routing follows the latest configuration, and disposal tells the manager once. */
  method RoutingAndDisposalScenario(c1: ConfigInfo, c2: ConfigInfo, key: string, value: int,
                                    send: (ServerId, Operation<int>) -> OperationResult<int>)
  {
    var b := new MemcachedBucket("default");
    var r := b.Get(key, send);
    assert r == Threw(NullReferenceException);
    b.NotifyConfigChanged(Some(c1));
    r := b.Insert(key, value, send);
    assert b.events == [Sent(LocateServer(c1, "default", key), SetKind, key)];
    b.NotifyConfigChanged(Some(c2));
    r := b.Get(key, send);
    assert b.events[1] == Sent(LocateServer(c2, "default", key), GetKind, key);
    b.NotifyConfigChanged(None);
    r := b.Get(key, send);
    assert r == Threw(NullReferenceException) && |b.events| == 2;
    b.SetName("renamed");
    b.NotifyConfigChanged(Some(c1));
    r := b.Get(key, send);
    assert b.events[2] == Sent(LocateServer(c1, "renamed", key), GetKind, key);
    b.Dispose();
    b.Finalize();
    b.Dispose();
    assert b.disposed && Count(b.events, DestroyBucket) == 1;
  }
}
