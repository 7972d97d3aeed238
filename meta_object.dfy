/** Object metadata orchestration (meta/object.go): cached lookups with a name check, the
    versioning dispatch of PutObject and AppendObject, and the transactional deletes. */
module MetaObject {

  import opened Wrappers
  import opened MetaClient
  import ApiUtils

  /** The version id of the null version (the constant of meta/types). */
  const NullVersion: string := "null"

  // ---------------------------------------------------------------------------
  // Cached lookups

  /** What the object cache holds: a decoded object, or a value of another type. */
  datatype Payload = ObjectPayload(obj: Object) | ForeignPayload

  /** The cache's answer for a key: a cached value, an error of its own, or a miss, on which
      it returns what the fetch callback returns. */
  datatype CacheLookup = Cached(payload: Payload) | CacheFailure(error: Error) | CacheMiss

  /** What a Client lookup returns. */
  datatype Fetched = Found(obj: Object) | FetchFailed(error: Error)

  /** Go's (object, err) pair; the object may be set although err is too. */
  datatype ObjectResult = ObjectResult(obj: Option<Object>, err: Option<Error>)

  /** The object table's cache key. */
  function CacheKey(bucketName: string, objectName: string, version: string): string
  {
    bucketName + ":" + objectName + ":" + version
  }

  /** The cache's value as GetObject and GetVersionedObject read it. */
  function FromCache(p: Payload): ObjectResult
  {
    match p
    case ObjectPayload(o) => ObjectResult(Some(o), None)
    case ForeignPayload => ObjectResult(None, Some(InternalError))
  }

  /** GetObject: the cache entry `bucket:object:`, filled on a miss by the Client's lookup of
      the empty version, whose name must be the one requested. */
  function GetObject(cache: string -> CacheLookup, get: (string, string, string) -> Fetched,
                     bucketName: string, objectName: string): (r: ObjectResult)
    ensures r.err == None ==> r.obj.Some?
    ensures cache(CacheKey(bucketName, objectName, "")).Cached? ==>
      r == FromCache(cache(CacheKey(bucketName, objectName, "")).payload)
    ensures cache(CacheKey(bucketName, objectName, "")).CacheMiss? ==>
      match get(bucketName, objectName, "")
      case FetchFailed(e) => r == ObjectResult(None, Some(e))
      case Found(o) => r == (if o.Name == objectName then ObjectResult(Some(o), None)
                             else ObjectResult(None, Some(NoSuchKey)))
    ensures cache(CacheKey(bucketName, objectName, "")).CacheFailure? ==>
      r == ObjectResult(None, Some(cache(CacheKey(bucketName, objectName, "")).error))
  {
    assert CacheKey(bucketName, objectName, "") == bucketName + ":" + objectName + ":";
    match cache(bucketName + ":" + objectName + ":")
    case Cached(p) => FromCache(p)
    case CacheFailure(e) => ObjectResult(None, Some(e))
    case CacheMiss =>
      match get(bucketName, objectName, "")
      case FetchFailed(e) => ObjectResult(None, Some(e))
      case Found(o) =>
        if o.Name != objectName then ObjectResult(None, Some(NoSuchKey))
        else ObjectResult(Some(o), None)
  }

  /** GetVersionedObject: the cache entry `bucket:object:version`, filled on a miss by the
      latest version when `version` is empty and by that version otherwise. The fetch
      callback stores the fetched object in the function's own named result, so a fetched
      object whose name differs is returned along with NoSuchKey. */
  function GetVersionedObject(cache: string -> CacheLookup, get: (string, string, string) -> Fetched,
                              latest: (string, string) -> Fetched,
                              bucketName: string, objectName: string, version: string): (r: ObjectResult)
    ensures r.err == None ==> r.obj.Some?
    ensures cache(CacheKey(bucketName, objectName, version)).Cached? ==>
      r == FromCache(cache(CacheKey(bucketName, objectName, version)).payload)
    ensures cache(CacheKey(bucketName, objectName, version)).CacheMiss? ==>
      var f := if version == "" then latest(bucketName, objectName) else get(bucketName, objectName, version);
      match f
      case FetchFailed(e) => r == ObjectResult(None, Some(e))
      case Found(o) => r.obj == Some(o) && (r.err == None <==> o.Name == objectName)
                       && (r.err != None ==> r.err == Some(NoSuchKey))
    ensures cache(CacheKey(bucketName, objectName, version)).CacheFailure? ==>
      r == ObjectResult(None, Some(cache(CacheKey(bucketName, objectName, version)).error))
  {
    match cache(bucketName + ":" + objectName + ":" + version)
    case Cached(p) => FromCache(p)
    case CacheFailure(e) => ObjectResult(None, Some(e))
    case CacheMiss =>
      var f := if version == "" then latest(bucketName, objectName) else get(bucketName, objectName, version);
      match f
      case FetchFailed(e) => ObjectResult(None, Some(e))
      case Found(o) =>
        if o.Name != objectName then ObjectResult(Some(o), Some(NoSuchKey))
        else ObjectResult(Some(o), None)
  }

  /** GetObject and GetVersionedObject with an empty version read the same cache entry, so
      they agree whenever it is filled; they differ only in how a miss is filled. */
  lemma GetObjectSharesEntry(cache: string -> CacheLookup, get: (string, string, string) -> Fetched,
                             latest: (string, string) -> Fetched, bucketName: string, objectName: string)
    requires !cache(CacheKey(bucketName, objectName, "")).CacheMiss?
    ensures GetObject(cache, get, bucketName, objectName) ==
            GetVersionedObject(cache, get, latest, bucketName, objectName, "")
  {
    assert bucketName + ":" + objectName + ":" + "" == bucketName + ":" + objectName + ":";
  }

  /** The cache key does not separate a bucket name containing ':' from an object name that
      does: two distinct objects of buckets the non-strict check accepts share an entry. */
  lemma CacheKeyCollision()
    ensures CacheKey("abc:d", "e", "") == CacheKey("abc", "d:e", "")
    ensures ApiUtils.MatchesValidBucketName("abc:d") && ApiUtils.MatchesValidBucketName("abc")
  {
    assert CacheKey("abc:d", "e", "") == "abc:d:e:";
    assert CacheKey("abc", "d:e", "") == "abc:d:e:";
  }

  // ---------------------------------------------------------------------------
  // Version dispatch

  datatype RequestContext = RequestContext(BucketInfo: Option<Bucket>, ObjectInfo: Option<Object>)

  /** The Client writes PutObject and AppendObject choose between. */
  datatype ObjectWrite =
    | UpdateObjectWithoutMultiPart(obj: Object)
    | PutObjectWithoutMultiPart(obj: Object)
    | UpdateObject(obj: Object, multipart: Option<Multipart>, updateUsage: bool)
    | PutObjectRecord(obj: Object, multipart: Option<Multipart>, updateUsage: bool)
    | PutVersionedObject(obj: Object, multipart: Option<Multipart>, updateUsage: bool)
    | UpdateAppendObject(obj: Object)

  /** The Client calls an operation made and the error it returned. */
  datatype Dispatch = Dispatch(calls: seq<ObjectWrite>, err: Option<Error>)

  predicate IsUpdate(w: ObjectWrite)
  {
    w.UpdateObjectWithoutMultiPart? || w.UpdateObject? || w.UpdateAppendObject?
  }

  predicate IsWithoutMultiPart(w: ObjectWrite)
  {
    w.UpdateObjectWithoutMultiPart? || w.PutObjectWithoutMultiPart?
  }

  /** PutObject: no bucket is NoSuchBucket; a disabled or suspended bucket makes one
      non-versioned write, an update exactly when the object already exists, without
      multipart exactly when there is no upload and no part map; an enabled bucket makes one
      versioned write; any other mode is InvalidVersioning. `client` is the write's answer. */
  function PutObject(reqCtx: RequestContext, obj: Object, multipart: Option<Multipart>, updateUsage: bool,
                     client: ObjectWrite -> Option<Error>): (r: Dispatch)
    ensures reqCtx.BucketInfo.None? ==> r == Dispatch([], Some(NoSuchBucket))
    ensures reqCtx.BucketInfo.Some? && reqCtx.BucketInfo.value.Versioning in {VersionDisabled, VersionSuspended} ==>
      && |r.calls| == 1 && r.calls[0].obj == obj && r.err == client(r.calls[0])
      && !r.calls[0].PutVersionedObject? && !r.calls[0].UpdateAppendObject?
      && (IsUpdate(r.calls[0]) <==> reqCtx.ObjectInfo.Some?)
      && (IsWithoutMultiPart(r.calls[0]) <==> multipart.None? && obj.Parts.None?)
      && (!IsWithoutMultiPart(r.calls[0]) ==>
            r.calls[0].multipart == multipart && r.calls[0].updateUsage == updateUsage)
    ensures reqCtx.BucketInfo.Some? && reqCtx.BucketInfo.value.Versioning == VersionEnabled ==>
      var w := PutVersionedObject(obj, multipart, updateUsage);
      r == Dispatch([w], client(w))
    ensures reqCtx.BucketInfo.Some? && reqCtx.BucketInfo.value.Versioning.VersionOther? ==>
      r == Dispatch([], Some(InvalidVersioning))
  {
    if reqCtx.BucketInfo.None? then Dispatch([], Some(NoSuchBucket))
    else match reqCtx.BucketInfo.value.Versioning
      case VersionEnabled =>
        var w := PutVersionedObject(obj, multipart, updateUsage);
        Dispatch([w], client(w))
      case VersionOther(_) => Dispatch([], Some(InvalidVersioning))
      case _ =>
        // Suspended falls through to Disabled.
        var needUpdate := reqCtx.ObjectInfo.Some?;
        var w :=
          if multipart.None? && obj.Parts.None? then
            (if needUpdate then UpdateObjectWithoutMultiPart(obj) else PutObjectWithoutMultiPart(obj))
          else if needUpdate then UpdateObject(obj, multipart, updateUsage)
          else PutObjectRecord(obj, multipart, updateUsage);
        Dispatch([w], client(w))
  }

  /** A suspended bucket is written exactly as a disabled one. */
  lemma SuspendedLikeDisabled(bucket: Bucket, objectInfo: Option<Object>, obj: Object,
                              multipart: Option<Multipart>, updateUsage: bool, client: ObjectWrite -> Option<Error>)
    ensures PutObject(RequestContext(Some(bucket.(Versioning := VersionSuspended)), objectInfo), obj, multipart, updateUsage, client)
         == PutObject(RequestContext(Some(bucket.(Versioning := VersionDisabled)), objectInfo), obj, multipart, updateUsage, client)
  {
  }

  /** AppendObject: a new object is put like a non-versioned upload that updates usage,
      an existing one is appended to. */
  function AppendObject(obj: Object, isExist: bool, client: ObjectWrite -> Option<Error>): (r: Dispatch)
    ensures |r.calls| == 1 && r.calls[0].obj == obj && r.err == client(r.calls[0])
    ensures IsUpdate(r.calls[0]) <==> isExist
    ensures !isExist ==> r.calls[0] == PutObjectRecord(obj, None, true)
    ensures isExist ==> r.calls[0] == UpdateAppendObject(obj)
  {
    var w := if !isExist then PutObjectRecord(obj, None, true) else UpdateAppendObject(obj);
    Dispatch([w], client(w))
  }

  // ---------------------------------------------------------------------------
  // Transactional deletes

  /** The writes that delete an object: its row, a garbage-collection entry for its data
      and its size off the bucket's usage. */
  function RemovalWrites(obj: Object): seq<Write>
  {
    [RemoveObjectRow(KeyOf(obj)), EnqueueGc(obj), AddUsage(obj.BucketName, -obj.Size)]
  }

  /** The statements of a delete: `removal` (DeleteObjectCall or DeleteVersionedObjectCall),
      the GC entry and the usage change. */
  function RemovalSteps(obj: Object, removal: Call): seq<Call>
  {
    [removal, PutObjectToGarbageCollectionCall(obj), UpdateUsageCall(obj.BucketName, -obj.Size)]
  }

  /** The calls DeleteObject and DeleteVersionedObject make when nothing fails. */
  function RemovalCalls(obj: Object, removal: Call): seq<Call>
  {
    [NewTransCall] + RemovalSteps(obj, removal) + [CommitTransCall]
  }

  /** A committed delete removes exactly the object's row, appends exactly one GC entry
      (the object) and lowers its bucket's usage by exactly its size. */
  lemma RemovalEffect(st: Store, obj: Object)
    ensures var st' := ApplyWrites(st, RemovalWrites(obj));
      && st'.objects == st.objects - {KeyOf(obj)}
      && st'.gc == st.gc + [obj]
      && Usage(st', obj.BucketName) == Usage(st, obj.BucketName) - obj.Size
      && (forall b :: b != obj.BucketName ==> Usage(st', b) == Usage(st, b))
      && st'.uploads == st.uploads && st'.objectParts == st.objectParts
  {
    var ws := RemovalWrites(obj);
    var s1 := Apply(st, ws[0]);
    var s2 := Apply(s1, ws[1]);
    var s3 := Apply(s2, ws[2]);
    assert ApplyWrites(st, ws) == ApplyWrites(s1, ws[1..]);
    assert ApplyWrites(s1, ws[1..]) == ApplyWrites(s2, ws[2..]);
    assert ApplyWrites(s2, ws[2..]) == ApplyWrites(s3, ws[3..]);
    assert ws[3..] == [];
  }

  /** The statements of a delete, stopping at the first failure; nothing reaches the store. */
  method StageRemoval(client: Client, tx: Tx, obj: Object, removal: Call) returns (err: Option<Error>)
    requires removal == DeleteObjectCall(obj) || removal == DeleteVersionedObjectCall(obj)
    modifies client, tx
    ensures var steps := RemovalSteps(obj, removal);
      && err == FirstFault(client.faults, steps)
      && client.log == old(client.log) + Issued(client.faults, steps)
      && client.store == old(client.store)
      && (err == None ==> tx.writes == old(tx.writes) + RemovalWrites(obj))
  {
    var gcCall, usageCall := PutObjectToGarbageCollectionCall(obj), UpdateUsageCall(obj.BucketName, -obj.Size);
    assert RemovalSteps(obj, removal) == [removal] + [gcCall, usageCall];
    FirstFaultAppend(client.faults, [removal], [gcCall, usageCall]);
    FirstFaultSingle(client.faults, removal);
    ghost var log0, w0 := client.log, tx.writes;
    err := client.Invoke(removal, tx);
    if err != None {
      return;
    }
    err := StageTwo(client, tx, gcCall, usageCall);
    SeqAssoc(log0, [removal], Issued(client.faults, [gcCall, usageCall]));
    if err == None {
      SeqAssoc(w0 + Staged(removal), Staged(gcCall), Staged(usageCall));
    }
  }

  /** DeleteObject and DeleteVersionedObject: the removal, the GC entry and the usage change in
      one transaction; the first failure (the commit's included) stops the rest, aborts and
      is returned, and then the store is unchanged. */
  method DeleteWith(client: Client, obj: Object, removal: Call) returns (err: Option<Error>)
    requires removal == DeleteObjectCall(obj) || removal == DeleteVersionedObjectCall(obj)
    modifies client
    ensures var calls := RemovalCalls(obj, removal);
      && err == FirstFault(client.faults, calls)
      && client.store == (if err == None then ApplyWrites(old(client.store), RemovalWrites(obj)) else old(client.store))
      && client.log == old(client.log) + Issued(client.faults, calls) + AbortAfter(err)
  {
    ghost var steps := RemovalSteps(obj, removal);
    TransactionRun(client.faults, steps);
    var tx;
    tx, err := client.NewTrans();
    if err != None {
      return;
    }
    err := StageRemoval(client, tx, obj, removal);
    if err == None {
      assert tx.writes == RemovalWrites(obj);
    }
    err := CommitOrAbort(client, tx, err);
    TransactionLog(client.faults, steps, old(client.log), err);
  }

  method DeleteObject(client: Client, obj: Object) returns (err: Option<Error>)
    modifies client
    ensures var calls := RemovalCalls(obj, DeleteObjectCall(obj));
      && err == FirstFault(client.faults, calls)
      && client.store == (if err == None then ApplyWrites(old(client.store), RemovalWrites(obj)) else old(client.store))
      && client.log == old(client.log) + Issued(client.faults, calls) + AbortAfter(err)
  {
    err := DeleteWith(client, obj, DeleteObjectCall(obj));
  }

  method DeleteVersionedObject(client: Client, obj: Object) returns (err: Option<Error>)
    modifies client
    ensures var calls := RemovalCalls(obj, DeleteVersionedObjectCall(obj));
      && err == FirstFault(client.faults, calls)
      && client.store == (if err == None then ApplyWrites(old(client.store), RemovalWrites(obj)) else old(client.store))
      && client.log == old(client.log) + Issued(client.faults, calls) + AbortAfter(err)
  {
    err := DeleteWith(client, obj, DeleteVersionedObjectCall(obj));
  }

  /** AddDeleteMarker: outside any transaction. */
  method AddDeleteMarker(client: Client, marker: Object, version: string) returns (err: Option<Error>)
    modifies client
    ensures client.log == old(client.log) + [AddDeleteMarkerCall(marker, version)]
    ensures err == (if AddDeleteMarkerCall(marker, version) in client.faults
                    then Some(Backend(AddDeleteMarkerCall(marker, version))) else None)
    ensures client.store == if err == None
      then old(client.store).(objects := old(client.store).objects[(marker.BucketName, marker.Name, version) := MarkerRow(marker, version)])
      else old(client.store)
  {
    err := client.Invoke(AddDeleteMarkerCall(marker, version), null);
    if err == None {
      assert [PutObjectRow(MarkerRow(marker, version))][1..] == [];
    }
  }

  // ---------------------------------------------------------------------------
  // Deletes in a suspended bucket

  /** The removal statements of a suspended delete: none when the object is itself a delete
      marker. */
  function SuspendedRemoval(obj: Object): seq<Call>
  {
    if !obj.DeleteMarker then RemovalSteps(obj, DeleteObjectCall(obj)) else []
  }

  /** The statements DeleteSuspendedObject makes when nothing fails: the removal, then the
      null-version marker. */
  function SuspendedSteps(obj: Object): seq<Call>
  {
    SuspendedRemoval(obj) + [AddDeleteMarkerCall(obj, NullVersion)]
  }

  /** What DeleteSuspendedObject stages when the removal steps succeeded. */
  function SuspendedWrites(obj: Object, markerAdded: bool): seq<Write>
  {
    (if !obj.DeleteMarker then RemovalWrites(obj) else [])
    + (if markerAdded then [PutObjectRow(MarkerRow(obj, NullVersion))] else [])
  }

  /** DeleteSuspendedObject as written. Its result is unnamed, so the deferred block reads the
      local `err`, which the final `return m.Client.AddDeleteMarker(...)` does not assign:
      once the removal steps succeed the transaction commits whether or not the marker was
      added, and a Commit failure is never returned. */
  method DeleteSuspendedObject(client: Client, obj: Object) returns (result: Option<Error>)
    modifies client
    ensures var calls := [NewTransCall] + SuspendedSteps(obj);
      && result == FirstFault(client.faults, calls)
      && (var staged := NewTransCall !in client.faults && FirstFault(client.faults, SuspendedRemoval(obj)) == None;
          && client.store == (if !staged || CommitTransCall in client.faults then old(client.store)
                              else ApplyWrites(old(client.store),
                                     SuspendedWrites(obj, AddDeleteMarkerCall(obj, NullVersion) !in client.faults)))
          && client.log == old(client.log) + Issued(client.faults, calls)
                           + (if NewTransCall in client.faults then []
                              else if !staged then [AbortTransCall] else [CommitTransCall])
                           + (if staged && CommitTransCall in client.faults then [AbortTransCall] else []))
  {
    TransactionStart(client.faults, SuspendedSteps(obj));
    var tx, err := client.NewTrans();
    if err != None {
      return err;
    }
    result := SuspendedInTransaction(client, tx, obj);
    SeqAssoc(old(client.log), [NewTransCall], Issued(client.faults, SuspendedSteps(obj)));
  }

  /** The part of DeleteSuspendedObject after NewTrans, up to and including its deferred block. */
  method SuspendedInTransaction(client: Client, tx: Tx, obj: Object) returns (result: Option<Error>)
    requires tx.writes == []
    modifies client, tx
    ensures result == FirstFault(client.faults, SuspendedSteps(obj))
    ensures var staged := FirstFault(client.faults, SuspendedRemoval(obj)) == None;
      && client.store == (if !staged || CommitTransCall in client.faults then old(client.store)
                          else ApplyWrites(old(client.store),
                                 SuspendedWrites(obj, AddDeleteMarkerCall(obj, NullVersion) !in client.faults)))
      && client.log == old(client.log) + Issued(client.faults, SuspendedSteps(obj))
                       + (if !staged then [AbortTransCall] else [CommitTransCall])
                       + (if staged && CommitTransCall in client.faults then [AbortTransCall] else [])
  {
    var removal := SuspendedRemoval(obj);
    var marker := AddDeleteMarkerCall(obj, NullVersion);
    FirstFaultAppend(client.faults, removal, [marker]);
    FirstFaultSingle(client.faults, marker);
    var err := None;
    if !obj.DeleteMarker {
      err := StageRemoval(client, tx, obj, DeleteObjectCall(obj));
      if err != None {
        err := CommitOrAbort(client, tx, err);
        return err;
      }
    }
    result := client.Invoke(marker, tx);
    assert tx.writes == SuspendedWrites(obj, result == None);
    SeqAssoc(old(client.log), Issued(client.faults, removal), [marker]);
    // The deferred block: `err` is still the nil error of the last removal step (or of NewTrans).
    err := CommitOrAbort(client, tx, err);
  }

  /** The statements of a suspended delete, stopping at the first failure (the marker's
      included); nothing reaches the store. */
  method StageSuspended(client: Client, tx: Tx, obj: Object) returns (err: Option<Error>)
    modifies client, tx
    ensures err == FirstFault(client.faults, SuspendedSteps(obj))
    ensures client.log == old(client.log) + Issued(client.faults, SuspendedSteps(obj))
    ensures client.store == old(client.store)
    ensures err == None ==> tx.writes == old(tx.writes) + SuspendedWrites(obj, true)
  {
    var removal := SuspendedRemoval(obj);
    var marker := AddDeleteMarkerCall(obj, NullVersion);
    FirstFaultAppend(client.faults, removal, [marker]);
    FirstFaultSingle(client.faults, marker);
    err := None;
    if !obj.DeleteMarker {
      err := StageRemoval(client, tx, obj, DeleteObjectCall(obj));
      if err != None {
        return;
      }
    }
    err := client.Invoke(marker, tx);
    SeqAssoc(old(client.log), Issued(client.faults, removal), [marker]);
  }

  /** DeleteSuspendedObject with a named result: a failing marker aborts the whole delete,
      and a Commit failure is returned. */
  method DeleteSuspendedObjectAtomic(client: Client, obj: Object) returns (err: Option<Error>)
    modifies client
    ensures var calls := [NewTransCall] + SuspendedSteps(obj) + [CommitTransCall];
      && err == FirstFault(client.faults, calls)
      && client.store == (if err == None then ApplyWrites(old(client.store), SuspendedWrites(obj, true))
                          else old(client.store))
      && client.log == old(client.log) + Issued(client.faults, calls) + AbortAfter(err)
  {
    ghost var steps := SuspendedSteps(obj);
    TransactionRun(client.faults, steps);
    var tx;
    tx, err := client.NewTrans();
    if err != None {
      return;
    }
    err := StageSuspended(client, tx, obj);
    if err == None {
      assert tx.writes == SuspendedWrites(obj, true);
    }
    err := CommitOrAbort(client, tx, err);
    TransactionLog(client.faults, steps, old(client.log), err);
  }

  /** On an object that is itself a delete marker, a suspended delete removes no row, adds no
      GC entry and leaves usage alone: it only writes the null-version marker. */
  lemma SuspendedMarkerOnlyAddsMarker(st: Store, obj: Object)
    requires obj.DeleteMarker
    ensures var st' := ApplyWrites(st, SuspendedWrites(obj, true));
      && st'.objects == st.objects[(obj.BucketName, obj.Name, NullVersion) := MarkerRow(obj, NullVersion)]
      && st'.gc == st.gc && st'.usage == st.usage
      && st'.uploads == st.uploads && st'.objectParts == st.objectParts
  {
    var ws := SuspendedWrites(obj, true);
    assert ws == [PutObjectRow(MarkerRow(obj, NullVersion))];
    assert ApplyWrites(st, ws) == Apply(st, ws[0]);
  }

  /** On any other object, a committed suspended delete is the removal followed by the marker,
      or the removal alone when the marker failed. */
  lemma SuspendedRemovalThenMarker(st: Store, obj: Object, markerAdded: bool)
    requires !obj.DeleteMarker
    ensures var st' := ApplyWrites(st, SuspendedWrites(obj, markerAdded));
      var removed := ApplyWrites(st, RemovalWrites(obj));
      && st'.gc == st.gc + [obj]
      && Usage(st', obj.BucketName) == Usage(st, obj.BucketName) - obj.Size
      && st'.objects == (if markerAdded then removed.objects[(obj.BucketName, obj.Name, NullVersion) := MarkerRow(obj, NullVersion)]
                         else removed.objects)
  {
    RemovalEffect(st, obj);
    var ws := SuspendedWrites(obj, markerAdded);
    ApplyWritesAppend(st, RemovalWrites(obj), ws[3..]);
    assert ws == RemovalWrites(obj) + ws[3..];
    var removed := ApplyWrites(st, RemovalWrites(obj));
    if markerAdded {
      assert ApplyWrites(removed, ws[3..]) == Apply(removed, ws[3]);
    }
  }

  lemma {:induction false} ApplyWritesAppend(st: Store, a: seq<Write>, b: seq<Write>)
    ensures ApplyWrites(st, a + b) == ApplyWrites(ApplyWrites(st, a), b)
    decreases |a|
  {
    if a == [] {
      assert a + b == b;
    } else {
      assert (a + b)[0] == a[0] && (a + b)[1..] == a[1..] + b;
      ApplyWritesAppend(Apply(st, a[0]), a[1..], b);
    }
  }

  /** With only the marker failing, the run of a suspended delete stops at the marker, after
      every removal step went through. */
  lemma MarkerOnlyFault(o: Object)
    requires !o.DeleteMarker
    ensures var faults, marker := {AddDeleteMarkerCall(o, NullVersion)}, AddDeleteMarkerCall(o, NullVersion);
      && FirstFault(faults, [NewTransCall] + SuspendedSteps(o)) == Some(Backend(marker))
      && FirstFault(faults, [NewTransCall] + SuspendedSteps(o) + [CommitTransCall]) == Some(Backend(marker))
      && FirstFault(faults, SuspendedRemoval(o)) == None
  {
    var faults := {AddDeleteMarkerCall(o, NullVersion)};
    FirstFaultAt(faults, [NewTransCall] + SuspendedSteps(o), 4);
    FirstFaultAt(faults, [NewTransCall] + SuspendedSteps(o) + [CommitTransCall], 4);
    FirstFaultNone(faults, SuspendedRemoval(o));
  }

  /** The marker failing in a suspended bucket, on a store holding only `o`: the object is
      gone (its row removed, its data queued for GC) although the error is returned. */
  method MarkerFailureExample(o: Object) returns (result: Option<Error>, after: Store)
    requires !o.DeleteMarker
    ensures result == Some(Backend(AddDeleteMarkerCall(o, NullVersion)))
    ensures KeyOf(o) !in after.objects && after.gc == [o]
  {
    var st := Store(map[KeyOf(o) := o], [], map[], map[], map[]);
    var faults := {AddDeleteMarkerCall(o, NullVersion)};
    MarkerOnlyFault(o);
    var c := new Client(st, faults);
    assert CommitTransCall !in faults && NewTransCall !in faults && AddDeleteMarkerCall(o, NullVersion) in faults;
    result := DeleteSuspendedObject(c, o);
    assert c.store == ApplyWrites(st, SuspendedWrites(o, false));
    SuspendedRemovalThenMarker(st, o, false);
    RemovalEffect(st, o);
    after := c.store;
  }

  /** The same failure with a named result: the error is returned and nothing changes. */
  method MarkerFailureAtomicExample(o: Object) returns (result: Option<Error>, after: Store)
    requires !o.DeleteMarker
    ensures result == Some(Backend(AddDeleteMarkerCall(o, NullVersion)))
    ensures after.objects == map[KeyOf(o) := o] && after.gc == []
  {
    var st := Store(map[KeyOf(o) := o], [], map[], map[], map[]);
    var faults := {AddDeleteMarkerCall(o, NullVersion)};
    MarkerOnlyFault(o);
    var c := new Client(st, faults);
    result := DeleteSuspendedObjectAtomic(c, o);
    after := c.store;
  }
}
