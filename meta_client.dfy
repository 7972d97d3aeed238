/** The metadata backend that meta/object.go and meta/multipart.go drive through `m.Client`.
    Its implementations are not part of this model; it is modelled as state: the object
    table keyed by (bucket, object, version), the garbage-collection queue, the per-bucket
    usage counters, the multipart uploads and the object-part table. A transaction stages
    writes and applies them all at once on commit. Which calls fail is fixed by the
    client's `faults`, and every call is recorded in `log`. */
module MetaClient {

  import opened Wrappers

  // ---------------------------------------------------------------------------
  // Entities

  /** A bucket's versioning string. `VersionOther` is any string other than the three
      constants, whose values are defined outside these files and are not part of this model. */
  datatype Versioning = VersionDisabled | VersionEnabled | VersionSuspended | VersionOther(name: string)

  datatype Part = Part(PartNumber: int, Size: int, ObjectId: string)

  /** An object's metadata row. `Parts` is None for Go's nil map. */
  datatype Object = Object(BucketName: string, Name: string, VersionId: string, Size: int,
                           DeleteMarker: bool, Parts: Option<map<int, Part>>, ObjectId: string)

  datatype Multipart = Multipart(BucketName: string, ObjectName: string, UploadId: string,
                                 Parts: map<int, Part>)

  datatype Bucket = Bucket(Name: string, Versioning: Versioning)

  type ObjectKey = (string, string, string)

  type UploadKey = (string, string, string)

  function KeyOf(o: Object): ObjectKey
  {
    (o.BucketName, o.Name, o.VersionId)
  }

  function UploadKeyOf(m: Multipart): UploadKey
  {
    (m.BucketName, m.ObjectName, m.UploadId)
  }

  // ---------------------------------------------------------------------------
  // Backend state and the writes a transaction stages

  datatype Store = Store(objects: map<ObjectKey, Object>, gc: seq<Object>, usage: map<string, int>,
                         uploads: map<UploadKey, Multipart>, objectParts: map<ObjectKey, map<int, Part>>)

  /** A bucket's usage counter; a bucket without one counts 0. */
  function Usage(st: Store, bucket: string): int
  {
    if bucket in st.usage then st.usage[bucket] else 0
  }

  datatype Write =
    | RemoveObjectRow(key: ObjectKey)
    | PutObjectRow(obj: Object)
    | EnqueueGc(obj: Object)
    | AddUsage(bucket: string, delta: int)
    | RemoveUpload(upload: UploadKey)
    | PutUploadPart(upload: UploadKey, part: Part)
    | MoveObjectParts(from: ObjectKey, to: ObjectKey)
    | MoveObjectRow(from: ObjectKey, obj: Object)

  function Apply(st: Store, w: Write): Store
  {
    match w
    case RemoveObjectRow(k) => st.(objects := st.objects - {k})
    case PutObjectRow(o) => st.(objects := st.objects[KeyOf(o) := o])
    case EnqueueGc(o) => st.(gc := st.gc + [o])
    case AddUsage(b, d) => st.(usage := st.usage[b := Usage(st, b) + d])
    case RemoveUpload(k) => st.(uploads := st.uploads - {k})
    case PutUploadPart(k, p) =>
      if k in st.uploads then
        st.(uploads := st.uploads[k := st.uploads[k].(Parts := st.uploads[k].Parts[p.PartNumber := p])])
      else st
    case MoveObjectParts(src, dst) =>
      if src in st.objectParts then st.(objectParts := (st.objectParts - {src})[dst := st.objectParts[src]])
      else st
    case MoveObjectRow(src, o) =>
      if src in st.objects then
        st.(objects := (st.objects - {src})[KeyOf(o) := st.objects[src].(Name := o.Name)])
      else st
  }

  /** The store after the writes, applied in order. */
  function ApplyWrites(st: Store, ws: seq<Write>): Store
    decreases |ws|
  {
    if ws == [] then st else ApplyWrites(Apply(st, ws[0]), ws[1..])
  }

  // ---------------------------------------------------------------------------
  // Calls

  /** A call on the Client, with its arguments. */
  datatype Call =
    | NewTransCall
    | CommitTransCall
    | AbortTransCall
    | DeleteObjectCall(obj: Object)
    | DeleteVersionedObjectCall(obj: Object)
    | PutObjectToGarbageCollectionCall(obj: Object)
    | UpdateUsageCall(bucket: string, delta: int)
    | AddDeleteMarkerCall(marker: Object, version: string)
    | DeleteMultipartCall(multipart: Multipart)
    | PutObjectPartCall(multipart: Multipart, part: Part)
    | RenameObjectPartCall(obj: Object, source: string)
    | RenameObjectCall(obj: Object, source: string)

  datatype Error =
    | NoSuchBucket
    | NoSuchKey
    | NoSuchUpload
    | InvalidVersioning
    | InternalError
    | Backend(call: Call)

  /** Calls that stage writes on a transaction (all but the transaction's own). */
  predicate IsStatement(c: Call)
  {
    !(c.NewTransCall? || c.CommitTransCall? || c.AbortTransCall?)
  }

  /** The row a delete marker adds: the marker at the given version, flagged. */
  function MarkerRow(marker: Object, version: string): Object
  {
    marker.(VersionId := version, DeleteMarker := true)
  }

  /** The writes a successful statement stages. */
  function Staged(c: Call): seq<Write>
  {
    match c
    case DeleteObjectCall(o) => [RemoveObjectRow(KeyOf(o))]
    case DeleteVersionedObjectCall(o) => [RemoveObjectRow(KeyOf(o))]
    case PutObjectToGarbageCollectionCall(o) => [EnqueueGc(o)]
    case UpdateUsageCall(b, d) => [AddUsage(b, d)]
    case AddDeleteMarkerCall(m, v) => [PutObjectRow(MarkerRow(m, v))]
    case DeleteMultipartCall(m) => [RemoveUpload(UploadKeyOf(m))]
    case PutObjectPartCall(m, p) => [PutUploadPart(UploadKeyOf(m), p)]
    case RenameObjectPartCall(o, src) =>
      [MoveObjectParts((o.BucketName, src, o.VersionId), KeyOf(o))]
    case RenameObjectCall(o, src) => [MoveObjectRow((o.BucketName, src, o.VersionId), o)]
    case _ => []
  }

  /** The writes a run of successful statements stages. */
  function StagedAll(calls: seq<Call>): seq<Write>
    decreases |calls|
  {
    if calls == [] then [] else Staged(calls[0]) + StagedAll(calls[1..])
  }

  /** The error of the first failing call of a run that stops at it. */
  function FirstFault(faults: set<Call>, calls: seq<Call>): (r: Option<Error>)
    ensures r.Some? ==> r.value.Backend? && r.value.call in calls && r.value.call in faults
    decreases |calls|
  {
    if calls == [] then None
    else if calls[0] in faults then Some(Backend(calls[0]))
    else FirstFault(faults, calls[1..])
  }

  /** The calls a run that stops at its first failure makes: up to and including it. */
  function Issued(faults: set<Call>, calls: seq<Call>): seq<Call>
    decreases |calls|
  {
    if calls == [] then []
    else if calls[0] in faults then [calls[0]]
    else [calls[0]] + Issued(faults, calls[1..])
  }

  /** A run none of whose calls fails reports no error and issues every call. */
  lemma {:induction false} FirstFaultNone(faults: set<Call>, calls: seq<Call>)
    ensures FirstFault(faults, calls) == None <==> forall i :: 0 <= i < |calls| ==> calls[i] !in faults
    ensures FirstFault(faults, calls) == None ==> Issued(faults, calls) == calls
    decreases |calls|
  {
    if calls != [] {
      FirstFaultNone(faults, calls[1..]);
      if calls[0] !in faults && FirstFault(faults, calls) == None {
        forall i | 0 <= i < |calls| ensures calls[i] !in faults {
          if i > 0 { assert calls[i] == calls[1..][i - 1]; }
        }
      }
      if forall i :: 0 <= i < |calls| ==> calls[i] !in faults {
        forall i | 0 <= i < |calls[1..]| ensures calls[1..][i] !in faults {
          assert calls[1..][i] == calls[i + 1];
        }
      }
    }
  }

  /** A run whose first failing call is at `k` reports that call's error and issues the
      calls up to and including it, and nothing after. */
  lemma {:induction false} FirstFaultAt(faults: set<Call>, calls: seq<Call>, k: nat)
    requires k < |calls| && calls[k] in faults
    requires forall i :: 0 <= i < k ==> calls[i] !in faults
    ensures FirstFault(faults, calls) == Some(Backend(calls[k]))
    ensures Issued(faults, calls) == calls[..k + 1]
    decreases k
  {
    if k == 0 {
      assert calls[..1] == [calls[0]];
    } else {
      assert calls[0] !in faults;
      forall i | 0 <= i < k - 1 ensures calls[1..][i] !in faults {
        assert calls[1..][i] == calls[i + 1];
      }
      assert calls[1..][k - 1] == calls[k];
      FirstFaultAt(faults, calls[1..], k - 1);
      assert calls[..k + 1] == [calls[0]] + calls[1..][..k];
    }
  }

  /** A run of two parts fails in the first part, or else wherever the second one does. */
  lemma {:induction false} FirstFaultAppend(faults: set<Call>, a: seq<Call>, b: seq<Call>)
    ensures FirstFault(faults, a + b) ==
      (if FirstFault(faults, a) != None then FirstFault(faults, a) else FirstFault(faults, b))
    ensures Issued(faults, a + b) ==
      (if FirstFault(faults, a) != None then Issued(faults, a) else Issued(faults, a) + Issued(faults, b))
    decreases |a|
  {
    if a == [] {
      assert a + b == b;
    } else {
      assert (a + b)[0] == a[0] && (a + b)[1..] == a[1..] + b;
      FirstFaultAppend(faults, a[1..], b);
    }
  }

  lemma FirstFaultSingle(faults: set<Call>, c: Call)
    ensures FirstFault(faults, [c]) == (if c in faults then Some(Backend(c)) else None)
    ensures Issued(faults, [c]) == [c]
  {
    assert [c][1..] == [];
  }

  /** A run that opens a transaction first fails at NewTrans or else wherever `steps` does. */
  lemma TransactionStart(faults: set<Call>, steps: seq<Call>)
    ensures FirstFault(faults, [NewTransCall] + steps) ==
      (if NewTransCall in faults then Some(Backend(NewTransCall)) else FirstFault(faults, steps))
    ensures Issued(faults, [NewTransCall] + steps) ==
      (if NewTransCall in faults then [NewTransCall] else [NewTransCall] + Issued(faults, steps))
  {
    FirstFaultAppend(faults, [NewTransCall], steps);
    FirstFaultSingle(faults, NewTransCall);
  }

  /** A transaction of `steps` that commits at the end fails at NewTrans, at its first
      failing step or at the commit, and issues the calls up to there. */
  lemma TransactionRun(faults: set<Call>, steps: seq<Call>)
    ensures var calls := [NewTransCall] + steps + [CommitTransCall];
      && FirstFault(faults, calls) ==
        (if NewTransCall in faults then Some(Backend(NewTransCall))
         else if FirstFault(faults, steps) != None then FirstFault(faults, steps)
         else if CommitTransCall in faults then Some(Backend(CommitTransCall)) else None)
      && Issued(faults, calls) ==
        (if NewTransCall in faults then [NewTransCall]
         else if FirstFault(faults, steps) != None then [NewTransCall] + Issued(faults, steps)
         else [NewTransCall] + Issued(faults, steps) + [CommitTransCall])
  {
    assert [NewTransCall] + steps + [CommitTransCall] == [NewTransCall] + (steps + [CommitTransCall]);
    TransactionStart(faults, steps + [CommitTransCall]);
    FirstFaultAppend(faults, steps, [CommitTransCall]);
    FirstFaultSingle(faults, CommitTransCall);
  }

  /** The log of a transaction that opened: NewTrans, the steps up to the first failure, the
      commit when no step failed, and an abort after any failure. */
  lemma TransactionLog(faults: set<Call>, steps: seq<Call>, log0: seq<Call>, err: Option<Error>)
    requires NewTransCall !in faults
    requires err == (if FirstFault(faults, steps) != None then FirstFault(faults, steps)
                     else if CommitTransCall in faults then Some(Backend(CommitTransCall)) else None)
    ensures log0 + [NewTransCall] + Issued(faults, steps)
              + (if FirstFault(faults, steps) == None then [CommitTransCall] else [])
              + (if err != None then [AbortTransCall] else [])
         == log0 + Issued(faults, [NewTransCall] + steps + [CommitTransCall])
              + (if err == None || err == Some(Backend(NewTransCall)) then [] else [AbortTransCall])
  {
    TransactionRun(faults, steps);
    var issued := Issued(faults, steps);
    SeqAssoc(log0, [NewTransCall], issued);
    if FirstFault(faults, steps) != None {
      assert FirstFault(faults, steps).value.call in faults;
      assert log0 + [NewTransCall] + issued + [] == log0 + [NewTransCall] + issued;
    } else {
      SeqAssoc(log0, [NewTransCall] + issued, [CommitTransCall]);
      if err == None {
        assert log0 + [NewTransCall] + issued + [CommitTransCall] + []
            == log0 + [NewTransCall] + issued + [CommitTransCall];
      }
    }
  }

  /** Two writes applied in order. */
  lemma ApplyPair(st: Store, w1: Write, w2: Write)
    ensures ApplyWrites(st, [w1] + [w2]) == Apply(Apply(st, w1), w2)
  {
    var ws := [w1] + [w2];
    var st1 := Apply(st, w1);
    assert ws != [] && ws[0] == w1 && ws[1..] == [w2];
    assert ApplyWrites(st, ws) == ApplyWrites(st1, [w2]);
    assert [w2] != [] && [w2][0] == w2 && [w2][1..] == [];
    assert ApplyWrites(st1, [w2]) == ApplyWrites(Apply(st1, w2), []);
  }

  /** A usage change moves only its own bucket's counter, and touches nothing else. */
  lemma UsageAfter(st: Store, b: string, d: int)
    ensures var st' := Apply(st, AddUsage(b, d));
      && Usage(st', b) == Usage(st, b) + d
      && (forall other :: other != b ==> Usage(st', other) == Usage(st, other))
      && st'.objects == st.objects && st'.gc == st.gc && st'.uploads == st.uploads
      && st'.objectParts == st.objectParts
  {
  }

  /** The deferred AbortTrans: made after any failure once the transaction exists. */
  function AbortAfter(err: Option<Error>): seq<Call>
  {
    if err == None || err == Some(Backend(NewTransCall)) then [] else [AbortTransCall]
  }

  // ---------------------------------------------------------------------------
  // The client

  /** An open transaction: the writes staged so far. */
  class Tx {
    var writes: seq<Write>

    constructor ()
      ensures writes == []
    {
      writes := [];
    }
  }

  class Client {
    var store: Store
    const faults: set<Call>
    var log: seq<Call>

    constructor (store: Store, faults: set<Call>)
      ensures this.store == store && this.faults == faults && log == []
    {
      this.store := store;
      this.faults := faults;
      log := [];
    }

    method NewTrans() returns (tx: Tx?, err: Option<Error>)
      modifies this
      ensures log == old(log) + [NewTransCall] && store == old(store)
      ensures err == (if NewTransCall in faults then Some(Backend(NewTransCall)) else None)
      ensures err == None <==> tx != null
      ensures tx != null ==> fresh(tx) && tx.writes == []
    {
      log := log + [NewTransCall];
      if NewTransCall in faults {
        tx, err := null, Some(Backend(NewTransCall));
      } else {
        tx := new Tx();
        err := None;
      }
    }

    /** A statement: on a transaction it stages its writes, outside one (a nil handle) it
        applies them at once; a failing statement changes nothing. */
    method Invoke(c: Call, tx: Tx?) returns (err: Option<Error>)
      requires IsStatement(c)
      modifies this, tx
      ensures log == old(log) + [c]
      ensures err == (if c in faults then Some(Backend(c)) else None)
      ensures tx != null ==> store == old(store) && tx.writes == old(tx.writes) + (if err == None then Staged(c) else [])
      ensures tx == null ==> store == (if err == None then ApplyWrites(old(store), Staged(c)) else old(store))
    {
      log := log + [c];
      if c in faults {
        err := Some(Backend(c));
      } else {
        err := None;
        if tx != null {
          tx.writes := tx.writes + Staged(c);
        } else {
          store := ApplyWrites(store, Staged(c));
        }
      }
    }

    /** All staged writes reach the store together, or none do. */
    method CommitTrans(tx: Tx) returns (err: Option<Error>)
      modifies this, tx
      ensures log == old(log) + [CommitTransCall]
      ensures err == (if CommitTransCall in faults then Some(Backend(CommitTransCall)) else None)
      ensures store == (if err == None then ApplyWrites(old(store), old(tx.writes)) else old(store))
      ensures tx.writes == []
    {
      log := log + [CommitTransCall];
      if CommitTransCall in faults {
        err := Some(Backend(CommitTransCall));
      } else {
        store := ApplyWrites(store, tx.writes);
        err := None;
      }
      tx.writes := [];
    }

    method AbortTrans(tx: Tx)
      modifies this, tx
      ensures log == old(log) + [AbortTransCall] && store == old(store) && tx.writes == []
    {
      log := log + [AbortTransCall];
      tx.writes := [];
    }

    /** The upload with the given key, a missing one being NoSuchUpload. */
    function GetMultipart(bucketName: string, objectName: string, uploadId: string): (r: Result<Multipart, Error>)
      reads this
      ensures r.Ok? <==> (bucketName, objectName, uploadId) in store.uploads
      ensures r.Ok? ==> r.value == store.uploads[(bucketName, objectName, uploadId)]
    {
      var k := (bucketName, objectName, uploadId);
      if k in store.uploads then Ok(store.uploads[k]) else Err(NoSuchUpload)
    }
  }

  /** A transaction of statements that reaches its commit: what it stages is what its calls
      stage, in order. */
  lemma StagedAllCons(c: Call, rest: seq<Call>)
    ensures StagedAll([c] + rest) == Staged(c) + StagedAll(rest)
  {
    assert ([c] + rest)[1..] == rest;
  }

  /** The end of a transaction whose result is named: the final commit when nothing has
      failed, then the deferred abort when something has (the commit included). */
  method CommitOrAbort(client: Client, tx: Tx, failed: Option<Error>) returns (err: Option<Error>)
    modifies client, tx
    ensures err == (if failed != None then failed
                    else if CommitTransCall in client.faults then Some(Backend(CommitTransCall)) else None)
    ensures client.store == (if err == None then ApplyWrites(old(client.store), old(tx.writes)) else old(client.store))
    ensures client.log == old(client.log) + (if failed == None then [CommitTransCall] else [])
                          + (if err != None then [AbortTransCall] else [])
  {
    err := failed;
    if err == None {
      err := client.CommitTrans(tx);
    }
    if err != None {
      client.AbortTrans(tx);
    }
  }

  /** Two statements fail at the first, or else wherever the second does. */
  lemma TwoSteps(faults: set<Call>, s1: Call, s2: Call)
    ensures FirstFault(faults, [s1, s2]) ==
      (if s1 in faults then Some(Backend(s1)) else if s2 in faults then Some(Backend(s2)) else None)
    ensures Issued(faults, [s1, s2]) == (if s1 in faults then [s1] else [s1, s2])
  {
    assert [s1, s2] == [s1] + [s2];
    FirstFaultAppend(faults, [s1], [s2]);
    FirstFaultSingle(faults, s1);
    FirstFaultSingle(faults, s2);
  }

  /** What a two-statement staging step ensures: the two statements up to the first failure,
      logged, with their writes staged only when both succeed, and the store untouched. */
  ghost predicate StagedPair(client: Client, tx: Tx, s1: Call, s2: Call, err: Option<Error>,
                             log0: seq<Call>, writes0: seq<Write>, store0: Store)
    reads client, tx
  {
    && err == FirstFault(client.faults, [s1, s2])
    && client.log == log0 + Issued(client.faults, [s1, s2])
    && client.store == store0
    && (err == None ==> tx.writes == writes0 + Staged(s1) + Staged(s2))
  }

  /** Two statements on a transaction, the second only when the first succeeded. */
  method StageTwo(client: Client, tx: Tx, s1: Call, s2: Call) returns (err: Option<Error>)
    requires IsStatement(s1) && IsStatement(s2)
    modifies client, tx
    ensures StagedPair(client, tx, s1, s2, err, old(client.log), old(tx.writes), old(client.store))
  {
    TwoSteps(client.faults, s1, s2);
    ghost var log0 := client.log;
    err := client.Invoke(s1, tx);
    if err != None {
      return;
    }
    err := client.Invoke(s2, tx);
    SeqAssoc(log0, [s1], [s2]);
  }
}
