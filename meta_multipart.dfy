/** meta/multipart.go: multipart uploads and their share of the bucket's usage counter.
    Each operation is one transaction of two statements on the Client followed by an
    explicit commit; the deferred block only aborts, after any failure (the commit's
    included), and the failure is returned. */
module MetaMultipart {

  import opened Wrappers
  import opened MetaClient

  // ---------------------------------------------------------------------------
  // Part sizes

  /** The total size of the parts, in no particular order. */
  ghost function SumSizes(parts: map<int, Part>): int
    decreases |parts|
  {
    if parts == map[] then 0
    else
      HasKey(parts);
      var k :| k in parts;
      parts[k].Size + SumSizes(parts - {k})
  }

  lemma HasKey<V>(m: map<int, V>)
    requires m != map[]
    ensures exists k :: k in m
  {
    if forall k :: k !in m {
      assert false;
    }
  }

  lemma SumSizesEmpty() ensures SumSizes(map[]) == 0 { }

  /** Any part can be taken out of the total first: the total does not depend on the order
      in which Go's range visits the map. */
  lemma {:induction false} SumSizesRemove(parts: map<int, Part>, k: int)
    requires k in parts
    ensures SumSizes(parts) == parts[k].Size + SumSizes(parts - {k})
    decreases |parts|
  {
    var j :| j in parts && SumSizes(parts) == parts[j].Size + SumSizes(parts - {j});
    if j != k {
      SumSizesRemove(parts - {j}, k);
      SumSizesRemove(parts - {k}, j);
      assert parts - {j} - {k} == parts - {k} - {j};
    }
  }

  /** The size of the part a re-upload replaces: that part number's current size, 0 when
      the part is new. */
  function ReplacedSize(parts: map<int, Part>, n: int): (r: int)
    ensures n !in parts ==> r == 0
  {
    if n in parts then parts[n].Size else 0
  }

  /** What uploading `part` adds to the usage: its size less the size of the part it
      replaces. */
  function PartDelta(parts: map<int, Part>, part: Part): int
  {
    part.Size - ReplacedSize(parts, part.PartNumber)
  }

  /** The delta keeps the usage equal to the parts' total: adding it to the old total gives
      the total after the part is stored (a new part adds its size, a re-upload the
      difference). */
  lemma PartDeltaTracksTotal(parts: map<int, Part>, part: Part)
    ensures SumSizes(parts) + PartDelta(parts, part) == SumSizes(parts[part.PartNumber := part])
  {
    var n := part.PartNumber;
    var updated := parts[n := part];
    SumSizesRemove(updated, n);
    if n in parts {
      SumSizesRemove(parts, n);
      assert updated - {n} == parts - {n};
    } else {
      assert updated - {n} == parts;
    }
  }

  /** The parts after uploading `ps` in order. */
  function Reuploaded(parts: map<int, Part>, ps: seq<Part>): map<int, Part>
    decreases |ps|
  {
    if ps == [] then parts else Reuploaded(parts[ps[0].PartNumber := ps[0]], ps[1..])
  }

  /** The usage changes PutObjectPart makes for the uploads `ps`, each given the parts as
      the previous uploads left them. */
  function DeltaTotal(parts: map<int, Part>, ps: seq<Part>): int
    decreases |ps|
  {
    if ps == [] then 0
    else PartDelta(parts, ps[0]) + DeltaTotal(parts[ps[0].PartNumber := ps[0]], ps[1..])
  }

  /** Over any run of uploads the usage changes by exactly what the parts' total does. */
  lemma {:induction false} DeltaTotalTracksTotal(parts: map<int, Part>, ps: seq<Part>)
    ensures DeltaTotal(parts, ps) == SumSizes(Reuploaded(parts, ps)) - SumSizes(parts)
    decreases |ps|
  {
    if ps != [] {
      PartDeltaTracksTotal(parts, ps[0]);
      DeltaTotalTracksTotal(parts[ps[0].PartNumber := ps[0]], ps[1..]);
    }
  }

  /** Uploading the same part number again and again changes the usage by the last size
      less the size the part had before the first of them; for a new part, by the last
      size. */
  lemma {:induction false} RepeatedUploadsNet(parts: map<int, Part>, ps: seq<Part>, n: int)
    requires |ps| > 0
    requires forall i :: 0 <= i < |ps| ==> ps[i].PartNumber == n
    ensures DeltaTotal(parts, ps) == ps[|ps| - 1].Size - ReplacedSize(parts, n)
    decreases |ps|
  {
    if |ps| > 1 {
      var parts' := parts[n := ps[0]];
      assert forall i :: 0 <= i < |ps[1..]| ==> ps[1..][i].PartNumber == n by {
        forall i | 0 <= i < |ps[1..]| ensures ps[1..][i].PartNumber == n {
          assert ps[1..][i] == ps[i + 1];
        }
      }
      RepeatedUploadsNet(parts', ps[1..], n);
      assert ps[1..][|ps[1..]| - 1] == ps[|ps| - 1];
    } else {
      assert ps[1..] == [];
    }
  }

  /** The loop that adds up the sizes of the parts, visiting them in any order. */
  method RemovedSize(parts: map<int, Part>) returns (total: int)
    ensures total == SumSizes(parts)
  {
    total := 0;
    var rest := parts;
    while rest != map[]
      invariant total + SumSizes(rest) == SumSizes(parts)
      decreases |rest|
    {
      var k :| k in rest;
      SumSizesRemove(rest, k);
      total := total + rest[k].Size;
      rest := rest - {k};
    }
  }

  // ---------------------------------------------------------------------------
  // Transactions of two statements

  /** The calls of a two-statement transaction when nothing fails. */
  function TransactionCalls(s1: Call, s2: Call): seq<Call>
  {
    [NewTransCall] + [s1, s2] + [CommitTransCall]
  }

  /** A failing first statement is the last call before the abort: the second statement
      (the usage change) is never made, and the failure is returned. */
  lemma FirstStatementFails(faults: set<Call>, s1: Call, s2: Call)
    requires NewTransCall !in faults && s1 in faults
    ensures FirstFault(faults, TransactionCalls(s1, s2)) == Some(Backend(s1))
    ensures Issued(faults, TransactionCalls(s1, s2)) == [NewTransCall, s1]
    ensures AbortAfter(FirstFault(faults, TransactionCalls(s1, s2))) == [AbortTransCall]
  {
    FirstFaultAt(faults, TransactionCalls(s1, s2), 1);
  }

  /** The commit is made only after both statements succeeded; when it fails its error is
      returned and the transaction aborted. */
  lemma CommitFails(faults: set<Call>, s1: Call, s2: Call)
    requires NewTransCall !in faults && s1 !in faults && s2 !in faults && CommitTransCall in faults
    ensures FirstFault(faults, TransactionCalls(s1, s2)) == Some(Backend(CommitTransCall))
    ensures Issued(faults, TransactionCalls(s1, s2)) == [NewTransCall, s1, s2, CommitTransCall]
    ensures AbortAfter(FirstFault(faults, TransactionCalls(s1, s2))) == [AbortTransCall]
  {
    var calls := TransactionCalls(s1, s2);
    assert calls == [NewTransCall, s1, s2, CommitTransCall];
    FirstFaultAt(faults, calls, 3);
  }

  // ---------------------------------------------------------------------------
  // The operations

  /** GetMultipart: the upload with that key, NoSuchUpload when there is none. */
  function GetMultipart(client: Client, bucketName: string, objectName: string, uploadId: string)
    : (r: Result<Multipart, Error>)
    reads client
    ensures r.Ok? <==> (bucketName, objectName, uploadId) in client.store.uploads
    ensures r.Ok? ==> r.value == client.store.uploads[(bucketName, objectName, uploadId)]
    ensures r.Err? ==> r.error == NoSuchUpload
  {
    client.GetMultipart(bucketName, objectName, uploadId)
  }

  /** The second statement of DeleteMultipart, after DeleteMultipartCall: take the parts'
      total off the bucket's usage. */
  ghost function RemovalUsage(multipart: Multipart): Call
  {
    UpdateUsageCall(multipart.BucketName, -SumSizes(multipart.Parts))
  }

  /** DeleteMultipart from removing the upload to the usage change; the loop over the parts
      runs once the removal succeeded. */
  method StageDeleteMultipart(client: Client, tx: Tx, multipart: Multipart) returns (err: Option<Error>)
    modifies client, tx
    ensures StagedPair(client, tx, DeleteMultipartCall(multipart), RemovalUsage(multipart), err, old(client.log), old(tx.writes), old(client.store))
  {
    TwoSteps(client.faults, DeleteMultipartCall(multipart), RemovalUsage(multipart));
    ghost var log0 := client.log;
    err := client.Invoke(DeleteMultipartCall(multipart), tx);
    if err != None {
      return;
    }
    var removedSize := RemovedSize(multipart.Parts);
    err := client.Invoke(UpdateUsageCall(multipart.BucketName, -removedSize), tx);
    SeqAssoc(log0, [DeleteMultipartCall(multipart)], [RemovalUsage(multipart)]);
  }

  method DeleteMultipart(client: Client, multipart: Multipart) returns (err: Option<Error>)
    modifies client
    ensures var s1, s2 := DeleteMultipartCall(multipart), RemovalUsage(multipart);
      && err == FirstFault(client.faults, TransactionCalls(s1, s2))
      && client.store == (if err == None then ApplyWrites(old(client.store), Staged(s1) + Staged(s2))
                          else old(client.store))
      && client.log == old(client.log) + Issued(client.faults, TransactionCalls(s1, s2)) + AbortAfter(err)
  {
    ghost var s1, s2 := DeleteMultipartCall(multipart), RemovalUsage(multipart);
    TransactionRun(client.faults, [s1, s2]);
    var tx;
    tx, err := client.NewTrans();
    if err != None {
      return;
    }
    err := StageDeleteMultipart(client, tx, multipart);
    err := CommitOrAbort(client, tx, err);
    TransactionLog(client.faults, [s1, s2], old(client.log), err);
  }

  /** A committed DeleteMultipart removes the upload and lowers its bucket's usage by the
      total size of the parts it was given (nothing for an upload without parts). */
  lemma DeleteMultipartEffect(st: Store, multipart: Multipart)
    ensures var st' := ApplyWrites(st, Staged(DeleteMultipartCall(multipart)) + Staged(RemovalUsage(multipart)));
      var b := multipart.BucketName;
      && st'.uploads == st.uploads - {UploadKeyOf(multipart)}
      && Usage(st', b) == Usage(st, b) - SumSizes(multipart.Parts)
      && (multipart.Parts == map[] ==> Usage(st', b) == Usage(st, b))
      && (forall other :: other != b ==> Usage(st', other) == Usage(st, other))
      && st'.objects == st.objects && st'.gc == st.gc && st'.objectParts == st.objectParts
  {
    var d := -SumSizes(multipart.Parts);
    var w1, w2 := RemoveUpload(UploadKeyOf(multipart)), AddUsage(multipart.BucketName, d);
    assert Staged(DeleteMultipartCall(multipart)) + Staged(RemovalUsage(multipart)) == [w1] + [w2];
    ApplyPair(st, w1, w2);
    var st1 := st.(uploads := st.uploads - {UploadKeyOf(multipart)});
    assert Apply(st, w1) == st1;
    UsageAfter(st1, multipart.BucketName, d);
    SumSizesEmpty();
  }

  /** GetMultipart after a committed DeleteMultipart: that upload is gone, and every other
      upload reads as before. */
  lemma GetAfterDeleteMultipart(client: Client, st: Store, multipart: Multipart,
                                bucketName: string, objectName: string, uploadId: string)
    requires client.store == ApplyWrites(st, Staged(DeleteMultipartCall(multipart)) + Staged(RemovalUsage(multipart)))
    ensures GetMultipart(client, multipart.BucketName, multipart.ObjectName, multipart.UploadId) == Err(NoSuchUpload)
    ensures (bucketName, objectName, uploadId) != UploadKeyOf(multipart) ==>
      GetMultipart(client, bucketName, objectName, uploadId) ==
        (if (bucketName, objectName, uploadId) in st.uploads then Ok(st.uploads[(bucketName, objectName, uploadId)])
         else Err(NoSuchUpload))
  {
    DeleteMultipartEffect(st, multipart);
  }

  /** The second statement of PutObjectPart, after PutObjectPartCall: change the usage by
      the part's delta. */
  function PartUsage(multipart: Multipart, part: Part): Call
  {
    UpdateUsageCall(multipart.BucketName, PartDelta(multipart.Parts, part))
  }

  /** PutObjectPart from storing the part to the usage change, which is made even when the
      delta is 0. */
  method StagePutObjectPart(client: Client, tx: Tx, multipart: Multipart, part: Part) returns (err: Option<Error>)
    modifies client, tx
    ensures StagedPair(client, tx, PutObjectPartCall(multipart, part), PartUsage(multipart, part), err, old(client.log), old(tx.writes), old(client.store))
  {
    TwoSteps(client.faults, PutObjectPartCall(multipart, part), PartUsage(multipart, part));
    ghost var log0 := client.log;
    err := client.Invoke(PutObjectPartCall(multipart, part), tx);
    if err != None {
      return;
    }
    var removedSize := 0;
    if part.PartNumber in multipart.Parts {
      removedSize := removedSize + multipart.Parts[part.PartNumber].Size;
    }
    err := client.Invoke(UpdateUsageCall(multipart.BucketName, part.Size - removedSize), tx);
    SeqAssoc(log0, [PutObjectPartCall(multipart, part)], [PartUsage(multipart, part)]);
  }

  method PutObjectPart(client: Client, multipart: Multipart, part: Part) returns (err: Option<Error>)
    modifies client
    ensures var s1, s2 := PutObjectPartCall(multipart, part), PartUsage(multipart, part);
      && err == FirstFault(client.faults, TransactionCalls(s1, s2))
      && client.store == (if err == None then ApplyWrites(old(client.store), Staged(s1) + Staged(s2))
                          else old(client.store))
      && client.log == old(client.log) + Issued(client.faults, TransactionCalls(s1, s2)) + AbortAfter(err)
  {
    ghost var s1, s2 := PutObjectPartCall(multipart, part), PartUsage(multipart, part);
    TransactionRun(client.faults, [s1, s2]);
    var tx;
    tx, err := client.NewTrans();
    if err != None {
      return;
    }
    err := StagePutObjectPart(client, tx, multipart, part);
    err := CommitOrAbort(client, tx, err);
    TransactionLog(client.faults, [s1, s2], old(client.log), err);
  }

  /** A committed PutObjectPart stores the part in the upload and changes the bucket's usage
      by its delta, zero included. */
  lemma PutObjectPartEffect(st: Store, multipart: Multipart, part: Part)
    requires UploadKeyOf(multipart) in st.uploads
    ensures var st' := ApplyWrites(st, Staged(PutObjectPartCall(multipart, part)) + Staged(PartUsage(multipart, part)));
      var k, b := UploadKeyOf(multipart), multipart.BucketName;
      && st'.uploads == st.uploads[k := st.uploads[k].(Parts := st.uploads[k].Parts[part.PartNumber := part])]
      && Usage(st', b) == Usage(st, b) + PartDelta(multipart.Parts, part)
      && (forall other :: other != b ==> Usage(st', other) == Usage(st, other))
      && st'.objects == st.objects && st'.gc == st.gc && st'.objectParts == st.objectParts
  {
    var d, k := PartDelta(multipart.Parts, part), UploadKeyOf(multipart);
    var w1, w2 := PutUploadPart(k, part), AddUsage(multipart.BucketName, d);
    assert Staged(PutObjectPartCall(multipart, part)) + Staged(PartUsage(multipart, part)) == [w1] + [w2];
    ApplyPair(st, w1, w2);
    var st1 := st.(uploads := st.uploads[k := st.uploads[k].(Parts := st.uploads[k].Parts[part.PartNumber := part])]);
    assert Apply(st, w1) == st1;
    UsageAfter(st1, multipart.BucketName, d);
  }

  /** Given the upload as stored, a committed PutObjectPart keeps the bucket's usage less the
      upload's parts total as it was: every byte of a part is counted once, however often
      the part is re-uploaded. */
  lemma PutObjectPartKeepsBalance(st: Store, multipart: Multipart, part: Part)
    requires UploadKeyOf(multipart) in st.uploads && st.uploads[UploadKeyOf(multipart)] == multipart
    ensures var st' := ApplyWrites(st, Staged(PutObjectPartCall(multipart, part)) + Staged(PartUsage(multipart, part)));
      var k, b := UploadKeyOf(multipart), multipart.BucketName;
      && k in st'.uploads && st'.uploads[k].Parts == multipart.Parts[part.PartNumber := part]
      && Usage(st', b) - SumSizes(st'.uploads[k].Parts) == Usage(st, b) - SumSizes(multipart.Parts)
  {
    PutObjectPartEffect(st, multipart, part);
    PartDeltaTracksTotal(multipart.Parts, part);
  }

  /** GetMultipart after a committed PutObjectPart on a stored upload: the upload holds the
      new part under its number, and its other parts as they were. */
  lemma GetAfterPutObjectPart(client: Client, st: Store, multipart: Multipart, part: Part)
    requires UploadKeyOf(multipart) in st.uploads
    requires client.store == ApplyWrites(st, Staged(PutObjectPartCall(multipart, part)) + Staged(PartUsage(multipart, part)))
    ensures var r := GetMultipart(client, multipart.BucketName, multipart.ObjectName, multipart.UploadId);
      && r.Ok? && part.PartNumber in r.value.Parts && r.value.Parts[part.PartNumber] == part
      && r.value.Parts == st.uploads[UploadKeyOf(multipart)].Parts[part.PartNumber := part]
  {
    PutObjectPartEffect(st, multipart, part);
  }

  /** The two statements of RenameObjectPart: the parts first, then the object row. */
  method StageRename(client: Client, tx: Tx, obj: Object, sourceObject: string) returns (err: Option<Error>)
    modifies client, tx
    ensures StagedPair(client, tx, RenameObjectPartCall(obj, sourceObject), RenameObjectCall(obj, sourceObject), err, old(client.log), old(tx.writes), old(client.store))
  {
    TwoSteps(client.faults, RenameObjectPartCall(obj, sourceObject), RenameObjectCall(obj, sourceObject));
    ghost var log0 := client.log;
    err := client.Invoke(RenameObjectPartCall(obj, sourceObject), tx);
    if err != None {
      return;
    }
    err := client.Invoke(RenameObjectCall(obj, sourceObject), tx);
    SeqAssoc(log0, [RenameObjectPartCall(obj, sourceObject)], [RenameObjectCall(obj, sourceObject)]);
  }

  method RenameObjectPart(client: Client, obj: Object, sourceObject: string) returns (err: Option<Error>)
    modifies client
    ensures var s1, s2 := RenameObjectPartCall(obj, sourceObject), RenameObjectCall(obj, sourceObject);
      && err == FirstFault(client.faults, TransactionCalls(s1, s2))
      && client.store == (if err == None then ApplyWrites(old(client.store), Staged(s1) + Staged(s2))
                          else old(client.store))
      && client.log == old(client.log) + Issued(client.faults, TransactionCalls(s1, s2)) + AbortAfter(err)
  {
    ghost var s1, s2 := RenameObjectPartCall(obj, sourceObject), RenameObjectCall(obj, sourceObject);
    TransactionRun(client.faults, [s1, s2]);
    var tx;
    tx, err := client.NewTrans();
    if err != None {
      return err;
    }
    err := StageRename(client, tx, obj, sourceObject);
    err := CommitOrAbort(client, tx, err);
    TransactionLog(client.faults, [s1, s2], old(client.log), err);
  }

  /** The source key of a rename: the source name at the object's bucket and version. */
  function SourceKey(obj: Object, sourceObject: string): ObjectKey
  {
    (obj.BucketName, sourceObject, obj.VersionId)
  }

  /** A committed rename moves the parts and the object row from the source key to the
      object's key together, the row taking the new name. */
  lemma RenameEffect(st: Store, obj: Object, sourceObject: string)
    requires SourceKey(obj, sourceObject) in st.objects && SourceKey(obj, sourceObject) in st.objectParts
    ensures var s1, s2 := RenameObjectPartCall(obj, sourceObject), RenameObjectCall(obj, sourceObject);
      var st' := ApplyWrites(st, Staged(s1) + Staged(s2));
      var src := SourceKey(obj, sourceObject);
      && st'.objectParts == (st.objectParts - {src})[KeyOf(obj) := st.objectParts[src]]
      && st'.objects == (st.objects - {src})[KeyOf(obj) := st.objects[src].(Name := obj.Name)]
      && st'.gc == st.gc && st'.usage == st.usage && st'.uploads == st.uploads
  {
    var src := SourceKey(obj, sourceObject);
    var w1, w2 := MoveObjectParts(src, KeyOf(obj)), MoveObjectRow(src, obj);
    assert Staged(RenameObjectPartCall(obj, sourceObject)) + Staged(RenameObjectCall(obj, sourceObject)) == [w1] + [w2];
    ApplyPair(st, w1, w2);
    var st1 := st.(objectParts := (st.objectParts - {src})[KeyOf(obj) := st.objectParts[src]]);
    assert Apply(st, w1) == st1;
    assert st1.objects == st.objects;
  }

  /** Moving an entry to a free key and back, restoring its value, leaves the map as it was. */
  lemma MoveBack<K, V>(m: map<K, V>, src: K, dst: K, v: V)
    requires src in m && dst !in m
    ensures ((m - {src})[dst := v] - {dst})[src := m[src]] == m
  {
    var m' := ((m - {src})[dst := v] - {dst})[src := m[src]];
    assert m'.Keys == m.Keys;
    forall k | k in m ensures m'[k] == m[k] { }
  }

  /** Renaming back undoes a rename onto a free key: the parts and the row are where and
      what they were. */
  lemma RenameRoundTrip(st: Store, obj: Object, sourceObject: string)
    requires SourceKey(obj, sourceObject) in st.objects && SourceKey(obj, sourceObject) in st.objectParts
    requires KeyOf(obj) !in st.objects && KeyOf(obj) !in st.objectParts
    requires st.objects[SourceKey(obj, sourceObject)].Name == sourceObject
    ensures var s1, s2 := RenameObjectPartCall(obj, sourceObject), RenameObjectCall(obj, sourceObject);
      var back := obj.(Name := sourceObject);
      var t1, t2 := RenameObjectPartCall(back, obj.Name), RenameObjectCall(back, obj.Name);
      ApplyWrites(ApplyWrites(st, Staged(s1) + Staged(s2)), Staged(t1) + Staged(t2)) == st
  {
    var src, dst := SourceKey(obj, sourceObject), KeyOf(obj);
    var back := obj.(Name := sourceObject);
    RenameEffect(st, obj, sourceObject);
    var st' := ApplyWrites(st, Staged(RenameObjectPartCall(obj, sourceObject)) + Staged(RenameObjectCall(obj, sourceObject)));
    assert SourceKey(back, obj.Name) == dst && KeyOf(back) == src;
    RenameEffect(st', back, obj.Name);
    MoveBack(st.objectParts, src, dst, st.objectParts[src]);
    var row := st.objects[src];
    assert row.(Name := obj.Name).(Name := sourceObject) == row;
    MoveBack(st.objects, src, dst, row.(Name := obj.Name));
  }
}
