# yig metadata core in Dafny

This project models the metadata bookkeeping of the yig S3 gateway and proves properties of it:

- **Object lifecycle** (`MetaObject`):
  - cached object lookups with their name check;
  - the versioning dispatch of `PutObject` and `AppendObject`;
  - the transactional deletes `DeleteObject`, `DeleteVersionedObject` and `DeleteSuspendedObject`, and `AddDeleteMarker`.
- **Multipart usage accounting** (`MetaMultipart`):
  - what `DeleteMultipart` and `PutObjectPart` do to a bucket's usage counter;
  - the two-statement transaction of `RenameObjectPart`;
  - `GetMultipart`, read back after a delete or a part upload.
- **The metadata client** (`MetaClient`), which the two modules above drive. It is modelled as state:
  - an object table keyed by (bucket, name, version);
  - an upload table;
  - a per-object parts table;
  - a garbage-collection queue;
  - a per-bucket usage map;
  - transactions whose staged writes reach the store together at commit, or are dropped at abort.

  Which calls fail is a parameter: a set of calls, each of which fails and stages nothing. The client keeps a log of the calls made, so the contracts can say which calls an operation issues, in what order, and that an abort follows a failure.
- **QoS** (`MetaQos`):
  - resolution from bucket to user to limit, with defaults;
  - fail-open query checks;
  - the limiter keys for each direction;
  - the snapshot sync loop;
  - the bandwidth wait loop and the throttled `Read`.

  The Redis limiter is an oracle function.
- **Request helpers** (`ApiUtils`):
  - bucket-name validation, with each regular expression written out as a character-class predicate;
  - `contains`.
- **TiKV batch helpers** (`TikvClient`):
  - `TxPut`, `TxDelete` and `Scan` over a transactional key-value store;
  - the table prefixes, separator and key-range suffix.
- **Restore SQL builder** (`Freezer`): `GetUpdateSql`, with the statement rendered from its column lists.

Go strings, which are byte sequences, are represented as sequences of Unicode characters (`string`, that is `seq<char>`). Go's `len` on a bucket name is its UTF-8 length (`ApiUtils.Utf8Len`). TiKV keys and values are byte sequences.

## Model

| member | source | states |
|---|---|---|
| ApiUtils.Contains | api/utils.go:59-66 | the linear scan answers true exactly when the element occurs in the list |
| ApiUtils.TrimSpaceEmpty | api/utils.go:78-80 | trimming white space leaves an empty string exactly when every character is white space |
| ApiUtils.CheckBucketNameCommon | api/utils.go:77-103 | an EmptyName error exactly for blank names; an accepted name is 3 to 63 bytes long; an IP-shaped name or one containing ".." is never accepted |
| ApiUtils.CheckBucketNameOrder | api/utils.go:78-102 | each error is reported exactly when every earlier guard passed and its own guard fails, in source order: blank, too short, too long, IP-shaped, then ".." or a pattern mismatch, both reported as invalid characters |
| ApiUtils.CheckBucketNameAccepts | api/utils.go:77-103 | a name is accepted exactly when it matches the pattern in force (strict or not) and is neither IP-shaped nor contains ".." |
| ApiUtils.CheckValidBucketName | api/utils.go:105-108 | accepted exactly when the name matches the non-strict pattern and is neither IP-shaped nor contains ".." |
| ApiUtils.MatchesAreAscii | api/utils.go:71 | a name the non-strict pattern matches is ASCII and not blank, so its byte length is its character count |
| ApiUtils.StrictImpliesNonStrict | api/utils.go:71-72 | every name the strict pattern matches also matches the non-strict one |
| ApiUtils.IpShapedRejected | api/utils.go:87-89 | an IP-shaped ASCII name of at least 3 characters not starting with a space is rejected, by the IP guard whenever it is at most 63 bytes long |
| ApiUtils.IpAddressRejected | api/utils.go:73 | a name of four dot-separated digit runs is always rejected, by the IP guard whenever it is short enough to reach that guard |
| Freezer.GetUpdateSql | tools/restore/meta/types/freezer.go:28-33 | twelve arguments; the first is the new status and the last the receiver's current status; arguments 8 to 10 are bucket name, object name and version |
| Freezer.UpdateSqlShape | tools/restore/meta/types/freezer.go:30-31 | for every receiver and status the SQL text is the same statement, rendered from table restoreobjects, the eight SET columns and the four WHERE columns |
| Freezer.StatementShape | tools/restore/meta/types/freezer.go:30-31 | the literal statement text is exactly the rendering of those column lists |
| Freezer.RenderPlaceholders | tools/restore/meta/types/freezer.go:30-31 | a rendered UPDATE has one '?' per SET column plus one per WHERE column |
| Freezer.UpdateSqlPlaceholders | tools/restore/meta/types/freezer.go:30-32 | the number of '?' placeholders in the SQL equals the number of arguments, 12 |
| Freezer.UpdateSqlArgsLineUp | tools/restore/meta/types/freezer.go:30-32 | the i-th argument is the value of the i-th SET column, and argument 8+j is the value of the j-th WHERE column |
| TikvClient.TablePrefixesDistinct | meta/client/tikvclient/client.go:12-19 | the six table prefixes are one character each and pairwise distinct |
| TikvClient.RuneString | meta/client/tikvclient/client.go:21-24 | Go's string(int) is 1 to 4 bytes long, a single byte exactly for code points below 0x80 |
| TikvClient.RuneStringIsUtf8 | meta/client/tikvclient/client.go:21-24 | string(int) is the UTF-8 encoding: a non-scalar value (negative, a surrogate or above 0x10FFFF) becomes EF BF BD; a scalar value decodes back to itself, takes 2, 3 or 4 bytes exactly in the ranges from 0x80, 0x800 and 0x10000, and has a lead byte announcing its length followed by continuation bytes |
| TikvClient.ScanEndBoundsSeparatedKeys | meta/client/tikvclient/client.go:21-24 | TableMaxKeySuffix is the two bytes C3 BF and TableSeparator the byte 92 (backslash); a key prefix+separator+suffix sorts below prefix+TableMaxKeySuffix, while a key continuing the prefix with byte C4 or above does not |
| TikvClient.TiKVClient.Scan | meta/client/tikvclient/client.go:61-71 | on a driver error, nothing and that error; otherwise one KV per returned key, in order, pairing key i with value i |
| TikvClient.Pairs | meta/client/tikvclient/client.go:86-88 | the argument list read as consecutive (key, value) pairs: pair j is (args[2j], args[2j+1]) |
| TikvClient.PutStagedSpec | meta/client/tikvclient/client.go:86-98 | one Set per pair, in order, up to the first pair whose value fails to marshal or whose Set fails; no error exactly when every pair was staged |
| TikvClient.DeleteStagedSpec | meta/client/tikvclient/client.go:114-120 | one Delete per key, in order, up to the first failing one; no error exactly when every key was staged |
| TikvClient.StagePuts | meta/client/tikvclient/client.go:86-98 | the loop stages exactly what PutStaged describes and returns its error |
| TikvClient.StageDeletes | meta/client/tikvclient/client.go:114-120 | the loop stages exactly what DeleteStaged describes and returns its error |
| TikvClient.TiKVClient.TxPut | meta/client/tikvclient/client.go:73-99 | a Begin error is returned and changes nothing; otherwise the loop's error is returned, and the writes staged before any failure are committed unless Commit fails, whose error is dropped |
| TikvClient.TiKVClient.TxDelete | meta/client/tikvclient/client.go:101-121 | as TxPut, for deletes: a failing Delete does not prevent the commit of the earlier ones, and a Commit error is not returned |
| TikvClient.TiKVClient.TxPutAtomic | meta/client/tikvclient/client.go:73-99 | corrected TxPut: the store changes only when Begin, every marshal, every Set and Commit succeed, and the first error is returned |
| TikvClient.TiKVClient.TxDeleteAtomic | meta/client/tikvclient/client.go:101-121 | corrected TxDelete: the deletes are committed only when all succeed, and a Commit error is returned |
| TikvClient.PartialBatchExample | meta/client/tikvclient/client.go:89 | with the second Set failing, TxPut commits the first pair and returns the Set error; TxPutAtomic commits nothing |
| TikvClient.LostCommitErrorExample | meta/client/tikvclient/client.go:116 | with Commit failing, TxDelete returns no error though nothing is deleted; TxDeleteAtomic returns the Commit error |
| MetaClient.CommitOrAbort | meta/multipart.go:17-35 | the final commit plus the deferred abort of a named-result transaction: commit when nothing failed; abort after any failure, commit included; the store changes only on a successful commit |
| MetaClient.TransactionLog | meta/multipart.go:12-36 | the calls of a transaction that opened: NewTrans, the steps up to the first failure, the commit when every step succeeded, then an abort after any failure |
| MetaClient.StageTwo | meta/multipart.go:79-86 | two statements on a transaction, the second only when the first succeeded; their writes are staged only when both succeed, and the store is untouched |
| MetaObject.GetObject | meta/object.go:11-43 | a cached object is returned and a cached foreign value is InternalError; a cache error is returned unchanged; on a miss the name-less lookup's error is returned, or NoSuchKey when the fetched name differs, or else the object |
| MetaObject.GetVersionedObject | meta/object.go:45-80 | a cache error is returned unchanged; on a miss an empty version looks up the latest version and any other version that version; a name mismatch is NoSuchKey, but the fetched object is returned with that error |
| MetaObject.GetObjectSharesEntry | meta/object.go:32 | GetObject and GetVersionedObject with an empty version read the same cache entry, so they agree whenever that entry is not a miss |
| MetaObject.CacheKeyCollision | meta/object.go:32 | the cache key does not separate a bucket name containing ':' from an object name containing ':', for two names that both match the non-strict bucket pattern |
| MetaObject.PutObject | meta/object.go:82-111 | no bucket is NoSuchBucket with no call; disabled or suspended makes exactly one write, an update exactly when the object exists and the no-multipart variant exactly when there are no multipart and no parts; enabled makes one PutVersionedObject; any other mode is InvalidVersioning with no call |
| MetaObject.SuspendedLikeDisabled | meta/object.go:87-90 | a suspended bucket is written exactly as a disabled one |
| MetaObject.AppendObject | meta/object.go:220-226 | exactly one write: UpdateAppendObject with the object when it exists; otherwise the object is put without multipart and updates usage |
| MetaObject.RemovalEffect | meta/object.go:141-151 | the committed writes of a delete remove exactly the object's row, append exactly one GC entry, lower the bucket's usage by the object's size and touch nothing else |
| MetaObject.StageRemoval | meta/object.go:141-151 | the removal, GC and usage statements, stopping at the first failure; their writes are staged only when all succeed; the store is untouched |
| MetaObject.DeleteObject | meta/object.go:127-152 | the error is that of the first failing call among NewTrans, removal, GC, usage and commit; the store changes by the removal's writes exactly when none fails; an abort follows any failure after NewTrans |
| MetaObject.DeleteVersionedObject | meta/object.go:154-179 | as DeleteObject, with the versioned removal |
| MetaObject.AddDeleteMarker | meta/object.go:181-183 | outside any transaction: when it succeeds, the marker row is written at the version the caller gives |
| MetaObject.DeleteSuspendedObject | meta/object.go:185-218 | the result is the first failing call's error up to the marker, never the commit's; when NewTrans and the removal steps succeed the staged writes are committed, even when the marker fails, unless Commit fails |
| MetaObject.SuspendedInTransaction | meta/object.go:190-217 | DeleteSuspendedObject after NewTrans: the removal steps (none for a delete marker), the marker, then the deferred block reading only the removal steps' error |
| MetaObject.StageSuspended | meta/object.go:199-217 | the removal steps and the marker, stopping at the first failure; all their writes are staged only when all succeed |
| MetaObject.DeleteSuspendedObjectAtomic | meta/object.go:185-218 | corrected DeleteSuspendedObject: the store changes only when every call including marker and commit succeeds, and the first error is returned |
| MetaObject.SuspendedMarkerOnlyAddsMarker | meta/object.go:199-217 | on a delete marker a committed suspended delete only writes the null-version marker row: no GC entry, usage unchanged |
| MetaObject.SuspendedRemovalThenMarker | meta/object.go:199-217 | on any other object a committed suspended delete is the removal (one GC entry, usage lowered by the size) followed by the marker row when it was added |
| MetaObject.MarkerFailureExample | meta/object.go:217 | with only the marker failing, DeleteSuspendedObject returns the marker's error, yet the row is gone and the object is queued for GC |
| MetaObject.MarkerFailureAtomicExample | meta/object.go:217 | with only the marker failing, the corrected delete returns the error and leaves the store as it was |
| MetaMultipart.GetAfterDeleteMultipart | meta/multipart.go:8-36 | reading an upload after a committed DeleteMultipart gives NoSuchUpload for the deleted one and what was stored before for every other key |
| MetaMultipart.SumSizesRemove | meta/multipart.go:26-29 | the parts' total does not depend on the order the parts are visited in |
| MetaMultipart.RemovedSize | meta/multipart.go:26-29 | the loop over the parts adds up to the total of their sizes, 0 for no parts |
| MetaMultipart.DeleteMultipart | meta/multipart.go:12-36 | the first failing call's error among NewTrans, DeleteMultipart, UpdateUsage and commit; usage is not updated after a failed removal; the store changes exactly when none fails; an abort follows any failure after NewTrans |
| MetaMultipart.DeleteMultipartEffect | meta/multipart.go:22-30 | a committed DeleteMultipart removes the upload and lowers the bucket's usage by the parts' total size (unchanged for no parts), touching nothing else |
| MetaMultipart.PartDeltaTracksTotal | meta/multipart.go:55-60 | the usage delta of an upload is exactly the change in the parts' total size |
| MetaMultipart.DeltaTotalTracksTotal | meta/multipart.go:55-60 | over any run of uploads the usage changes by exactly the change in the parts' total |
| MetaMultipart.RepeatedUploadsNet | meta/multipart.go:55-60 | uploading one part number again and again changes usage by the last size less the size it started from |
| MetaMultipart.PutObjectPart | meta/multipart.go:38-66 | the first failing call's error among NewTrans, PutObjectPart, UpdateUsage and commit; UpdateUsage is made even for a zero delta but not after a failed part write; the store changes exactly when none fails |
| MetaMultipart.PutObjectPartEffect | meta/multipart.go:49-60 | a committed PutObjectPart stores the part in the upload and changes the bucket's usage by the new size less the replaced size, touching nothing else |
| MetaMultipart.PutObjectPartKeepsBalance | meta/multipart.go:55-60 | given the upload as stored, usage less the upload's parts total is the same after a committed PutObjectPart as before |
| MetaMultipart.GetAfterPutObjectPart | meta/multipart.go:8-66 | reading the upload after a committed PutObjectPart finds it, with the new part under its number and the other parts as they were |
| MetaMultipart.RenameObjectPart | meta/multipart.go:68-89 | parts renamed, then the object, in one transaction; the store changes only when both and the commit succeed; an abort follows any failure after NewTrans |
| MetaMultipart.RenameEffect | meta/multipart.go:79-83 | a committed rename moves the parts entry and the object row from the source key to the object's key |
| MetaMultipart.RenameRoundTrip | meta/multipart.go:79-83 | renaming back undoes a rename onto a free key: parts and row are where and as they were |
| MetaQos.KeysDistinct | meta/qos.go:52 | read, write and bandwidth limiter keys never coincide, whichever users they are for |
| MetaQos.KeysInjective | meta/qos.go:124 | two users never share a limiter key in the same direction |
| MetaQos.QosMeta.ReadLimit | meta/qos.go:46-51 | the owner's read QPS when positive, 2000 otherwise |
| MetaQos.QosMeta.WriteLimit | meta/qos.go:62-67 | the owner's write QPS when positive, 1000 otherwise |
| MetaQos.QosMeta.BandwidthLimit | meta/qos.go:78-83 | the owner's bandwidth when positive, 102400 KB/s otherwise |
| MetaQos.QosMeta.AllowReadQuery | meta/qos.go:46-60 | the limiter's verdict on the read request, or true when the limiter errs |
| MetaQos.QosMeta.AllowWriteQuery | meta/qos.go:62-76 | the limiter's verdict on the write request, or true when the limiter errs |
| MetaQos.AdoptAllNoneUsable | meta/qos.go:94-113 | a run of fetches none of which is usable leaves the snapshot as it was |
| MetaQos.AdoptAllLastUsable | meta/qos.go:94-113 | after a run of fetches the snapshot is the map of the last usable one |
| MetaQos.QosMeta.SyncOnce | meta/qos.go:95-110 | each of the two fields is replaced by its fetched map only when that fetch succeeded with a non-nil map |
| MetaQos.QosMeta.SyncRounds | meta/qos.go:93-114 | after the rounds each field is what adopting its fetches in order gives |
| MetaQos.UnknownBucketGetsDefaults | meta/qos.go:47-51 | a bucket the snapshot does not know, while user "" has no limits, gets every default |
| MetaQos.SameOwnerSameQuota | meta/qos.go:46-90 | two buckets with the same owner make the same read and write limiter requests, get the same verdict from any limiter and get the same throttled reader |
| MetaQos.SharedCounterIffSameOwner | meta/qos.go:46-127 | two buckets draw on the same read, write or bandwidth counter exactly when they have the same owner; a read, a write and a bandwidth counter are never the same |
| MetaQos.MaybeWaitTokenN | meta/qos.go:123-137 | returns on the first attempt the limiter allows or on a limiter error; every earlier attempt was denied and was followed by a sleep of its retry delay |
| MetaQos.Read | meta/qos.go:139-146 | waits once for len(p) tokens; blocked exactly when every attempt is denied; otherwise the wrapped reader's (n, err) unchanged |

## Left out

- Storage limits: `MAX_PART_SIZE`, `MIN_PART_SIZE` and `MAX_PART_NUMBER` are defined outside these files, so they are a parameter (`ApiUtils.StorageLimits`).
- Integer widths: sizes and usage are unbounded integers. The int64 sums in meta/multipart.go and the int product `kbpsLimit*1024` in meta/qos.go are not wrapped.
- MsgPack, the object cache and the limiter are parameters:
  - MsgPack marshalling is a function passed to `TxPut`, which may fail;
  - the cache's `Get` is reduced to lookup, error or miss, with the fetch callback's result on a miss;
  - the redis_rate limiter is an oracle answering each request.
- `time.Format` in freezer.go is a parameter.
- I/O and timing:
  - the `inMemoryCacheSync` goroutine and its ten-minute sleep;
  - `time.Sleep`;
  - the Redis and TiKV drivers;
  - setting up the Redis client and limiter in `NewQosMeta`.
- Concurrency: the unsynchronised reads of the QoS snapshots are not modelled.
- Pass-throughs and stubs:
  - `UpdateObjectAcl`, `UpdateObjectAttrs` and `RenameObject` (meta/object.go:113-125) only forward to the client;
  - meta/client/tikvclient/multipart.go is stubs only;
  - `GenKey` is not part of this model.
- The metadata client's own behaviour is not part of this model. It is stated abstractly:
  - a missing upload in `PutUploadPart` is left unchanged;
  - parts and a row missing at a rename's source key are not moved;
  - a bucket without a usage counter counts 0;
  - `DeleteMultipart` and `PutObjectPart` hand `&multipart` to the client before reading `multipart.Parts` (meta/multipart.go:22, 27, 49, 56); the model sums the caller's parts, so it takes the client not to change them.
- Byte strings that are not valid UTF-8 cannot be represented, so such bucket names given to `CheckValidBucketName` and `CheckBucketNameCommon`, and such key parts, are not modelled.
- MetaObject.GetVersionedObject: takes a failed client fetch to return no object. Go would also return whatever the client handed back beside its error.
- MetaQos.MaybeWaitTokenN: follows the loop for a given number of attempts. The source loops for ever as long as the limiter keeps denying, which can happen without end when `len(p) > 1024*kbpsLimit`. Termination is not claimed.
- MetaQos.QosMeta.SyncRounds: requires one bucket fetch per QoS fetch, as each loop iteration makes both.
- MetaQos.UnknownBucketGetsDefaults: requires that user "" has no entry. The lemma covers that case only; an entry for "" whose limits are all non-positive gives the defaults too.
- TikvClient.TiKVClient.TxPut: requires an even-length argument list with byte-slice keys. On any other list Go panics inside the loop, after the earlier Sets; the deferred block then sees a nil `err` and commits those pairs before the panic goes on. That path is not modelled.
- TikvClient.TiKVClient.Scan: requires at least as many values as keys, because Go panics otherwise.
- ApiUtils.IsMaxObjectSize, IsMinAllowedPartSize, IsMaxPartId: single comparisons against the storage limits, defined but with no property stated beyond their definitions.
- MetaQos.OrDefault, FailOpen, Adopt, BandwidthRequest and QosMeta.UserOf, QosOf, ReadRequest, WriteRequest, ThrottleReaderFor: one-line definitions with no contract of their own; what they mean is stated by the limits, the query checks, the key lemmas, the sync lemmas and `MaybeWaitTokenN`.
- MetaQos.Read: the bytes the wrapped reader writes into `p` are not part of the outcome; only `n` and `err` are.
- Versioning modes: `VersionOther` is taken to be a string other than the three named modes, whose string values are defined outside these files.
- Freezer.GetUpdateSql: the receiver is a value, so "not modified" holds by construction and is not stated.

## Findings

| source | as written | input that shows it | evidently intended | confidence | as-written member | corrected member |
|---|---|---|---|---|---|---|
| meta/client/tikvclient/client.go:89 | `v, err := ...` inside the loop shadows the `err` the deferred block reads, so a failing Set still commits the pairs before it | two pairs on an empty store, the second Set failing: the first pair is committed and the Set error returned | a failing Set rolls the whole batch back | not executed | TikvClient.PartialBatchExample | TikvClient.TiKVClient.TxPutAtomic |
| meta/client/tikvclient/client.go:116 | `err := tx.Delete(key)` shadows the deferred block's `err`, and the result is unnamed, so a Commit error is dropped | one key, Commit failing: TxDelete returns nil and the key is still there | the Commit error is returned | not executed | TikvClient.LostCommitErrorExample | TikvClient.TiKVClient.TxDeleteAtomic |
| meta/object.go:217 | the result is unnamed, so the deferred block never sees the marker's error: the removal is committed although the marker failed, and a Commit error is dropped | an object that is not a delete marker, with only AddDeleteMarker failing: the error is returned, yet the row is gone and a GC entry is queued | a failing marker aborts the whole delete | not executed | MetaObject.MarkerFailureExample | MetaObject.DeleteSuspendedObjectAtomic |
