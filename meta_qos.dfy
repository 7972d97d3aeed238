/** meta/qos.go: per-user request and bandwidth limits. The bucket-to-user and
    user-to-limits snapshots are fields that the sync loop overwrites; the limits are looked
    up from them, falling back to defaults; the rate limiter, whose counters live in a shared
    store, is an oracle that allows, denies with a retry delay, or errs. */
module MetaQos {

  import opened Wrappers

  const DefaultReadQps: int := 2000
  const DefaultWriteQps: int := 1000
  /** 100 MB/s, in KB/s. */
  const DefaultBandwidthKBps: int := 100 * 1024

  datatype UserQos = UserQos(ReadQps: int, WriteQps: int, Bandwidth: int)

  /** The zero value Go's map lookup yields for a user without limits. */
  const NoQos := UserQos(0, 0, 0)

  /** redis_rate.PerSecond: so many tokens per second. */
  datatype Rate = PerSecond(tokens: int)

  /** One question to the limiter: may `n` tokens be taken under `key` at `rate`? */
  datatype LimitRequest = LimitRequest(key: string, rate: Rate, n: int)

  /** The limiter's answer: allowed or not, with how long to wait before asking again; or
      an error from the limiter's store. */
  datatype LimitResult = Limited(allowed: bool, retryAfter: nat) | LimiterError

  // ---------------------------------------------------------------------------
  // Limiter keys

  function ReadKey(userID: string): string
  {
    "user_rqps_" + userID
  }

  function WriteKey(userID: string): string
  {
    "user_wqps_" + userID
  }

  function BandwidthKey(userID: string): string
  {
    "user_bandwidth_" + userID
  }

  /** The three directions never share a counter, whichever users they are for. */
  lemma KeysDistinct(u: string, v: string)
    ensures ReadKey(u) != WriteKey(v)
    ensures ReadKey(u) != BandwidthKey(v)
    ensures WriteKey(u) != BandwidthKey(v)
  {
    assert ReadKey(u)[5] == 'r' && WriteKey(v)[5] == 'w' && BandwidthKey(v)[5] == 'b';
    assert WriteKey(u)[5] == 'w';
  }

  /** Two users never share a counter in the same direction. */
  lemma KeysInjective(u: string, v: string)
    ensures ReadKey(u) == ReadKey(v) ==> u == v
    ensures WriteKey(u) == WriteKey(v) ==> u == v
    ensures BandwidthKey(u) == BandwidthKey(v) ==> u == v
  {
    assert ReadKey(u)[10..] == u && ReadKey(v)[10..] == v;
    assert WriteKey(u)[10..] == u && WriteKey(v)[10..] == v;
    assert BandwidthKey(u)[15..] == u && BandwidthKey(v)[15..] == v;
  }

  // ---------------------------------------------------------------------------
  // Limits

  /** A configured limit, or the default where it is not positive. */
  function OrDefault(configured: int, default: int): int
  {
    if configured <= 0 then default else configured
  }

  /** The limiter answer a query check acts on: an error lets the request through. */
  function FailOpen(result: LimitResult): bool
  {
    match result
    case LimiterError => true
    case Limited(allowed, _) => allowed
  }

  /** A fetch of one snapshot by the sync loop: `value` None is a nil map, `failed` an error
      from the Client. */
  datatype Fetch<T> = Fetch(value: Option<T>, failed: bool)

  /** A fetch the sync loop adopts: one that succeeded with a non-nil map. */
  predicate Usable<T>(f: Fetch<T>)
  {
    !f.failed && f.value.Some?
  }

  /** The snapshot after one fetch: the fetched map when the fetch is usable, else the
      current one. */
  function Adopt<T>(current: T, f: Fetch<T>): T
  {
    if Usable(f) then f.value.value else current
  }

  /** The snapshot after a run of fetches. */
  function AdoptAll<T>(current: T, fs: seq<Fetch<T>>): T
    decreases |fs|
  {
    if fs == [] then current else Adopt(AdoptAll(current, fs[..|fs| - 1]), fs[|fs| - 1])
  }

  /** A run of fetches none of which is usable leaves the snapshot as it was: a failed
      refresh never clears what is held. */
  lemma {:induction false} AdoptAllNoneUsable<T>(current: T, fs: seq<Fetch<T>>)
    requires forall i :: 0 <= i < |fs| ==> !Usable(fs[i])
    ensures AdoptAll(current, fs) == current
    decreases |fs|
  {
    if fs != [] {
      var init := fs[..|fs| - 1];
      assert forall i :: 0 <= i < |init| ==> init[i] == fs[i];
      AdoptAllNoneUsable(current, init);
    }
  }

  /** After a run of fetches the snapshot is the map of the last usable one. */
  lemma {:induction false} AdoptAllLastUsable<T>(current: T, fs: seq<Fetch<T>>, k: nat)
    requires k < |fs| && Usable(fs[k])
    requires forall j :: k < j < |fs| ==> !Usable(fs[j])
    ensures AdoptAll(current, fs) == fs[k].value.value
    decreases |fs|
  {
    var init := fs[..|fs| - 1];
    if k < |fs| - 1 {
      assert forall j :: k < j < |init| ==> init[j] == fs[j];
      AdoptAllLastUsable(current, init, k);
    }
  }

  // ---------------------------------------------------------------------------
  // The snapshots and the checks

  class QosMeta {
    /** bucket name -> user id */
    var bucketUser: map<string, string>
    /** user id -> the user's limits */
    var userQosLimit: map<string, UserQos>

    /** NewQosMeta: both snapshots start empty (nil) until the first sync. */
    constructor ()
      ensures bucketUser == map[] && userQosLimit == map[]
    {
      bucketUser := map[];
      userQosLimit := map[];
    }

    /** The bucket's owner; a bucket the snapshot does not know belongs to user "". */
    function UserOf(bucketName: string): string
      reads this
    {
      if bucketName in bucketUser then bucketUser[bucketName] else ""
    }

    /** The user's limits; a user without any has all limits 0. */
    function QosOf(userID: string): UserQos
      reads this
    {
      if userID in userQosLimit then userQosLimit[userID] else NoQos
    }

    /** The read QPS limit of the bucket's owner: the configured one when positive,
        2000 when missing or not positive. */
    function ReadLimit(bucketName: string): (qps: int)
      reads this
      ensures qps > 0
      ensures var u := UserOf(bucketName);
        if u in userQosLimit && userQosLimit[u].ReadQps > 0 then qps == userQosLimit[u].ReadQps
        else qps == DefaultReadQps
    {
      OrDefault(QosOf(UserOf(bucketName)).ReadQps, DefaultReadQps)
    }

    /** The write QPS limit: the configured one when positive, 1000 otherwise. */
    function WriteLimit(bucketName: string): (qps: int)
      reads this
      ensures qps > 0
      ensures var u := UserOf(bucketName);
        if u in userQosLimit && userQosLimit[u].WriteQps > 0 then qps == userQosLimit[u].WriteQps
        else qps == DefaultWriteQps
    {
      OrDefault(QosOf(UserOf(bucketName)).WriteQps, DefaultWriteQps)
    }

    /** The bandwidth limit in KB/s: the configured one when positive, 102400 otherwise. */
    function BandwidthLimit(bucketName: string): (kbps: int)
      reads this
      ensures kbps > 0
      ensures var u := UserOf(bucketName);
        if u in userQosLimit && userQosLimit[u].Bandwidth > 0 then kbps == userQosLimit[u].Bandwidth
        else kbps == DefaultBandwidthKBps
    {
      OrDefault(QosOf(UserOf(bucketName)).Bandwidth, DefaultBandwidthKBps)
    }

    /** What AllowReadQuery asks the limiter: one token under the owner's read key at the
        read limit per second. */
    function ReadRequest(bucketName: string): LimitRequest
      reads this
    {
      LimitRequest(ReadKey(UserOf(bucketName)), PerSecond(ReadLimit(bucketName)), 1)
    }

    function WriteRequest(bucketName: string): LimitRequest
      reads this
    {
      LimitRequest(WriteKey(UserOf(bucketName)), PerSecond(WriteLimit(bucketName)), 1)
    }

    /** AllowReadQuery: the limiter's verdict on the read request, or true when it errs. */
    function AllowReadQuery(bucketName: string, limiter: LimitRequest -> LimitResult): (allow: bool)
      reads this
      ensures limiter(ReadRequest(bucketName)).LimiterError? ==> allow
      ensures limiter(ReadRequest(bucketName)).Limited? ==> allow == limiter(ReadRequest(bucketName)).allowed
    {
      FailOpen(limiter(ReadRequest(bucketName)))
    }

    /** AllowWriteQuery: the limiter's verdict on the write request, or true when it errs. */
    function AllowWriteQuery(bucketName: string, limiter: LimitRequest -> LimitResult): (allow: bool)
      reads this
      ensures limiter(WriteRequest(bucketName)).LimiterError? ==> allow
      ensures limiter(WriteRequest(bucketName)).Limited? ==> allow == limiter(WriteRequest(bucketName)).allowed
    {
      FailOpen(limiter(WriteRequest(bucketName)))
    }

    /** ThrottleReader: a reader for the bucket's owner at the owner's bandwidth limit. */
    function ThrottleReaderFor(bucketName: string): ThrottleReader
      reads this
    {
      ThrottleReader(UserOf(bucketName), BandwidthLimit(bucketName))
    }

    /** One iteration of inMemoryCacheSync: a failed fetch counts as nil, and each snapshot
        is replaced only by a non-nil map. */
    method SyncOnce(buckets: Fetch<map<string, string>>, qos: Fetch<map<string, UserQos>>)
      modifies this
      ensures bucketUser == Adopt(old(bucketUser), buckets)
      ensures userQosLimit == Adopt(old(userQosLimit), qos)
    {
      var fetchedBuckets := buckets.value;
      if buckets.failed {
        fetchedBuckets := None;
      }
      var fetchedQos := qos.value;
      if qos.failed {
        fetchedQos := None;
      }
      if fetchedBuckets.Some? {
        bucketUser := fetchedBuckets.value;
      }
      if fetchedQos.Some? {
        userQosLimit := fetchedQos.value;
      }
    }

    /** The sync loop over a run of iterations, the i-th fetching `buckets[i]` and `qos[i]`. */
    method SyncRounds(buckets: seq<Fetch<map<string, string>>>, qos: seq<Fetch<map<string, UserQos>>>)
      requires |buckets| == |qos|
      modifies this
      ensures bucketUser == AdoptAll(old(bucketUser), buckets)
      ensures userQosLimit == AdoptAll(old(userQosLimit), qos)
    {
      var i := 0;
      while i < |buckets|
        invariant 0 <= i <= |buckets|
        invariant bucketUser == AdoptAll(old(bucketUser), buckets[..i])
        invariant userQosLimit == AdoptAll(old(userQosLimit), qos[..i])
      {
        SyncOnce(buckets[i], qos[i]);
        assert buckets[..i + 1][..i] == buckets[..i] && qos[..i + 1][..i] == qos[..i];
        i := i + 1;
      }
      assert buckets[..i] == buckets && qos[..i] == qos;
    }
  }

  /** A bucket the snapshot does not know, while user "" has no entry, gets every default. */
  lemma UnknownBucketGetsDefaults(m: QosMeta, bucketName: string)
    requires bucketName !in m.bucketUser && "" !in m.userQosLimit
    ensures m.UserOf(bucketName) == ""
    ensures m.ReadLimit(bucketName) == DefaultReadQps && m.WriteLimit(bucketName) == DefaultWriteQps
    ensures m.BandwidthLimit(bucketName) == DefaultBandwidthKBps == 102400
  {
  }

  /** Quotas belong to users, not buckets: two buckets with the same owner make the same
      requests of the limiter, get the same verdicts and the same reader. */
  lemma SameOwnerSameQuota(m: QosMeta, b1: string, b2: string, limiter: LimitRequest -> LimitResult)
    requires m.UserOf(b1) == m.UserOf(b2)
    ensures m.ReadRequest(b1) == m.ReadRequest(b2) && m.WriteRequest(b1) == m.WriteRequest(b2)
    ensures m.AllowReadQuery(b1, limiter) == m.AllowReadQuery(b2, limiter)
    ensures m.AllowWriteQuery(b1, limiter) == m.AllowWriteQuery(b2, limiter)
    ensures m.ThrottleReaderFor(b1) == m.ThrottleReaderFor(b2)
  {
  }

  /** Two buckets draw on the same limiter counter exactly when they have the same owner and
      the request goes in the same direction. */
  lemma SharedCounterIffSameOwner(m: QosMeta, b1: string, b2: string, n1: int, n2: int)
    ensures m.ReadRequest(b1).key == m.ReadRequest(b2).key <==> m.UserOf(b1) == m.UserOf(b2)
    ensures m.WriteRequest(b1).key == m.WriteRequest(b2).key <==> m.UserOf(b1) == m.UserOf(b2)
    ensures BandwidthRequest(m.ThrottleReaderFor(b1), n1).key == BandwidthRequest(m.ThrottleReaderFor(b2), n2).key
            <==> m.UserOf(b1) == m.UserOf(b2)
    ensures m.ReadRequest(b1).key != m.WriteRequest(b2).key
    ensures m.ReadRequest(b1).key != BandwidthRequest(m.ThrottleReaderFor(b2), n2).key
    ensures m.WriteRequest(b1).key != BandwidthRequest(m.ThrottleReaderFor(b2), n2).key
  {
    KeysInjective(m.UserOf(b1), m.UserOf(b2));
    KeysDistinct(m.UserOf(b1), m.UserOf(b2));
  }

  // ---------------------------------------------------------------------------
  // The throttled reader

  /** A ThrottleReader: the owner whose bandwidth counter it draws on and its limit in
      KB/s. The wrapped reader and the limiter are parameters of Read. */
  datatype ThrottleReader = ThrottleReader(userID: string, kbpsLimit: int)

  /** What maybeWaitTokenN asks the limiter, on every attempt: `n` tokens under the owner's
      bandwidth key at kbpsLimit * 1024 per second. */
  function BandwidthRequest(r: ThrottleReader, n: int): LimitRequest
  {
    LimitRequest(BandwidthKey(r.userID), PerSecond(r.kbpsLimit * 1024), n)
  }

  predicate Denied(result: LimitResult)
  {
    result.Limited? && !result.allowed
  }

  /** How a wait ended: allowed at some attempt, abandoned at a limiter error, or still
      waiting after the attempts the model follows. */
  datatype WaitOutcome = Allowed(attempt: nat) | GaveUpOnError(attempt: nat) | StillBlocked

  /** maybeWaitTokenN: ask until the limiter allows or errs, sleeping for the suggested delay
      after each denial. `limiter(req, i)` is the answer to the i-th attempt; the loop is
      followed for `maxAttempts` attempts. */
  method MaybeWaitTokenN(r: ThrottleReader, n: int, limiter: (LimitRequest, nat) -> LimitResult, maxAttempts: nat)
    returns (outcome: WaitOutcome, slept: seq<nat>)
    ensures var req := BandwidthRequest(r, n);
      && (outcome.Allowed? ==>
            (outcome.attempt < maxAttempts
             && limiter(req, outcome.attempt).Limited? && limiter(req, outcome.attempt).allowed))
      && (outcome.GaveUpOnError? ==> outcome.attempt < maxAttempts && limiter(req, outcome.attempt).LimiterError?)
      && (var stop := if outcome.StillBlocked? then maxAttempts else outcome.attempt;
          && (forall i :: 0 <= i < stop ==> Denied(limiter(req, i)))
          && |slept| == stop
          && (forall i :: 0 <= i < stop ==> slept[i] == limiter(req, i).retryAfter))
  {
    var req := BandwidthRequest(r, n);
    slept := [];
    var attempt := 0;
    while attempt < maxAttempts
      invariant 0 <= attempt <= maxAttempts
      invariant forall i :: 0 <= i < attempt ==> Denied(limiter(req, i))
      invariant |slept| == attempt
      invariant forall i :: 0 <= i < attempt ==> slept[i] == limiter(req, i).retryAfter
    {
      var result := limiter(req, attempt);
      if result.LimiterError? {
        return GaveUpOnError(attempt), slept;
      }
      if result.allowed {
        return Allowed(attempt), slept;
      }
      slept := slept + [result.retryAfter];
      attempt := attempt + 1;
    }
    outcome := StillBlocked;
  }

  /** What the wrapped reader returns. */
  datatype ReadResult = ReadResult(n: int, err: Option<string>)

  datatype ReadOutcome = Blocked | Returned(n: int, err: Option<string>)

  /** Read: wait once for len(p) tokens, then hand back the wrapped reader's result as it
      is. Blocked means the wait had not ended after `maxAttempts` attempts, and the
      wrapped reader was not called. */
  method Read(r: ThrottleReader, p: seq<bv8>, limiter: (LimitRequest, nat) -> LimitResult, maxAttempts: nat,
              underlying: ReadResult)
    returns (outcome: ReadOutcome)
    ensures outcome.Blocked? <==> forall i :: 0 <= i < maxAttempts ==> Denied(limiter(BandwidthRequest(r, |p|), i))
    ensures outcome.Returned? ==> outcome.n == underlying.n && outcome.err == underlying.err
  {
    var waited, _ := MaybeWaitTokenN(r, |p|, limiter, maxAttempts);
    if waited.StillBlocked? {
      return Blocked;
    }
    outcome := Returned(underlying.n, underlying.err);
  }
}
