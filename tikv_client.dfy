/** The TiKV backend's table layout and transactional batch helpers
    (meta/client/tikvclient/client.go). The txnkv and rawkv drivers are not modelled: the
    transactional store is a map with a transaction that stages Set/Delete writes and applies
    them on Commit; which driver calls fail is fixed by the store's `faults`. */
module TikvClient {

  import opened Wrappers

  newtype byte = x: int | 0 <= x < 256

  type Bytes = seq<byte>

  // ---------------------------------------------------------------------------
  // Table layout

  const TableClusterPrefix: string := "c"
  const TableBucketPrefix: string := "b"
  const TableUserBucketPrefix: string := "u"
  const TableMultipartPrefix: string := "m"
  const TableObjectPartPrefix: string := "p"
  const TableLifeCyclePrefix: string := "l"

  const TablePrefixes: seq<string> := [TableClusterPrefix, TableBucketPrefix, TableUserBucketPrefix,
    TableMultipartPrefix, TableObjectPartPrefix, TableLifeCyclePrefix]

  /** The six table prefixes are distinct one-character strings. */
  lemma TablePrefixesDistinct()
    ensures |TablePrefixes| == 6
    ensures forall i :: 0 <= i < |TablePrefixes| ==> |TablePrefixes[i]| == 1
    ensures forall i, j :: 0 <= i < j < |TablePrefixes| ==> TablePrefixes[i] != TablePrefixes[j]
  {
  }

  /** Go's conversion string(r) of an integer: the UTF-8 encoding of the code point r,
      or of U+FFFD when r is not a valid code point. */
  function RuneString(r: int): (b: Bytes)
    ensures 1 <= |b| <= 4
    ensures |b| == 1 <==> 0 <= r < 0x80
  {
    if r < 0 || r > 0x10FFFF || (0xD800 <= r <= 0xDFFF) then [0xEF, 0xBF, 0xBD]
    else if r < 0x80 then [r as byte]
    else if r < 0x800 then [(0xC0 + r / 64) as byte, (0x80 + r % 64) as byte]
    else if r < 0x10000 then
      [(0xE0 + r / 4096) as byte, (0x80 + (r / 64) % 64) as byte, (0x80 + r % 64) as byte]
    else
      [(0xF0 + r / 262144) as byte, (0x80 + (r / 4096) % 64) as byte,
       (0x80 + (r / 64) % 64) as byte, (0x80 + r % 64) as byte]
  }

  /** A Unicode scalar value: a code point outside the surrogate range. */
  predicate IsScalarValue(r: int)
  {
    0 <= r <= 0x10FFFF && !(0xD800 <= r <= 0xDFFF)
  }

  predicate IsContinuation(x: byte)
  {
    0x80 <= x < 0xC0
  }

  /** The code point a UTF-8 sequence carries: the payload bits of its lead byte followed by
      six bits from each continuation byte. */
  function DecodeRune(b: Bytes): int
    requires 1 <= |b| <= 4
  {
    if |b| == 1 then b[0] as int
    else if |b| == 2 then (b[0] as int % 32) * 64 + b[1] as int % 64
    else if |b| == 3 then (b[0] as int % 16) * 4096 + (b[1] as int % 64) * 64 + b[2] as int % 64
    else (b[0] as int % 8) * 262144 + (b[1] as int % 64) * 4096 + (b[2] as int % 64) * 64 + b[3] as int % 64
  }

  lemma RuneTwoBytes(r: int)
    requires 0x80 <= r < 0x800
    ensures var b := RuneString(r);
      |b| == 2 && 0xC2 <= b[0] < 0xE0 && IsContinuation(b[1]) && DecodeRune(b) == r
  {
    var q, lo := r / 64, r % 64;
    assert 2 <= q < 32 && r == q * 64 + lo;
    assert (0xC0 + q) % 32 == q && (0x80 + lo) % 64 == lo;
  }

  lemma RuneThreeBytes(r: int)
    requires 0x800 <= r < 0x10000 && !(0xD800 <= r <= 0xDFFF)
    ensures var b := RuneString(r);
      |b| == 3 && 0xE0 <= b[0] < 0xF0 && IsContinuation(b[1]) && IsContinuation(b[2]) && DecodeRune(b) == r
  {
    var q, mid, lo := r / 4096, (r / 64) % 64, r % 64;
    assert q < 16 && r == q * 4096 + mid * 64 + lo;
    assert (0xE0 + q) % 16 == q && (0x80 + mid) % 64 == mid && (0x80 + lo) % 64 == lo;
  }

  lemma RuneFourBytes(r: int)
    requires 0x10000 <= r <= 0x10FFFF
    ensures var b := RuneString(r);
      && |b| == 4 && 0xF0 <= b[0] < 0xF5
      && IsContinuation(b[1]) && IsContinuation(b[2]) && IsContinuation(b[3]) && DecodeRune(b) == r
  {
    var q, hi, mid, lo := r / 262144, (r / 4096) % 64, (r / 64) % 64, r % 64;
    assert q < 5 && r == q * 262144 + hi * 4096 + mid * 64 + lo;
    assert (0xF0 + q) % 8 == q && (0x80 + hi) % 64 == hi && (0x80 + mid) % 64 == mid && (0x80 + lo) % 64 == lo;
  }

  /** string(r) is the UTF-8 encoding of r: the shortest sequence for its range, a lead byte
      announcing the length, continuation bytes after it, decoding back to r; a value that
      is not a scalar value becomes U+FFFD. */
  lemma RuneStringIsUtf8(r: int)
    ensures var b := RuneString(r);
      && (!IsScalarValue(r) ==> b == [0xEF, 0xBF, 0xBD])
      && (IsScalarValue(r) ==> DecodeRune(b) == r)
      && (IsScalarValue(r) ==>
            && (|b| == 2 <==> 0x80 <= r < 0x800)
            && (|b| == 3 <==> 0x800 <= r < 0x10000)
            && (|b| == 4 <==> 0x10000 <= r))
      && (|b| == 1 ==> b[0] < 0x80)
      && (|b| == 2 ==> 0xC2 <= b[0] < 0xE0)
      && (|b| == 3 ==> 0xE0 <= b[0] < 0xF0)
      && (|b| == 4 ==> 0xF0 <= b[0] < 0xF5)
      && (forall i :: 1 <= i < |b| ==> IsContinuation(b[i]))
  {
    if !IsScalarValue(r) || r < 0x80 {
    } else if r < 0x800 {
      RuneTwoBytes(r);
    } else if r < 0x10000 {
      RuneThreeBytes(r);
    } else {
      RuneFourBytes(r);
    }
  }

  /** string(0xFF) */
  const TableMaxKeySuffix: Bytes := RuneString(0xFF)

  /** string(92) */
  const TableSeparator: Bytes := RuneString(92)

  /** Lexicographic order of byte strings, the order TiKV keeps its keys in. */
  predicate BytesLess(a: Bytes, b: Bytes)
  {
    if a == [] then b != []
    else if b == [] then false
    else a[0] < b[0] || (a[0] == b[0] && BytesLess(a[1..], b[1..]))
  }

  // ---------------------------------------------------------------------------
  // Transactional store

  datatype KvWrite = SetKey(key: Bytes, value: Bytes) | DeleteKey(key: Bytes)

  /** The store after the writes, applied in order. */
  function ApplyKv(kv: map<Bytes, Bytes>, writes: seq<KvWrite>): map<Bytes, Bytes>
    decreases |writes|
  {
    if writes == [] then kv
    else
      var kv' := match writes[0]
        case SetKey(k, v) => kv[k := v]
        case DeleteKey(k) => kv - {k};
      ApplyKv(kv', writes[1..])
  }

  datatype KvError = BeginError | MarshalError | SetError | DeleteError | CommitError

  /** Which driver calls fail: Begin, the Set/Delete calls whose ordinal within their
      transaction is in `writes`, and Commit. */
  datatype KvFaults = KvFaults(begin: bool, writes: set<nat>, commit: bool)

  /** The committed contents of the transactional store. */
  class TxnKv {
    var kv: map<Bytes, Bytes>
    const faults: KvFaults

    constructor (kv: map<Bytes, Bytes>, faults: KvFaults)
      ensures this.kv == kv && this.faults == faults
    {
      this.kv := kv;
      this.faults := faults;
    }

    method Begin() returns (tx: Txn?, err: Option<KvError>)
      ensures faults.begin ==> tx == null && err == Some(BeginError)
      ensures !faults.begin ==> err == None && tx != null && fresh(tx)
      ensures tx != null ==> tx.store == this && tx.writes == [] && tx.calls == 0
    {
      if faults.begin {
        tx, err := null, Some(BeginError);
      } else {
        tx := new Txn(this);
        err := None;
      }
    }
  }

  /** An open transaction: the writes it has staged and the number of Set/Delete calls made. */
  class Txn {
    const store: TxnKv
    var writes: seq<KvWrite>
    var calls: nat

    constructor (store: TxnKv)
      ensures this.store == store && writes == [] && calls == 0
    {
      this.store := store;
      writes := [];
      calls := 0;
    }

    method Set(key: Bytes, value: Bytes) returns (err: Option<KvError>)
      modifies this
      ensures calls == old(calls) + 1
      ensures err == (if old(calls) in store.faults.writes then Some(SetError) else None)
      ensures writes == old(writes) + (if err == None then [SetKey(key, value)] else [])
    {
      if calls in store.faults.writes {
        err := Some(SetError);
      } else {
        writes := writes + [SetKey(key, value)];
        err := None;
      }
      calls := calls + 1;
    }

    method Delete(key: Bytes) returns (err: Option<KvError>)
      modifies this
      ensures calls == old(calls) + 1
      ensures err == (if old(calls) in store.faults.writes then Some(DeleteError) else None)
      ensures writes == old(writes) + (if err == None then [DeleteKey(key)] else [])
    {
      if calls in store.faults.writes {
        err := Some(DeleteError);
      } else {
        writes := writes + [DeleteKey(key)];
        err := None;
      }
      calls := calls + 1;
    }

    /** All staged writes reach the store together, or none do. */
    method Commit() returns (err: Option<KvError>)
      modifies this, store
      ensures err == (if store.faults.commit then Some(CommitError) else None)
      ensures store.kv == if err == None then ApplyKv(old(store.kv), old(writes)) else old(store.kv)
      ensures writes == []
    {
      if store.faults.commit {
        err := Some(CommitError);
      } else {
        store.kv := ApplyKv(store.kv, writes);
        err := None;
      }
      writes := [];
    }

    method Rollback()
      modifies this
      ensures writes == [] && unchanged(store)
    {
      writes := [];
    }
  }

  // ---------------------------------------------------------------------------
  // What a batch stages

  /** A TxPut argument: any Go value. Keys must be byte slices. */
  datatype Value = BytesValue(bytes: Bytes) | OtherValue(id: int)

  predicate WellPaired(args: seq<Value>)
  {
    |args| % 2 == 0 && forall i :: 0 <= i < |args| / 2 ==> args[2 * i].BytesValue?
  }

  /** The (key, value) pairs of an argument list. */
  function Pairs(args: seq<Value>): (ps: seq<(Bytes, Value)>)
    requires WellPaired(args)
    ensures |ps| == |args| / 2
    ensures forall j :: 0 <= j < |ps| ==> ps[j] == (args[2 * j].bytes, args[2 * j + 1])
    decreases |args|
  {
    if args == [] then []
    else
      assert args[2 * 0].BytesValue?;
      assert WellPaired(args[2..]) by {
        forall i | 0 <= i < |args[2..]| / 2 ensures args[2..][2 * i].BytesValue? {
          assert args[2..][2 * i] == args[2 * (i + 1)];
        }
      }
      [(args[0].bytes, args[1])] + Pairs(args[2..])
  }

  datatype Staged = Staged(writes: seq<KvWrite>, err: Option<KvError>)

  /** The writes TxPut's loop stages from `pairs` when its first Set call has ordinal `n`,
      and the error that stops it: a marshal error (no Set is made for that pair) or a
      failing Set (which stages nothing). */
  function PutStaged(pairs: seq<(Bytes, Value)>, marshal: Value -> Option<Bytes>, failing: set<nat>, n: nat): Staged
    decreases |pairs|
  {
    if pairs == [] then Staged([], None)
    else match marshal(pairs[0].1)
      case None => Staged([], Some(MarshalError))
      case Some(v) =>
        if n in failing then Staged([], Some(SetError))
        else
          var rest := PutStaged(pairs[1..], marshal, failing, n + 1);
          Staged([SetKey(pairs[0].0, v)] + rest.writes, rest.err)
  }

  /** The writes TxDelete's loop stages from `keys` when its first Delete call has ordinal `n`. */
  function DeleteStaged(keys: seq<Bytes>, failing: set<nat>, n: nat): Staged
    decreases |keys|
  {
    if keys == [] then Staged([], None)
    else if n in failing then Staged([], Some(DeleteError))
    else
      var rest := DeleteStaged(keys[1..], failing, n + 1);
      Staged([DeleteKey(keys[0])] + rest.writes, rest.err)
  }

  /** `done` followed by what the rest of the loop stages is the whole batch. */
  ghost predicate StagedSoFar(done: seq<KvWrite>, pairs: seq<(Bytes, Value)>, marshal: Value -> Option<Bytes>,
                              failing: set<nat>, k: nat, whole: Staged)
  {
    k <= |pairs| &&
    var rest := PutStaged(pairs[k..], marshal, failing, k);
    done + rest.writes == whole.writes && rest.err == whole.err
  }


  lemma PutStagedStep(pairs: seq<(Bytes, Value)>, marshal: Value -> Option<Bytes>, failing: set<nat>, k: nat)
    requires k < |pairs|
    ensures PutStaged(pairs[k..], marshal, failing, k) ==
      match marshal(pairs[k].1)
      case None => Staged([], Some(MarshalError))
      case Some(v) =>
        if k in failing then Staged([], Some(SetError))
        else
          var rest := PutStaged(pairs[k + 1..], marshal, failing, k + 1);
          Staged([SetKey(pairs[k].0, v)] + rest.writes, rest.err)
  {
    assert pairs[k..][0] == pairs[k];
    assert pairs[k..][1..] == pairs[k + 1..];
  }

  /** What TxPut's loop stages: one Set per pair, in order, up to the first pair whose value
      does not marshal or whose Set fails; the batch is complete exactly when nothing failed. */
  lemma {:induction false} PutStagedSpec(pairs: seq<(Bytes, Value)>, marshal: Value -> Option<Bytes>, failing: set<nat>, n: nat)
    ensures var s := PutStaged(pairs, marshal, failing, n);
      && |s.writes| <= |pairs|
      && (forall i :: 0 <= i < |s.writes| ==>
            marshal(pairs[i].1).Some? && n + i !in failing
            && s.writes[i] == SetKey(pairs[i].0, marshal(pairs[i].1).value))
      && (s.err == None <==> |s.writes| == |pairs|)
      && (s.err != None ==>
            var p := pairs[|s.writes|];
            if marshal(p.1).None? then s.err == Some(MarshalError)
            else s.err == Some(SetError) && n + |s.writes| in failing)
    decreases |pairs|
  {
    if pairs != [] && marshal(pairs[0].1).Some? && n !in failing {
      PutStagedSpec(pairs[1..], marshal, failing, n + 1);
      var rest := PutStaged(pairs[1..], marshal, failing, n + 1);
      var s := PutStaged(pairs, marshal, failing, n);
      assert s.writes == [SetKey(pairs[0].0, marshal(pairs[0].1).value)] + rest.writes;
      forall i | 1 <= i < |s.writes|
        ensures marshal(pairs[i].1).Some? && n + i !in failing
          && s.writes[i] == SetKey(pairs[i].0, marshal(pairs[i].1).value)
      {
        assert s.writes[i] == rest.writes[i - 1] && pairs[1..][i - 1] == pairs[i];
      }
      if s.err != None {
        assert pairs[|s.writes|] == pairs[1..][|rest.writes|];
      }
    }
  }

  /** What TxDelete's loop stages: one Delete per key, in order, up to the first failing one. */
  lemma {:induction false} DeleteStagedSpec(keys: seq<Bytes>, failing: set<nat>, n: nat)
    ensures var s := DeleteStaged(keys, failing, n);
      && |s.writes| <= |keys|
      && (forall i :: 0 <= i < |s.writes| ==> s.writes[i] == DeleteKey(keys[i]))
      && (forall m :: n <= m < n + |s.writes| ==> m !in failing)
      && (s.err == None <==> |s.writes| == |keys|)
      && (s.err != None ==> s.err == Some(DeleteError) && n + |s.writes| in failing)
    decreases |keys|
  {
    if keys != [] && n !in failing {
      DeleteStagedSpec(keys[1..], failing, n + 1);
      var rest := DeleteStaged(keys[1..], failing, n + 1);
      var s := DeleteStaged(keys, failing, n);
      assert s.writes == [DeleteKey(keys[0])] + rest.writes;
      forall i | 1 <= i < |s.writes| ensures s.writes[i] == DeleteKey(keys[i]) {
        assert s.writes[i] == rest.writes[i - 1] && keys[1..][i - 1] == keys[i];
      }
    }
  }

  /** A key no write touches keeps its entry. */
  lemma {:induction false} ApplyKvUntouched(kv: map<Bytes, Bytes>, writes: seq<KvWrite>, k: Bytes)
    requires forall i :: 0 <= i < |writes| ==> writes[i].key != k
    ensures (k in ApplyKv(kv, writes)) == (k in kv)
    ensures k in kv ==> ApplyKv(kv, writes)[k] == kv[k]
    decreases |writes|
  {
    if writes != [] {
      var kv' := match writes[0]
        case SetKey(k0, v) => kv[k0 := v]
        case DeleteKey(k0) => kv - {k0};
      forall i | 0 <= i < |writes[1..]| ensures writes[1..][i].key != k {
        assert writes[1..][i] == writes[i + 1];
      }
      ApplyKvUntouched(kv', writes[1..], k);
    }
  }

  /** The last write to a key decides its entry. */
  lemma {:induction false} ApplyKvLastWrite(kv: map<Bytes, Bytes>, writes: seq<KvWrite>, i: nat)
    requires i < |writes|
    requires forall j :: i < j < |writes| ==> writes[j].key != writes[i].key
    ensures match writes[i]
      case SetKey(k, v) => k in ApplyKv(kv, writes) && ApplyKv(kv, writes)[k] == v
      case DeleteKey(k) => k !in ApplyKv(kv, writes)
    decreases |writes|
  {
    var kv' := match writes[0]
      case SetKey(k0, v) => kv[k0 := v]
      case DeleteKey(k0) => kv - {k0};
    if i == 0 {
      forall j | 0 <= j < |writes[1..]| ensures writes[1..][j].key != writes[0].key {
        assert writes[1..][j] == writes[j + 1];
      }
      ApplyKvUntouched(kv', writes[1..], writes[0].key);
    } else {
      forall j | i - 1 < j < |writes[1..]| ensures writes[1..][j].key != writes[1..][i - 1].key {
        assert writes[1..][j] == writes[j + 1];
      }
      ApplyKvLastWrite(kv', writes[1..], i - 1);
      assert writes[1..][i - 1] == writes[i];
    }
  }

  /** Every key in a scan range `prefix + TableSeparator + suffix` sorts below the range end
      `prefix + TableMaxKeySuffix`; since TableMaxKeySuffix is the two bytes C3 BF and not
      the byte FF, a key continuing the prefix with a byte C4 or above does not. */
  lemma {:induction false} ScanEndBoundsSeparatedKeys(prefix: Bytes, suffix: Bytes)
    ensures TableMaxKeySuffix == [0xC3, 0xBF] && TableSeparator == [92]
    ensures BytesLess(prefix + TableSeparator + suffix, prefix + TableMaxKeySuffix)
    ensures !BytesLess(prefix + [0xC4] + suffix, prefix + TableMaxKeySuffix)
    decreases |prefix|
  {
    if prefix != [] {
      ScanEndBoundsSeparatedKeys(prefix[1..], suffix);
      assert (prefix + TableSeparator + suffix)[1..] == prefix[1..] + TableSeparator + suffix;
      assert (prefix + [0xC4] + suffix)[1..] == prefix[1..] + [0xC4] + suffix;
      assert (prefix + TableMaxKeySuffix)[1..] == prefix[1..] + TableMaxKeySuffix;
    }
  }

  // ---------------------------------------------------------------------------
  // The client

  datatype KV = KV(K: Bytes, V: Bytes)

  /** What the rawkv driver's Scan answers: keys, values and an error. */
  datatype RawScan = RawScan(keys: seq<Bytes>, values: seq<Bytes>, err: Option<KvError>)

  class TiKVClient {
    const txnCli: TxnKv

    constructor (txnCli: TxnKv)
      ensures this.txnCli == txnCli
    {
      this.txnCli := txnCli;
    }

    /** Scan: pair each returned key with the value at the same position; nothing on a
        driver error. */
    method Scan(startKey: Bytes, endKey: Bytes, limit: int, rawScan: (Bytes, Bytes, int) -> RawScan)
      returns (ret: seq<KV>, err: Option<KvError>)
      requires |rawScan(startKey, endKey, limit).keys| <= |rawScan(startKey, endKey, limit).values|
      ensures var raw := rawScan(startKey, endKey, limit);
        && err == raw.err
        && (err != None ==> ret == [])
        && (err == None ==> (|ret| == |raw.keys| &&
              forall i :: 0 <= i < |ret| ==> ret[i] == KV(raw.keys[i], raw.values[i])))
    {
      var raw := rawScan(startKey, endKey, limit);
      var ks, vs := raw.keys, raw.values;
      if raw.err != None {
        return [], raw.err;
      }
      ret := [];
      for i := 0 to |ks|
        invariant |ret| == i
        invariant forall j :: 0 <= j < i ==> ret[j] == KV(ks[j], vs[j])
      {
        ret := ret + [KV(ks[i], vs[i])];
      }
      err := None;
    }

    /** TxPut as written: the loop's `err` shadows the one the deferred block reads, so the
        deferred block commits whenever Begin succeeded, and the returned value is the loop's
        error, never Commit's. */
    method TxPut(args: seq<Value>, marshal: Value -> Option<Bytes>) returns (result: Option<KvError>)
      requires WellPaired(args)
      modifies txnCli
      ensures var s := PutStaged(Pairs(args), marshal, txnCli.faults.writes, 0);
        && result == (if txnCli.faults.begin then Some(BeginError) else s.err)
        && txnCli.kv == (if txnCli.faults.begin || txnCli.faults.commit then old(txnCli.kv)
                         else ApplyKv(old(txnCli.kv), s.writes))
    {
      var tx, err := txnCli.Begin();
      if err != None {
        return err;
      }
      result := StagePuts(tx, args, marshal);
      // The deferred block: `err` is still the nil error of Begin.
      if err == None {
        err := tx.Commit();
      }
      if err != None {
        tx.Rollback();
      }
    }

    /** TxDelete as written: the same shadowing as in TxPut. */
    method TxDelete(keys: seq<Bytes>) returns (result: Option<KvError>)
      modifies txnCli
      ensures var s := DeleteStaged(keys, txnCli.faults.writes, 0);
        && result == (if txnCli.faults.begin then Some(BeginError) else s.err)
        && txnCli.kv == (if txnCli.faults.begin || txnCli.faults.commit then old(txnCli.kv)
                         else ApplyKv(old(txnCli.kv), s.writes))
    {
      var tx, err := txnCli.Begin();
      if err != None {
        return err;
      }
      result := StageDeletes(tx, keys);
      // The deferred block: `err` is still the nil error of Begin.
      if err == None {
        err := tx.Commit();
      }
      if err != None {
        tx.Rollback();
      }
    }

    /** TxPut with the loop's error reaching the deferred block (a named result): the batch
        is committed only when every Set succeeded, and a Commit error is returned. */
    method TxPutAtomic(args: seq<Value>, marshal: Value -> Option<Bytes>) returns (err: Option<KvError>)
      requires WellPaired(args)
      modifies txnCli
      ensures var s := PutStaged(Pairs(args), marshal, txnCli.faults.writes, 0);
        && err == (if txnCli.faults.begin then Some(BeginError) else if s.err != None then s.err
                   else if txnCli.faults.commit then Some(CommitError) else None)
        && txnCli.kv == (if err == None then ApplyKv(old(txnCli.kv), s.writes) else old(txnCli.kv))
    {
      var tx;
      tx, err := txnCli.Begin();
      if err != None {
        return err;
      }
      err := StagePuts(tx, args, marshal);
      if err == None {
        err := tx.Commit();
      }
      if err != None {
        tx.Rollback();
      }
    }

    /** TxDelete with the loop's error reaching the deferred block. */
    method TxDeleteAtomic(keys: seq<Bytes>) returns (err: Option<KvError>)
      modifies txnCli
      ensures var s := DeleteStaged(keys, txnCli.faults.writes, 0);
        && err == (if txnCli.faults.begin then Some(BeginError) else if s.err != None then s.err
                   else if txnCli.faults.commit then Some(CommitError) else None)
        && txnCli.kv == (if err == None then ApplyKv(old(txnCli.kv), s.writes) else old(txnCli.kv))
    {
      var tx;
      tx, err := txnCli.Begin();
      if err != None {
        return err;
      }
      err := StageDeletes(tx, keys);
      if err == None {
        err := tx.Commit();
      }
      if err != None {
        tx.Rollback();
      }
    }
  }

  /** The loop of TxPut: for each (key, value) pair, marshal the value and Set it, stopping at
      the first error. */
  method StagePuts(tx: Txn, args: seq<Value>, marshal: Value -> Option<Bytes>) returns (result: Option<KvError>)
    requires WellPaired(args) && tx.writes == [] && tx.calls == 0
    modifies tx
    ensures var s := PutStaged(Pairs(args), marshal, tx.store.faults.writes, 0);
      tx.writes == s.writes && result == s.err
  {
    ghost var pairs := Pairs(args);
    ghost var failing := tx.store.faults.writes;
    ghost var whole := PutStaged(pairs, marshal, failing, 0);
    result := None;
    var i := 0;
    ghost var j := 0;  // the pair index, i / 2
    while i < |args| && result == None
      invariant 0 <= j <= |pairs| && i == 2 * j
      invariant result == None ==> tx.calls == j && StagedSoFar(tx.writes, pairs, marshal, failing, j, whole)
      invariant result != None ==> tx.writes == whole.writes && result == whole.err
      decreases |args| - i, if result == None then 1 else 0
    {
      PutStagedStep(pairs, marshal, failing, j);
      assert args[2 * j].BytesValue? && pairs[j] == (args[2 * j].bytes, args[2 * j + 1]);
      var key := args[i].bytes;
      var val := args[i + 1];
      var v := marshal(val);
      if v == None {
        result := Some(MarshalError);
      } else {
        ghost var done := tx.writes;
        var err := tx.Set(key, v.value);
        if err != None {
          result := err;
        } else {
          SeqAssoc(done, [SetKey(key, v.value)], PutStaged(pairs[j + 1..], marshal, failing, j + 1).writes);
          i, j := i + 2, j + 1;
        }
      }
    }
    if result == None {
      assert pairs[j..] == [];
      assert tx.writes + [] == whole.writes;
    }
  }

  /** The loop of TxDelete: Delete each key, stopping at the first error. */
  method StageDeletes(tx: Txn, keys: seq<Bytes>) returns (result: Option<KvError>)
    requires tx.writes == [] && tx.calls == 0
    modifies tx
    ensures var s := DeleteStaged(keys, tx.store.faults.writes, 0);
      tx.writes == s.writes && result == s.err
  {
    ghost var failing := tx.store.faults.writes;
    ghost var whole := DeleteStaged(keys, failing, 0);
    result := None;
    var i := 0;
    while i < |keys| && result == None
      invariant 0 <= i <= |keys|
      invariant result == None ==> (tx.calls == i &&
        (var rest := DeleteStaged(keys[i..], failing, i); tx.writes + rest.writes == whole.writes && rest.err == whole.err))
      invariant result != None ==> tx.writes == whole.writes && result == whole.err
      decreases |keys| - i, if result == None then 1 else 0
    {
      assert keys[i..][0] == keys[i] && keys[i..][1..] == keys[i + 1..];
      ghost var done := tx.writes;
      var err := tx.Delete(keys[i]);
      if err != None {
        result := err;
      } else {
        SeqAssoc(done, [DeleteKey(keys[i])], DeleteStaged(keys[i + 1..], failing, i + 1).writes);
        i := i + 1;
      }
    }
    if result == None {
      assert keys[i..] == [];
      assert tx.writes + [] == whole.writes;
    }
  }

  /** TxPut on an empty store with the second Set failing: the first pair is committed and
      the Set error returned. TxPutAtomic commits nothing. */
  method PartialBatchExample() returns (asWritten: Option<KvError>, keptAsWritten: map<Bytes, Bytes>,
                                        atomic: Option<KvError>, keptAtomic: map<Bytes, Bytes>)
    ensures asWritten == Some(SetError) && keptAsWritten == map[[1] := [0]]
    ensures atomic == Some(SetError) && keptAtomic == map[]
  {
    var args := [BytesValue([1]), OtherValue(7), BytesValue([2]), OtherValue(8)];
    var marshal := (v: Value) => Some([0 as byte]);
    assert WellPaired(args) by {
      forall i | 0 <= i < |args| / 2 ensures args[2 * i].BytesValue? {
        assert i == 0 || i == 1;
      }
    }
    var pairs := Pairs(args);
    assert pairs == [([1], OtherValue(7)), ([2], OtherValue(8))];
    assert pairs[1..][1..] == [];
    assert marshal(pairs[0].1) == Some([0]) && marshal(pairs[1].1) == Some([0]);
    assert pairs[1..][0] == pairs[1];
    var rest := PutStaged(pairs[1..], marshal, {1}, 1);
    assert rest == Staged([], Some(SetError));
    var s := PutStaged(pairs, marshal, {1}, 0);
    assert s.writes == [SetKey([1], [0])] && s.err == Some(SetError);
    var store := new TxnKv(map[], KvFaults(false, {1}, false));
    var client := new TiKVClient(store);
    asWritten := client.TxPut(args, marshal);
    keptAsWritten := store.kv;
    assert ApplyKv(map[], s.writes) == map[[1] := [0]];
    var store2 := new TxnKv(map[], KvFaults(false, {1}, false));
    var client2 := new TiKVClient(store2);
    atomic := client2.TxPutAtomic(args, marshal);
    keptAtomic := store2.kv;
  }

  /** TxDelete with a failing Commit reports success although nothing was deleted;
      TxDeleteAtomic reports the Commit error. */
  method LostCommitErrorExample() returns (asWritten: Option<KvError>, keptAsWritten: map<Bytes, Bytes>,
                                           atomic: Option<KvError>)
    ensures asWritten == None && keptAsWritten == map[[1] := [0]]
    ensures atomic == Some(CommitError)
  {
    var keys: seq<Bytes> := [[1]];
    var s := DeleteStaged(keys, {}, 0);
    assert keys[1..] == [];
    assert s.writes == [DeleteKey([1])] && s.err == None;
    var store := new TxnKv(map[[1] := [0]], KvFaults(false, {}, true));
    var client := new TiKVClient(store);
    asWritten := client.TxDelete(keys);
    keptAsWritten := store.kv;
    var store2 := new TxnKv(map[[1] := [0]], KvFaults(false, {}, true));
    var client2 := new TiKVClient(store2);
    atomic := client2.TxDeleteAtomic(keys);
  }
}
