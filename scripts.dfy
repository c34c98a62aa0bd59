// The two Lua scripts RedisLayer registers (data_layer/redis.go:45-59), as
// the store runs them, and EVALSHA, which looks a script up by its handle.
module Scripts {
  import opened Store

  /** How many matched keys one `del` of the clean-cache script removes. */
  const ChunkSize: nat := 5000

  /** A key the clean-cache script names in every `del` it issues. */
  const DefaultKey: Key := "defaultKey"

  function Min(a: nat, b: nat): nat
  {
    if a <= b then a else b
  }

  // ---------------------------------------------------------------------
  // Chunk arithmetic of `for i=1,#keys,5000 do ... unpack(keys, i, math.min(i+4999, #keys))`

  /** The 1-based inclusive index ranges visited by `for i=start,n,5000`,
      each clipped at `n`. */
  function ChunksFrom(start: nat, n: nat): seq<(nat, nat)>
    requires start >= 1
    decreases if start <= n then n + 1 - start else 0
  {
    if start > n then []
    else [(start, Min(start + ChunkSize - 1, n))] + ChunksFrom(start + ChunkSize, n)
  }

  /** The chunks of a KEYS reply of length `n`. */
  function Chunks(n: nat): seq<(nat, nat)>
  {
    ChunksFrom(1, n)
  }

  predicate InChunk(c: (nat, nat), k: nat)
  {
    c.0 <= k <= c.1
  }

  /** Chunk `j` starts `j` steps of 5000 after `start`, ends at the start's
      4999th successor or at `n`, whichever comes first, and is never empty;
      there are exactly as many chunks as the loop has iterations. */
  lemma {:induction false} ChunksFromShape(start: nat, n: nat)
    requires start >= 1
    ensures |ChunksFrom(start, n)| == if start > n then 0 else (n - start) / ChunkSize + 1
    ensures forall j :: 0 <= j < |ChunksFrom(start, n)| ==>
              ChunksFrom(start, n)[j].0 == start + j * ChunkSize <= n &&
              ChunksFrom(start, n)[j].1 == Min(start + j * ChunkSize + ChunkSize - 1, n)
    decreases if start <= n then n + 1 - start else 0
  {
    if start <= n {
      ChunksFromShape(start + ChunkSize, n);
      var cs := ChunksFrom(start, n);
      var rest := ChunksFrom(start + ChunkSize, n);
      assert cs == [(start, Min(start + ChunkSize - 1, n))] + rest;
      forall j | 1 <= j < |cs|
        ensures cs[j].0 == start + j * ChunkSize && cs[j].1 == Min(start + j * ChunkSize + ChunkSize - 1, n)
      {
        assert cs[j] == rest[j - 1];
      }
    }
  }

  /** No chunk holds more than 5000 keys, each one begins right after the one
      before it, the first begins at 1 and the last ends at `n`. */
  lemma ChunksContiguous(n: nat)
    ensures |Chunks(n)| == (n + ChunkSize - 1) / ChunkSize
    ensures forall j :: 0 <= j < |Chunks(n)| ==> 1 <= Chunks(n)[j].0 <= Chunks(n)[j].1 <= n
    ensures forall j :: 0 <= j < |Chunks(n)| ==> Chunks(n)[j].1 - Chunks(n)[j].0 < ChunkSize
    ensures forall j :: 0 < j < |Chunks(n)| ==> Chunks(n)[j].0 == Chunks(n)[j - 1].1 + 1
    ensures n > 0 ==> Chunks(n)[0].0 == 1 && Chunks(n)[|Chunks(n)| - 1].1 == n
  {
    ChunksFromShape(1, n);
    var cs := Chunks(n);
    if n > 0 {
      var last := |cs| - 1;
      assert last == (n - 1) / ChunkSize;
      assert cs[last].0 + ChunkSize - 1 >= n;
    }
  }

  /** Every index of a KEYS reply falls in exactly one chunk: the chunks
      partition `1..n`, so each matched key is deleted by exactly one `del`. */
  lemma ChunksPartition(n: nat, k: nat)
    requires 1 <= k <= n
    ensures (k - 1) / ChunkSize < |Chunks(n)|
    ensures InChunk(Chunks(n)[(k - 1) / ChunkSize], k)
    ensures forall j :: 0 <= j < |Chunks(n)| && InChunk(Chunks(n)[j], k) ==> j == (k - 1) / ChunkSize
  {
    ChunksFromShape(1, n);
    var cs := Chunks(n);
    var q := (k - 1) / ChunkSize;
    assert q * ChunkSize <= k - 1 < q * ChunkSize + ChunkSize;
    forall j | 0 <= j < |cs| && InChunk(cs[j], k)
      ensures j == q
    {
      assert j * ChunkSize <= k - 1 < j * ChunkSize + ChunkSize;
    }
  }

  // ---------------------------------------------------------------------
  // The batch-exist script

  predicate AllExist(data: map<Key, Entry>, keys: seq<Key>)
  {
    forall i :: 0 <= i < |keys| ==> keys[i] in data
  }

  /** Runs `for idx, val in pairs(KEYS) do if EXISTS val == 0 then return 0 ... return 1`.
      `probes` is how many EXISTS calls it made: it stops at the first absent key. */
  method RunBatchExist(store: Store, keys: seq<Key>) returns (r: int, ghost probes: nat)
    ensures r == 1 <==> AllExist(store.data, keys)
    ensures r == 0 <==> !AllExist(store.data, keys)
    ensures r == 1 ==> probes == |keys|
    ensures r == 0 ==> 0 < probes <= |keys| && keys[probes - 1] !in store.data &&
                       forall j :: 0 <= j < probes - 1 ==> keys[j] in store.data
  {
    for i := 0 to |keys|
      invariant forall j :: 0 <= j < i ==> keys[j] in store.data
    {
      // `EXISTS val` on one key replies 0 exactly when the key is absent
      if CountExisting(store.data, [keys[i]]) == 0 {
        return 0, i + 1;
      }
    }
    return 1, |keys|;
  }

  // ---------------------------------------------------------------------
  // The clean-cache script

  /** The store after the clean-cache script ran with `ARGV[1] == pattern`. */
  function CleanEffect(data: map<Key, Entry>, pattern: string): (d: map<Key, Entry>)
    ensures forall k :: k in d ==> k in data && d[k] == data[k]
    ensures forall k :: GlobMatch(pattern, k) ==> k !in d
    ensures forall k :: k in data && !GlobMatch(pattern, k) && k != DefaultKey ==> k in d
    ensures DefaultKey in data && !GlobMatch(pattern, DefaultKey) ==>
              (DefaultKey in d <==> MatchingKeys(data, pattern) == {})
    ensures MatchingKeys(data, pattern) == {} ==> d == data
  {
    var matched := MatchingKeys(data, pattern);
    if matched == {} then data else data - matched - {DefaultKey}
  }

  lemma KeySetConcat(a: seq<Key>, b: seq<Key>)
    ensures KeySet(a + b) == KeySet(a) + KeySet(b)
  {
  }

  /** `dels` holds one DEL argument list per chunk of `matched`, in order:
      `defaultKey` followed by the chunk's keys. */
  ghost predicate ChunkedDels(matched: seq<Key>, dels: seq<seq<Key>>)
  {
    var cs := Chunks(|matched|);
    |dels| == |cs| &&
    forall j :: 0 <= j < |dels| ==>
      1 <= cs[j].0 <= cs[j].1 <= |matched| && dels[j] == [DefaultKey] + matched[cs[j].0 - 1..cs[j].1]
  }

  /** The store once the chunks covering the first `m` matched keys were deleted. */
  function AfterChunks(d0: map<Key, Entry>, keys: seq<Key>, m: nat): map<Key, Entry>
    requires m <= |keys|
  {
    d0 - KeySet(keys[..m]) - (if m == 0 then {} else {DefaultKey})
  }

  lemma DeleteChunkStep(d0: map<Key, Entry>, keys: seq<Key>, lo: nat, hi: nat)
    requires lo <= hi <= |keys| && lo < hi
    ensures AfterChunks(d0, keys, lo) - KeySet([DefaultKey] + keys[lo..hi]) == AfterChunks(d0, keys, hi)
  {
    assert keys[..hi] == keys[..lo] + keys[lo..hi];
    KeySetConcat(keys[..lo], keys[lo..hi]);
    KeySetConcat([DefaultKey], keys[lo..hi]);
  }

  /** Runs `local keys = redis.call('keys', ARGV[1])` and then, for every
      chunk, `redis.call('del', 'defaultKey', unpack(keys, i, math.min(i+4999, #keys)))`.
      `matched` is the KEYS reply and `dels` the argument lists of the DELs issued. */
  method RunCleanCache(store: Store, argv: seq<string>) returns (r: Reply<int>, ghost matched: seq<Key>, ghost dels: seq<seq<Key>>)
    modifies store`data
    ensures |argv| == 0 ==> r == Err(ScriptError) && store.data == old(store.data)
    ensures |argv| > 0 ==> r == Ok(1) && store.data == CleanEffect(old(store.data), argv[0])
    ensures |argv| > 0 ==> KeySet(matched) == MatchingKeys(old(store.data), argv[0])
    ensures ChunkedDels(matched, dels)
  {
    if |argv| == 0 {
      // ARGV[1] is nil, which redis.call refuses as an argument
      return Err(ScriptError), [], [];
    }
    var keys := store.Keys(argv[0]);
    matched := keys;
    var n := |keys|;
    ghost var d0 := store.data;
    ghost var done: seq<(nat, nat)> := [];
    dels := [];
    var i := 1;
    while i <= n
      invariant 1 <= i <= n + ChunkSize
      invariant done + ChunksFrom(i, n) == Chunks(n)
      invariant |dels| == |done|
      invariant forall j :: 0 <= j < |done| ==>
                  1 <= done[j].0 <= done[j].1 <= n && dels[j] == [DefaultKey] + keys[done[j].0 - 1..done[j].1]
      invariant store.data == AfterChunks(d0, keys, Min(i - 1, n))
      decreases n + 1 - i
    {
      var hi := Min(i + ChunkSize - 1, n);
      var args := [DefaultKey] + keys[i - 1..hi];
      var _ := store.Del(args, None);
      DeleteChunkStep(d0, keys, i - 1, hi);
      done := done + [(i, hi)];
      dels := dels + [args];
      i := i + ChunkSize;
    }
    assert keys[..n] == keys;
    assert KeySet(keys) == MatchingKeys(d0, argv[0]);
    if n > 0 {
      assert keys[0] in KeySet(keys);
    }
    r := Ok(1);
  }

  // ---------------------------------------------------------------------
  // EVALSHA

  /** The store and the reply after `EVALSHA sha numkeys keys... argv...`. */
  function EvalShaResult(data: map<Key, Entry>, scripts: map<string, Script>, sha: string,
                         keys: seq<Key>, argv: seq<string>, fault: Option<StoreError>): (map<Key, Entry>, Reply<int>)
  {
    if fault.Some? then (data, Err(fault.value))
    else if sha !in scripts then (data, Err(NoScript))
    else match scripts[sha]
      case BatchExistScript => (data, Ok(if AllExist(data, keys) then 1 else 0))
      case CleanCacheScript =>
        if |argv| == 0 then (data, Err(ScriptError)) else (CleanEffect(data, argv[0]), Ok(1))
  }

  method EvalSha(store: Store, sha: string, keys: seq<Key>, argv: seq<string>, fault: Option<StoreError>) returns (r: Reply<int>)
    modifies store`data
    ensures (store.data, r) == EvalShaResult(old(store.data), store.scripts, sha, keys, argv, fault)
  {
    if fault.Some? {
      return Err(fault.value);
    }
    if sha !in store.scripts {
      return Err(NoScript);
    }
    match store.scripts[sha]
    case BatchExistScript =>
      var x;
      ghost var probes;
      x, probes := RunBatchExist(store, keys);
      r := Ok(x);
    case CleanCacheScript =>
      ghost var matched, dels;
      r, matched, dels := RunCleanCache(store, argv);
  }
}
