// RedisLayer (data_layer/redis.go): the cache's façade over the store. The
// Go client handles `r.client` and `r.r` reach the same connection and are
// one `client` here; the logger is left out.
module DataLayer {
  import opened Store
  import opened Scripts

  /** util.Kv: one key/value pair to write. */
  datatype Kv = Kv(key: Key, value: Value)

  const Int64Min: int := -0x8000_0000_0000_0000
  const Int64Max: int := 0x7FFF_FFFF_FFFF_FFFF
  const TwoTo64: int := 0x1_0000_0000_0000_0000

  predicate IsInt64(x: int)
  {
    Int64Min <= x <= Int64Max
  }

  /** Go's int64 arithmetic: the exact result taken modulo 2^64 and read back
      as a signed value. */
  function Wrap64(x: int): (r: int)
    ensures IsInt64(r)
    ensures (x - r) % TwoTo64 == 0
    ensures IsInt64(x) ==> r == x
  {
    (x - Int64Min) % TwoTo64 + Int64Min
  }

  /** The expiry BatchSetKeys gives every SET when a TTL is configured:
      `ExSeconds(r.ttl*1000)`, the product computed in int64. */
  function SetExpiry(ttl: int): Expiry
  {
    Seconds(Wrap64(ttl * 1000))
  }

  /** The KEYS pattern that selects one namespace: `prefix + ":*"`. */
  function Pattern(prefix: string): string
  {
    prefix + ":*"
  }

  /** With the model's literal matching, the pattern built from `prefix`
      selects exactly the keys that start with `prefix + ":"`. */
  lemma PatternSelectsNamespace(prefix: string, key: Key)
    ensures GlobMatch(Pattern(prefix), key) <==> prefix + ":" <= key
  {
    assert Pattern(prefix)[..|Pattern(prefix)| - 1] == prefix + ":";
  }

  function ErrOf<T>(r: Reply<T>): Option<StoreError>
  {
    if r.Err? then Some(r.error) else None
  }

  // ---------------------------------------------------------------------
  // Writing pairs

  function KeysOf(kvs: seq<Kv>): set<Key>
  {
    set i | 0 <= i < |kvs| :: kvs[i].key
  }

  /** The value of the last pair in `kvs` that names `k`. */
  function LastValue(kvs: seq<Kv>, k: Key): Value
    requires k in KeysOf(kvs)
  {
    var last := kvs[|kvs| - 1];
    if last.key == k then last.value
    else
      assert k in KeysOf(kvs[..|kvs| - 1]) by {
        var i :| 0 <= i < |kvs| && kvs[i].key == k;
        assert kvs[..|kvs| - 1][i].key == k;
      }
      LastValue(kvs[..|kvs| - 1], k)
  }

  /** The store after every pair was written in order with expiry `e`. */
  function StoreAll(data: map<Key, Entry>, kvs: seq<Kv>, e: Expiry): map<Key, Entry>
  {
    if kvs == [] then data
    else StoreAll(data, kvs[..|kvs| - 1], e)[kvs[|kvs| - 1].key := Entry(kvs[|kvs| - 1].value, e)]
  }

  /** Writing pairs in order leaves each written key at its last value in
      `kvs`, and every other key as it was. */
  lemma {:induction false} StoreAllLastWins(data: map<Key, Entry>, kvs: seq<Kv>, e: Expiry, k: Key)
    ensures k in KeysOf(kvs) ==> k in StoreAll(data, kvs, e) && StoreAll(data, kvs, e)[k] == Entry(LastValue(kvs, k), e)
    ensures k !in KeysOf(kvs) ==> (k in StoreAll(data, kvs, e) <==> k in data)
    ensures k !in KeysOf(kvs) && k in data ==> StoreAll(data, kvs, e)[k] == data[k]
  {
    if kvs != [] {
      var init := kvs[..|kvs| - 1];
      StoreAllLastWins(data, init, e, k);
      assert KeysOf(kvs) == KeysOf(init) + {kvs[|kvs| - 1].key} by {
        forall x | x in KeysOf(kvs) ensures x in KeysOf(init) + {kvs[|kvs| - 1].key} {
          var i :| 0 <= i < |kvs| && kvs[i].key == x;
          if i < |kvs| - 1 { assert init[i].key == x; }
        }
        forall x | x in KeysOf(init) ensures x in KeysOf(kvs) {
          var i :| 0 <= i < |init| && init[i].key == x;
          assert kvs[i].key == x;
        }
      }
    }
  }

  /** The MSET argument list: key and value of each pair, alternating. */
  ghost predicate Interleaved(kvs: seq<Kv>, args: seq<string>)
  {
    |args| == 2 * |kvs| &&
    forall i :: 0 <= i < |kvs| ==> args[2 * i] == kvs[i].key && args[2 * i + 1] == kvs[i].value
  }

  /** The loop that fills `spreads` for MSET. */
  method Spread(kvs: seq<Kv>) returns (spreads: seq<string>)
    ensures |spreads| == 2 * |kvs|
    ensures forall i :: 0 <= i < |kvs| ==> spreads[2 * i] == kvs[i].key && spreads[2 * i + 1] == kvs[i].value
  {
    spreads := [];
    for i := 0 to |kvs|
      invariant |spreads| == 2 * i
      invariant forall j :: 0 <= j < i ==> spreads[2 * j] == kvs[j].key && spreads[2 * j + 1] == kvs[j].value
    {
      spreads := spreads + [kvs[i].key];
      spreads := spreads + [kvs[i].value];
    }
  }

  /** MSET over the interleaved list writes the pairs in order, without expiry. */
  lemma {:induction false} MSetOfInterleaved(data: map<Key, Entry>, kvs: seq<Kv>, args: seq<string>)
    requires Interleaved(kvs, args)
    ensures MSetArgs(data, args) == StoreAll(data, kvs, Persistent)
  {
    if kvs != [] {
      var n := |kvs|;
      var init := kvs[..n - 1];
      var initArgs := args[..2 * n - 2];
      assert Interleaved(init, initArgs) by {
        forall i | 0 <= i < |init|
          ensures initArgs[2 * i] == init[i].key && initArgs[2 * i + 1] == init[i].value
        {
          assert args[2 * i] == kvs[i].key && args[2 * i + 1] == kvs[i].value;
        }
      }
      MSetOfInterleaved(data, init, initArgs);
      assert args[2 * (n - 1)] == kvs[n - 1].key && args[2 * (n - 1) + 1] == kvs[n - 1].value;
    }
  }

  /** The loop that builds one SET per pair for the pipeline. */
  method BuildSetCommands(kvs: seq<Kv>, ttl: int) returns (cmds: seq<SetCommand>)
    ensures |cmds| == |kvs|
    ensures forall i :: 0 <= i < |kvs| ==> cmds[i] == SetCommand(kvs[i].key, kvs[i].value, SetExpiry(ttl))
  {
    cmds := [];
    for i := 0 to |kvs|
      invariant |cmds| == i
      invariant forall j :: 0 <= j < i ==> cmds[j] == SetCommand(kvs[j].key, kvs[j].value, SetExpiry(ttl))
    {
      cmds := cmds + [SetCommand(kvs[i].key, kvs[i].value, SetExpiry(ttl))];
    }
  }

  /** `err` is the first error among `resps`, or none if all succeeded. */
  ghost predicate IsFirstError(resps: seq<Option<StoreError>>, err: Option<StoreError>)
  {
    (err.None? <==> forall i :: 0 <= i < |resps| ==> resps[i].None?) &&
    (err.Some? ==> exists i :: 0 <= i < |resps| && resps[i] == err && forall j :: 0 <= j < i ==> resps[j].None?)
  }

  /** The scan over the DoMulti responses that returns the first error. */
  method FirstError(resps: seq<Option<StoreError>>) returns (err: Option<StoreError>)
    ensures IsFirstError(resps, err)
  {
    for i := 0 to |resps|
      invariant forall j :: 0 <= j < i ==> resps[j].None?
    {
      if resps[i].Some? {
        return resps[i];
      }
    }
    return None;
  }

  /** Each pipelined SET's response depends only on its own transport verdict
      and its expiry: the store refuses a non-positive expiry. */
  lemma {:induction false} PipelineResponses(data: map<Key, Entry>, cmds: seq<SetCommand>, faults: seq<Option<StoreError>>)
    requires |faults| == |cmds|
    ensures forall i :: 0 <= i < |cmds| ==>
              Pipeline(data, cmds, faults).resps[i] ==
                if faults[i].Some? then faults[i]
                else if !ValidExpiry(cmds[i].expiry) then Some(InvalidExpire)
                else None
  {
    if cmds != [] {
      var n := |cmds|;
      PipelineResponses(data, cmds[..n - 1], faults[..n - 1]);
    }
  }

  /** A key no pipelined SET names keeps its entry, or its absence. */
  lemma {:induction false} PipelineUntouched(data: map<Key, Entry>, cmds: seq<SetCommand>, faults: seq<Option<StoreError>>, k: Key)
    requires |faults| == |cmds|
    requires forall i :: 0 <= i < |cmds| ==> cmds[i].key != k
    ensures k in Pipeline(data, cmds, faults).data <==> k in data
    ensures k in data ==> Pipeline(data, cmds, faults).data[k] == data[k]
  {
    if cmds != [] {
      var n := |cmds|;
      PipelineUntouched(data, cmds[..n - 1], faults[..n - 1], k);
    }
  }

  /** When every SET gets through and the expiry is positive, the pipeline
      writes the pairs in order, each with that expiry. */
  lemma {:induction false} PipelineAllApplied(data: map<Key, Entry>, kvs: seq<Kv>, cmds: seq<SetCommand>, faults: seq<Option<StoreError>>, e: Expiry)
    requires |cmds| == |kvs| == |faults|
    requires forall i :: 0 <= i < |kvs| ==> cmds[i] == SetCommand(kvs[i].key, kvs[i].value, e)
    requires forall i :: 0 <= i < |faults| ==> faults[i].None?
    requires ValidExpiry(e)
    ensures Pipeline(data, cmds, faults).data == StoreAll(data, kvs, e)
  {
    if cmds != [] {
      var n := |cmds|;
      PipelineAllApplied(data, kvs[..n - 1], cmds[..n - 1], faults[..n - 1], e);
    }
  }

  /** When the expiry is not positive, no SET is applied. */
  lemma {:induction false} PipelineNoneApplied(data: map<Key, Entry>, cmds: seq<SetCommand>, faults: seq<Option<StoreError>>, e: Expiry)
    requires |cmds| == |faults|
    requires forall i :: 0 <= i < |cmds| ==> cmds[i].expiry == e
    requires !ValidExpiry(e)
    ensures Pipeline(data, cmds, faults).data == data
  {
    if cmds != [] {
      var n := |cmds|;
      PipelineNoneApplied(data, cmds[..n - 1], faults[..n - 1], e);
    }
  }

  /** The pairs whose SET the transport delivered, in their original order. */
  function Delivered(kvs: seq<Kv>, faults: seq<Option<StoreError>>): (d: seq<Kv>)
    requires |faults| == |kvs|
    ensures |d| <= |kvs|
    ensures (forall i :: 0 <= i < |faults| ==> faults[i].None?) ==> d == kvs
    ensures (forall i :: 0 <= i < |faults| ==> faults[i].Some?) ==> d == []
  {
    if kvs == [] then []
    else
      var n := |kvs|;
      assert kvs == kvs[..n - 1] + [kvs[n - 1]];
      Delivered(kvs[..n - 1], faults[..n - 1]) + (if faults[n - 1].None? then [kvs[n - 1]] else [])
  }

  /** With a positive expiry, a pipeline in which some SETs fail in transit
      writes exactly the delivered pairs, in order: each failed SET is skipped
      and the others land as if it had not been sent. */
  lemma {:induction false} PipelineDelivered(data: map<Key, Entry>, kvs: seq<Kv>, cmds: seq<SetCommand>, faults: seq<Option<StoreError>>, e: Expiry)
    requires |cmds| == |kvs| == |faults|
    requires forall i :: 0 <= i < |kvs| ==> cmds[i] == SetCommand(kvs[i].key, kvs[i].value, e)
    requires ValidExpiry(e)
    ensures Pipeline(data, cmds, faults).data == StoreAll(data, Delivered(kvs, faults), e)
  {
    if cmds != [] {
      var n := |cmds|;
      PipelineDelivered(data, kvs[..n - 1], cmds[..n - 1], faults[..n - 1], e);
      var prefix := Delivered(kvs[..n - 1], faults[..n - 1]);
      if faults[n - 1].None? {
        assert (prefix + [kvs[n - 1]])[..|prefix|] == prefix;
      } else {
        assert prefix + [] == prefix;
      }
    }
  }

  // ---------------------------------------------------------------------
  // Reading a batch

  /** A RedisMessage, as far as the loop in BatchGetValues sees it: what its
      `Error()` and its `ToString()` report. */
  datatype Message = Message(err: Option<StoreError>, str: Reply<string>)

  /** What BatchGetValues ends in: the strings, an error, or the Go runtime
      panic of calling `Error()` on the nil `err`. */
  datatype GetOutcome = Values(vs: seq<Value>) | Failed(error: StoreError) | NilErrorDereference

  predicate Usable(m: Message)
  {
    m.err.None? && m.str.Ok?
  }

  /** `i` is the first message the loop cannot turn into a string. */
  ghost predicate FirstUnusable(msgs: seq<Message>, i: int)
  {
    0 <= i < |msgs| && !Usable(msgs[i]) && forall j :: 0 <= j < i ==> Usable(msgs[j])
  }

  /** The loop of BatchGetValues as written: a message whose `Error()` is set
      ends in the nil dereference, one whose `ToString()` fails ends in that
      error, and only an all-usable list yields strings, all of them, in order. */
  function Collect(msgs: seq<Message>): (o: GetOutcome)
    ensures o.Values? <==> forall i :: 0 <= i < |msgs| ==> Usable(msgs[i])
    ensures o.Values? ==> |o.vs| == |msgs| && forall i :: 0 <= i < |msgs| ==> msgs[i].str == Ok(o.vs[i])
    ensures o.NilErrorDereference? <==> exists i :: FirstUnusable(msgs, i) && msgs[i].err.Some?
    ensures o.Failed? ==> exists i :: FirstUnusable(msgs, i) && msgs[i].err.None? && msgs[i].str == Err(o.error)
  {
    if msgs == [] then Values([])
    else if msgs[0].err.Some? then NilErrorDereference
    else if msgs[0].str.Err? then Failed(msgs[0].str.error)
    else match Collect(msgs[1..])
      case Values(vs) => Values([msgs[0].str.value] + vs)
      case other =>
        assert forall i :: FirstUnusable(msgs[1..], i) ==> FirstUnusable(msgs, i + 1);
        assert forall i :: FirstUnusable(msgs, i) ==> i > 0 && FirstUnusable(msgs[1..], i - 1);
        other
  }

  /** `o` with `strs` put in front of its strings, if it has any. */
  function Prepend(strs: seq<Value>, o: GetOutcome): GetOutcome
  {
    if o.Values? then Values(strs + o.vs) else o
  }

  lemma CollectStep(msgs: seq<Message>, i: nat, strs: seq<Value>)
    requires i < |msgs| && Usable(msgs[i])
    ensures Prepend(strs, Collect(msgs[i..])) == Prepend(strs + [msgs[i].str.value], Collect(msgs[i + 1..]))
  {
    assert msgs[i..][1..] == msgs[i + 1..];
    var rest := Collect(msgs[i + 1..]);
    if rest.Values? {
      assert strs + ([msgs[i].str.value] + rest.vs) == (strs + [msgs[i].str.value]) + rest.vs;
    }
  }

  /** The loop over the fetched messages, exactly as BatchGetValues runs it. */
  method CollectStrings(msgs: seq<Message>) returns (o: GetOutcome)
    ensures o == Collect(msgs)
  {
    var strs: seq<Value> := [];
    assert msgs[0..] == msgs;
    for i := 0 to |msgs|
      invariant Collect(msgs) == Prepend(strs, Collect(msgs[i..]))
    {
      if msgs[i].err.Some? {
        return NilErrorDereference;
      }
      var v := msgs[i].str;
      if v.Err? {
        return Failed(v.error);
      }
      CollectStep(msgs, i, strs);
      strs := strs + [v.value];
    }
    assert msgs[|msgs|..] == [];
    o := Values(strs);
  }

  /** The message the fetch yields for one key: its value, or the nil reply. */
  function Fetch(data: map<Key, Entry>, k: Key): Message
  {
    if k in data then Message(None, Ok(data[k].value)) else Message(Some(RedisNil), Err(RedisNil))
  }

  function FetchAll(data: map<Key, Entry>, order: seq<Key>): (msgs: seq<Message>)
    ensures |msgs| == |order|
  {
    seq(|order|, i requires 0 <= i < |order| => Fetch(data, order[i]))
  }

  /** Reading keys from the store: all present gives their values in the
      visiting order; any absent key ends in the nil dereference. */
  lemma BatchGetFromStore(data: map<Key, Entry>, order: seq<Key>)
    ensures (forall i :: 0 <= i < |order| ==> order[i] in data) ==>
              Collect(FetchAll(data, order)).Values? &&
              |Collect(FetchAll(data, order)).vs| == |order| &&
              forall i :: 0 <= i < |order| ==> Collect(FetchAll(data, order)).vs[i] == data[order[i]].value
    ensures (exists i :: 0 <= i < |order| && order[i] !in data) ==>
              Collect(FetchAll(data, order)) == NilErrorDereference
  {
    var msgs := FetchAll(data, order);
    if exists i :: 0 <= i < |order| && order[i] !in data {
      var i :| 0 <= i < |order| && order[i] !in data;
      assert !Usable(msgs[i]);
      var first := FirstUnusableIndex(msgs, i);
      assert msgs[first].err.Some?;
    }
  }

  lemma FirstUnusableIndex(msgs: seq<Message>, i: int) returns (first: int)
    requires 0 <= i < |msgs| && !Usable(msgs[i])
    ensures FirstUnusable(msgs, first) && first <= i
  {
    if exists j :: 0 <= j < i && !Usable(msgs[j]) {
      var j :| 0 <= j < i && !Usable(msgs[j]);
      first := FirstUnusableIndex(msgs, j);
    } else {
      first := i;
    }
  }

  /** Writing pairs and then reading some of their keys yields, for each key
      read, the last value written to it. */
  lemma SetThenGet(data: map<Key, Entry>, kvs: seq<Kv>, e: Expiry, order: seq<Key>)
    requires forall i :: 0 <= i < |order| ==> order[i] in KeysOf(kvs)
    ensures Collect(FetchAll(StoreAll(data, kvs, e), order)).Values?
    ensures |Collect(FetchAll(StoreAll(data, kvs, e), order)).vs| == |order|
    ensures forall i :: 0 <= i < |order| ==>
              Collect(FetchAll(StoreAll(data, kvs, e), order)).vs[i] == LastValue(kvs, order[i])
  {
    var after := StoreAll(data, kvs, e);
    forall i | 0 <= i < |order|
      ensures order[i] in after && after[order[i]].value == LastValue(kvs, order[i])
    {
      StoreAllLastWins(data, kvs, e, order[i]);
    }
    BatchGetFromStore(after, order);
  }

  // ---------------------------------------------------------------------
  // Corrections beside the code as written

  /** The loop of BatchGetValues as evidently intended: a message whose
      `Error()` is set ends the call with that error. */
  function CollectCorrected(msgs: seq<Message>): (o: GetOutcome)
    ensures !o.NilErrorDereference?
    ensures o.Values? <==> forall i :: 0 <= i < |msgs| ==> Usable(msgs[i])
    ensures o.Values? ==> o == Collect(msgs)
    ensures o.Failed? ==>
              exists i :: FirstUnusable(msgs, i) &&
                (if msgs[i].err.Some? then msgs[i].err.value == o.error else msgs[i].str == Err(o.error))
  {
    if msgs == [] then Values([])
    else if msgs[0].err.Some? then Failed(msgs[0].err.value)
    else if msgs[0].str.Err? then Failed(msgs[0].str.error)
    else
      var rest := CollectCorrected(msgs[1..]);
      if rest.Values? then Values([msgs[0].str.value] + rest.vs)
      else
        assert forall i :: FirstUnusable(msgs[1..], i) ==> FirstUnusable(msgs, i + 1);
        rest
  }

  /** One absent key: as written the call ends in the nil dereference, while
      the corrected loop reports the nil reply. */
  lemma MissingKeyDiscrepancy(data: map<Key, Entry>, k: Key)
    requires k !in data
    ensures Collect(FetchAll(data, [k])) == NilErrorDereference
    ensures CollectCorrected(FetchAll(data, [k])) == Failed(RedisNil)
  {
    var msgs := FetchAll(data, [k]);
    assert msgs[0] == Message(Some(RedisNil), Err(RedisNil));
    assert msgs[1..] == [];
  }

  /** The lifetime an expiry asks for, in milliseconds. */
  function LifetimeMillis(e: Expiry): Option<int>
  {
    match e
    case Persistent => None
    case Seconds(s) => Some(s * 1000)
    case Millis(ms) => Some(ms)
  }

  /** As written, a configured TTL of `ttl` milliseconds makes every pipelined
      SET live a million times longer, and a TTL beyond the int64 range of the
      product wraps. */
  lemma SetExpiryScale(ttl: int)
    requires 0 < ttl <= Int64Max / 1000
    ensures SetExpiry(ttl) == Seconds(ttl * 1000)
    ensures ValidExpiry(SetExpiry(ttl))
    ensures LifetimeMillis(SetExpiry(ttl)) == Some(ttl * 1000000)
  {
  }

  /** Concrete inputs: one minute of TTL becomes 60000000 seconds (about 694
      days), and a TTL of 2^62 milliseconds wraps to `EX 0`, which the store
      refuses. */
  lemma SetExpiryWitness()
    ensures SetExpiry(60000) == Seconds(60000000)
    ensures SetExpiry(0x4000_0000_0000_0000) == Seconds(0) && !ValidExpiry(SetExpiry(0x4000_0000_0000_0000))
  {
    assert 0x4000_0000_0000_0000 * 1000 - Int64Min == 250 * TwoTo64 + 0x8000_0000_0000_0000;
  }

  /** The expiry evidently intended for a TTL given in milliseconds. */
  function IntendedSetExpiry(ttl: int): (e: Expiry)
    requires ttl > 0
    ensures ValidExpiry(e)
    ensures LifetimeMillis(e) == Some(ttl)
  {
    Millis(ttl)
  }

  /** `order` visits every requested key once: the iteration order of the
      map the fetch returns, which Go leaves unspecified. */
  ghost predicate EnumeratesKeys(order: seq<Key>, keys: seq<Key>)
  {
    KeySet(order) == KeySet(keys) &&
    forall i, j :: 0 <= i < j < |order| ==> order[i] != order[j]
  }

  // ---------------------------------------------------------------------
  // The layer

  /** Both handles name the scripts they are meant to. */
  ghost predicate Registered(scripts: map<string, Script>, batchExistSha: string, cleanCacheSha: string)
  {
    batchExistSha in scripts && scripts[batchExistSha] == BatchExistScript &&
    cleanCacheSha in scripts && scripts[cleanCacheSha] == CleanCacheScript
  }

  class RedisLayer {
    var client: Store?
    var ttl: int
    var keyPrefix: string
    var batchExistSha: string
    var cleanCacheSha: string

    ghost predicate Valid()
      reads this
    {
      client != null && IsInt64(ttl)
    }

    /** The zero value of the Go struct, before Init. */
    constructor ()
      ensures client == null && ttl == 0 && keyPrefix == ""
      ensures batchExistSha == "" && cleanCacheSha == ""
    {
      client := null;
      ttl := 0;
      keyPrefix := "";
      batchExistSha := "";
      cleanCacheSha := "";
    }

    /** Init with the connection already made: records the TTL and the prefix,
        then registers the scripts. */
    method Init(store: Store, cacheTtl: int, prefix: string, load1: Option<StoreError>, load2: Option<StoreError>)
      returns (err: Option<StoreError>)
      requires IsInt64(cacheTtl)
      modifies this, store`scripts
      ensures Valid() && client == store && ttl == cacheTtl && keyPrefix == prefix
      ensures load1.Some? ==> err == load1 && store.scripts == old(store.scripts) &&
                              batchExistSha == old(batchExistSha) && cleanCacheSha == old(cleanCacheSha)
      ensures load1.None? && load2.Some? ==>
                err == load2 && batchExistSha == Digest(BatchExistScript) && cleanCacheSha == old(cleanCacheSha) &&
                store.scripts == old(store.scripts)[Digest(BatchExistScript) := BatchExistScript]
      ensures load1.None? && load2.None? ==>
                err == None && batchExistSha == Digest(BatchExistScript) && cleanCacheSha == Digest(CleanCacheScript) &&
                store.scripts == old(store.scripts)[Digest(BatchExistScript) := BatchExistScript]
                                                   [Digest(CleanCacheScript) := CleanCacheScript] &&
                Registered(store.scripts, batchExistSha, cleanCacheSha)
    {
      client := store;
      ttl := cacheTtl;
      keyPrefix := prefix;
      err := InitScripts(load1, load2);
    }

    /** Loads the batch-exist script, then the clean-cache script, setting each
        handle as its load succeeds and stopping at the first failure. */
    method InitScripts(load1: Option<StoreError>, load2: Option<StoreError>) returns (err: Option<StoreError>)
      requires Valid()
      modifies this`batchExistSha, this`cleanCacheSha, client`scripts
      ensures load1.Some? ==> err == load1 && client.scripts == old(client.scripts) &&
                              batchExistSha == old(batchExistSha) && cleanCacheSha == old(cleanCacheSha)
      ensures load1.None? && load2.Some? ==>
                err == load2 && batchExistSha == Digest(BatchExistScript) && cleanCacheSha == old(cleanCacheSha) &&
                client.scripts == old(client.scripts)[Digest(BatchExistScript) := BatchExistScript]
      ensures load1.None? && load2.None? ==>
                err == None && batchExistSha == Digest(BatchExistScript) && cleanCacheSha == Digest(CleanCacheScript) &&
                client.scripts == old(client.scripts)[Digest(BatchExistScript) := BatchExistScript]
                                                     [Digest(CleanCacheScript) := CleanCacheScript] &&
                Registered(client.scripts, batchExistSha, cleanCacheSha)
    {
      var result := client.ScriptLoad(BatchExistScript, load1);
      if result.Err? {
        return Some(result.error);
      }
      batchExistSha := result.value;
      result := client.ScriptLoad(CleanCacheScript, load2);
      if result.Err? {
        return Some(result.error);
      }
      cleanCacheSha := result.value;
      err := None;
    }

    /** Runs the clean-cache script on `keyPrefix + ":*"`. */
    method CleanCache(fault: Option<StoreError>) returns (err: Option<StoreError>)
      requires Valid()
      modifies client`data
      ensures var out := EvalShaResult(old(client.data), client.scripts, cleanCacheSha, ["0"], [Pattern(keyPrefix)], fault);
              client.data == out.0 && err == ErrOf(out.1)
      ensures fault.Some? ==> err == fault && client.data == old(client.data)
      ensures fault.None? && cleanCacheSha !in client.scripts ==> err == Some(NoScript) && client.data == old(client.data)
      ensures fault.None? && Registered(client.scripts, batchExistSha, cleanCacheSha) ==>
                err == None && client.data == CleanEffect(old(client.data), Pattern(keyPrefix))
    {
      var result := EvalSha(client, cleanCacheSha, ["0"], [keyPrefix + ":*"], fault);
      err := ErrOf(result);
    }

    /** Runs the batch-exist script on `keys`; a script reply is read as a bool. */
    method BatchKeyExist(keys: seq<Key>, fault: Option<StoreError>) returns (exists_: bool, err: Option<StoreError>)
      requires Valid()
      modifies client`data
      ensures var out := EvalShaResult(old(client.data), client.scripts, batchExistSha, keys, [], fault);
              client.data == out.0 &&
              (out.1.Err? ==> !exists_ && err == Some(out.1.error)) &&
              (out.1.Ok? ==> exists_ == (out.1.value != 0) && err == None)
      ensures fault.Some? ==> !exists_ && err == fault && client.data == old(client.data)
      ensures fault.None? && Registered(client.scripts, batchExistSha, cleanCacheSha) ==>
                err == None && client.data == old(client.data) &&
                (exists_ <==> forall i :: 0 <= i < |keys| ==> keys[i] in client.data)
    {
      var result := EvalSha(client, batchExistSha, keys, [], fault);
      if result.Err? {
        return false, Some(result.error);
      }
      return result.value != 0, None;
    }

    /** EXISTS on one key: true exactly when the reply counts 1. */
    method KeyExists(key: Key, fault: Option<StoreError>) returns (exists_: bool, err: Option<StoreError>)
      requires Valid()
      ensures fault.Some? ==> !exists_ && err == fault
      ensures fault.None? ==> err == None && (exists_ <==> key in client.data)
    {
      var result := client.Exists([key], fault);
      if result.Err? {
        return false, Some(result.error);
      }
      assert CountExisting(client.data, [key]) == 1 <==> key in client.data;
      if result.value == 1 {
        return true, None;
      }
      return false, None;
    }

    /** GET, without the client-side cache and its jittered lifetime. */
    method GetValue(key: Key, fault: Option<StoreError>) returns (r: Reply<Value>)
      requires Valid()
      ensures fault.Some? ==> r == Err(fault.value)
      ensures fault.None? ==> (r.Ok? <==> key in client.data)
      ensures fault.None? && key in client.data ==> r.value == client.data[key].value
      ensures fault.None? && key !in client.data ==> r == Err(RedisNil)
    {
      r := client.Get(key, fault);
    }

    /** Fetches `keys` and turns the replies into strings, all or nothing.
        `order` is the order in which the loop visits the fetched results;
        `fault` is the failure of the fetch as a whole. */
    method BatchGetValues(keys: seq<Key>, fault: Option<StoreError>, order: seq<Key>) returns (o: GetOutcome)
      requires Valid()
      requires EnumeratesKeys(order, keys)
      ensures fault.Some? ==> o == Failed(fault.value)
      ensures fault.None? ==> o == Collect(FetchAll(client.data, order))
      ensures fault.None? && (forall i :: 0 <= i < |keys| ==> keys[i] in client.data) ==>
                o.Values? && |o.vs| == |order| &&
                forall i :: 0 <= i < |order| ==> order[i] in client.data && o.vs[i] == client.data[order[i]].value
      ensures fault.None? && (exists i :: 0 <= i < |keys| && keys[i] !in client.data) ==> o == NilErrorDereference
    {
      if fault.Some? {
        return Failed(fault.value);
      }
      var msgs := FetchAll(client.data, order);
      o := CollectStrings(msgs);
      BatchGetFromStore(client.data, order);
      assert forall i :: 0 <= i < |keys| ==> keys[i] in KeySet(order);
      assert forall i :: 0 <= i < |order| ==> order[i] in KeySet(keys);
    }

    /** Runs the clean-cache script on the caller's `prefix + ":*"`. */
    method DeleteKeysWithPrefix(prefix: string, fault: Option<StoreError>) returns (err: Option<StoreError>)
      requires Valid()
      modifies client`data
      ensures var out := EvalShaResult(old(client.data), client.scripts, cleanCacheSha, ["0"], [Pattern(prefix)], fault);
              client.data == out.0 && err == ErrOf(out.1)
      ensures fault.Some? ==> err == fault && client.data == old(client.data)
      ensures fault.None? && Registered(client.scripts, batchExistSha, cleanCacheSha) ==>
                err == None && client.data == CleanEffect(old(client.data), Pattern(prefix))
    {
      var result := EvalSha(client, cleanCacheSha, ["0"], [prefix + ":*"], fault);
      err := ErrOf(result);
    }

    method DeleteKey(key: Key, fault: Option<StoreError>) returns (err: Option<StoreError>)
      requires Valid()
      modifies client`data
      ensures fault.Some? ==> err == fault && client.data == old(client.data)
      ensures fault.None? ==> err == None && client.data == old(client.data) - {key}
    {
      err := client.Del([key], fault);
      assert KeySet([key]) == {key};
    }

    method BatchDeleteKeys(keys: seq<Key>, fault: Option<StoreError>) returns (err: Option<StoreError>)
      requires Valid()
      modifies client`data
      ensures fault.Some? ==> err == fault && client.data == old(client.data)
      ensures fault.None? && keys == [] ==> err == Some(WrongArity("del")) && client.data == old(client.data)
      ensures fault.None? && keys != [] ==> err == None && client.data == old(client.data) - KeySet(keys)
    {
      err := client.Del(keys, fault);
    }

    /** With no TTL: one MSET of the interleaved pairs. With a TTL: one SET
        per pair with expiry `ttl*1000` seconds, all in one pipeline, and the
        first error among the responses. `msetFault` is the transport's verdict
        on the MSET and `setFaults[i]` on the i-th SET; `spreads` and `cmds`
        are what was sent. */
    method BatchSetKeys(kvs: seq<Kv>, msetFault: Option<StoreError>, setFaults: seq<Option<StoreError>>)
      returns (err: Option<StoreError>, ghost spreads: seq<string>, ghost cmds: seq<SetCommand>)
      requires Valid()
      requires |setFaults| == |kvs|
      modifies client`data
      ensures ttl == 0 ==> Interleaved(kvs, spreads)
      ensures ttl == 0 && msetFault.Some? ==> err == msetFault && client.data == old(client.data)
      ensures ttl == 0 && msetFault.None? && kvs == [] ==>
                err == Some(WrongArity("mset")) && client.data == old(client.data)
      ensures ttl == 0 && msetFault.None? && kvs != [] ==>
                err == None && client.data == StoreAll(old(client.data), kvs, Persistent)
      ensures ttl != 0 ==> |cmds| == |kvs|
      ensures ttl != 0 ==> forall i :: 0 <= i < |kvs| ==> cmds[i] == SetCommand(kvs[i].key, kvs[i].value, SetExpiry(ttl))
      ensures ttl != 0 ==> var p := Pipeline(old(client.data), cmds, setFaults);
                client.data == p.data && IsFirstError(p.resps, err)
    {
      spreads, cmds := [], [];
      if ttl == 0 {
        var args := Spread(kvs);
        spreads := args;
        err := client.MSet(args, msetFault);
        if err.None? {
          MSetOfInterleaved(old(client.data), kvs, args);
        }
        return;
      }
      var built := BuildSetCommands(kvs, ttl);
      cmds := built;
      var resps := client.DoMulti(built, setFaults);
      err := FirstError(resps);
    }

    /** SET with the expiry the jitter chose. */
    method SetKey(kv: Kv, expiry: Expiry, fault: Option<StoreError>) returns (err: Option<StoreError>)
      requires Valid()
      modifies client`data
      ensures fault.Some? ==> err == fault && client.data == old(client.data)
      ensures fault.None? && !ValidExpiry(expiry) ==> err == Some(InvalidExpire) && client.data == old(client.data)
      ensures fault.None? && ValidExpiry(expiry) ==>
                err == None && client.data == old(client.data)[kv.key := Entry(kv.value, expiry)]
    {
      err := client.Set(SetCommand(kv.key, kv.value, expiry), fault);
    }
  }
}
