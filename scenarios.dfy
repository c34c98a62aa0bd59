// Client programs over RedisLayer: each runs the layer against a fresh store
// and states what a caller observes, using only the layer's contracts.
module Scenarios {
  import opened Store
  import opened Scripts
  import opened DataLayer

  /** If the second script load fails, Init reports it; the batch-exist
      handle still works, while the clean-cache handle is the empty string,
      which the store does not know. */
  method PartialRegistration() returns (initErr: Option<StoreError>, cleanErr: Option<StoreError>, allExist: bool)
    ensures initErr == Some(Transport("load failed"))
    ensures cleanErr == Some(NoScript)
    ensures allExist
  {
    var store := new Store();
    var layer := new RedisLayer();
    initErr := layer.Init(store, 0, "app", None, Some(Transport("load failed")));
    DigestInjective(BatchExistScript, BatchExistScript);
    cleanErr := layer.CleanCache(None);
    var err;
    allExist, err := layer.BatchKeyExist([], None);
  }

  /** Deleting the `orders` namespace removes `orders:1` and, because a key
      matched, `defaultKey`; `users:42` stays. */
  method PrefixDeletion() returns (ordersLeft: bool, usersLeft: bool, defaultLeft: bool)
    ensures !ordersLeft && usersLeft && !defaultLeft
  {
    var store := new Store();
    var layer := new RedisLayer();
    var err := layer.Init(store, 0, "app", None, None);
    err := layer.SetKey(Kv("orders:1", "a"), Persistent, None);
    err := layer.SetKey(Kv("users:42", "b"), Persistent, None);
    err := layer.SetKey(Kv(DefaultKey, "c"), Persistent, None);
    PatternSelectsNamespace("orders", "users:42");
    PatternSelectsNamespace("orders", DefaultKey);
    PatternSelectsNamespace("orders", "orders:1");
    assert "orders:" <= "orders:1";
    assert "users:42"[0] != "orders:"[0];
    assert DefaultKey[0] != "orders:"[0];
    err := layer.DeleteKeysWithPrefix("orders", None);
    ordersLeft, err := layer.KeyExists("orders:1", None);
    usersLeft, err := layer.KeyExists("users:42", None);
    defaultLeft, err := layer.KeyExists(DefaultKey, None);
  }

  /** With no TTL, a batch write followed by a batch read gives each key its
      last written value, in the order the read visits them. */
  method SetThenGetBatch() returns (o: GetOutcome)
    ensures o == Values(["3", "2"])
  {
    var store := new Store();
    var layer := new RedisLayer();
    var err := layer.Init(store, 0, "app", None, None);
    var kvs := [Kv("app:a", "1"), Kv("app:b", "2"), Kv("app:a", "3")];
    ghost var spreads, cmds;
    err, spreads, cmds := layer.BatchSetKeys(kvs, None, [None, None, None]);
    assert KeySet(["app:a", "app:b"]) == {"app:a", "app:b"};
    o := layer.BatchGetValues(["app:a", "app:b"], None, ["app:a", "app:b"]);
    assert kvs[2].key == "app:a" && kvs[1].key == "app:b";
    SetThenGet(map[], kvs, Persistent, ["app:a", "app:b"]);
    assert LastValue(kvs, "app:a") == "3";
    assert LastValue(kvs, "app:b") == "2" by {
      assert kvs[..2][1].key == "app:b";
    }
    assert o.vs == ["3", "2"];
  }

  /** With a TTL of one minute, the pipelined SET asks for 60000000 seconds;
      with a negative TTL, every SET is refused and nothing is written. */
  method TtlPath() returns (expiry: Expiry, negErr: Option<StoreError>, written: bool)
    ensures expiry == Seconds(60000000)
    ensures negErr == Some(InvalidExpire)
    ensures !written
  {
    var store := new Store();
    var layer := new RedisLayer();
    var err := layer.Init(store, 60000, "app", None, None);
    ghost var spreads, cmds;
    err, spreads, cmds := layer.BatchSetKeys([Kv("app:a", "1")], None, [None]);
    PipelineAllApplied(map[], [Kv("app:a", "1")], cmds, [None], SetExpiry(60000));
    expiry := store.data["app:a"].expiry;

    var store2 := new Store();
    var layer2 := new RedisLayer();
    err := layer2.Init(store2, -5, "app", None, None);
    negErr, spreads, cmds := layer2.BatchSetKeys([Kv("app:a", "1")], None, [None]);
    PipelineResponses(map[], cmds, [None]);
    PipelineNoneApplied(map[], cmds, [None], SetExpiry(-5));
    written := "app:a" in store2.data;
  }
}
