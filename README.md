# RedisLayer cache data layer, modelled in Dafny

This project models `RedisLayer`, the Redis-backed data layer of gorm-cache.
The layer sits between the ORM cache and a remote key-value store. It registers
two Lua scripts at start-up: batch-exist and clean-cache. It keeps their
handles, and it offers single-key and batch reads, writes, deletes and existence
checks. It also offers bulk invalidation of a key namespace (`prefix:*`).

The remote store is an abstract in-memory map from key to entry (value plus a
recorded expiry) and a table of loaded scripts. Every call is one sequential
step on that map.

- `store.dfy`, module `Store`: the store's commands as the layer uses them.
  These are SCRIPT LOAD, EXISTS, GET, DEL, MSET, SET, a DoMulti pipeline of
  SETs, and KEYS. The store refuses DEL and MSET without arguments, and SET
  with a non-positive expiry, as Redis does.
- `scripts.dfy`, module `Scripts`: the two Lua script bodies as loops over
  the store. It also holds the chunk arithmetic of the clean-cache script,
  with its partition lemmas, and EVALSHA, which finds a script by its handle
  and fails with `NoScript` for an unknown handle.
- `redis_layer.dfy`, module `DataLayer`: class `RedisLayer` with the Go
  struct's fields (`client`, `ttl`, `keyPrefix`, `batchExistSha`,
  `cleanCacheSha`). It has one method per operation, the loops those methods
  run, and the lemmas about them.
- `scenarios.dfy`, module `Scenarios`: client programs that drive the layer
  against a fresh store and state what a caller observes.

A transport failure is a parameter of each operation (`fault`, or one verdict
per pipelined command). A faulted command is not applied, and its error is
returned unchanged. The code has no error kinds of its own: every failure is
the store's error passed through. A missing key is not an error for deletes.
Registration is not all-or-nothing. The TTL path of `BatchSetKeys` gives every
SET the same expiry, `ttl*1000` seconds, computed in int64, with no jitter.
`BatchGetValues` loops over the map that `rueidis.MGetCache` returns, so it
visits the keys in Go's unspecified map order. The model takes that order as a
parameter, `order`, which lists each distinct key once. The result is aligned
with `order`, not with `keys`.

## Model

| member | source | states |
|---|---|---|
| `DataLayer.RedisLayer.constructor` | data_layer/redis.go:13-22 | the zero value of the struct: no client, TTL 0, empty prefix and empty script handles |
| `DataLayer.RedisLayer.Init` | data_layer/redis.go:24-42 | records the client, TTL and prefix, then has the same registration outcome as InitScripts |
| `DataLayer.RedisLayer.InitScripts` | data_layer/redis.go:61-76 | if the first load fails: that error, with no handle set and no script loaded. If only the second fails: that error, with `batchExistSha` set and `cleanCacheSha` left as it was. If both succeed: both handles name their scripts in the store |
| `Scripts.RunBatchExist` | data_layer/redis.go:45-52 | replies 1 exactly when every key exists and 0 otherwise, so an empty list gives 1. It stops at the first absent key, and every key before that one exists |
| `Scripts.ChunksFromShape` | data_layer/redis.go:56-57 | chunk j starts at start+5000·j and ends at min(start+5000·j+4999, n). There is one chunk per loop iteration: (n-start)/5000+1 of them, or none when start > n |
| `Scripts.ChunksContiguous` | data_layer/redis.go:56-57 | there are ⌈n/5000⌉ chunks. Each lies within 1..n and holds at most 5000 indexes. Each starts right after the previous one ends. The first starts at 1 and the last ends at n |
| `Scripts.ChunksPartition` | data_layer/redis.go:56-57 | every index 1..n lies in exactly one chunk, the one numbered (k-1)/5000 |
| `Scripts.CleanEffect` | data_layer/redis.go:55-59 | afterwards no key matching the pattern remains, and every other key keeps its entry. `defaultKey` is removed exactly when some key matched. With no match the store is unchanged |
| `Scripts.RunCleanCache` | data_layer/redis.go:54-59 | replies 1 and leaves the store as CleanEffect of the pattern. It issues one DEL per chunk of the KEYS reply, each DEL being `defaultKey` followed by that chunk's keys. A missing ARGV[1] is a script error that changes nothing |
| `Store.Store.Keys` | data_layer/redis.go:55 | the KEYS reply: every matching key exactly once |
| `Scripts.EvalSha` | data_layer/redis.go:89 | a transport fault, or a handle the store does not know (`NoScript`), changes nothing. Otherwise the named script runs on the store |
| `DataLayer.PatternSelectsNamespace` | data_layer/redis.go:136 | the pattern `prefix + ":*"` selects exactly the keys that start with `prefix + ":"` |
| `DataLayer.RedisLayer.CleanCache` | data_layer/redis.go:79-86 | runs the clean-cache handle on `keyPrefix:*`. A fault is returned unchanged, and an unloaded handle gives `NoScript`. With both scripts registered: no error, and the store is CleanEffect of `keyPrefix:*` |
| `DataLayer.RedisLayer.BatchKeyExist` | data_layer/redis.go:88-95 | a store error gives (false, that error). With the scripts registered: no error, the store is unchanged, and the result is true exactly when every key exists |
| `DataLayer.RedisLayer.KeyExists` | data_layer/redis.go:97-107 | a store error gives (false, that error). Otherwise the result is true exactly when the EXISTS count is 1, that is, when the key is present |
| `DataLayer.RedisLayer.GetValue` | data_layer/redis.go:109-111 | a present key gives its value, an absent one the nil reply, and a fault is returned unchanged |
| `DataLayer.Collect` | data_layer/redis.go:119-132 | the loop's outcome. Strings come back only when every message is usable: all of them, in the visiting order. The first unusable message decides the rest: a set `Error()` ends in the nil dereference, a failing `ToString()` in that error. No partial list is ever returned |
| `DataLayer.CollectStrings` | data_layer/redis.go:119-132 | the loop over the fetched messages, with early returns, computes Collect |
| `DataLayer.BatchGetFromStore` | data_layer/redis.go:114-132 | when the results come from the store: if every key is present, the values come back in the visiting order. Any absent key ends in the nil dereference |
| `DataLayer.RedisLayer.BatchGetValues` | data_layer/redis.go:113-133 | a fetch error is returned unchanged. If every key is present, the result has one value per distinct key, aligned with the visiting order. An absent key ends in the nil dereference |
| `DataLayer.RedisLayer.DeleteKeysWithPrefix` | data_layer/redis.go:135-138 | runs the clean-cache handle on the caller's `prefix:*`. A fault is returned unchanged. With the scripts registered: no error, and the store is CleanEffect of `prefix:*` |
| `DataLayer.RedisLayer.DeleteKey` | data_layer/redis.go:140-142 | removes exactly that key, with no error whether or not it existed. A fault changes nothing |
| `DataLayer.RedisLayer.BatchDeleteKeys` | data_layer/redis.go:144-146 | removes exactly the given keys, ignoring absent ones. Every other key is untouched. An empty list is the store's arity error |
| `DataLayer.Spread` | data_layer/redis.go:150-154 | the argument list has length 2·len(kvs). Element 2i is `kvs[i].Key` and element 2i+1 is `kvs[i].Value` |
| `DataLayer.MSetOfInterleaved` | data_layer/redis.go:150-155 | MSET over that list writes the pairs in order, with no expiry |
| `DataLayer.StoreAllLastWins` | data_layer/redis.go:155 | after the pairs are written in order, each written key holds its last value in kvs. Every other key is as it was |
| `DataLayer.BuildSetCommands` | data_layer/redis.go:157-160 | exactly one SET per pair, in order, each with the same expiry `ttl*1000` seconds (int64 product) |
| `Store.Store.DoMulti` | data_layer/redis.go:161 | the pipelined SETs run in order, each with its own response, and a failed one does not stop the rest; the new store and the responses are those of `Store.Pipeline` |
| `DataLayer.PipelineResponses` | data_layer/redis.go:159-161 | response i is the command's transport fault, else `InvalidExpire` for an expiry that is not positive, else success |
| `DataLayer.PipelineUntouched` | data_layer/redis.go:157-161 | a key that no pipelined SET names keeps its entry, or its absence |
| `DataLayer.PipelineAllApplied` | data_layer/redis.go:157-161 | with every SET delivered and a positive expiry, the pipeline writes the pairs in order with that expiry |
| `DataLayer.PipelineDelivered` | data_layer/redis.go:157-161 | with a positive expiry and any mix of transport failures, the pipeline writes exactly the delivered pairs (`DataLayer.Delivered`), in order, with that expiry; failed SETs leave no trace |
| `DataLayer.PipelineNoneApplied` | data_layer/redis.go:157-161 | with an expiry that is not positive, the store is unchanged |
| `DataLayer.FirstError` | data_layer/redis.go:161-166 | no error exactly when every response succeeded. Otherwise the error is the first failing response, in order |
| `DataLayer.RedisLayer.BatchSetKeys` | data_layer/redis.go:148-167 | with TTL 0: one MSET of the interleaved list. Each key then holds its last value without expiry, an empty batch is the store's arity error, and a fault changes nothing. With a TTL: the SETs built as above go through the pipeline, and the result is the first error among the responses |
| `DataLayer.RedisLayer.SetKey` | data_layer/redis.go:169-171 | writes the pair with the given expiry, or reports the store's refusal or the fault, changing nothing |
| `DataLayer.SetThenGet` | data_layer/redis.go:148-167 | after a batch write, reading any of the written keys yields each key's last written value, in the visiting order |
| `DataLayer.Wrap64` | data_layer/redis.go:159 | the int64 result is the exact product modulo 2^64 and lies in the int64 range. It equals the exact value when that value is in range |
| `DataLayer.SetExpiryScale` | data_layer/redis.go:159 | for 0 < ttl ≤ (2^63-1)/1000, each pipelined SET lives ttl·1000 seconds, which is 10^6·ttl milliseconds |
| `DataLayer.SetExpiryWitness` | data_layer/redis.go:159 | ttl = 60000 gives EX 60000000. ttl = 2^62 wraps to EX 0, which the store refuses |
| `DataLayer.IntendedSetExpiry` | data_layer/redis.go:159 | the corrected expiry lives exactly ttl milliseconds, and the store accepts it |
| `DataLayer.CollectCorrected` | data_layer/redis.go:121-123 | the corrected loop never dereferences the nil error. It yields strings exactly as Collect does, and otherwise the first unusable message's own error |
| `DataLayer.MissingKeyDiscrepancy` | data_layer/redis.go:121-123 | for one absent key, the code as written ends in the nil dereference, while the corrected loop returns the nil-reply error |
| `Scenarios.PartialRegistration` | data_layer/redis.go:61-76 | when the second load fails, Init reports it. CleanCache then fails with `NoScript`, while BatchKeyExist still answers |
| `Scenarios.PrefixDeletion` | data_layer/redis.go:135-138 | deleting namespace `orders` removes `orders:1` and `defaultKey` and keeps `users:42` |
| `Scenarios.SetThenGetBatch` | data_layer/redis.go:148-167 | writing a:1, b:2, a:3 and then reading a, b yields 3, 2 |
| `Scenarios.TtlPath` | data_layer/redis.go:157-166 | TTL 60000 stores EX 60000000. A negative TTL makes every SET fail with `InvalidExpire` and writes nothing |

## Left out

- Client construction in `Init` (data_layer/redis.go:25-35) is left out: the choice between options and an existing client, and the panic when creation fails. So are the logger and its debug switch (data_layer/redis.go:38-39). `Init` takes an already connected store.
- config/redis_config.go is not part of this model: a `sync.Once` guard around client construction.
- cache/entrance.go is not part of this model: a nil-config check and struct literals.
- The client-side cache of `GetValue` and `BatchGetValues` is left out. Its jittered lifetime comes from `util.RandFloatingInt64`, which is not part of this model. Reads see the store directly.
- `DataLayer.RedisLayer.SetKey`: the jittered expiry is a parameter, since the randomness is not part of this model. `expiry` stands for what the client sends: a positive duration becomes `EX` (whole seconds) or `PX` (milliseconds), and a zero or negative duration sends no expiry at all, which corresponds to `Persistent`.
- `rueidis.MGetCache` is not modelled beyond its result. That result is a message per distinct key, read from the store, so a repeated key yields one value. Its iteration order is the parameter `order`.
- Glob matching: only a trailing `*` is modelled, and every other character is literal. A prefix that holds `*`, `?`, `[` or `\` would match differently in Redis.
- Transport errors are modelled only as faults before a command is applied. A reply lost after the store applied the command is not modelled. Neither are `context` cancellation and deadlines.
- Atomicity and interleaving with other clients are left out: each call is one step on the map.
- A Lua runtime failure partway through the clean-cache chunks is left out. The script either runs to the end or the call fails before it starts.
- Expiry is recorded, never enforced: the model has no clock, so entries never expire.
- The store's upper bound on `EX` values (seconds whose millisecond value overflows int64) is not modelled. Only non-positive values are refused.
- The SHA-1 digest of a script body is not computed. `Store.Digest` gives each of the two scripts a distinct non-empty handle.

## Findings

| source | as written | input that shows it | evidently intended | confidence | as-written member | corrected member |
|---|---|---|---|---|---|---|
| data_layer/redis.go:121-123 | when a fetched message carries an error, the branch logs `err.Error()` and returns `err`. But `err` is the fetch's own error, which is nil there, so the call panics | a key absent from the store: its nil reply has `Error()` set | return the message's own error, `obj.Error()` | high; not executed | `DataLayer.MissingKeyDiscrepancy` (over `DataLayer.Collect`) | `DataLayer.CollectCorrected` |
| data_layer/redis.go:159 | `ExSeconds(r.ttl*1000)`, with `ttl` in milliseconds as `GetValue` and `SetKey` use it, asks for a lifetime 10^6 times too long. A huge TTL wraps in int64 | ttl = 60000 (one minute) gives `EX 60000000`, about 694 days. ttl = 2^62 wraps to `EX 0` | a lifetime of `ttl` milliseconds | high; not executed | `DataLayer.SetExpiryWitness` (over `DataLayer.SetExpiry`) | `DataLayer.IntendedSetExpiry` |

`RedisLayer` keeps the code's behaviour as written in both places, so the
model describes what the code does. The corrected definitions are stated and
proved beside it.
