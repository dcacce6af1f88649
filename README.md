# nccostorage bucket store, modelled in Dafny

nccostorage keeps call-control documents (NCCOs) in named buckets, in memory.
This project models its storage core and the metrics decorator around it:

- `core.dfy` (module `BucketCore`): `DictionaryBucketStorage`, a store that
  maps a bucket key (`bucket_` followed by the bucket name) to a map from
  document id to document. It can create a bucket (refusing a duplicate name),
  test whether a bucket exists, detach a whole bucket, and add, read and remove
  documents in an existing bucket. Every access to the store happens while the
  storage's one lock is held, so each call is one atomic step. The class is sequential, and
  each method is specified by a step function on the store value (`CreateStep`,
  `RemoveStep`, `AddNccoStep`, `GetNccoResult`, `RemoveNccoStep`). The
  step functions' contracts and the lemmas beside them state the behaviour:
  - bucket names are unique;
  - a missing bucket is an error, while a missing document is `None`;
  - a pop returns the old value;
  - a call changes nothing else in the store.
  Documents are an opaque type parameter `Doc`. The uuid4 id is a parameter
  `id` that must not already be in the bucket.
- `registry.dfy` (module `BucketRegistry`): `BucketOperations`, `Bucket` and
  `BucketInfo`. These hand out handles bound to a bucket name, look buckets up
  and summarise a removed bucket.
- `instrumentation.dfy` (module `Instrumentation`): `InstrumentedBucketStorage`.
  It forwards every call unchanged and keeps the integer counters
  `update_count`, `update_error`, `read_count` and `read_error`, and the gauges
  `live_buckets` and `live_nccos`, as one `Metrics` value. One function per
  call (`CreateMetrics`, `RemoveMetrics`, ...) says how that call moves the
  metrics. The gauges move on every normal return, whatever the call found.
  The model states exactly how far each gauge drifts from the true count
  (`BucketGaugeDrift`, `NccoGaugeDrift`):
  - a `remove` of a missing bucket lowers `live_buckets` below the number of buckets;
  - a `remove_ncco` of a missing id lowers `live_nccos` below the number of documents;
  - a `remove` of a bucket that holds documents leaves `live_nccos` above that number.
- `scenarios.dfy` (module `Scenarios`): call sequences proved from the
  contracts alone. They cover the document life cycle, a duplicate create, the
  detaching of a three-document bucket, the gauge drift with concrete numbers,
  and error counting.

## Model

| member | source | states |
|---|---|---|
| `BucketCore.BucketKey` | nccostorage/bucket/core.py:7-8 | the key starts with the fixed prefix `bucket_` and what follows the prefix is exactly the bucket name |
| `BucketCore.NameOfBucketKey` | nccostorage/bucket/core.py:7-8 | stripping the prefix from a bucket key gives back the name (the inverse of the key function) |
| `BucketCore.BucketKeyInjective` | nccostorage/bucket/core.py:7-8 | distinct bucket names never share a store key |
| `BucketCore.CreateStep` | nccostorage/bucket/core.py:25-37 | succeeds iff the key is absent; on success returns the name and adds exactly one empty bucket (one more key); on a taken name raises DuplicateBucketError and leaves the store unchanged; every other bucket is untouched either way |
| `BucketCore.RemoveStep` | nccostorage/bucket/core.py:44-49 | returns the bucket's whole document map iff it was present, else None; the key is absent afterwards and every other bucket is untouched |
| `BucketCore.AddNccoStep` | nccostorage/bucket/core.py:51-61 | succeeds iff the bucket exists and returns the supplied id; on success the bucket gains exactly that one entry, keeps its old entries and grows by one; a missing bucket raises BucketStorageError with the store unchanged; other buckets are untouched |
| `BucketCore.GetNccoResult` | nccostorage/bucket/core.py:63-69 | raises BucketStorageError iff the bucket is missing; otherwise returns the stored document iff the id is present, else None (not an error) |
| `BucketCore.RemoveNccoStep` | nccostorage/bucket/core.py:71-77 | raises iff the bucket is missing and then changes nothing; otherwise returns the stored document iff present, deletes only that entry and keeps the others and every other bucket |
| `BucketCore.CreateTwiceFails` | nccostorage/bucket/core.py:32-35 | creating a name twice: the second call raises DuplicateBucketError and the first bucket stays as it was |
| `BucketCore.RemoveBucketTwice` | nccostorage/bucket/core.py:44-49 | removing a bucket twice returns its documents the first time and None the second time; the bucket no longer exists |
| `BucketCore.MissingBucketRejectsDocumentOps` | nccostorage/bucket/core.py:51-77 | on a bucket that does not exist, add, get and remove of a document all raise BucketStorageError and leave the store unchanged |
| `BucketCore.RaisedErrors` | nccostorage/bucket/core.py:11-16 | a duplicate `create` raises DuplicateBucketError with message "duplicate bucket " + name (line 34); add, get and remove on a missing bucket raise BucketStorageError with message "non-existing bucket " + name (lines 56, 67, 75); both kinds are caught as BucketStorageError, DuplicateBucketError being its subclass |
| `BucketCore.AddThenGet` | nccostorage/bucket/core.py:51-69 | round trip: `get_ncco` under the id returned by `add_ncco` yields the added document |
| `BucketCore.RemoveNccoTwice` | nccostorage/bucket/core.py:71-77 | removing a document twice returns it the first time and None the second time; a later read returns None, not an error |
| `BucketCore.AddThenRemoveNcco` | nccostorage/bucket/core.py:51-77 | adding then removing the same id returns the document and restores the store exactly |
| `BucketCore.FreshIdExists` | nccostorage/bucket/core.py:58-59 | every bucket has an unused id, so the fresh-id precondition that replaces uuid4 can always be met |
| `BucketCore.AddManyKeepsAll` | nccostorage/bucket/core.py:51-61 | after any serial order of N adds with distinct fresh ids, every added document is readable under its id, earlier documents are kept and the bucket grew by exactly N (no lost updates) |
| `BucketCore.DictionaryBucketStorage.constructor` | nccostorage/bucket/core.py:21-23 | a new storage holds no buckets |
| `BucketCore.DictionaryBucketStorage.Create` | nccostorage/bucket/core.py:25-37 | new store and result are those of `CreateStep` on the old store; the ttl argument has no effect |
| `BucketCore.DictionaryBucketStorage.Exists` | nccostorage/bucket/core.py:39-42 | true iff the bucket's key is in the store; changes nothing |
| `BucketCore.DictionaryBucketStorage.Remove` | nccostorage/bucket/core.py:44-49 | new store and result are those of `RemoveStep` on the old store |
| `BucketCore.DictionaryBucketStorage.AddNcco` | nccostorage/bucket/core.py:51-61 | new store and result are those of `AddNccoStep` on the old store |
| `BucketCore.DictionaryBucketStorage.GetNcco` | nccostorage/bucket/core.py:63-69 | returns `GetNccoResult` of the current store and changes nothing |
| `BucketCore.DictionaryBucketStorage.RemoveNcco` | nccostorage/bucket/core.py:71-77 | new store and result are those of `RemoveNccoStep` on the old store |
| `BucketRegistry.Bucket.constructor` | nccostorage/bucket/core.py:118-120 | a handle is bound to the given name and storage |
| `BucketRegistry.Bucket.Add` | nccostorage/bucket/core.py:122-123 | delegates to `add_ncco` with the handle's own name: store and result as `AddNccoStep` |
| `BucketRegistry.Bucket.Remove` | nccostorage/bucket/core.py:125-126 | delegates to `remove_ncco` with the handle's own name: store and result as `RemoveNccoStep` |
| `BucketRegistry.Bucket.Lookup` | nccostorage/bucket/core.py:128-129 | delegates to `get_ncco` with the handle's own name: raises iff the bucket is gone (a stale handle is not silently served), else the document iff present |
| `BucketRegistry.BucketOperations.constructor` | nccostorage/bucket/core.py:92-93 | the registry is bound to the given storage |
| `BucketRegistry.BucketOperations.Create` | nccostorage/bucket/core.py:95-99 | the store evolves as `CreateStep`; a fresh handle for the name is returned iff the name was new, otherwise DuplicateBucketError propagates |
| `BucketRegistry.BucketOperations.Lookup` | nccostorage/bucket/core.py:101-105 | returns a handle bound to the name iff the bucket exists; changes nothing |
| `BucketRegistry.BucketOperations.Remove` | nccostorage/bucket/core.py:107-113 | the store evolves as `RemoveStep`; returns None iff there was no such bucket, else a summary holding the detached documents whose `Length()` (`__len__`, lines 86-87) is their number |
| `Instrumentation.TotalNccosWithout` | nccostorage/bucket/instrumentation.py:8 | the total number of documents in the store (the count `live_nccos` is meant to track) is any one bucket's size plus the total of the other buckets |
| `Instrumentation.TotalNccosInsert` | nccostorage/bucket/instrumentation.py:8 | adding a bucket that was not there raises the total document count by that bucket's size |
| `Instrumentation.TotalNccosReplace` | nccostorage/bucket/instrumentation.py:8 | replacing one bucket changes the total document count by the difference in that bucket's size |
| `Instrumentation.CreateStepTotals` | nccostorage/bucket/core.py:25-37 | `create` adds one bucket exactly when it succeeds and never changes the document count |
| `Instrumentation.RemoveStepTotals` | nccostorage/bucket/core.py:44-49 | `remove` takes one bucket and all its documents out of the store exactly when the bucket was present |
| `Instrumentation.AddNccoStepTotals` | nccostorage/bucket/core.py:51-61 | `add_ncco` adds one document exactly when it succeeds and never changes the bucket count |
| `Instrumentation.RemoveNccoStepTotals` | nccostorage/bucket/core.py:71-77 | `remove_ncco` takes out one document exactly when it finds one and never changes the bucket count |
| `Instrumentation.CreateKeepsDrift` | nccostorage/bucket/instrumentation.py:28-34 | a decorated `create` (live_buckets +1 only on a normal return) leaves the distance of both gauges from the true counts unchanged, on success and on DuplicateBucketError alike |
| `Instrumentation.RemoveDrift` | nccostorage/bucket/instrumentation.py:39-45 | a decorated `remove` (live_buckets -1 on every return) leaves live_buckets one too low exactly when there was no bucket to remove, and leaves live_nccos too high by the number of documents the bucket held |
| `Instrumentation.AddNccoKeepsDrift` | nccostorage/bucket/instrumentation.py:47-53 | a decorated `add_ncco` (live_nccos +1 only on a normal return) leaves the distance of both gauges from the true counts unchanged |
| `Instrumentation.RemoveNccoDrift` | nccostorage/bucket/instrumentation.py:61-67 | a decorated `remove_ncco` (live_nccos -1 on every normal return) leaves live_nccos one too low exactly when the bucket exists but the id was not in it; live_buckets keeps its distance |
| `Instrumentation.InstrumentedBucketStorage.constructor` | nccostorage/bucket/instrumentation.py:25-26 | wraps the given storage; the process-wide metrics keep their current values |
| `Instrumentation.InstrumentedBucketStorage.Create` | nccostorage/bucket/instrumentation.py:28-34 | result and store exactly as the bare storage's `create` (the error propagates unchanged); update_count +1; update_error +1 iff it raised; otherwise live_buckets +1; nothing else moves |
| `Instrumentation.InstrumentedBucketStorage.Exists` | nccostorage/bucket/instrumentation.py:36-37 | forwards `exists` and touches no metric |
| `Instrumentation.InstrumentedBucketStorage.Remove` | nccostorage/bucket/instrumentation.py:39-45 | result and store exactly as the bare `remove`; update_count +1 and live_buckets -1 on every call, also when nothing was removed; nothing else moves |
| `Instrumentation.InstrumentedBucketStorage.AddNcco` | nccostorage/bucket/instrumentation.py:47-53 | result and store exactly as the bare `add_ncco`; update_count +1; update_error +1 iff it raised; otherwise live_nccos +1; nothing else moves |
| `Instrumentation.InstrumentedBucketStorage.GetNcco` | nccostorage/bucket/instrumentation.py:55-59 | result exactly as the bare `get_ncco` and the store untouched; read_count +1; read_error +1 iff it raised; no gauge or update counter moves |
| `Instrumentation.InstrumentedBucketStorage.RemoveNcco` | nccostorage/bucket/instrumentation.py:61-67 | result and store exactly as the bare `remove_ncco`; update_count +1; update_error +1 iff it raised; otherwise live_nccos -1, also when the id was absent; nothing else moves |
| `Scenarios.DocumentLifecycle` | nccostorage/bucket/core.py:95-129 | create "b1", add, get, remove, get through a handle: the id, the document, the document, then None |
| `Scenarios.DuplicateCreateKeepsContents` | nccostorage/bucket/core.py:25-69 | a second create of "b1" raises DuplicateBucketError and the document already stored is still readable |
| `Scenarios.DetachFullBucket` | nccostorage/bucket/core.py:101-123 | removing a bucket with three documents gives a summary of length 3, and a later lookup finds no bucket |
| `Scenarios.GaugeDrift` | nccostorage/bucket/instrumentation.py:28-53 | from zeroed metrics, remove a missing bucket, create "b1", add a document, remove "b1": the store is empty, yet live_buckets is -1 and live_nccos is 1 |
| `Scenarios.ErrorsAreCountedNotChanged` | nccostorage/bucket/instrumentation.py:47-59 | add and get on a missing bucket through the decorator return the storage's own BucketStorageError, counted once as an update error and once as a read error |

## Left out

- The `asyncio` lock and scheduling are not modelled. Every access to the store happens while the one lock is held, so each call is one atomic step and the model is sequential; the ttl defaulting and the key computation in `create` and `remove` run outside the lock but do not touch the store. Interleavings and cancellation are not modelled.
- uuid4 id generation is not modelled. The id is a parameter of `add_ncco` that must not already be in the bucket. `FreshIdExists` shows that such an id always exists.
- `BucketCore.AddNccoStep`: requires the id to be unused in the bucket. On a uuid4 collision the source would silently overwrite the stored document; that case is excluded, not modelled.
- The ttl argument (`DEFAULT_TTL`) is not modelled beyond being accepted. It is defaulted but never stored or enforced, so it is an ignored parameter.
- The `@time` latency histograms and the Prometheus export are left out. They need wall-clock floats and an external library. Only the integer counters and gauges are kept, and Prometheus's float values are modelled as integers.
- The metrics are process-wide globals shared by every decorator instance. Here they are one field of the decorator, so two decorators sharing counters are not modelled.
- `BucketOperations` and `Bucket` accept any storage object through duck typing. Here they are bound to `DictionaryBucketStorage`, so a registry over the instrumented storage is not modelled. The decorator's methods are proved to give the same results and store as the bare storage's.
- Bucket names are modelled as strings only. The source builds keys with string formatting, so a non-string name such as the number 1 would share a key with the string "1".
- Documents are opaque values that are never the Python `None`. A stored `None` would be indistinguishable from an absent document in `get_ncco` and `remove_ncco`.
- The store and the detached bucket are values here. The source's `remove` hands out the very dictionary it held, and `get_ncco` hands out the stored object itself; that aliasing is not modelled.
- The HTTP layer (`nccostorage/api.py`) is not part of this model: request handlers, JSON decoding, status codes and routes. The external document validator (`nccostorage.ncco`) is not part of this model either.
- Exception classes are not modelled as a hierarchy. DuplicateBucketError, a subclass of BucketStorageError in the source, is one variant of `StorageError`; the predicate `IsBucketStorageError` holds of both variants, standing for what an `except BucketStorageError` clause catches.
