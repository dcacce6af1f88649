/**
 * End-to-end call sequences against the storage, the registry and the
 * decorator, proved from their contracts alone.
 */
module Scenarios {
  import opened BucketCore
  import opened BucketRegistry
  import opened Instrumentation

  /**
   * Create bucket "b1", add a document, read it back under the returned id,
   * remove it, read again: the document, the document, then None.
   */
  method DocumentLifecycle<Doc>(ncco: Doc, id: NccoId)
    returns (added: Result<NccoId>, read: Result<Option<Doc>>, removed: Result<Option<Doc>>, reread: Result<Option<Doc>>)
    ensures added == Ok(id)
    ensures read == Ok(Some(ncco))
    ensures removed == Ok(Some(ncco))
    ensures reread == Ok(None)
  {
    var storage := new DictionaryBucketStorage<Doc>();
    var buckets := new BucketOperations(storage);
    var created := buckets.Create("b1", None);
    var bucket := created.value;
    added := bucket.Add(id, ncco);
    read := bucket.Lookup(added.value);
    removed := bucket.Remove(added.value);
    reread := bucket.Lookup(added.value);
  }

  /**
   * Creating "b1" a second time raises DuplicateBucketError, and the document
   * already in the first bucket is still there.
   */
  method DuplicateCreateKeepsContents<Doc>(ncco: Doc, id: NccoId)
    returns (second: Result<string>, read: Result<Option<Doc>>)
    ensures second == Err(DuplicateBucketError("b1"))
    ensures read == Ok(Some(ncco))
  {
    var storage := new DictionaryBucketStorage<Doc>();
    var first := storage.Create("b1", None);
    var added := storage.AddNcco("b1", id, ncco);
    second := storage.Create("b1", None);
    read := storage.GetNcco("b1", id);
  }

  /**
   * Removing a bucket that holds three documents yields a summary of length
   * three, after which the bucket is no longer found.
   */
  method DetachFullBucket<Doc>(ids: seq<NccoId>, nccos: seq<Doc>)
    returns (summary: Option<BucketInfo<Doc>>, found: bool)
    requires |ids| == 3 && |nccos| == 3
    requires ids[0] != ids[1] && ids[0] != ids[2] && ids[1] != ids[2]
    ensures summary.Some? && summary.value.Length() == 3
    ensures !found
  {
    var storage := new DictionaryBucketStorage<Doc>();
    var buckets := new BucketOperations(storage);
    var created := buckets.Create("b1", None);
    var bucket := created.value;
    var a := bucket.Add(ids[0], nccos[0]);
    var b := bucket.Add(ids[1], nccos[1]);
    var c := bucket.Add(ids[2], nccos[2]);
    summary := buckets.Remove("b1");
    var handle := buckets.Lookup("b1");
    found := handle.Some?;
  }

  /**
   * Through the decorator, starting from zeroed metrics: removing a bucket
   * that does not exist, then creating "b1", adding a document and removing
   * "b1". The store ends empty, yet `live_buckets` reads -1 and `live_nccos`
   * reads 1; four updates were counted and none failed.
   */
  method GaugeDrift<Doc>(ncco: Doc, id: NccoId)
    returns (metrics: Metrics, bucketsLeft: nat)
    ensures metrics == Metrics(-1, 1, 4, 0, 0, 0)
    ensures bucketsLeft == 0
  {
    var storage := new DictionaryBucketStorage<Doc>();
    var instrumented := new InstrumentedBucketStorage(storage, Metrics(0, 0, 0, 0, 0, 0));
    var missing := instrumented.Remove("b1");
    var created := instrumented.Create("b1", None);
    var added := instrumented.AddNcco("b1", id, ncco);
    var detached := instrumented.Remove("b1");
    metrics := instrumented.metrics;
    bucketsLeft := |storage.store|;
  }

  /**
   * Through the decorator, a document call on a missing bucket raises the
   * storage's own BucketStorageError and is counted as an error of its kind.
   */
  method ErrorsAreCountedNotChanged<Doc>(ncco: Doc, id: NccoId)
    returns (added: Result<NccoId>, read: Result<Option<Doc>>, metrics: Metrics)
    ensures added == Err(BucketStorageError("b1"))
    ensures read == Err(BucketStorageError("b1"))
    ensures metrics == Metrics(0, 0, 1, 1, 1, 1)
  {
    var storage := new DictionaryBucketStorage<Doc>();
    var instrumented := new InstrumentedBucketStorage(storage, Metrics(0, 0, 0, 0, 0, 0));
    added := instrumented.AddNcco("b1", id, ncco);
    read := instrumented.GetNcco("b1", id);
    metrics := instrumented.metrics;
  }
}
