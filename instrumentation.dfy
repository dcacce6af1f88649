/**
 * The metrics decorator of nccostorage/bucket/instrumentation.py.
 *
 * InstrumentedBucketStorage forwards every call to a DictionaryBucketStorage
 * unchanged. Before an update call (create, remove, add_ncco, remove_ncco) it
 * bumps `update_count`; if the wrapped call raises it bumps `update_error`;
 * if the call returns normally it moves a live-object gauge by one. `get_ncco`
 * bumps `read_count` and, on a raise, `read_error`. `exists` touches nothing.
 *
 * The gauges move on every normal return, whatever the call found, so they
 * drift from the true counts: a `remove` or `remove_ncco` that found nothing
 * still decrements, and a `remove` of a bucket holding documents leaves
 * `live_nccos` as it was. The drift is stated exactly below.
 */
module Instrumentation {
  import opened BucketCore

  /** The integer counters (`*_count`, `*_error`) and gauges (`live_*`). */
  datatype Metrics = Metrics(
    liveBuckets: int,
    liveNccos: int,
    updateCount: nat,
    updateError: nat,
    readCount: nat,
    readError: nat)

  // ---------------------------------------------------------------------------
  // Counting the documents of a whole store

  /** The number of documents held by all buckets of `s`. */
  ghost function TotalNccos<Doc>(s: Store<Doc>): nat
    decreases |s|
  {
    if s == map[] then 0
    else
      var k :| k in s;
      |s[k]| + TotalNccos(s - {k})
  }

  /** Any bucket may be split off first: the sum does not depend on the order. */
  lemma {:induction false} TotalNccosWithout<Doc>(s: Store<Doc>, k: string)
    requires k in s
    ensures TotalNccos(s) == |s[k]| + TotalNccos(s - {k})
    decreases |s|
  {
    var j :| j in s && TotalNccos(s) == |s[j]| + TotalNccos(s - {j});
    if j != k {
      var rest := s - {j};
      assert k in rest;
      TotalNccosWithout(rest, k);
      var both := rest - {k};
      assert both == (s - {k}) - {j};
      assert j in s - {k};
      TotalNccosWithout(s - {k}, j);
    }
  }

  /** Adding a new bucket adds its size to the total. */
  lemma {:induction false} TotalNccosInsert<Doc>(s: Store<Doc>, k: string, v: Nccos<Doc>)
    requires k !in s
    ensures TotalNccos(s[k := v]) == TotalNccos(s) + |v|
  {
    TotalNccosWithout(s[k := v], k);
    assert s[k := v] - {k} == s;
  }

  /** Replacing a bucket changes the total by the difference in its size. */
  lemma {:induction false} TotalNccosReplace<Doc>(s: Store<Doc>, k: string, v: Nccos<Doc>)
    requires k in s
    ensures TotalNccos(s[k := v]) == TotalNccos(s) - |s[k]| + |v|
  {
    TotalNccosWithout(s[k := v], k);
    TotalNccosWithout(s, k);
    assert s[k := v] - {k} == s - {k};
  }

  /** `create` adds one bucket and no documents. */
  lemma CreateStepTotals<Doc>(s: Store<Doc>, name: string)
    ensures var st := CreateStep(s, name);
            && |st.store| == |s| + (if st.result.Ok? then 1 else 0)
            && TotalNccos(st.store) == TotalNccos(s)
  {
    if BucketKey(name) !in s {
      TotalNccosInsert(s, BucketKey(name), map[]);
    }
  }

  /** `remove` takes one bucket, and all its documents, out of the store, if it was there. */
  lemma RemoveStepTotals<Doc>(s: Store<Doc>, name: string)
    ensures var st := RemoveStep(s, name);
            && |st.store| == |s| - (if st.result.Some? then 1 else 0)
            && TotalNccos(st.store) == TotalNccos(s) - (if st.result.Some? then |st.result.value| else 0)
  {
    if BucketKey(name) in s {
      TotalNccosWithout(s, BucketKey(name));
    }
  }

  /** `add_ncco` adds one document when it succeeds, and no bucket. */
  lemma AddNccoStepTotals<Doc>(s: Store<Doc>, bucketName: string, id: NccoId, ncco: Doc)
    requires BucketKey(bucketName) in s ==> id !in s[BucketKey(bucketName)]
    ensures var st := AddNccoStep(s, bucketName, id, ncco);
            && |st.store| == |s|
            && TotalNccos(st.store) == TotalNccos(s) + (if st.result.Ok? then 1 else 0)
  {
    var key := BucketKey(bucketName);
    if key in s {
      TotalNccosReplace(s, key, s[key][id := ncco]);
    }
  }

  /** `remove_ncco` takes out one document exactly when it finds one, and no bucket. */
  lemma RemoveNccoStepTotals<Doc>(s: Store<Doc>, bucketName: string, id: NccoId)
    ensures var st := RemoveNccoStep(s, bucketName, id);
            && |st.store| == |s|
            && TotalNccos(st.store) == TotalNccos(s) - (if st.result.Ok? && st.result.value.Some? then 1 else 0)
  {
    var key := BucketKey(bucketName);
    if key in s && id in s[key] {
      var shrunk := s[key] - {id};
      assert shrunk.Keys == s[key].Keys - {id};
      TotalNccosReplace(s, key, shrunk);
    }
  }

  // ---------------------------------------------------------------------------
  // What each decorated call does to the metrics

  /** After `create`: one more update; one more error if it raised, else one more live bucket. */
  function CreateMetrics(m: Metrics, raised: bool): Metrics
  {
    if raised then m.(updateCount := m.updateCount + 1, updateError := m.updateError + 1)
    else m.(updateCount := m.updateCount + 1, liveBuckets := m.liveBuckets + 1)
  }

  /** After `remove`, which never raises: one more update and one live bucket fewer. */
  function RemoveMetrics(m: Metrics): Metrics
  {
    m.(updateCount := m.updateCount + 1, liveBuckets := m.liveBuckets - 1)
  }

  /** After `add_ncco`: one more update; one more error if it raised, else one more live document. */
  function AddNccoMetrics(m: Metrics, raised: bool): Metrics
  {
    if raised then m.(updateCount := m.updateCount + 1, updateError := m.updateError + 1)
    else m.(updateCount := m.updateCount + 1, liveNccos := m.liveNccos + 1)
  }

  /** After `get_ncco`: one more read; one more read error if it raised. */
  function GetNccoMetrics(m: Metrics, raised: bool): Metrics
  {
    if raised then m.(readCount := m.readCount + 1, readError := m.readError + 1)
    else m.(readCount := m.readCount + 1)
  }

  /** After `remove_ncco`: one more update; one more error if it raised, else one live document fewer. */
  function RemoveNccoMetrics(m: Metrics, raised: bool): Metrics
  {
    if raised then m.(updateCount := m.updateCount + 1, updateError := m.updateError + 1)
    else m.(updateCount := m.updateCount + 1, liveNccos := m.liveNccos - 1)
  }

  // ---------------------------------------------------------------------------
  // How far the gauges drift from the store

  /** How far the `live_buckets` gauge is above the true number of buckets. */
  function BucketGaugeDrift<Doc>(m: Metrics, s: Store<Doc>): int
  {
    m.liveBuckets - |s|
  }

  /** How far the `live_nccos` gauge is above the true number of documents. */
  ghost function NccoGaugeDrift<Doc>(m: Metrics, s: Store<Doc>): int
  {
    m.liveNccos - TotalNccos(s)
  }

  /** A decorated `create` keeps both gauges exactly in step with the store. */
  lemma CreateKeepsDrift<Doc>(m: Metrics, s: Store<Doc>, name: string)
    ensures var st := CreateStep(s, name);
            var after := CreateMetrics(m, st.result.Err?);
            && BucketGaugeDrift(after, st.store) == BucketGaugeDrift(m, s)
            && NccoGaugeDrift(after, st.store) == NccoGaugeDrift(m, s)
  {
    CreateStepTotals(s, name);
  }

  /**
   * A decorated `remove` pushes `live_buckets` one below the truth when there
   * was no such bucket, and leaves `live_nccos` too high by the number of
   * documents the bucket held.
   */
  lemma RemoveDrift<Doc>(m: Metrics, s: Store<Doc>, name: string)
    ensures var st := RemoveStep(s, name);
            var after := RemoveMetrics(m);
            && BucketGaugeDrift(after, st.store) == BucketGaugeDrift(m, s) - (if st.result.None? then 1 else 0)
            && NccoGaugeDrift(after, st.store) == NccoGaugeDrift(m, s) + (if st.result.Some? then |st.result.value| else 0)
  {
    RemoveStepTotals(s, name);
  }

  /** A decorated `add_ncco` keeps both gauges exactly in step with the store. */
  lemma AddNccoKeepsDrift<Doc>(m: Metrics, s: Store<Doc>, bucketName: string, id: NccoId, ncco: Doc)
    requires BucketKey(bucketName) in s ==> id !in s[BucketKey(bucketName)]
    ensures var st := AddNccoStep(s, bucketName, id, ncco);
            var after := AddNccoMetrics(m, st.result.Err?);
            && BucketGaugeDrift(after, st.store) == BucketGaugeDrift(m, s)
            && NccoGaugeDrift(after, st.store) == NccoGaugeDrift(m, s)
  {
    AddNccoStepTotals(s, bucketName, id, ncco);
  }

  /**
   * A decorated `remove_ncco` pushes `live_nccos` one below the truth when the
   * bucket exists but the id is not in it.
   */
  lemma RemoveNccoDrift<Doc>(m: Metrics, s: Store<Doc>, bucketName: string, id: NccoId)
    ensures var st := RemoveNccoStep(s, bucketName, id);
            var after := RemoveNccoMetrics(m, st.result.Err?);
            && BucketGaugeDrift(after, st.store) == BucketGaugeDrift(m, s)
            && NccoGaugeDrift(after, st.store) == NccoGaugeDrift(m, s) - (if st.result == Ok(None) then 1 else 0)
  {
    RemoveNccoStepTotals(s, bucketName, id);
  }

  // ---------------------------------------------------------------------------
  // The decorator

  class InstrumentedBucketStorage<Doc> {
    const storage: DictionaryBucketStorage<Doc>
    var metrics: Metrics

    /** Wraps `storage`; the metrics are process-wide and start at whatever they hold. */
    constructor (storage: DictionaryBucketStorage<Doc>, initial: Metrics)
      ensures this.storage == storage && metrics == initial
    {
      this.storage := storage;
      metrics := initial;
    }

    /** `create`: forwarded unchanged; the metrics move as CreateMetrics says. */
    method Create(name: string, ttl: Option<nat>) returns (r: Result<string>)
      modifies this, storage
      ensures Step(storage.store, r) == CreateStep(old(storage.store), name)
      ensures metrics == CreateMetrics(old(metrics), r.Err?)
    {
      metrics := metrics.(updateCount := metrics.updateCount + 1);
      r := storage.Create(name, ttl);
      if r.Err? {
        metrics := metrics.(updateError := metrics.updateError + 1);
      } else {
        metrics := metrics.(liveBuckets := metrics.liveBuckets + 1);
      }
    }

    /** `exists`: forwarded; no metric moves. */
    method Exists(name: string) returns (b: bool)
      ensures b <==> BucketKey(name) in storage.store
    {
      b := storage.Exists(name);
    }

    /** `remove`: forwarded unchanged; it never raises, so `live_buckets` goes down on every call. */
    method Remove(name: string) returns (r: Option<Nccos<Doc>>)
      modifies this, storage
      ensures Step(storage.store, r) == RemoveStep(old(storage.store), name)
      ensures metrics == RemoveMetrics(old(metrics))
    {
      metrics := metrics.(updateCount := metrics.updateCount + 1);
      r := storage.Remove(name);
      metrics := metrics.(liveBuckets := metrics.liveBuckets - 1);
    }

    /** `add_ncco`: forwarded unchanged; the metrics move as AddNccoMetrics says. */
    method AddNcco(bucketName: string, id: NccoId, ncco: Doc) returns (r: Result<NccoId>)
      requires BucketKey(bucketName) in storage.store ==> id !in storage.store[BucketKey(bucketName)]
      modifies this, storage
      ensures Step(storage.store, r) == AddNccoStep(old(storage.store), bucketName, id, ncco)
      ensures metrics == AddNccoMetrics(old(metrics), r.Err?)
    {
      metrics := metrics.(updateCount := metrics.updateCount + 1);
      r := storage.AddNcco(bucketName, id, ncco);
      if r.Err? {
        metrics := metrics.(updateError := metrics.updateError + 1);
      } else {
        metrics := metrics.(liveNccos := metrics.liveNccos + 1);
      }
    }

    /** `get_ncco`: forwarded unchanged; a read, so the store is untouched and only read counters move. */
    method GetNcco(bucketName: string, id: NccoId) returns (r: Result<Option<Doc>>)
      modifies this
      ensures r == GetNccoResult(storage.store, bucketName, id)
      ensures metrics == GetNccoMetrics(old(metrics), r.Err?)
    {
      metrics := metrics.(readCount := metrics.readCount + 1);
      r := storage.GetNcco(bucketName, id);
      if r.Err? {
        metrics := metrics.(readError := metrics.readError + 1);
      }
    }

    /** `remove_ncco`: forwarded unchanged; `live_nccos` goes down on every normal return. */
    method RemoveNcco(bucketName: string, id: NccoId) returns (r: Result<Option<Doc>>)
      modifies this, storage
      ensures Step(storage.store, r) == RemoveNccoStep(old(storage.store), bucketName, id)
      ensures metrics == RemoveNccoMetrics(old(metrics), r.Err?)
    {
      metrics := metrics.(updateCount := metrics.updateCount + 1);
      r := storage.RemoveNcco(bucketName, id);
      if r.Err? {
        metrics := metrics.(updateError := metrics.updateError + 1);
      } else {
        metrics := metrics.(liveNccos := metrics.liveNccos - 1);
      }
    }
  }
}
