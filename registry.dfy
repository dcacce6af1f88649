/**
 * The handle and registry layer of nccostorage/bucket/core.py: BucketOperations
 * creates, looks up and removes buckets and hands out Bucket handles; a handle
 * is bound to one bucket name and forwards document calls to the storage.
 */
module BucketRegistry {
  import opened BucketCore

  /** Summary of a removed bucket: its name and the documents it held. */
  datatype BucketInfo<Doc> = BucketInfo(name: string, nccos: Nccos<Doc>)
  {
    /** `len(info)`: the number of documents detached with the bucket. */
    function Length(): nat
    {
      |nccos|
    }
  }

  /** A handle bound to one bucket name; it holds no documents itself. */
  class Bucket<Doc> {
    const name: string
    const storage: DictionaryBucketStorage<Doc>

    constructor (name: string, storage: DictionaryBucketStorage<Doc>)
      ensures this.name == name && this.storage == storage
    {
      this.name := name;
      this.storage := storage;
    }

    /** `add(ncco)`: `add_ncco` on the handle's own bucket; `id` is the generated uuid. */
    method Add(id: NccoId, ncco: Doc) returns (r: Result<NccoId>)
      requires BucketKey(name) in storage.store ==> id !in storage.store[BucketKey(name)]
      modifies storage
      ensures Step(storage.store, r) == AddNccoStep(old(storage.store), name, id, ncco)
    {
      r := storage.AddNcco(name, id, ncco);
    }

    /** `remove(ncco_id)`: `remove_ncco` on the handle's own bucket. */
    method Remove(id: NccoId) returns (r: Result<Option<Doc>>)
      modifies storage
      ensures Step(storage.store, r) == RemoveNccoStep(old(storage.store), name, id)
    {
      r := storage.RemoveNcco(name, id);
    }

    /** `lookup(ncco_id)`: `get_ncco` on the handle's own bucket; a removed bucket raises. */
    method Lookup(id: NccoId) returns (r: Result<Option<Doc>>)
      ensures r.Ok? <==> BucketKey(name) in storage.store
      ensures r.Err? ==> r.error == BucketStorageError(name)
      ensures r.Ok? ==> (r.value.Some? <==> id in storage.store[BucketKey(name)])
      ensures r.Ok? && r.value.Some? ==> r.value.value == storage.store[BucketKey(name)][id]
    {
      r := storage.GetNcco(name, id);
    }
  }

  /** BucketOperations: the registry that creates, finds and removes buckets. */
  class BucketOperations<Doc> {
    const storage: DictionaryBucketStorage<Doc>

    constructor (storage: DictionaryBucketStorage<Doc>)
      ensures this.storage == storage
    {
      this.storage := storage;
    }

    /**
     * `create(name, ttl)`: creates the bucket, then returns a handle bound to
     * it; a duplicate name raises and no handle is made. A missing or zero
     * ttl becomes DefaultTtl before it is passed on (and ignored there).
     */
    method Create(name: string, ttl: Option<nat>) returns (r: Result<Bucket<Doc>>)
      modifies storage
      ensures storage.store == CreateStep(old(storage.store), name).store
      ensures r.Ok? <==> BucketKey(name) !in old(storage.store)
      ensures r.Err? ==> r.error == DuplicateBucketError(name)
      ensures r.Ok? ==> fresh(r.value) && r.value.name == name && r.value.storage == storage
    {
      var effectiveTtl := if ttl.None? || ttl.value == 0 then DefaultTtl else ttl.value;
      var created := storage.Create(name, Some(effectiveTtl));
      if created.Err? {
        return Err(created.error);
      }
      var handle := new Bucket(name, storage);
      return Ok(handle);
    }

    /** `lookup(name)`: a handle exactly when the bucket exists; changes nothing. */
    method Lookup(name: string) returns (h: Option<Bucket<Doc>>)
      ensures h.Some? <==> BucketExists(storage.store, name)
      ensures h.Some? ==> fresh(h.value) && h.value.name == name && h.value.storage == storage
    {
      var present := storage.Exists(name);
      if present {
        var handle := new Bucket(name, storage);
        return Some(handle);
      }
      return None;
    }

    /**
     * `remove(name)`: None exactly when there was no such bucket; otherwise a
     * summary whose length is the number of documents detached.
     */
    method Remove(name: string) returns (info: Option<BucketInfo<Doc>>)
      modifies storage
      ensures storage.store == RemoveStep(old(storage.store), name).store
      ensures info.None? <==> BucketKey(name) !in old(storage.store)
      ensures info.Some? ==>
        && info.value.name == name
        && info.value.nccos == old(storage.store)[BucketKey(name)]
        && info.value.Length() == |old(storage.store)[BucketKey(name)]|
    {
      var nccoData := storage.Remove(name);
      if nccoData.None? {
        return None;
      }
      return Some(BucketInfo(name, nccoData.value));
    }
  }
}
