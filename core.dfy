/**
 * The in-memory two-level keyed store of nccostorage (nccostorage/bucket/core.py).
 *
 * The store maps a bucket key ("bucket_" followed by the bucket name) to an
 * inner map from document (NCCO) id to document. Every access to the store
 * happens while the storage's one lock is held, so each call is one atomic
 * step: the class below is sequential, and each of its methods is specified
 * by a pure step function on the store value.
 */
module BucketCore {

  /** Time-to-live applied when a caller gives none; accepted but never stored or enforced. */
  const DefaultTtl: nat := 86400

  /** Fixed prefix of every key in the store. */
  const KeyPrefix: string := "bucket_"

  type NccoId = string

  /** The documents of one bucket, keyed by their generated id. */
  type Nccos<Doc> = map<NccoId, Doc>

  /** The whole store: bucket key to that bucket's documents. */
  type Store<Doc> = map<string, Nccos<Doc>>

  datatype Option<+T> = None | Some(value: T)

  /**
   * The storage exceptions. Both are BucketStorageError in the source;
   * DuplicateBucketError is its subclass raised only by `create`.
   */
  datatype StorageError =
    | DuplicateBucketError(name: string)
    | BucketStorageError(name: string)
  {
    /**
     * Whether an `except BucketStorageError` clause catches it: always, since
     * DuplicateBucketError is a subclass of BucketStorageError.
     */
    predicate IsBucketStorageError()
    {
      DuplicateBucketError? || BucketStorageError?
    }

    /** The exception's message text. */
    function Message(): string
    {
      match this
      case DuplicateBucketError(n) => "duplicate bucket " + n
      case BucketStorageError(n) => "non-existing bucket " + n
    }
  }

  /** Normal return or raised storage exception. */
  datatype Result<+T> = Ok(value: T) | Err(error: StorageError)

  /** What one storage call leaves behind: the new store and what the call returned. */
  datatype Step<Doc, +R> = Step(store: Store<Doc>, result: R)

  // ---------------------------------------------------------------------------
  // Keys

  /** The store key of bucket `name`: the fixed prefix followed by the name. */
  function BucketKey(name: string): (key: string)
    ensures KeyPrefix <= key
    ensures key[|KeyPrefix|..] == name
  {
    KeyPrefix + name
  }

  /** Recovers the bucket name from a store key, if the key carries the prefix. */
  function NameOfKey(key: string): (name: Option<string>)
    ensures name.Some? <==> KeyPrefix <= key
  {
    if KeyPrefix <= key then Some(key[|KeyPrefix|..]) else None
  }

  /** Every key names its bucket back. */
  lemma NameOfBucketKey(name: string)
    ensures NameOfKey(BucketKey(name)) == Some(name)
  {
  }

  /** Distinct bucket names never share a store key. */
  lemma BucketKeyInjective(a: string, b: string)
    ensures BucketKey(a) == BucketKey(b) ==> a == b
  {
    if BucketKey(a) == BucketKey(b) {
      NameOfBucketKey(a);
      NameOfBucketKey(b);
    }
  }

  // ---------------------------------------------------------------------------
  // The storage operations as steps on the store

  /** `s2` agrees with `s1` on every bucket key other than `key`. */
  ghost predicate SameOutside<Doc>(s1: Store<Doc>, s2: Store<Doc>, key: string)
  {
    forall k :: k != key ==> (k in s1 <==> k in s2) && (k in s1 ==> s1[k] == s2[k])
  }

  /** `create`: a new name gets one empty bucket; a taken name raises and changes nothing. */
  function CreateStep<Doc>(s: Store<Doc>, name: string): (st: Step<Doc, Result<string>>)
    ensures st.result.Ok? <==> BucketKey(name) !in s
    ensures st.result.Err? ==> st.result.error == DuplicateBucketError(name) && st.store == s
    ensures st.result.Ok? ==> st.result.value == name
    ensures st.result.Ok? ==> st.store.Keys == s.Keys + {BucketKey(name)} && st.store[BucketKey(name)] == map[]
    ensures |st.store| == |s| + (if st.result.Ok? then 1 else 0)
    ensures SameOutside(s, st.store, BucketKey(name))
  {
    var key := BucketKey(name);
    if key in s then Step(s, Err(DuplicateBucketError(name)))
    else Step(s[key := map[]], Ok(name))
  }

  /** `exists`: whether the bucket's key is in the store. */
  predicate BucketExists<Doc>(s: Store<Doc>, name: string)
  {
    BucketKey(name) in s
  }

  /** `remove`: detaches the whole bucket and returns its documents, or None if absent. */
  function RemoveStep<Doc>(s: Store<Doc>, name: string): (st: Step<Doc, Option<Nccos<Doc>>>)
    ensures st.result.Some? <==> BucketKey(name) in s
    ensures st.result.Some? ==> st.result.value == s[BucketKey(name)]
    ensures BucketKey(name) !in st.store
    ensures st.store.Keys == s.Keys - {BucketKey(name)}
    ensures SameOutside(s, st.store, BucketKey(name))
  {
    var key := BucketKey(name);
    if key in s then Step(s - {key}, Some(s[key]))
    else Step(s, None)
  }

  /**
   * `add_ncco` with the generated id supplied as `id`: stores `ncco` under `id`
   * in an existing bucket, or raises for a missing bucket and changes nothing.
   * The id stands for a fresh uuid4, so it is not yet in the bucket.
   */
  function AddNccoStep<Doc>(s: Store<Doc>, bucketName: string, id: NccoId, ncco: Doc): (st: Step<Doc, Result<NccoId>>)
    requires BucketKey(bucketName) in s ==> id !in s[BucketKey(bucketName)]
    ensures st.result.Ok? <==> BucketKey(bucketName) in s
    ensures st.result.Err? ==> st.result.error == BucketStorageError(bucketName) && st.store == s
    ensures st.result.Ok? ==> st.result.value == id
    ensures st.result.Ok? ==>
      var key := BucketKey(bucketName);
      && key in st.store
      && st.store[key].Keys == s[key].Keys + {id}
      && st.store[key][id] == ncco
      && (forall i :: i in s[key] ==> st.store[key][i] == s[key][i])
      && |st.store[key]| == |s[key]| + 1
    ensures st.store.Keys == s.Keys
    ensures SameOutside(s, st.store, BucketKey(bucketName))
  {
    var key := BucketKey(bucketName);
    if key !in s then Step(s, Err(BucketStorageError(bucketName)))
    else Step(s[key := s[key][id := ncco]], Ok(id))
  }

  /** `get_ncco`: the stored document or None; a missing bucket raises. */
  function GetNccoResult<Doc>(s: Store<Doc>, bucketName: string, id: NccoId): (r: Result<Option<Doc>>)
    ensures r.Ok? <==> BucketKey(bucketName) in s
    ensures r.Err? ==> r.error == BucketStorageError(bucketName)
    ensures r.Ok? ==> (r.value.Some? <==> id in s[BucketKey(bucketName)])
    ensures r.Ok? && r.value.Some? ==> r.value.value == s[BucketKey(bucketName)][id]
  {
    var key := BucketKey(bucketName);
    if key !in s then Err(BucketStorageError(bucketName))
    else if id in s[key] then Ok(Some(s[key][id]))
    else Ok(None)
  }

  /** `remove_ncco`: deletes one document and returns it (or None); a missing bucket raises. */
  function RemoveNccoStep<Doc>(s: Store<Doc>, bucketName: string, id: NccoId): (st: Step<Doc, Result<Option<Doc>>>)
    ensures st.result.Ok? <==> BucketKey(bucketName) in s
    ensures st.result.Err? ==> st.result.error == BucketStorageError(bucketName) && st.store == s
    ensures st.result.Ok? ==> (st.result.value.Some? <==> id in s[BucketKey(bucketName)])
    ensures st.result.Ok? && st.result.value.Some? ==> st.result.value.value == s[BucketKey(bucketName)][id]
    ensures st.result.Ok? ==>
      var key := BucketKey(bucketName);
      && key in st.store
      && st.store[key].Keys == s[key].Keys - {id}
      && (forall i :: i in st.store[key] ==> st.store[key][i] == s[key][i])
    ensures st.store.Keys == s.Keys
    ensures SameOutside(s, st.store, BucketKey(bucketName))
  {
    var key := BucketKey(bucketName);
    if key !in s then Step(s, Err(BucketStorageError(bucketName)))
    else if id in s[key] then Step(s[key := s[key] - {id}], Ok(Some(s[key][id])))
    else Step(s, Ok(None))
  }

  // ---------------------------------------------------------------------------
  // Properties relating several calls

  /** Creating the same name twice: the second call raises and the first bucket is untouched. */
  lemma CreateTwiceFails<Doc>(s: Store<Doc>, name: string)
    requires BucketKey(name) !in s
    ensures var first := CreateStep(s, name);
            var second := CreateStep(first.store, name);
            && second.result == Err(DuplicateBucketError(name))
            && second.store == first.store
            && second.store[BucketKey(name)] == map[]
  {
  }

  /** Removing a bucket twice: its documents the first time, None the second time. */
  lemma RemoveBucketTwice<Doc>(s: Store<Doc>, name: string)
    requires BucketKey(name) in s
    ensures var first := RemoveStep(s, name);
            var second := RemoveStep(first.store, name);
            && first.result == Some(s[BucketKey(name)])
            && second.result == None
            && second.store == first.store
            && !BucketExists(second.store, name)
  {
  }

  /** A document operation on a bucket that was never created raises and changes nothing. */
  lemma MissingBucketRejectsDocumentOps<Doc>(s: Store<Doc>, bucketName: string, id: NccoId, ncco: Doc)
    requires !BucketExists(s, bucketName)
    ensures AddNccoStep(s, bucketName, id, ncco) == Step(s, Err(BucketStorageError(bucketName)))
    ensures GetNccoResult(s, bucketName, id) == Err(BucketStorageError(bucketName))
    ensures RemoveNccoStep(s, bucketName, id) == Step(s, Err(BucketStorageError(bucketName)))
  {
  }

  /**
   * What the storage raises, and with which message: a taken name raises a
   * DuplicateBucketError reading "duplicate bucket <name>"; a document call
   * on a missing bucket raises a BucketStorageError reading "non-existing
   * bucket <name>". Both are caught as BucketStorageError.
   */
  lemma RaisedErrors<Doc>(s: Store<Doc>, name: string, id: NccoId, ncco: Doc)
    ensures BucketExists(s, name) ==>
      var e := CreateStep(s, name).result.error;
      && e.DuplicateBucketError?
      && e.Message() == "duplicate bucket " + name
      && e.IsBucketStorageError()
    ensures !BucketExists(s, name) ==>
      var errors := [AddNccoStep(s, name, id, ncco).result.error,
                     GetNccoResult(s, name, id).error,
                     RemoveNccoStep(s, name, id).result.error];
      forall i :: 0 <= i < |errors| ==>
        && errors[i].BucketStorageError?
        && errors[i].Message() == "non-existing bucket " + name
        && errors[i].IsBucketStorageError()
  {
  }

  /** Round trip: what `add_ncco` stored is what `get_ncco` returns under the returned id. */
  lemma AddThenGet<Doc>(s: Store<Doc>, bucketName: string, id: NccoId, ncco: Doc)
    requires BucketExists(s, bucketName) && id !in s[BucketKey(bucketName)]
    ensures var added := AddNccoStep(s, bucketName, id, ncco);
            && added.result == Ok(id)
            && GetNccoResult(added.store, bucketName, added.result.value) == Ok(Some(ncco))
  {
  }

  /**
   * Removing a document twice: the document the first time, None the second
   * time; afterwards `get_ncco` answers None rather than raising.
   */
  lemma RemoveNccoTwice<Doc>(s: Store<Doc>, bucketName: string, id: NccoId)
    requires BucketExists(s, bucketName) && id in s[BucketKey(bucketName)]
    ensures var first := RemoveNccoStep(s, bucketName, id);
            var second := RemoveNccoStep(first.store, bucketName, id);
            && first.result == Ok(Some(s[BucketKey(bucketName)][id]))
            && second.result == Ok(None)
            && second.store == first.store
            && GetNccoResult(second.store, bucketName, id) == Ok(None)
  {
  }

  /** Add then remove under the same id restores the store. */
  lemma AddThenRemoveNcco<Doc>(s: Store<Doc>, bucketName: string, id: NccoId, ncco: Doc)
    requires BucketExists(s, bucketName) && id !in s[BucketKey(bucketName)]
    ensures var added := AddNccoStep(s, bucketName, id, ncco);
            var removed := RemoveNccoStep(added.store, bucketName, id);
            && removed.result == Ok(Some(ncco))
            && removed.store == s
  {
    var key := BucketKey(bucketName);
    var added := AddNccoStep(s, bucketName, id, ncco);
    var removed := RemoveNccoStep(added.store, bucketName, id);
    assert removed.store[key] == s[key];
    assert removed.store == s;
  }

  // ---------------------------------------------------------------------------
  // Fresh ids

  /** The length of the longest id in `ids` (0 for none). */
  ghost function LongestId(ids: set<NccoId>): (n: nat)
    ensures forall i :: i in ids ==> |i| <= n
  {
    if ids == {} then 0
    else
      var i :| i in ids;
      var rest := LongestId(ids - {i});
      if |i| <= rest then rest else |i|
  }

  /** A string of `n` copies of 'x'. */
  ghost function Padding(n: nat): (p: string)
    ensures |p| == n
  {
    if n == 0 then "" else Padding(n - 1) + "x"
  }

  /**
   * However many documents a bucket holds, some id is still unused: the
   * precondition that stands in for uuid4 can always be met.
   */
  lemma {:induction false} FreshIdExists<Doc>(bucket: Nccos<Doc>)
    ensures exists id: NccoId :: id !in bucket
  {
    var id := Padding(LongestId(bucket.Keys) + 1);
    assert id !in bucket;
  }

  // ---------------------------------------------------------------------------
  // Many adds to one bucket

  /** The store after `ids[k]` is added with `nccos[k]`, in order, to bucket `bucketName`. */
  function AddMany<Doc>(s: Store<Doc>, bucketName: string, ids: seq<NccoId>, nccos: seq<Doc>): (t: Store<Doc>)
    requires |ids| == |nccos|
    requires BucketExists(s, bucketName)
    requires forall j, k :: 0 <= j < k < |ids| ==> ids[j] != ids[k]
    requires forall k :: 0 <= k < |ids| ==> ids[k] !in s[BucketKey(bucketName)]
    ensures t.Keys == s.Keys
    ensures SameOutside(s, t, BucketKey(bucketName))
    decreases |ids|
  {
    if ids == [] then s
    else
      var added := AddNccoStep(s, bucketName, ids[0], nccos[0]);
      AddMany(added.store, bucketName, ids[1..], nccos[1..])
  }

  /**
   * N adds with distinct fresh ids lose nothing: every document is
   * retrievable under its id, earlier documents are kept, and the bucket
   * grows by exactly N.
   */
  lemma {:induction false} AddManyKeepsAll<Doc>(s: Store<Doc>, bucketName: string, ids: seq<NccoId>, nccos: seq<Doc>)
    requires |ids| == |nccos|
    requires BucketExists(s, bucketName)
    requires forall j, k :: 0 <= j < k < |ids| ==> ids[j] != ids[k]
    requires forall k :: 0 <= k < |ids| ==> ids[k] !in s[BucketKey(bucketName)]
    ensures var t := AddMany(s, bucketName, ids, nccos);
            && (forall k :: 0 <= k < |ids| ==> GetNccoResult(t, bucketName, ids[k]) == Ok(Some(nccos[k])))
            && (forall i :: i in s[BucketKey(bucketName)] ==> GetNccoResult(t, bucketName, i) == Ok(Some(s[BucketKey(bucketName)][i])))
            && |t[BucketKey(bucketName)]| == |s[BucketKey(bucketName)]| + |ids|
    decreases |ids|
  {
    if ids != [] {
      var key := BucketKey(bucketName);
      var added := AddNccoStep(s, bucketName, ids[0], nccos[0]);
      AddManyKeepsAll(added.store, bucketName, ids[1..], nccos[1..]);
      var t := AddMany(s, bucketName, ids, nccos);
      assert t == AddMany(added.store, bucketName, ids[1..], nccos[1..]);
      forall k | 0 <= k < |ids|
        ensures GetNccoResult(t, bucketName, ids[k]) == Ok(Some(nccos[k]))
      {
        if k > 0 {
          assert ids[1..][k - 1] == ids[k];
          assert nccos[1..][k - 1] == nccos[k];
        }
      }
    }
  }

  // ---------------------------------------------------------------------------
  // The storage object

  /** DictionaryBucketStorage: the store, updated in place by atomic calls. */
  class DictionaryBucketStorage<Doc> {
    var store: Store<Doc>

    /** A storage starts with no buckets. */
    constructor ()
      ensures store == map[]
    {
      store := map[];
    }

    /** `create(name, ttl)`; `ttl` is accepted and ignored. */
    method Create(name: string, ttl: Option<nat>) returns (r: Result<string>)
      modifies this
      ensures Step(store, r) == CreateStep(old(store), name)
    {
      var key := BucketKey(name);
      if key in store {
        return Err(DuplicateBucketError(name));
      }
      store := store[key := map[]];
      return Ok(name);
    }

    /** `exists(name)`: reads the store and changes nothing. */
    method Exists(name: string) returns (b: bool)
      ensures b <==> BucketKey(name) in store
    {
      b := BucketKey(name) in store;
    }

    /** `remove(name)`: pops the bucket's whole document map. */
    method Remove(name: string) returns (nccos: Option<Nccos<Doc>>)
      modifies this
      ensures Step(store, nccos) == RemoveStep(old(store), name)
    {
      var key := BucketKey(name);
      if key in store {
        nccos := Some(store[key]);
        store := store - {key};
      } else {
        nccos := None;
      }
    }

    /** `add_ncco(bucket_name, ncco)`; `id` is the freshly generated uuid. */
    method AddNcco(bucketName: string, id: NccoId, ncco: Doc) returns (r: Result<NccoId>)
      requires BucketKey(bucketName) in store ==> id !in store[BucketKey(bucketName)]
      modifies this
      ensures Step(store, r) == AddNccoStep(old(store), bucketName, id, ncco)
    {
      var key := BucketKey(bucketName);
      if key !in store {
        return Err(BucketStorageError(bucketName));
      }
      var bucketData := store[key];
      store := store[key := bucketData[id := ncco]];
      return Ok(id);
    }

    /** `get_ncco(bucket_name, ncco_id)`: reads the store and changes nothing. */
    method GetNcco(bucketName: string, id: NccoId) returns (r: Result<Option<Doc>>)
      ensures r == GetNccoResult(store, bucketName, id)
    {
      var key := BucketKey(bucketName);
      if key !in store {
        return Err(BucketStorageError(bucketName));
      }
      var bucketData := store[key];
      if id in bucketData {
        r := Ok(Some(bucketData[id]));
      } else {
        r := Ok(None);
      }
    }

    /** `remove_ncco(bucket_name, ncco_id)`: pops one document from an existing bucket. */
    method RemoveNcco(bucketName: string, id: NccoId) returns (r: Result<Option<Doc>>)
      modifies this
      ensures Step(store, r) == RemoveNccoStep(old(store), bucketName, id)
    {
      var key := BucketKey(bucketName);
      if key !in store {
        return Err(BucketStorageError(bucketName));
      }
      var bucketData := store[key];
      if id in bucketData {
        r := Ok(Some(bucketData[id]));
        store := store[key := bucketData - {id}];
      } else {
        r := Ok(None);
      }
    }
  }
}
