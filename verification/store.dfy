/** The object store the handlers talk to (MinIO behind functions/utils/minio.ts), reduced to a map from
    (bucket, object name) to stored objects. A request on a key in a fault set throws, which is how store
    errors enter the model; reads and writes fail independently. */
module Store {
  import opened Common
  import opened Records

  datatype Bucket = Users | Videos | Audio | Fm | Tv | Courses | Subscriptions | Thumbnails

  type ObjectKey = (Bucket, string)

  /** A stored body: raw bytes (a rendition segment, a thumbnail, a playlist) or a JSON document. */
  datatype Body = Bytes(data: seq<bv8>) | Doc(doc: Document)

  datatype StoredObject = StoredObject(body: Body, contentType: string)

  /** One successful put. */
  datatype Write = Write(key: ObjectKey, obj: StoredObject)

  const OCTET_STREAM: string := "application/octet-stream"
  const JSON_CONTENT: string := "application/json"

  /** A presigned GET URL: the capability to read one object for `ttl` seconds. Signing never fails and the
      URL text is not modelled, only what it grants. */
  datatype SignedUrl = SignedUrl(bucket: Bucket, key: string, ttl: int)

  /** The store as a read-only handler sees it: the objects, and the keys whose reads fail. */
  datatype Snapshot = Snapshot(objects: map<ObjectKey, StoredObject>, unreadable: set<ObjectKey>)

  /** `listObjects(bucket, '', true)` for every bucket: the names listed are exactly the keys stored there. */
  ghost predicate ListsStore(listing: Bucket -> seq<string>, snap: Snapshot)
  {
    forall b: Bucket, n: string :: n in listing(b) <==> (b, n) in snap.objects
  }

  /** The objects after the writes of `ws`, in order (a later write to a key replaces an earlier one). */
  function Apply(objects: map<ObjectKey, StoredObject>, ws: seq<Write>): map<ObjectKey, StoredObject>
  {
    if ws == [] then objects
    else Apply(objects, ws[..|ws| - 1])[ws[|ws| - 1].key := ws[|ws| - 1].obj]
  }

  /** Applying two batches one after the other is applying their concatenation. */
  lemma {:induction false} ApplyConcat(objects: map<ObjectKey, StoredObject>, a: seq<Write>, b: seq<Write>)
    ensures Apply(objects, a + b) == Apply(Apply(objects, a), b)
    decreases |b|
  {
    if b != [] {
      assert (a + b)[..|a + b| - 1] == a + b[..|b| - 1];
      assert (a + b)[|a + b| - 1] == b[|b| - 1];
      ApplyConcat(objects, a, b[..|b| - 1]);
    } else {
      assert a + b == a;
    }
  }

  /** How many writes of `ws` go through before the first one whose key is faulty. */
  function FirstFault(ws: seq<Write>, faulty: set<ObjectKey>): (n: nat)
    ensures n <= |ws|
    ensures forall i :: 0 <= i < n ==> ws[i].key !in faulty
    ensures n < |ws| ==> ws[n].key in faulty
  {
    if ws == [] then 0
    else if ws[0].key in faulty then 0
    else 1 + FirstFault(ws[1..], faulty)
  }

  /** Sequential puts stop at the first failure: the attempted batch splits at the first fault of its parts. */
  lemma {:induction false} FirstFaultConcat(a: seq<Write>, b: seq<Write>, faulty: set<ObjectKey>)
    ensures FirstFault(a + b, faulty) ==
      if FirstFault(a, faulty) < |a| then FirstFault(a, faulty) else |a| + FirstFault(b, faulty)
  {
    if a == [] {
      assert a + b == b;
    } else if a[0].key !in faulty {
      assert (a + b)[0] == a[0];
      assert (a + b)[1..] == a[1..] + b;
      FirstFaultConcat(a[1..], b, faulty);
    }
  }

  /** Two batches put one after the other onto a log: the log grows by the first batch's successful prefix,
      and by the second's only when the whole first batch went through. */
  lemma BatchesInSequence(log: seq<Write>, a: seq<Write>, b: seq<Write>, faulty: set<ObjectKey>)
    ensures FirstFault(a, faulty) < |a| ==>
      FirstFault(a + b, faulty) < |a + b| && log + (a + b)[..FirstFault(a + b, faulty)] == log + a[..FirstFault(a, faulty)]
    ensures FirstFault(a, faulty) == |a| ==>
      (FirstFault(a + b, faulty) == |a + b| <==> FirstFault(b, faulty) == |b|)
      && log + (a + b)[..FirstFault(a + b, faulty)] == log + a + b[..FirstFault(b, faulty)]
  {
    FirstFaultConcat(a, b, faulty);
    if FirstFault(a, faulty) < |a| {
      assert (a + b)[..FirstFault(a, faulty)] == a[..FirstFault(a, faulty)];
    } else {
      assert (a + b)[..|a| + FirstFault(b, faulty)] == a + b[..FirstFault(b, faulty)];
    }
  }

  class ObjectStore {
    var objects: map<ObjectKey, StoredObject>
    /** The keys whose puts fail. */
    const faulty: set<ObjectKey>
    /** The keys whose reads fail. */
    const unreadable: set<ObjectKey>
    /** The objects the store held when the model starts observing it. */
    ghost const initial: map<ObjectKey, StoredObject>
    /** Every successful write, in the order the store received them. */
    ghost var log: seq<Write>

    /** The objects are the initial ones with the logged writes applied in order. */
    ghost predicate Valid()
      reads this
    {
      objects == Apply(initial, log)
    }

    constructor (objects: map<ObjectKey, StoredObject>, faulty: set<ObjectKey>, unreadable: set<ObjectKey>)
      ensures Valid()
      ensures this.objects == objects && this.faulty == faulty && this.unreadable == unreadable
      ensures initial == objects && log == []
    {
      this.objects := objects;
      this.faulty := faulty;
      this.unreadable := unreadable;
      initial := objects;
      log := [];
    }

    function View(): Snapshot
      reads this
    {
      Snapshot(objects, unreadable)
    }

    /** `uploadFile` / `putObject`: stores `obj` under `key`, or throws when the request fails. */
    method Put(key: ObjectKey, obj: StoredObject) returns (ok: bool)
      requires Valid()
      modifies this
      ensures Valid()
      ensures ok == (key !in faulty)
      ensures objects == if ok then old(objects)[key := obj] else old(objects)
      ensures log == if ok then old(log) + [Write(key, obj)] else old(log)
    {
      ok := key !in faulty;
      if ok {
        objects := objects[key := obj];
        log := log + [Write(key, obj)];
        assert log[..|log| - 1] == old(log);
      }
    }
  }
}
