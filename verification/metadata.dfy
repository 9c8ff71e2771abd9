/** The metadata registry of functions/utils/metadata.ts: where each kind of record lives in the store,
    reading and writing one record, and enumerating the ids of a collection from object names. */
module Metadata {
  import opened Common
  import opened Text
  import opened Records
  import opened Store

  /** The `type` argument of saveMetadata / getMetadata / listMetadataIds. */
  datatype Collection = UserRecords | MediaRecords | CourseRecords | SubscriptionRecords

  /** Where the record `id` of collection `c` is stored. Media records always go to the videos bucket, even
      for audio media, and every subscription id shares the single `plans.json`. */
  function RecordKey(c: Collection, id: string): ObjectKey
  {
    match c
    case UserRecords => (Users, id + ".json")
    case MediaRecords => (Videos, id + "/metadata.json")
    case CourseRecords => (Courses, id + "/metadata.json")
    case SubscriptionRecords => (Subscriptions, "plans.json")
  }

  /** The one object saveMetadata puts: the document under its key, as JSON. */
  function RecordWrite(c: Collection, id: string, doc: Document): Write
  {
    Write(RecordKey(c, id), StoredObject(Doc(doc), JSON_CONTENT))
  }

  /** getMetadata: the stored document, or nothing when the object is absent, when a request on it fails, or
      when its body is not a JSON document. The three cases give the same answer. */
  function GetMetadata(snap: Snapshot, c: Collection, id: string): (r: Option<Document>)
    ensures r.Some? <==> RecordKey(c, id) in snap.objects && RecordKey(c, id) !in snap.unreadable
                         && snap.objects[RecordKey(c, id)].body.Doc?
    ensures r.Some? ==> snap.objects[RecordKey(c, id)].body == Doc(r.value)
  {
    var key := RecordKey(c, id);
    if key !in snap.objects || key in snap.unreadable then None
    else match snap.objects[key].body
      case Bytes(_) => None
      case Doc(d) => Some(d)
  }

  /** getMetadata<MediaMetadata>('media', id). */
  function GetMedia(snap: Snapshot, id: string): (r: Option<MediaMetadata>)
    ensures r.Some? ==> GetMetadata(snap, MediaRecords, id) == Some(MediaDoc(r.value))
    ensures r.None? ==> GetMetadata(snap, MediaRecords, id).None? || !GetMetadata(snap, MediaRecords, id).value.MediaDoc?
  {
    match GetMetadata(snap, MediaRecords, id)
    case Some(MediaDoc(m)) => Some(m)
    case _ => None
  }

  /** getMetadata<UserMetadata>('user', id). */
  function GetUser(snap: Snapshot, id: string): (r: Option<UserMetadata>)
    ensures r.Some? ==> GetMetadata(snap, UserRecords, id) == Some(UserDoc(r.value))
    ensures r.None? ==> GetMetadata(snap, UserRecords, id).None? || !GetMetadata(snap, UserRecords, id).value.UserDoc?
  {
    match GetMetadata(snap, UserRecords, id)
    case Some(UserDoc(u)) => Some(u)
    case _ => None
  }

  /** getMetadata<CourseMetadata>('course', id). */
  function GetCourse(snap: Snapshot, id: string): (r: Option<CourseMetadata>)
    ensures r.Some? ==> GetMetadata(snap, CourseRecords, id) == Some(CourseDoc(r.value))
    ensures r.None? ==> GetMetadata(snap, CourseRecords, id).None? || !GetMetadata(snap, CourseRecords, id).value.CourseDoc?
  {
    match GetMetadata(snap, CourseRecords, id)
    case Some(CourseDoc(cm)) => Some(cm)
    case _ => None
  }

  /** saveMetadata: one put of the document, as JSON, under the record's key; a failed put rejects. */
  method SaveMetadata(store: ObjectStore, c: Collection, id: string, doc: Document) returns (ok: bool)
    requires store.Valid()
    modifies store
    ensures store.Valid()
    ensures ok == (RecordKey(c, id) !in store.faulty)
    ensures store.objects == if ok then old(store.objects)[RecordKey(c, id) := RecordWrite(c, id, doc).obj]
                             else old(store.objects)
    ensures store.log == old(store.log) + if ok then [RecordWrite(c, id, doc)] else []
  {
    var w := RecordWrite(c, id, doc);
    ok := store.Put(w.key, w.obj);
  }

  /** Reading a record back after its write returns the saved document. */
  lemma GetAfterSave(snap: Snapshot, c: Collection, id: string, doc: Document)
    requires RecordKey(c, id) !in snap.unreadable
    ensures GetMetadata(Snapshot(Apply(snap.objects, [RecordWrite(c, id, doc)]), snap.unreadable), c, id) == Some(doc)
  {
    assert Apply(snap.objects, [RecordWrite(c, id, doc)]) == Apply(snap.objects, [])[RecordKey(c, id) := RecordWrite(c, id, doc).obj];
  }

  /** A write to one record leaves every record stored under another key as it was. */
  lemma SaveKeepsOthers(snap: Snapshot, c: Collection, id: string, doc: Document, c': Collection, id': string)
    requires RecordKey(c, id) != RecordKey(c', id')
    ensures GetMetadata(Snapshot(Apply(snap.objects, [RecordWrite(c, id, doc)]), snap.unreadable), c', id')
         == GetMetadata(snap, c', id')
  {
    assert Apply(snap.objects, [RecordWrite(c, id, doc)]) == Apply(snap.objects, [])[RecordKey(c, id) := RecordWrite(c, id, doc).obj];
  }

  /** Distinct users, media and courses have distinct keys, and records of different collections never share
      one. */
  lemma {:induction false} RecordKeyInjective(c: Collection, id: string, c': Collection, id': string)
    requires c != SubscriptionRecords
    requires RecordKey(c, id) == RecordKey(c', id')
    ensures c == c' && id == id'
  {
    var name := RecordKey(c, id).1;
    match c
    case UserRecords =>
      assert id == name[..|name| - 5];
    case MediaRecords =>
      assert id == name[..|name| - 14];
    case CourseRecords =>
      assert id == name[..|name| - 14];
  }

  /** Every subscription id names the same object, so saving any plan replaces the one stored. */
  lemma SubscriptionIdsCollide(snap: Snapshot, id: string, id': string, doc: Document)
    requires RecordKey(SubscriptionRecords, id) !in snap.unreadable
    ensures GetMetadata(Snapshot(Apply(snap.objects, [RecordWrite(SubscriptionRecords, id, doc)]), snap.unreadable),
                        SubscriptionRecords, id') == Some(doc)
  {
    assert RecordKey(SubscriptionRecords, id) == RecordKey(SubscriptionRecords, id');
    GetAfterSave(snap, SubscriptionRecords, id', doc);
  }

  /** The store a listing is taken from: `bucketOverride || VIDEOS` for media. */
  function ListingBucket(c: Collection, bucketOverride: Option<Bucket>): Bucket
    requires c != SubscriptionRecords
  {
    match c
    case UserRecords => Users
    case MediaRecords => if bucketOverride.Some? then bucketOverride.value else Videos
    case CourseRecords => Courses
  }

  /** The id an object name stands for: the name without its first `.json` for users, its first path segment
      otherwise. */
  function IdOf(c: Collection, name: string): string
  {
    if c == UserRecords then RemoveFirst(name, ".json") else FirstSegment(name, '/')
  }

  /** The ids listMetadataIds returns for the object names `names`, in listing order. User ids are not
      deduplicated; media and course ids are. */
  function CollectIds(c: Collection, names: seq<string>): seq<string>
    decreases |names|
  {
    if names == [] then []
    else
      var ids := CollectIds(c, names[..|names| - 1]);
      var id := IdOf(c, names[|names| - 1]);
      if id == "" || (c != UserRecords && id in ids) then ids else ids + [id]
  }

  /** One more listed name extends the ids of the names before it by that name's id, when it is new. */
  lemma CollectIdsStep(c: Collection, names: seq<string>, i: nat)
    requires i < |names|
    ensures var ids := CollectIds(c, names[..i]);
      CollectIds(c, names[..i + 1])
        == if IdOf(c, names[i]) == "" || (c != UserRecords && IdOf(c, names[i]) in ids) then ids else ids + [IdOf(c, names[i])]
  {
    assert names[..i + 1][..i] == names[..i];
  }

  /** An object without a name stands for no id. */
  lemma EmptyNameHasNoId(c: Collection)
    ensures IdOf(c, "") == ""
  {
    assert FindFrom("", ".json", 0) == None;
  }

  /** listMetadataIds: walks the listing of the collection's bucket and gathers ids. */
  method ListMetadataIds(c: Collection, bucketOverride: Option<Bucket>, listing: Bucket -> seq<string>)
    returns (ids: seq<string>)
    requires c != SubscriptionRecords
    ensures ids == CollectIds(c, listing(ListingBucket(c, bucketOverride)))
  {
    var names := listing(ListingBucket(c, bucketOverride));
    ids := [];
    var i := 0;
    while i < |names|
      invariant 0 <= i <= |names|
      invariant ids == CollectIds(c, names[..i])
    {
      CollectIdsStep(c, names, i);
      var name := names[i];
      if name != "" {
        if c == UserRecords {
          var id := RemoveFirst(name, ".json");
          assert IdOf(c, name) == id;
          if id != "" {
            ids := ids + [id];
          }
        } else {
          var parts := Split(name, '/');
          assert IdOf(c, name) == parts[0];
          if parts[0] != "" && parts[0] !in ids {
            ids := ids + [parts[0]];
          }
        }
      } else {
        EmptyNameHasNoId(c);
      }
      i := i + 1;
    }
    assert names[..i] == names;
  }

  /** An id is listed iff it is non-empty and some object name stands for it. */
  lemma {:induction false} CollectIdsMembership(c: Collection, names: seq<string>)
    ensures forall x :: x in CollectIds(c, names) <==> x != "" && exists n :: n in names && IdOf(c, n) == x
    decreases |names|
  {
    if names != [] {
      var init := names[..|names| - 1];
      CollectIdsMembership(c, init);
      assert names == init + [names[|names| - 1]];
      forall x | x != "" && (exists n :: n in names && IdOf(c, n) == x)
        ensures x in CollectIds(c, names)
      {
        var n :| n in names && IdOf(c, n) == x;
        if n in init {
          assert x in CollectIds(c, init);
        }
      }
    }
  }

  /** Media and course ids come out without repetition. */
  lemma {:induction false} CollectIdsDistinct(c: Collection, names: seq<string>)
    requires c != UserRecords
    ensures forall i, j :: 0 <= i < j < |CollectIds(c, names)| ==> CollectIds(c, names)[i] != CollectIds(c, names)[j]
    decreases |names|
  {
    if names != [] {
      CollectIdsDistinct(c, names[..|names| - 1]);
    }
  }

  /** The object name of a stored record gives back its id, provided the id holds no character of the key's
      suffix that would cut it short. */
  lemma IdOfRecordKey(c: Collection, id: string)
    requires c != SubscriptionRecords
    requires c == UserRecords ==> '.' !in id
    requires c != UserRecords ==> '/' !in id
    ensures IdOf(c, RecordKey(c, id).1) == id
  {
    if c == UserRecords {
      RemoveAppended(id, ".json");
    } else {
      var name := id + "/metadata.json";
      assert name == [id, "metadata.json"][0] + ['/'] + [id, "metadata.json"][1];
      assert Join([id, "metadata.json"], '/') == name;
      SplitJoin([id, "metadata.json"], '/');
    }
  }

  /** A record whose object appears in the listing of its bucket is among the listed ids. */
  lemma SavedIsListed(c: Collection, id: string, names: seq<string>)
    requires c != SubscriptionRecords && id != ""
    requires c == UserRecords ==> '.' !in id
    requires c != UserRecords ==> '/' !in id
    requires RecordKey(c, id).1 in names
    ensures id in CollectIds(c, names)
  {
    IdOfRecordKey(c, id);
    CollectIdsMembership(c, names);
  }

  /** The first segment of `id/rest` is `id` when `id` holds no `/`. */
  lemma FirstSegmentOfPath(id: string, rest: string)
    requires '/' !in id
    ensures FirstSegment(id + "/" + rest, '/') == id
  {
    var s := id + "/" + rest;
    assert s[|id|] == '/';
    var i := IndexOf(s, '/');
    assert s[..|id|] == id;
    assert forall k :: 0 <= k < |id| ==> s[k] == id[k];
    assert i == |id|;
  }

  /** With a listing that reflects the store, any object stored under `<id>/` in a media or course bucket puts
      `id` among the ids listed for that bucket. */
  lemma ObjectUnderIdIsListed(c: Collection, snap: Snapshot, listing: Bucket -> seq<string>, b: Bucket, id: string, rest: string)
    requires c == MediaRecords || c == CourseRecords
    requires ListsStore(listing, snap)
    requires id != "" && '/' !in id && (b, id + "/" + rest) in snap.objects
    ensures id in CollectIds(c, listing(b))
  {
    FirstSegmentOfPath(id, rest);
    CollectIdsMembership(c, listing(b));
    assert id + "/" + rest in listing(b);
  }
}
