/** The catalogue listings: media (functions/media/list.ts) and courses (functions/courses/list.ts) gather
    the records behind the listed ids, drop what the caller may not see and sort newest first. */
module Listing {
  import opened Common
  import opened Text
  import opened Records
  import opened Store
  import opened Metadata
  import opened Auth
  import opened Delivery
  import opened Upload

  /** Non-increasing `key` along the sequence: what `sort((a, b) => key(b) - key(a))` leaves. */
  ghost predicate NewestFirst<T>(s: seq<T>, key: T -> int)
  {
    forall i, j :: 0 <= i < j < |s| ==> key(s[i]) >= key(s[j])
  }

  /** `array.sort((a, b) => key(b) - key(a))`, in place, by insertion. */
  method SortNewestFirst<T>(a: array<T>, key: T -> int)
    modifies a
    ensures NewestFirst(a[..], key)
    ensures multiset(a[..]) == multiset(old(a[..]))
  {
    var i := 0;
    while i < a.Length
      invariant 0 <= i <= a.Length
      invariant NewestFirst(a[..i], key)
      invariant multiset(a[..]) == multiset(old(a[..]))
    {
      InsertAt(a, key, i);
      i := i + 1;
    }
    assert a[..i] == a[..];
  }

  /** Moves `a[i]` left past every element with a smaller key, keeping `a[..i + 1]` a permutation of itself. */
  method InsertAt<T>(a: array<T>, key: T -> int, i: nat)
    requires i < a.Length && NewestFirst(a[..i], key)
    modifies a
    ensures NewestFirst(a[..i + 1], key)
    ensures multiset(a[..]) == multiset(old(a[..]))
  {
    var j: nat := i;
    InsertStart(a[..], key, i);
    while 0 < j && key(a[j - 1]) < key(a[j])
      invariant Inserting(a[..], key, j, i)
      invariant multiset(a[..]) == multiset(old(a[..]))
    {
      ghost var before := a[..];
      InsertSwap(before, key, j, i);
      a[j - 1], a[j] := a[j], a[j - 1];
      assert a[..] == before[j - 1 := before[j]][j := before[j - 1]];
      j := j - 1;
    }
    InsertDone(a[..], key, j, i);
  }

  /** While `s[j]` moves left within `s[..i + 1]`: the others are in order, and `s[j]` is newer than
      everything after it. */
  ghost predicate Inserting<T>(s: seq<T>, key: T -> int, j: nat, i: nat)
  {
    j <= i < |s|
    && (forall k, l :: 0 <= k < l <= i && k != j && l != j ==> key(s[k]) >= key(s[l]))
    && (forall l :: j < l <= i ==> key(s[j]) > key(s[l]))
  }

  lemma InsertStart<T>(s: seq<T>, key: T -> int, i: nat)
    requires i < |s| && NewestFirst(s[..i], key)
    ensures Inserting(s, key, i, i)
  {
    forall k, l | 0 <= k < l <= i && k != i && l != i
      ensures key(s[k]) >= key(s[l])
    {
      assert s[k] == s[..i][k] && s[l] == s[..i][l];
    }
  }

  lemma InsertSwap<T>(s: seq<T>, key: T -> int, j: nat, i: nat)
    requires Inserting(s, key, j, i) && 0 < j && key(s[j - 1]) < key(s[j])
    ensures Inserting(s[j - 1 := s[j]][j := s[j - 1]], key, j - 1, i)
    ensures multiset(s[j - 1 := s[j]][j := s[j - 1]]) == multiset(s)
  {
  }

  lemma InsertDone<T>(s: seq<T>, key: T -> int, j: nat, i: nat)
    requires Inserting(s, key, j, i) && (j == 0 || key(s[j - 1]) >= key(s[j]))
    ensures NewestFirst(s[..i + 1], key)
  {
  }

  function MediaCreatedAt(m: MediaMetadata): int
  {
    m.createdAt
  }

  function CourseCreatedAt(c: CourseMetadata): int
  {
    c.createdAt
  }

  /** What the listing loop does with one looked-up record: keep it, skip it, or throw out of the handler. */
  datatype Pick = Keep | Skip | Abort

  /** The media loop's decision: skip an absent record and one of another type when a type is asked for;
      then apply the premium rule, which throws when the context has no user. */
  function PickMedia(m: Option<MediaMetadata>, kindQuery: Option<string>, user: Option<Claims>): (p: Pick)
    ensures p == Keep ==> m.Some? && (Truthy(kindQuery) ==> m.value.kind == kindQuery.value)
                          && (m.value.premium ==> user.Some? && !PremiumDenied(true, user.value))
    ensures p == Abort <==> m.Some? && (Truthy(kindQuery) ==> m.value.kind == kindQuery.value)
                            && m.value.premium && user.None?
  {
    if m.None? then Skip
    else if Truthy(kindQuery) && m.value.kind != kindQuery.value then Skip
    else match CheckAccess(m.value.premium, user)
      case Granted => Keep
      case Denied => Skip
      case Throws => Abort
  }

  /** The records the media loop pushes, in id order. */
  function MediaSelection(snap: Snapshot, ids: seq<string>, kindQuery: Option<string>, user: Option<Claims>)
    : seq<MediaMetadata>
    decreases |ids|
  {
    if ids == [] then []
    else
      var kept := MediaSelection(snap, ids[..|ids| - 1], kindQuery, user);
      var m := GetMedia(snap, ids[|ids| - 1]);
      if PickMedia(m, kindQuery, user) == Keep then kept + [m.value] else kept
  }

  /** Some id makes the media loop throw. */
  predicate MediaAborts(snap: Snapshot, ids: seq<string>, kindQuery: Option<string>, user: Option<Claims>)
  {
    exists i :: 0 <= i < |ids| && PickMedia(GetMedia(snap, ids[i]), kindQuery, user) == Abort
  }

  /** A record is listed iff it is stored under one of the ids and the loop keeps it. */
  lemma {:induction false} MediaSelectionMembership(snap: Snapshot, ids: seq<string>, kindQuery: Option<string>,
                                                    user: Option<Claims>, m: MediaMetadata)
    ensures m in MediaSelection(snap, ids, kindQuery, user) <==>
              exists id :: id in ids && GetMedia(snap, id) == Some(m) && PickMedia(Some(m), kindQuery, user) == Keep
    decreases |ids|
  {
    if ids != [] {
      var init := ids[..|ids| - 1];
      MediaSelectionMembership(snap, init, kindQuery, user, m);
      assert ids == init + [ids[|ids| - 1]];
      if exists id :: id in ids && GetMedia(snap, id) == Some(m) && PickMedia(Some(m), kindQuery, user) == Keep {
        var id :| id in ids && GetMedia(snap, id) == Some(m) && PickMedia(Some(m), kindQuery, user) == Keep;
        if id in init {
          assert m in MediaSelection(snap, init, kindQuery, user);
        }
      }
    }
  }

  /** The loop of the media handler over the listed ids. */
  method CollectMedia(snap: Snapshot, ids: seq<string>, kindQuery: Option<string>, user: Option<Claims>)
    returns (list: seq<MediaMetadata>, aborted: bool)
    ensures aborted <==> MediaAborts(snap, ids, kindQuery, user)
    ensures !aborted ==> list == MediaSelection(snap, ids, kindQuery, user)
  {
    list := [];
    var i := 0;
    while i < |ids|
      invariant 0 <= i <= |ids|
      invariant list == MediaSelection(snap, ids[..i], kindQuery, user)
      invariant !MediaAborts(snap, ids[..i], kindQuery, user)
    {
      assert ids[..i + 1][..i] == ids[..i];
      var metadata := GetMedia(snap, ids[i]);
      var pick := PickMedia(metadata, kindQuery, user);
      if pick == Abort {
        assert PickMedia(GetMedia(snap, ids[i]), kindQuery, user) == Abort;
        return list, true;
      }
      if pick == Keep {
        list := list + [metadata.value];
      }
      i := i + 1;
    }
    assert ids[..i] == ids;
    aborted := false;
  }

  /** The body of the media listing: `{ success: true, count, media }`. */
  datatype MediaList = MediaList(count: nat, media: seq<MediaMetadata>)

  /** The bucket whose object names give the media ids: audio only for `type=audio`. */
  function MediaListingBucket(kindQuery: Option<string>): (b: Bucket)
    ensures b == Audio <==> kindQuery == Some("audio")
    ensures b != Audio ==> b == Videos
  {
    if kindQuery == Some("audio") then Audio else Videos
  }

  /** The ids the media handler walks. */
  function MediaIds(kindQuery: Option<string>, listing: Bucket -> seq<string>): seq<string>
  {
    CollectIds(MediaRecords, listing(MediaListingBucket(kindQuery)))
  }

  /** GET /media/list. Records are always read from the videos bucket, whichever bucket gave the ids. */
  method ListMedia(snap: Snapshot, kindQuery: Option<string>, user: Option<Claims>, listing: Bucket -> seq<string>)
    returns (r: Response<MediaList>)
    requires ListsStore(listing, snap)
    ensures r.Refuse? <==> MediaAborts(snap, MediaIds(kindQuery, listing), kindQuery, user)
    ensures r.Refuse? ==> r == Refuse(500, "Failed to list media")
    ensures r.Reply? ==> r.body.count == |r.body.media| && NewestFirst(r.body.media, MediaCreatedAt)
                         && multiset(r.body.media) == multiset(MediaSelection(snap, MediaIds(kindQuery, listing), kindQuery, user))
  {
    var ids := ListMetadataIds(MediaRecords, Some(MediaListingBucket(kindQuery)), listing);
    var list, aborted := CollectMedia(snap, ids, kindQuery, user);
    if aborted {
      return Refuse(500, "Failed to list media");
    }
    var a := new MediaMetadata[|list|](k requires 0 <= k < |list| => list[k]);
    assert a[..] == list;
    SortNewestFirst(a, MediaCreatedAt);
    r := Reply(MediaList(a.Length, a[..]));
  }

  /** Every listed record is of the asked type and visible to the caller, and every record of the asked
      type that the caller may see and whose id is listed is in the answer. */
  lemma ListedMediaIsVisible(snap: Snapshot, kindQuery: Option<string>, user: Option<Claims>,
                             listing: Bucket -> seq<string>, media: seq<MediaMetadata>, m: MediaMetadata)
    requires multiset(media) == multiset(MediaSelection(snap, MediaIds(kindQuery, listing), kindQuery, user))
    ensures m in media <==> exists id :: id in MediaIds(kindQuery, listing) && GetMedia(snap, id) == Some(m)
                                          && PickMedia(Some(m), kindQuery, user) == Keep
    ensures m in media ==> (Truthy(kindQuery) ==> m.kind == kindQuery.value)
                           && (m.premium ==> user.Some? && (user.value.role == Admin || user.value.subscription == Premium))
  {
    assert m in media <==> m in multiset(media);
    MediaSelectionMembership(snap, MediaIds(kindQuery, listing), kindQuery, user, m);
  }

  /** A stored media record is among the ids the handler walks for any query but `type=audio` (which walks
      the audio bucket, where records are not kept), and is in the answer whenever the loop keeps it. */
  lemma StoredMediaIsListed(snap: Snapshot, kindQuery: Option<string>, user: Option<Claims>,
                            listing: Bucket -> seq<string>, m: MediaMetadata)
    requires ListsStore(listing, snap)
    requires m.id != "" && '/' !in m.id && GetMedia(snap, m.id) == Some(m)
    requires kindQuery != Some("audio")
    ensures m.id in MediaIds(kindQuery, listing)
    ensures PickMedia(Some(m), kindQuery, user) == Keep ==>
              m in MediaSelection(snap, MediaIds(kindQuery, listing), kindQuery, user)
  {
    assert RecordKey(MediaRecords, m.id) in snap.objects;
    assert m.id + "/" + "metadata.json" == m.id + "/metadata.json";
    ObjectUnderIdIsListed(MediaRecords, snap, listing, Videos, m.id, "metadata.json");
    MediaSelectionMembership(snap, MediaIds(kindQuery, listing), kindQuery, user, m);
  }

  /** After a complete publish (the record written last), the new media is listed under the default query
      and under its own type, and reaches every caller the premium rule admits. */
  lemma PublishedMediaIsListed(snap: Snapshot, initial: map<ObjectKey, StoredObject>, log: seq<Write>,
                               m: MediaMetadata, user: Option<Claims>, listing: Bucket -> seq<string>)
    requires |log| >= 1 && log[|log| - 1] == RecordWrite(MediaRecords, m.id, MediaDoc(m))
    requires snap.objects == Apply(initial, log) && RecordKey(MediaRecords, m.id) !in snap.unreadable
    requires ListsStore(listing, snap)
    requires m.id != "" && '/' !in m.id && m.kind != "audio"
    requires !m.premium || (user.Some? && (user.value.role == Admin || user.value.subscription == Premium))
    ensures m in MediaSelection(snap, MediaIds(None, listing), None, user)
    ensures m in MediaSelection(snap, MediaIds(Some(m.kind), listing), Some(m.kind), user)
  {
    UploadReadsBack(snap, initial, log, m);
    StoredMediaIsListed(snap, None, user, listing, m);
    StoredMediaIsListed(snap, Some(m.kind), user, listing, m);
  }

  /** The course loop's decision: skip an absent record, then apply the premium rule. */
  function PickCourse(c: Option<CourseMetadata>, user: Option<Claims>): (p: Pick)
    ensures p == Keep ==> c.Some? && (c.value.premium ==> user.Some? && !PremiumDenied(true, user.value))
    ensures p == Abort <==> c.Some? && c.value.premium && user.None?
  {
    if c.None? then Skip
    else match CheckAccess(c.value.premium, user)
      case Granted => Keep
      case Denied => Skip
      case Throws => Abort
  }

  /** The records the course loop pushes, in id order. */
  function CourseSelection(snap: Snapshot, ids: seq<string>, user: Option<Claims>): seq<CourseMetadata>
    decreases |ids|
  {
    if ids == [] then []
    else
      var kept := CourseSelection(snap, ids[..|ids| - 1], user);
      var c := GetCourse(snap, ids[|ids| - 1]);
      if PickCourse(c, user) == Keep then kept + [c.value] else kept
  }

  predicate CourseAborts(snap: Snapshot, ids: seq<string>, user: Option<Claims>)
  {
    exists i :: 0 <= i < |ids| && PickCourse(GetCourse(snap, ids[i]), user) == Abort
  }

  lemma {:induction false} CourseSelectionMembership(snap: Snapshot, ids: seq<string>, user: Option<Claims>, c: CourseMetadata)
    ensures c in CourseSelection(snap, ids, user) <==>
              exists id :: id in ids && GetCourse(snap, id) == Some(c) && PickCourse(Some(c), user) == Keep
    decreases |ids|
  {
    if ids != [] {
      var init := ids[..|ids| - 1];
      CourseSelectionMembership(snap, init, user, c);
      assert ids == init + [ids[|ids| - 1]];
      if exists id :: id in ids && GetCourse(snap, id) == Some(c) && PickCourse(Some(c), user) == Keep {
        var id :| id in ids && GetCourse(snap, id) == Some(c) && PickCourse(Some(c), user) == Keep;
        if id in init {
          assert c in CourseSelection(snap, init, user);
        }
      }
    }
  }

  method CollectCourses(snap: Snapshot, ids: seq<string>, user: Option<Claims>)
    returns (list: seq<CourseMetadata>, aborted: bool)
    ensures aborted <==> CourseAborts(snap, ids, user)
    ensures !aborted ==> list == CourseSelection(snap, ids, user)
  {
    list := [];
    var i := 0;
    while i < |ids|
      invariant 0 <= i <= |ids|
      invariant list == CourseSelection(snap, ids[..i], user)
      invariant !CourseAborts(snap, ids[..i], user)
    {
      assert ids[..i + 1][..i] == ids[..i];
      var metadata := GetCourse(snap, ids[i]);
      var pick := PickCourse(metadata, user);
      if pick == Abort {
        assert PickCourse(GetCourse(snap, ids[i]), user) == Abort;
        return list, true;
      }
      if pick == Keep {
        list := list + [metadata.value];
      }
      i := i + 1;
    }
    assert ids[..i] == ids;
    aborted := false;
  }

  /** The body of the course listing: `{ success: true, count, courses }`. */
  datatype CourseList = CourseList(count: nat, courses: seq<CourseMetadata>)

  /** The ids the course handler walks: always those of the courses bucket. */
  function CourseIds(listing: Bucket -> seq<string>): seq<string>
  {
    CollectIds(CourseRecords, listing(Courses))
  }

  /** GET /courses/list. */
  method ListCourses(snap: Snapshot, user: Option<Claims>, listing: Bucket -> seq<string>)
    returns (r: Response<CourseList>)
    requires ListsStore(listing, snap)
    ensures r.Refuse? <==> CourseAborts(snap, CourseIds(listing), user)
    ensures r.Refuse? ==> r == Refuse(500, "Failed to list courses")
    ensures r.Reply? ==> r.body.count == |r.body.courses| && NewestFirst(r.body.courses, CourseCreatedAt)
                         && multiset(r.body.courses) == multiset(CourseSelection(snap, CourseIds(listing), user))
  {
    var ids := ListMetadataIds(CourseRecords, None, listing);
    var list, aborted := CollectCourses(snap, ids, user);
    if aborted {
      return Refuse(500, "Failed to list courses");
    }
    var a := new CourseMetadata[|list|](k requires 0 <= k < |list| => list[k]);
    assert a[..] == list;
    SortNewestFirst(a, CourseCreatedAt);
    r := Reply(CourseList(a.Length, a[..]));
  }

  /** No premium course reaches a caller who is neither admin nor premium, and every visible course whose
      id is listed is in the answer. */
  lemma ListedCoursesAreVisible(snap: Snapshot, user: Option<Claims>, listing: Bucket -> seq<string>,
                                courses: seq<CourseMetadata>, c: CourseMetadata)
    requires multiset(courses) == multiset(CourseSelection(snap, CourseIds(listing), user))
    ensures c in courses <==> exists id :: id in CourseIds(listing) && GetCourse(snap, id) == Some(c)
                                           && PickCourse(Some(c), user) == Keep
    ensures c in courses && c.premium ==> user.Some? && (user.value.role == Admin || user.value.subscription == Premium)
  {
    assert c in courses <==> c in multiset(courses);
    CourseSelectionMembership(snap, CourseIds(listing), user, c);
  }

  /** A stored course record is among the ids the course handler walks, and is in the answer whenever the
      loop keeps it. */
  lemma StoredCourseIsListed(snap: Snapshot, user: Option<Claims>, listing: Bucket -> seq<string>, c: CourseMetadata)
    requires ListsStore(listing, snap)
    requires c.id != "" && '/' !in c.id && GetCourse(snap, c.id) == Some(c)
    ensures c.id in CourseIds(listing)
    ensures PickCourse(Some(c), user) == Keep ==> c in CourseSelection(snap, CourseIds(listing), user)
  {
    assert RecordKey(CourseRecords, c.id) in snap.objects;
    assert c.id + "/" + "metadata.json" == c.id + "/metadata.json";
    ObjectUnderIdIsListed(CourseRecords, snap, listing, Courses, c.id, "metadata.json");
    CourseSelectionMembership(snap, CourseIds(listing), user, c);
  }
}
