/** The read paths that resolve one record into presigned URLs: the stream resolver
    (functions/media/stream.ts), the metadata read (functions/media/metadata.ts) and the course detail
    (functions/courses/detail.ts). All three sit behind optionalAuth, so the caller is the guest, a verified
    payload, or nobody when a token was sent that did not verify. Presigning is a pure function of bucket,
    key and lifetime. */
module Delivery {
  import opened Common
  import opened Records
  import opened Store
  import opened Metadata
  import opened Auth
  import opened Upload

  /** Every URL the read paths hand out lives one hour. */
  const URL_TTL: int := 3600
  const DEFAULT_QUALITY: string := "720p"
  const DEFAULT_LANGUAGE: string := "en"
  const PREMIUM_REQUIRED: string := "Premium subscription required"

  /** The outcome of `premium && user.role !== 'admin' && user.subscription !== 'premium'` evaluated on the
      context's user: with no user the property access throws, unless `premium` already short-circuits. */
  datatype Access = Granted | Denied | Throws

  function CheckAccess(premium: bool, user: Option<Claims>): (a: Access)
    ensures a.Denied? <==> premium && user.Some? && PremiumDenied(premium, user.value)
    ensures a.Throws? <==> premium && user.None?
  {
    if !premium then Granted
    else if user.None? then Throws
    else if PremiumDenied(premium, user.value) then Denied
    else Granted
  }

  /** `value || fallback` on a query parameter. */
  function OrDefault(s: Option<string>, fallback: string): string
  {
    if Truthy(s) then s.value else fallback
  }

  /** Audio media is served from the audio bucket, every other kind from the videos bucket. */
  function StreamBucket(kind: string): (b: Bucket)
    ensures b == Audio <==> kind == "audio"
    ensures b != Audio ==> b == Videos
  {
    if kind == "audio" then Audio else Videos
  }

  /** The object name of a rendition's HLS manifest. */
  function ManifestKey(mediaId: string, quality: string): string
  {
    mediaId + "/hls/" + quality + "/playlist.m3u8"
  }

  /** The body of a successful stream request. */
  datatype StreamReply = StreamReply(
    id: string, title: string, kind: string, manifestUrl: SignedUrl, quality: string, language: string)

  /** GET /stream/:id. */
  function Stream(snap: Snapshot, mediaId: string, quality: Option<string>, language: Option<string>,
                  user: Option<Claims>): (r: Response<StreamReply>)
    ensures r == Refuse(404, "Media not found") <==> GetMedia(snap, mediaId).None?
    ensures r == Refuse(403, PREMIUM_REQUIRED) <==>
              GetMedia(snap, mediaId).Some? && CheckAccess(GetMedia(snap, mediaId).value.premium, user).Denied?
    ensures r == Refuse(500, "Failed to get stream URL") <==>
              GetMedia(snap, mediaId).Some? && CheckAccess(GetMedia(snap, mediaId).value.premium, user).Throws?
    ensures r.Reply? ==> (GetMedia(snap, mediaId).Some? &&
      var m := GetMedia(snap, mediaId).value;
      var q := OrDefault(quality, DEFAULT_QUALITY);
      r.body == StreamReply(mediaId, m.title, m.kind, SignedUrl(StreamBucket(m.kind), ManifestKey(mediaId, q), URL_TTL),
                            q, OrDefault(language, DEFAULT_LANGUAGE)))
  {
    match GetMedia(snap, mediaId)
    case None => Refuse(404, "Media not found")
    case Some(m) =>
      match CheckAccess(m.premium, user)
      case Denied => Refuse(403, PREMIUM_REQUIRED)
      case Throws => Refuse(500, "Failed to get stream URL")
      case Granted =>
        var q := OrDefault(quality, DEFAULT_QUALITY);
        Reply(StreamReply(mediaId, m.title, m.kind, SignedUrl(StreamBucket(m.kind), ManifestKey(mediaId, q), URL_TTL),
                          q, OrDefault(language, DEFAULT_LANGUAGE)))
  }

  /** The language is echoed and nothing else: two requests that differ only in it get the same manifest. */
  lemma StreamIgnoresLanguage(snap: Snapshot, mediaId: string, quality: Option<string>, l1: Option<string>,
                              l2: Option<string>, user: Option<Claims>)
    ensures Stream(snap, mediaId, quality, l1, user).Reply? == Stream(snap, mediaId, quality, l2, user).Reply?
    ensures Stream(snap, mediaId, quality, l1, user).Reply? ==>
              Stream(snap, mediaId, quality, l1, user).body.(language := "")
              == Stream(snap, mediaId, quality, l2, user).body.(language := "")
  {
  }

  /** Media that is not premium is served to every caller, including one whose token did not verify. */
  lemma StandardMediaAlwaysStreams(snap: Snapshot, mediaId: string, quality: Option<string>, language: Option<string>,
                                   user: Option<Claims>)
    requires GetMedia(snap, mediaId).Some? && !GetMedia(snap, mediaId).value.premium
    ensures Stream(snap, mediaId, quality, language, user).Reply?
  {
  }

  /** The quality is not checked against the record's renditions: any label gives a URL. */
  lemma AnyQualityStreams(snap: Snapshot, mediaId: string, quality: string, user: Option<Claims>)
    requires GetMedia(snap, mediaId).Some? && CheckAccess(GetMedia(snap, mediaId).value.premium, user).Granted?
    requires quality != "" && GetMedia(snap, mediaId).value.qualities.Some?
    requires quality !in GetMedia(snap, mediaId).value.qualities.value
    ensures Stream(snap, mediaId, Some(quality), None, user).Reply?
    ensures Stream(snap, mediaId, Some(quality), None, user).body.manifestUrl.key == ManifestKey(mediaId, quality)
  {
  }

  /** The walk stores the playlist of a top-level rendition directory under the stream's manifest key. */
  lemma PlaylistKeyIsManifestKey(mediaId: string, rendition: string)
    requires rendition != ""
    ensures mediaId + "/hls/" + ObjectName(ObjectName("", rendition), "playlist.m3u8") == ManifestKey(mediaId, rendition)
  {
    assert ObjectName(ObjectName("", rendition), "playlist.m3u8") == rendition + "/" + "playlist.m3u8";
    assert mediaId + "/hls/" + (rendition + "/" + "playlist.m3u8") == mediaId + "/hls/" + rendition + "/playlist.m3u8";
  }

  /** The stream URL of a rendition points at an object the upload walk put: for video and audio uploads
      the bucket the resolver picks is the bucket the upload used, and a `playlist.m3u8` inside the
      rendition's directory of the output tree is put under the manifest key. */
  lemma {:induction false} StreamFindsPublishedManifest(kind: string, mediaId: string, tree: seq<Entry>, i: nat, j: nat)
    requires IsVideoKind(kind) || kind == "audio"
    requires i < |tree| && tree[i].Directory? && tree[i].name != ""
    requires j < |tree[i].children| && tree[i].children[j].File? && tree[i].children[j].name == "playlist.m3u8"
    ensures exists w :: w in HlsWrites(TargetBucket(kind), mediaId, tree, "")
                        && w.key == (StreamBucket(kind), ManifestKey(mediaId, tree[i].name))
  {
    var bucket := TargetBucket(kind);
    var dir := tree[i];
    var file := dir.children[j];
    FileIsPut(bucket, mediaId, dir.children, ObjectName("", dir.name), j);
    DirectoryIsWalked(bucket, mediaId, tree, "", i);
    var w := Write(HlsKey(bucket, mediaId, ObjectName(ObjectName("", dir.name), file.name)),
                   StoredObject(Bytes(file.content), OCTET_STREAM));
    assert w in HlsWrites(bucket, mediaId, tree, "");
    PlaylistKeyIsManifestKey(mediaId, dir.name);
    assert w.key == (StreamBucket(kind), ManifestKey(mediaId, dir.name));
  }

  /** The body of a successful metadata read: the record with the URL of its thumbnail, if it has one. */
  datatype MetadataReply = MetadataReply(metadata: MediaMetadata, thumbnailUrl: Option<SignedUrl>)

  /** A presigned URL in the thumbnails bucket for a truthy object name. */
  function ThumbnailUrl(thumbnail: Option<string>): (u: Option<SignedUrl>)
    ensures u.Some? <==> Truthy(thumbnail)
    ensures u.Some? ==> u.value == SignedUrl(Thumbnails, thumbnail.value, URL_TTL)
  {
    if Truthy(thumbnail) then Some(SignedUrl(Thumbnails, thumbnail.value, URL_TTL)) else None
  }

  /** GET /metadata/:id. */
  function ReadMetadata(snap: Snapshot, mediaId: string, user: Option<Claims>): (r: Response<MetadataReply>)
    ensures r == Refuse(404, "Media not found") <==> GetMedia(snap, mediaId).None?
    ensures r == Refuse(403, PREMIUM_REQUIRED) <==>
              GetMedia(snap, mediaId).Some? && CheckAccess(GetMedia(snap, mediaId).value.premium, user).Denied?
    ensures r == Refuse(500, "Failed to get metadata") <==>
              GetMedia(snap, mediaId).Some? && CheckAccess(GetMedia(snap, mediaId).value.premium, user).Throws?
    ensures r.Reply? ==> (GetMedia(snap, mediaId).Some? &&
      r.body == MetadataReply(GetMedia(snap, mediaId).value, ThumbnailUrl(GetMedia(snap, mediaId).value.thumbnail)))
  {
    match GetMedia(snap, mediaId)
    case None => Refuse(404, "Media not found")
    case Some(m) =>
      match CheckAccess(m.premium, user)
      case Denied => Refuse(403, PREMIUM_REQUIRED)
      case Throws => Refuse(500, "Failed to get metadata")
      case Granted => Reply(MetadataReply(m, ThumbnailUrl(m.thumbnail)))
  }

  /** Stream and metadata reads of the same record make the same access decision. */
  lemma ReadPathsAgree(snap: Snapshot, mediaId: string, quality: Option<string>, language: Option<string>,
                       user: Option<Claims>)
    ensures Stream(snap, mediaId, quality, language, user).Reply? <==> ReadMetadata(snap, mediaId, user).Reply?
    ensures !Stream(snap, mediaId, quality, language, user).Reply? ==>
              Stream(snap, mediaId, quality, language, user).status == ReadMetadata(snap, mediaId, user).status
  {
  }

  /** The thumbnail URL of an uploaded video names the object the upload put in the thumbnails bucket. */
  lemma ThumbnailUrlFindsUpload(form: Form, file: UploadedFile, env: Environment, duration: real)
    requires env.thumbnail.Some?
    ensures var m := NewMetadata(form, file, env, duration);
      IsVideoKind(m.kind) ==>
        ThumbnailUrl(m.thumbnail).Some?
        && exists w :: w in ThumbnailWrites(m.kind, env.mediaId, env.thumbnail)
                       && w.key == (ThumbnailUrl(m.thumbnail).value.bucket, ThumbnailUrl(m.thumbnail).value.key)
  {
    var m := NewMetadata(form, file, env, duration);
    if IsVideoKind(m.kind) {
      assert ThumbnailWrites(m.kind, env.mediaId, env.thumbnail)[0].key == (Thumbnails, env.mediaId + "/thumbnail.jpg");
    }
  }

  /** A video whose thumbnail file was not produced still records `<id>/thumbnail.jpg`, but no write of the
      upload puts that object: the record's thumbnail URL dangles. */
  lemma ThumbnailUrlDangles(form: Form, file: UploadedFile, env: Environment, duration: real)
    requires env.thumbnail.None?
    ensures var m := NewMetadata(form, file, env, duration);
      IsVideoKind(m.kind) ==>
        ThumbnailUrl(m.thumbnail).Some?
        && forall w :: w in PublishWrites(m.kind, env.mediaId, env.output, env.thumbnail, m) ==>
                         w.key != (ThumbnailUrl(m.thumbnail).value.bucket, ThumbnailUrl(m.thumbnail).value.key)
  {
    var m := NewMetadata(form, file, env, duration);
    if IsVideoKind(m.kind) {
      HlsWritesShape(TargetBucket(m.kind), env.mediaId, env.output, "");
      assert ThumbnailUrl(m.thumbnail).value.bucket == Thumbnails;
    }
  }

  /** A lesson with the stream URL of its media, if its media has a record. */
  datatype LessonView = LessonView(lesson: Lesson, streamUrl: Option<SignedUrl>)

  /** The body of a successful course read. */
  datatype CourseReply = CourseReply(course: CourseMetadata, lessons: seq<LessonView>, thumbnailUrl: Option<SignedUrl>)

  /** A lesson's URL: present iff any document is stored under its media's record key, and then always the
      720p manifest in the videos bucket, whatever the media's kind or premium flag. */
  function LessonUrl(snap: Snapshot, mediaId: string): (u: Option<SignedUrl>)
    ensures u.Some? <==> GetMetadata(snap, MediaRecords, mediaId).Some?
    ensures u.Some? ==> u.value == SignedUrl(Videos, ManifestKey(mediaId, DEFAULT_QUALITY), URL_TTL)
  {
    if GetMetadata(snap, MediaRecords, mediaId).Some? then
      Some(SignedUrl(Videos, ManifestKey(mediaId, DEFAULT_QUALITY), URL_TTL))
    else None
  }

  /** The lessons, in order, each with its URL. */
  function WithUrls(snap: Snapshot, lessons: seq<Lesson>): (views: seq<LessonView>)
    ensures |views| == |lessons|
    ensures forall i :: 0 <= i < |lessons| ==> views[i].lesson == lessons[i]
    ensures forall i :: 0 <= i < |lessons| ==> views[i].streamUrl == LessonUrl(snap, lessons[i].mediaId)
  {
    seq(|lessons|, i requires 0 <= i < |lessons| => LessonView(lessons[i], LessonUrl(snap, lessons[i].mediaId)))
  }

  /** GET /courses/:id. */
  function CourseDetail(snap: Snapshot, courseId: string, user: Option<Claims>): (r: Response<CourseReply>)
    ensures r == Refuse(404, "Course not found") <==> GetCourse(snap, courseId).None?
    ensures r == Refuse(403, PREMIUM_REQUIRED) <==>
              GetCourse(snap, courseId).Some? && CheckAccess(GetCourse(snap, courseId).value.premium, user).Denied?
    ensures r == Refuse(500, "Failed to get course") <==>
              GetCourse(snap, courseId).Some? && CheckAccess(GetCourse(snap, courseId).value.premium, user).Throws?
    ensures r.Reply? ==> (GetCourse(snap, courseId).Some? &&
      var c := GetCourse(snap, courseId).value;
      r.body == CourseReply(c, WithUrls(snap, c.lessons), ThumbnailUrl(c.thumbnail)))
  {
    match GetCourse(snap, courseId)
    case None => Refuse(404, "Course not found")
    case Some(c) =>
      match CheckAccess(c.premium, user)
      case Denied => Refuse(403, PREMIUM_REQUIRED)
      case Throws => Refuse(500, "Failed to get course")
      case Granted => Reply(CourseReply(c, WithUrls(snap, c.lessons), ThumbnailUrl(c.thumbnail)))
  }

  /** Only the course's own flag is checked: a standard course hands out the URL of every lesson whose media
      has a record, premium media included, to any caller. */
  lemma CourseIgnoresLessonPremium(snap: Snapshot, courseId: string, user: Option<Claims>, k: nat)
    requires GetCourse(snap, courseId).Some? && !GetCourse(snap, courseId).value.premium
    requires k < |GetCourse(snap, courseId).value.lessons|
    requires GetMedia(snap, GetCourse(snap, courseId).value.lessons[k].mediaId).Some?
    ensures CourseDetail(snap, courseId, user).Reply?
    ensures CourseDetail(snap, courseId, user).body.lessons[k].streamUrl.Some?
  {
  }

  /** An audio lesson gets a URL in the videos bucket, not the one the stream resolver gives for the same
      media. */
  lemma AudioLessonUrlDiffersFromStream(snap: Snapshot, mediaId: string, user: Option<Claims>)
    requires GetMedia(snap, mediaId).Some? && GetMedia(snap, mediaId).value.kind == "audio"
    requires Stream(snap, mediaId, None, None, user).Reply?
    ensures LessonUrl(snap, mediaId).Some?
    ensures LessonUrl(snap, mediaId) != Some(Stream(snap, mediaId, None, None, user).body.manifestUrl)
  {
  }
}
