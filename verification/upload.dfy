/** The admin upload endpoint of functions/media/upload.ts: form defaults, the validation chain, type
    detection and rendition choice, the walk that publishes the rendition tree, and the publish order
    (renditions, then the thumbnail, then the metadata record), with the scratch workspace removed on every
    path once it exists. */
module Upload {
  import opened Common
  import opened Text
  import opened Records
  import opened Store
  import opened Metadata
  import opened Transcode

  /** MAX_UPLOAD_SIZE when the environment leaves it unset: 10 GiB. */
  const DEFAULT_MAX_UPLOAD_SIZE: nat := 10737418240
  const ALLOWED_VIDEO_TYPES: seq<string> := ["video/mp4", "video/mpeg", "video/quicktime", "video/x-msvideo", "video/webm"]
  const ALLOWED_AUDIO_TYPES: seq<string> := ["audio/mpeg", "audio/mp3", "audio/wav", "audio/ogg", "audio/webm", "audio/aac"]
  const VIDEO_QUALITIES: seq<string> := ["480p", "720p"]
  const AUDIO_BITRATES: seq<string> := ["96k", "128k"]
  const JPEG_CONTENT: string := "image/jpeg"

  /** The `file` part of the form. */
  datatype UploadedFile = UploadedFile(name: string, size: nat, mimeType: string, content: seq<bv8>)

  /** The multipart form: every field may be missing. */
  datatype Form = Form(
    file: Option<UploadedFile>,
    title: Option<string>,
    kind: Option<string>,
    premium: Option<string>,
    languages: Option<string>)

  /** An error answer of the handler. */
  datatype Rejection = Rejection(status: nat, error: string)

  /** The success body: `{ success: true, id, metadata }`. */
  datatype UploadReply = UploadReply(id: string, metadata: MediaMetadata)

  /** `title || 'Untitled'`: a missing or empty title is replaced. */
  function TitleOf(title: Option<string>): (t: string)
    ensures Truthy(title) ==> t == title.value
    ensures !Truthy(title) ==> t == "Untitled"
  {
    if Truthy(title) then title.value else "Untitled"
  }

  /** `premium === 'true'`. */
  predicate PremiumOf(premium: Option<string>)
  {
    premium == Some("true")
  }

  /** `languages?.split(',') || ['en']`: only a missing field defaults; pieces are not trimmed. */
  function LanguagesOf(languages: Option<string>): (ls: seq<string>)
    ensures |ls| >= 1
  {
    if languages.Some? then Split(languages.value, ',') else ["en"]
  }

  /** The languages field is kept whole: joining the pieces back gives the field, so nothing is trimmed or
      dropped, and an empty field gives one empty language rather than the default. */
  lemma LanguagesKeepField(field: string)
    ensures Join(LanguagesOf(Some(field)), ',') == field
    ensures LanguagesOf(Some("")) == [""]
    ensures LanguagesOf(None) == ["en"]
  {
    JoinSplit(field, ',');
  }

  /** The validation chain, in order; nothing is created before it passes. */
  function Validate(file: Option<UploadedFile>, maxSize: nat): (r: Option<Rejection>)
    ensures r.None? <==> file.Some? && file.value.size <= maxSize
                         && (file.value.mimeType in ALLOWED_VIDEO_TYPES || file.value.mimeType in ALLOWED_AUDIO_TYPES)
    ensures file.None? ==> r == Some(Rejection(400, "No file provided"))
    ensures file.Some? && file.value.size > maxSize ==> r == Some(Rejection(413, "File too large"))
    ensures (file.Some? && file.value.size <= maxSize && !StartsWith(file.value.mimeType, "video/")
             && !StartsWith(file.value.mimeType, "audio/")) ==> r == Some(Rejection(400, "Invalid file type"))
    ensures r.Some? && r.value.status != 413 ==> r.value.status == 400
  {
    if file.None? then Some(Rejection(400, "No file provided"))
    else if file.value.size > maxSize then Some(Rejection(413, "File too large"))
    else
      var mime := file.value.mimeType;
      var isVideo := StartsWith(mime, "video/");
      var isAudio := StartsWith(mime, "audio/");
      AllowedHavePrefix(mime);
      if !isVideo && !isAudio then Some(Rejection(400, "Invalid file type"))
      else if isVideo && mime !in ALLOWED_VIDEO_TYPES then Some(Rejection(400, "Unsupported video format"))
      else if isAudio && mime !in ALLOWED_AUDIO_TYPES then Some(Rejection(400, "Unsupported audio format"))
      else None
  }

  /** Every allowed video type is a `video/` type and every allowed audio type an `audio/` type. */
  lemma AllowedHavePrefix(mime: string)
    ensures mime in ALLOWED_VIDEO_TYPES ==> StartsWith(mime, "video/") && !StartsWith(mime, "audio/")
    ensures mime in ALLOWED_AUDIO_TYPES ==> StartsWith(mime, "audio/") && !StartsWith(mime, "video/")
  {
  }

  /** A file exactly at the size limit passes the size check. */
  lemma SizeLimitInclusive(file: UploadedFile, maxSize: nat)
    requires file.size == maxSize && file.mimeType == "video/mp4"
    ensures Validate(Some(file), maxSize).None?
  {
  }

  /** `type || (file.type.startsWith('video/') ? 'movie' : 'audio')`: a declared type is taken as is and never
      compared with the file's MIME type. */
  function DetectType(declared: Option<string>, mimeType: string): (kind: string)
    ensures Truthy(declared) ==> kind == declared.value
    ensures !Truthy(declared) ==> (kind == "movie" <==> StartsWith(mimeType, "video/"))
    ensures !Truthy(declared) ==> (kind == "audio" <==> !StartsWith(mimeType, "video/"))
  {
    if Truthy(declared) then declared.value
    else if StartsWith(mimeType, "video/") then "movie"
    else "audio"
  }

  predicate IsVideoKind(kind: string)
  {
    kind == "movie" || kind == "tv"
  }

  /** The rendition labels a kind is transcoded to: none for anything that is neither video nor audio. */
  function RenditionsOf(kind: string): (labels: seq<string>)
    ensures IsVideoKind(kind) ==> labels == ["480p", "720p"]
    ensures kind == "audio" ==> labels == ["96k", "128k"]
    ensures !IsVideoKind(kind) && kind != "audio" ==> labels == []
  {
    if IsVideoKind(kind) then VIDEO_QUALITIES else if kind == "audio" then AUDIO_BITRATES else []
  }

  /** Video goes to the videos bucket, everything else (audio and course alike) to the audio bucket. */
  function TargetBucket(kind: string): (b: Bucket)
    ensures b == Videos <==> IsVideoKind(kind)
    ensures b != Videos ==> b == Audio
  {
    if IsVideoKind(kind) then Videos else Audio
  }

  /** An entry of the rendition directory as `readdir` reports it. */
  datatype Entry =
    | File(name: string, content: seq<bv8>)
    | Directory(name: string, children: seq<Entry>)
    | Special(name: string)

  /** `prefix ? prefix/name : name`. */
  function ObjectName(prefix: string, name: string): string
  {
    if prefix == "" then name else prefix + "/" + name
  }

  function HlsKey(bucket: Bucket, mediaId: string, objectName: string): ObjectKey
  {
    (bucket, mediaId + "/hls/" + objectName)
  }

  /** The puts the walk of `entries` under `prefix` asks for, in walk order. */
  function HlsWrites(bucket: Bucket, mediaId: string, entries: seq<Entry>, prefix: string): seq<Write>
    decreases entries, 1
  {
    if entries == [] then []
    else HlsWrites(bucket, mediaId, entries[..|entries| - 1], prefix)
         + EntryWrites(bucket, mediaId, entries[|entries| - 1], prefix, entries)
  }

  /** The puts for one entry of `siblings`: a file is put as raw bytes, a directory is walked with its name
      appended to the prefix, anything else is skipped. */
  function EntryWrites(bucket: Bucket, mediaId: string, e: Entry, prefix: string, siblings: seq<Entry>): seq<Write>
    requires e in siblings
    decreases siblings, 0
  {
    match e
    case File(name, content) =>
      [Write(HlsKey(bucket, mediaId, ObjectName(prefix, name)), StoredObject(Bytes(content), OCTET_STREAM))]
    case Directory(name, children) => HlsWrites(bucket, mediaId, children, ObjectName(prefix, name))
    case Special(_) => []
  }

  lemma {:induction false} HlsWritesConcat(bucket: Bucket, mediaId: string, a: seq<Entry>, b: seq<Entry>, prefix: string)
    ensures HlsWrites(bucket, mediaId, a + b, prefix) == HlsWrites(bucket, mediaId, a, prefix) + HlsWrites(bucket, mediaId, b, prefix)
    decreases |b|
  {
    if b == [] {
      assert a + b == a;
    } else {
      var ab := a + b;
      var init := b[..|b| - 1];
      var e := b[|b| - 1];
      assert ab[..|ab| - 1] == a + init;
      var mine := EntryWrites(bucket, mediaId, e, prefix, b);
      HlsWritesLast(bucket, mediaId, ab, prefix);
      HlsWritesLast(bucket, mediaId, b, prefix);
      EntryWritesIndependent(bucket, mediaId, e, prefix, ab, b);
      HlsWritesConcat(bucket, mediaId, a, init, prefix);
      SeqAssoc(HlsWrites(bucket, mediaId, a, prefix), HlsWrites(bucket, mediaId, init, prefix), mine);
    }
  }

  /** The walk of a non-empty list: the walk of all but the last entry, then the last entry's puts. */
  lemma HlsWritesLast(bucket: Bucket, mediaId: string, entries: seq<Entry>, prefix: string)
    requires entries != []
    ensures HlsWrites(bucket, mediaId, entries, prefix)
         == HlsWrites(bucket, mediaId, entries[..|entries| - 1], prefix)
            + EntryWrites(bucket, mediaId, entries[|entries| - 1], prefix, entries)
  {
  }

  /** The puts for an entry do not depend on which sibling list it is looked up in. */
  lemma EntryWritesIndependent(bucket: Bucket, mediaId: string, e: Entry, prefix: string, s: seq<Entry>, t: seq<Entry>)
    requires e in s && e in t
    ensures EntryWrites(bucket, mediaId, e, prefix, s) == EntryWrites(bucket, mediaId, e, prefix, t)
  {
  }

  /** The number of regular files in a tree. */
  function FileCount(entries: seq<Entry>): nat
    decreases entries, 1
  {
    if entries == [] then 0
    else FileCount(entries[..|entries| - 1]) + EntryFileCount(entries[|entries| - 1], entries)
  }

  function EntryFileCount(e: Entry, siblings: seq<Entry>): nat
    requires e in siblings
    decreases siblings, 0
  {
    match e
    case File(_, _) => 1
    case Directory(_, children) => FileCount(children)
    case Special(_) => 0
  }

  /** The walk puts exactly one object per regular file, every one under `<mediaId>/hls/` in the chosen
      bucket, as raw bytes. */
  lemma {:induction false} HlsWritesShape(bucket: Bucket, mediaId: string, entries: seq<Entry>, prefix: string)
    ensures |HlsWrites(bucket, mediaId, entries, prefix)| == FileCount(entries)
    ensures forall w :: w in HlsWrites(bucket, mediaId, entries, prefix) ==>
              w.key.0 == bucket && StartsWith(w.key.1, mediaId + "/hls/")
              && w.obj.body.Bytes? && w.obj.contentType == OCTET_STREAM
    decreases entries, 1
  {
    if entries != [] {
      var init := entries[..|entries| - 1];
      var last := entries[|entries| - 1];
      HlsWritesShape(bucket, mediaId, init, prefix);
      EntryWritesShape(bucket, mediaId, last, prefix, entries);
    }
  }

  lemma {:induction false} EntryWritesShape(bucket: Bucket, mediaId: string, e: Entry, prefix: string, siblings: seq<Entry>)
    requires e in siblings
    ensures |EntryWrites(bucket, mediaId, e, prefix, siblings)| == EntryFileCount(e, siblings)
    ensures forall w :: w in EntryWrites(bucket, mediaId, e, prefix, siblings) ==>
              w.key.0 == bucket && StartsWith(w.key.1, mediaId + "/hls/")
              && w.obj.body.Bytes? && w.obj.contentType == OCTET_STREAM
    decreases siblings, 0
  {
    match e
    case File(name, content) =>
      var key := mediaId + "/hls/" + ObjectName(prefix, name);
      assert key[..|mediaId + "/hls/"|] == mediaId + "/hls/";
    case Directory(name, children) =>
      HlsWritesShape(bucket, mediaId, children, ObjectName(prefix, name));
    case Special(_) =>
  }

  /** Every file of the tree is put, under its path relative to the rendition directory. */
  lemma {:induction false} FileIsPut(bucket: Bucket, mediaId: string, entries: seq<Entry>, prefix: string, i: nat)
    requires i < |entries| && entries[i].File?
    ensures Write(HlsKey(bucket, mediaId, ObjectName(prefix, entries[i].name)), StoredObject(Bytes(entries[i].content), OCTET_STREAM))
            in HlsWrites(bucket, mediaId, entries, prefix)
  {
    var e := entries[i];
    assert entries == entries[..i] + [e] + entries[i + 1..];
    HlsWritesConcat(bucket, mediaId, entries[..i] + [e], entries[i + 1..], prefix);
    HlsWritesConcat(bucket, mediaId, entries[..i], [e], prefix);
    assert [e][..0] == [];
  }

  /** Every put of a sub-directory's walk is a put of the enclosing walk. */
  lemma {:induction false} DirectoryIsWalked(bucket: Bucket, mediaId: string, entries: seq<Entry>, prefix: string, i: nat)
    requires i < |entries| && entries[i].Directory?
    ensures forall w :: w in HlsWrites(bucket, mediaId, entries[i].children, ObjectName(prefix, entries[i].name)) ==>
              w in HlsWrites(bucket, mediaId, entries, prefix)
  {
    var e := entries[i];
    assert entries == entries[..i] + [e] + entries[i + 1..];
    HlsWritesConcat(bucket, mediaId, entries[..i] + [e], entries[i + 1..], prefix);
    HlsWritesConcat(bucket, mediaId, entries[..i], [e], prefix);
    assert [e][..0] == [];
  }

  /** A rendition object never lands on the media record's key, whatever its relative path. */
  lemma HlsKeyIsNotRecordKey(mediaId: string, objectName: string)
    ensures HlsKey(Videos, mediaId, objectName) != RecordKey(MediaRecords, mediaId)
  {
    var n := |mediaId| + 1;
    assert (mediaId + "/hls/" + objectName)[n] == 'h';
    assert (mediaId + "/metadata.json")[n] == 'm';
  }

  /** The scratch area under /tmp: the set of workspace directories that currently exist. */
  class Scratch {
    var live: set<string>

    constructor ()
      ensures live == {}
    {
      live := {};
    }

    /** `mkdir(path, { recursive: true })`. */
    method Create(path: string)
      modifies this
      ensures live == old(live) + {path}
    {
      live := live + {path};
    }

    /** `rm(path, { recursive: true, force: true })`. */
    method Remove(path: string)
      modifies this
      ensures live == old(live) - {path}
    {
      live := live - {path};
    }
  }

  /** The walk: puts every regular file of the tree, in `readdir` order, depth first; the first failed put
      rejects and nothing after it is attempted. */
  method UploadDirectory(store: ObjectStore, bucket: Bucket, mediaId: string, entries: seq<Entry>, prefix: string)
    returns (ok: bool)
    requires store.Valid()
    modifies store
    ensures store.Valid()
    ensures var ws := HlsWrites(bucket, mediaId, entries, prefix);
      (ok <==> FirstFault(ws, store.faulty) == |ws|) && store.log == old(store.log) + ws[..FirstFault(ws, store.faulty)]
    decreases entries, 1
  {
    var i := 0;
    while i < |entries|
      invariant 0 <= i <= |entries|
      invariant store.Valid()
      invariant var ws := HlsWrites(bucket, mediaId, entries[..i], prefix);
        FirstFault(ws, store.faulty) == |ws| && store.log == old(store.log) + ws
    {
      ghost var done := HlsWrites(bucket, mediaId, entries[..i], prefix);
      ghost var mine := EntryWrites(bucket, mediaId, entries[i], prefix, entries);
      ghost var before := store.log;
      assert before == old(store.log) + done;
      var step := UploadEntry(store, bucket, mediaId, entries, i, prefix);
      assert store.log == before + mine[..FirstFault(mine, store.faulty)];
      WalkStep(bucket, mediaId, entries, prefix, i, store.faulty);
      if !step {
        ghost var ws := HlsWrites(bucket, mediaId, entries, prefix);
        assert FirstFault(mine, store.faulty) < |mine|;
        assert ws[..FirstFault(ws, store.faulty)] == done + mine[..FirstFault(mine, store.faulty)];
        SeqAssoc(old(store.log), done, mine[..FirstFault(mine, store.faulty)]);
        return false;
      }
      assert mine[..FirstFault(mine, store.faulty)] == mine;
      assert store.log == before + mine;
      SeqAssoc(old(store.log), done, mine);
      assert store.log == old(store.log) + (done + mine);
      i := i + 1;
    }
    assert entries[..i] == entries;
    ghost var ws := HlsWrites(bucket, mediaId, entries, prefix);
    assert ws[..FirstFault(ws, store.faulty)] == ws;
    ok := true;
  }

  /** One iteration of the walk: a file is put, a directory is walked with its name appended to the prefix,
      anything else is skipped. */
  method UploadEntry(store: ObjectStore, bucket: Bucket, mediaId: string, entries: seq<Entry>, i: nat, prefix: string)
    returns (ok: bool)
    requires i < |entries|
    requires store.Valid()
    modifies store
    ensures store.Valid()
    ensures var ws := EntryWrites(bucket, mediaId, entries[i], prefix, entries);
      (ok <==> FirstFault(ws, store.faulty) == |ws|) && store.log == old(store.log) + ws[..FirstFault(ws, store.faulty)]
    decreases entries, 0
  {
    match entries[i] {
      case File(name, content) =>
        ok := store.Put(HlsKey(bucket, mediaId, ObjectName(prefix, name)), StoredObject(Bytes(content), OCTET_STREAM));
      case Directory(name, children) =>
        ok := UploadDirectory(store, bucket, mediaId, children, ObjectName(prefix, name));
      case Special(_) =>
        ok := true;
    }
  }

  lemma SeqAssoc<T>(a: seq<T>, b: seq<T>, c: seq<T>)
    ensures a + b + c == a + (b + c)
  {
  }

  /** The puts of the first `i + 1` entries are those of the first `i`, then entry `i`'s. */
  lemma WalkPrefix(bucket: Bucket, mediaId: string, entries: seq<Entry>, prefix: string, i: nat)
    requires i < |entries|
    ensures HlsWrites(bucket, mediaId, entries[..i + 1], prefix)
         == HlsWrites(bucket, mediaId, entries[..i], prefix) + EntryWrites(bucket, mediaId, entries[i], prefix, entries)
  {
    assert entries[..i + 1][..i] == entries[..i];
    assert entries[..i + 1][i] == entries[i];
    EntryWritesIndependent(bucket, mediaId, entries[i], prefix, entries[..i + 1], entries);
  }

  /** The puts of the whole walk are those of the first `i + 1` entries, then the rest's. */
  lemma WalkSplit(bucket: Bucket, mediaId: string, entries: seq<Entry>, prefix: string, i: nat)
    requires i < |entries|
    ensures HlsWrites(bucket, mediaId, entries, prefix)
         == HlsWrites(bucket, mediaId, entries[..i + 1], prefix) + HlsWrites(bucket, mediaId, entries[i + 1..], prefix)
  {
    assert entries == entries[..i + 1] + entries[i + 1..];
    HlsWritesConcat(bucket, mediaId, entries[..i + 1], entries[i + 1..], prefix);
  }

  /** How the walk's puts split at entry `i`: the puts so far, then the entry's, then the rest's. */
  lemma WalkStep(bucket: Bucket, mediaId: string, entries: seq<Entry>, prefix: string, i: nat, faulty: set<ObjectKey>)
    requires i < |entries|
    requires var done := HlsWrites(bucket, mediaId, entries[..i], prefix);
      FirstFault(done, faulty) == |done|
    ensures var done := HlsWrites(bucket, mediaId, entries[..i], prefix);
      var mine := EntryWrites(bucket, mediaId, entries[i], prefix, entries);
      var ws := HlsWrites(bucket, mediaId, entries, prefix);
      HlsWrites(bucket, mediaId, entries[..i + 1], prefix) == done + mine
      && (FirstFault(mine, faulty) == |mine| ==> FirstFault(done + mine, faulty) == |done + mine|)
      && (FirstFault(mine, faulty) < |mine| ==>
            FirstFault(ws, faulty) < |ws| && ws[..FirstFault(ws, faulty)] == done + mine[..FirstFault(mine, faulty)])
  {
    var done := HlsWrites(bucket, mediaId, entries[..i], prefix);
    var mine := EntryWrites(bucket, mediaId, entries[i], prefix, entries);
    var rest := HlsWrites(bucket, mediaId, entries[i + 1..], prefix);
    WalkPrefix(bucket, mediaId, entries, prefix, i);
    WalkSplit(bucket, mediaId, entries, prefix, i);
    FaultInMiddle(done, mine, rest, faulty);
  }

  /** Writes that succeed up to a fault in the middle batch stop at that fault. */
  lemma FaultInMiddle(done: seq<Write>, mine: seq<Write>, rest: seq<Write>, faulty: set<ObjectKey>)
    requires FirstFault(done, faulty) == |done|
    ensures FirstFault(mine, faulty) == |mine| ==> FirstFault(done + mine, faulty) == |done + mine|
    ensures FirstFault(mine, faulty) < |mine| ==>
      FirstFault(done + mine + rest, faulty) < |done + mine + rest|
      && (done + mine + rest)[..FirstFault(done + mine + rest, faulty)] == done + mine[..FirstFault(mine, faulty)]
  {
    FirstFaultConcat(done, mine, faulty);
    if FirstFault(mine, faulty) < |mine| {
      var k := FirstFault(mine, faulty);
      FirstFaultConcat(done + mine, rest, faulty);
      assert (done + mine + rest)[..|done| + k] == done + mine[..k];
    }
  }

  /** What the handler cannot see: the generated id, the clock, whether copying the upload into the workspace
      succeeds, the tree the transcoder leaves in `<workspace>/hls`, and the thumbnail file it leaves (if
      any). `parseNumber` stands for `parseFloat` on the probe's trimmed output. */
  datatype Environment = Environment(
    mediaId: string,
    now: int,
    rawCopyOk: bool,
    output: seq<Entry>,
    thumbnail: Option<seq<bv8>>,
    parseNumber: string -> Option<real>)

  function Workspace(mediaId: string): string
  {
    PathJoin("/tmp", mediaId)
  }

  function InputPath(mediaId: string, fileName: string): string
  {
    PathJoin(Workspace(mediaId), fileName)
  }

  function OutputDir(mediaId: string): string
  {
    PathJoin(Workspace(mediaId), "hls")
  }

  function ThumbnailPath(mediaId: string): string
  {
    PathJoin(Workspace(mediaId), "thumbnail.jpg")
  }

  /** The rendition runs of an upload of `kind`: one per label, none for a kind that is neither video nor
      audio. */
  function RenditionRuns(kind: string, input: string, mediaId: string): seq<seq<string>>
  {
    if IsVideoKind(kind) then VideoRuns(input, OutputDir(mediaId), VIDEO_QUALITIES)
    else if kind == "audio" then AudioRuns(input, OutputDir(mediaId), AUDIO_BITRATES)
    else []
  }

  /** The thumbnail run: video only. */
  function ThumbnailRuns(kind: string, input: string, mediaId: string): seq<seq<string>>
  {
    if IsVideoKind(kind) then [ThumbnailArgs(input, ThumbnailPath(mediaId), DEFAULT_THUMBNAIL_TIME)] else []
  }

  /** The ffmpeg runs an upload of `kind` makes, in order: the duration probe, one run per rendition, and
      for video the thumbnail. */
  function PlannedRuns(kind: string, input: string, mediaId: string): (runs: seq<seq<string>>)
    ensures |runs| >= 1 && runs[0] == ProbeArgs(input)
  {
    [ProbeArgs(input)] + (RenditionRuns(kind, input, mediaId) + ThumbnailRuns(kind, input, mediaId))
  }

  /** The duration the probe reports: its output read as a number, 0 when it does not read as one. */
  function ProbedDuration(outcome: seq<string> -> ProcessOutcome, input: string, parseNumber: string -> Option<real>): real
  {
    var o := outcome(ProbeArgs(input));
    if o.Exited? then (match parseNumber(Concat(o.chunks)) case Some(x) => x case None => 0.0) else 0.0
  }

  /** The rendition tree the walk sees: only a transcode fills `<workspace>/hls`, so for a kind that is
      neither video nor audio the directory is empty. */
  function RenditionTree(kind: string, output: seq<Entry>): seq<Entry>
  {
    if IsVideoKind(kind) || kind == "audio" then output else []
  }

  /** The record an upload publishes. */
  function NewMetadata(form: Form, file: UploadedFile, env: Environment, duration: real): (m: MediaMetadata)
    ensures m.id == env.mediaId && m.createdAt == env.now && m.duration == Some(duration)
    ensures m.kind == DetectType(form.kind, file.mimeType)
    ensures m.qualities == Some(RenditionsOf(m.kind))
    ensures m.thumbnail.Some? <==> IsVideoKind(m.kind)
    ensures m.thumbnail.Some? ==> m.thumbnail.value == env.mediaId + "/thumbnail.jpg"
    ensures m.title == TitleOf(form.title) && m.premium == PremiumOf(form.premium)
    ensures m.languages == LanguagesOf(form.languages) && m.description.None?
  {
    var kind := DetectType(form.kind, file.mimeType);
    MediaMetadata(env.mediaId, TitleOf(form.title), kind, LanguagesOf(form.languages), Some(RenditionsOf(kind)),
                  PremiumOf(form.premium), env.now, Some(duration),
                  if IsVideoKind(kind) then Some(env.mediaId + "/thumbnail.jpg") else None, None)
  }

  /** The thumbnail put: only for video, and only when extraction left a file. */
  function ThumbnailWrites(kind: string, mediaId: string, thumbnail: Option<seq<bv8>>): seq<Write>
  {
    if IsVideoKind(kind) && thumbnail.Some? then
      [Write((Thumbnails, mediaId + "/thumbnail.jpg"), StoredObject(Bytes(thumbnail.value), JPEG_CONTENT))]
    else []
  }

  /** Every store write of a successful upload, in order: the renditions, the thumbnail, the record last. */
  function PublishWrites(kind: string, mediaId: string, tree: seq<Entry>, thumbnail: Option<seq<bv8>>, metadata: MediaMetadata)
    : (ws: seq<Write>)
    ensures |ws| >= 1 && ws[|ws| - 1] == RecordWrite(MediaRecords, mediaId, MediaDoc(metadata))
  {
    HlsWrites(TargetBucket(kind), mediaId, tree, "") + ThumbnailWrites(kind, mediaId, thumbnail)
    + [RecordWrite(MediaRecords, mediaId, MediaDoc(metadata))]
  }

  /** Sequential runs stop at the first failure: a batch of runs splits at the first failure of its parts. */
  lemma {:induction false} FirstFailureConcat(outcome: seq<string> -> ProcessOutcome, a: seq<seq<string>>, b: seq<seq<string>>)
    ensures FirstFailure(outcome, a + b) ==
      if FirstFailure(outcome, a) < |a| then FirstFailure(outcome, a) else |a| + FirstFailure(outcome, b)
    decreases |a|
  {
    if a == [] {
      assert a + b == b;
    } else if Succeeded(outcome(a[0])) {
      assert (a + b)[0] == a[0];
      assert (a + b)[1..] == a[1..] + b;
      FirstFailureConcat(outcome, a[1..], b);
    } else {
      assert (a + b)[0] == a[0];
    }
  }

  /** The runs started by two batches one after the other. */
  lemma StartedConcat(outcome: seq<string> -> ProcessOutcome, a: seq<seq<string>>, b: seq<seq<string>>)
    ensures FirstFailure(outcome, a + b) ==
      if FirstFailure(outcome, a) < |a| then FirstFailure(outcome, a) else |a| + FirstFailure(outcome, b)
    ensures Started(outcome, a + b) ==
      if FirstFailure(outcome, a) < |a| then Started(outcome, a) else a + Started(outcome, b)
  {
    FirstFailureConcat(outcome, a, b);
    var k := FirstFailure(outcome, a + b);
    if FirstFailure(outcome, a) < |a| {
      assert (a + b)[..k + 1] == a[..k + 1];
    } else if FirstFailure(outcome, b) < |b| {
      assert (a + b)[..k + 1] == a + b[..FirstFailure(outcome, b) + 1];
    }
  }

  /** The transcode and thumbnail runs, stopping at the first failure. */
  method TranscodeStage(runner: Ffmpeg, kind: string, input: string, mediaId: string) returns (ok: bool)
    modifies runner
    ensures var runs := RenditionRuns(kind, input, mediaId) + ThumbnailRuns(kind, input, mediaId);
      runner.spawned == old(runner.spawned) + Started(runner.outcome, runs)
      && (ok <==> FirstFailure(runner.outcome, runs) == |runs|)
  {
    var renditions := RenditionRuns(kind, input, mediaId);
    var thumb := ThumbnailRuns(kind, input, mediaId);
    StartedConcat(runner.outcome, renditions, thumb);
    if IsVideoKind(kind) {
      var t := runner.TranscodeVideo(input, OutputDir(mediaId), VIDEO_QUALITIES);
      if t.Err? {
        return false;
      }
      var th := runner.ExtractThumbnail(input, ThumbnailPath(mediaId), DEFAULT_THUMBNAIL_TIME);
      SingleRun(runner.outcome, ThumbnailArgs(input, ThumbnailPath(mediaId), DEFAULT_THUMBNAIL_TIME));
      ok := th.Ok?;
    } else if kind == "audio" {
      var t := runner.TranscodeAudio(input, OutputDir(mediaId), AUDIO_BITRATES);
      assert renditions + thumb == renditions;
      ok := t.Ok?;
    } else {
      assert renditions + thumb == [];
      ok := true;
    }
  }

  /** The planned runs start with the probe; the rest start only when it succeeds. */
  lemma PlannedRunsSplit(outcome: seq<string> -> ProcessOutcome, kind: string, input: string, mediaId: string)
    ensures var rest := RenditionRuns(kind, input, mediaId) + ThumbnailRuns(kind, input, mediaId);
      var planned := PlannedRuns(kind, input, mediaId);
      Started(outcome, planned)
        == (if Succeeded(outcome(ProbeArgs(input))) then [ProbeArgs(input)] + Started(outcome, rest) else [ProbeArgs(input)])
      && (FirstFailure(outcome, planned) == |planned|
          <==> Succeeded(outcome(ProbeArgs(input))) && FirstFailure(outcome, rest) == |rest|)
  {
    var rest := RenditionRuns(kind, input, mediaId) + ThumbnailRuns(kind, input, mediaId);
    StartedConcat(outcome, [ProbeArgs(input)], rest);
    SingleRun(outcome, ProbeArgs(input));
  }

  /** The ffmpeg part of the upload: probe, transcode, thumbnail, stopping at the first failing run. */
  method RunTools(runner: Ffmpeg, kind: string, input: string, mediaId: string, parseNumber: string -> Option<real>)
    returns (r: Result<real>)
    modifies runner
    ensures runner.spawned == old(runner.spawned) + Started(runner.outcome, PlannedRuns(kind, input, mediaId))
    ensures r.Ok? <==> FirstFailure(runner.outcome, PlannedRuns(kind, input, mediaId)) == |PlannedRuns(kind, input, mediaId)|
    ensures r.Ok? ==> r.value == ProbedDuration(runner.outcome, input, parseNumber)
  {
    PlannedRunsSplit(runner.outcome, kind, input, mediaId);
    var before := runner.spawned;
    var duration := runner.GetDuration(input, parseNumber);
    if duration.Err? {
      return Err(duration.message);
    }
    assert duration.value == ProbedDuration(runner.outcome, input, parseNumber);
    var ok := TranscodeStage(runner, kind, input, mediaId);
    SeqAssoc(before, [ProbeArgs(input)],
             Started(runner.outcome, RenditionRuns(kind, input, mediaId) + ThumbnailRuns(kind, input, mediaId)));
    r := if ok then Ok(duration.value) else Err("FFmpeg run failed");
  }

  /** The renditions and the thumbnail, stopping at the first failed request. */
  method PublishAssets(store: ObjectStore, kind: string, mediaId: string, tree: seq<Entry>, thumbnail: Option<seq<bv8>>)
    returns (ok: bool)
    requires store.Valid()
    modifies store
    ensures store.Valid()
    ensures var ws := HlsWrites(TargetBucket(kind), mediaId, tree, "") + ThumbnailWrites(kind, mediaId, thumbnail);
      (ok <==> FirstFault(ws, store.faulty) == |ws|) && store.log == old(store.log) + ws[..FirstFault(ws, store.faulty)]
  {
    var hls := HlsWrites(TargetBucket(kind), mediaId, tree, "");
    var thumbs := ThumbnailWrites(kind, mediaId, thumbnail);
    BatchesInSequence(store.log, hls, thumbs, store.faulty);
    ok := UploadDirectory(store, TargetBucket(kind), mediaId, tree, "");
    if !ok {
      return;
    }
    assert hls[..FirstFault(hls, store.faulty)] == hls;
    if IsVideoKind(kind) && thumbnail.Some? {
      ok := store.Put((Thumbnails, mediaId + "/thumbnail.jpg"), StoredObject(Bytes(thumbnail.value), JPEG_CONTENT));
      assert thumbs[..FirstFault(thumbs, store.faulty)] == if ok then thumbs else [];
    } else {
      assert thumbs == [];
    }
  }

  /** The store part of the upload: the renditions, the thumbnail, then the record, stopping at the first
      failed request. */
  method PublishObjects(store: ObjectStore, kind: string, mediaId: string, tree: seq<Entry>, thumbnail: Option<seq<bv8>>,
                        metadata: MediaMetadata) returns (ok: bool)
    requires store.Valid()
    modifies store
    ensures store.Valid()
    ensures var ws := PublishWrites(kind, mediaId, tree, thumbnail, metadata);
      (ok <==> FirstFault(ws, store.faulty) == |ws|) && store.log == old(store.log) + ws[..FirstFault(ws, store.faulty)]
  {
    var assets := HlsWrites(TargetBucket(kind), mediaId, tree, "") + ThumbnailWrites(kind, mediaId, thumbnail);
    var last := [RecordWrite(MediaRecords, mediaId, MediaDoc(metadata))];
    BatchesInSequence(store.log, assets, last, store.faulty);
    ok := PublishAssets(store, kind, mediaId, tree, thumbnail);
    if !ok {
      return;
    }
    assert assets[..FirstFault(assets, store.faulty)] == assets;
    ok := SaveMetadata(store, MediaRecords, mediaId, MediaDoc(metadata));
    assert last[..FirstFault(last, store.faulty)] == if ok then last else [];
  }

  /** The ffmpeg runs of an upload of `file`. */
  function UploadRuns(form: Form, file: UploadedFile, env: Environment): seq<seq<string>>
  {
    PlannedRuns(DetectType(form.kind, file.mimeType), InputPath(env.mediaId, file.name), env.mediaId)
  }

  /** Every step before the first store write succeeds: the copy into the workspace and every ffmpeg run. */
  predicate ToolsSucceed(form: Form, file: UploadedFile, env: Environment, outcome: seq<string> -> ProcessOutcome)
  {
    env.rawCopyOk && FirstFailure(outcome, UploadRuns(form, file, env)) == |UploadRuns(form, file, env)|
  }

  /** The record an upload of `file` publishes, with the duration the probe reports. */
  function UploadRecord(form: Form, file: UploadedFile, env: Environment, outcome: seq<string> -> ProcessOutcome): MediaMetadata
  {
    NewMetadata(form, file, env, ProbedDuration(outcome, InputPath(env.mediaId, file.name), env.parseNumber))
  }

  /** The store writes an upload of `file` asks for, in order. */
  function UploadWrites(form: Form, file: UploadedFile, env: Environment, outcome: seq<string> -> ProcessOutcome): seq<Write>
  {
    var kind := DetectType(form.kind, file.mimeType);
    PublishWrites(kind, env.mediaId, RenditionTree(kind, env.output), env.thumbnail, UploadRecord(form, file, env, outcome))
  }

  /** The inner `try` of the handler: copy the upload, run ffmpeg, publish, in that order, stopping at the
      first failure. */
  method Publish(store: ObjectStore, runner: Ffmpeg, form: Form, file: UploadedFile, env: Environment)
    returns (r: Result<MediaMetadata>)
    requires store.Valid()
    modifies store, runner
    ensures store.Valid()
    ensures runner.spawned == old(runner.spawned)
              + if env.rawCopyOk then Started(runner.outcome, UploadRuns(form, file, env)) else []
    ensures var ws := UploadWrites(form, file, env, runner.outcome);
      (r.Ok? <==> ToolsSucceed(form, file, env, runner.outcome) && FirstFault(ws, store.faulty) == |ws|)
      && (r.Ok? ==> r.value == UploadRecord(form, file, env, runner.outcome))
      && store.log == old(store.log)
           + if ToolsSucceed(form, file, env, runner.outcome) then ws[..FirstFault(ws, store.faulty)] else []
  {
    var kind := DetectType(form.kind, file.mimeType);
    var input := InputPath(env.mediaId, file.name);
    if !env.rawCopyOk {
      return Err("could not write the upload to the workspace");
    }
    var duration := RunTools(runner, kind, input, env.mediaId, env.parseNumber);
    if duration.Err? {
      return Err(duration.message);
    }
    var metadata := NewMetadata(form, file, env, duration.value);
    var ok := PublishObjects(store, kind, env.mediaId, RenditionTree(kind, env.output), env.thumbnail, metadata);
    if !ok {
      return Err("object store request failed");
    }
    r := Ok(metadata);
  }

  /** POST /upload. A rejected form touches nothing; once the form passes, the workspace is created and is
      removed again on every path, any failure after that answers 500, and success publishes every planned
      write with the record last. */
  method HandleUpload(store: ObjectStore, runner: Ffmpeg, scratch: Scratch, form: Form, env: Environment, maxSize: nat)
    returns (r: Response<UploadReply>)
    requires store.Valid()
    modifies store, runner, scratch
    ensures store.Valid()
    ensures Validate(form.file, maxSize).Some? ==>
      r == Refuse(Validate(form.file, maxSize).value.status, Validate(form.file, maxSize).value.error)
      && store.log == old(store.log) && runner.spawned == old(runner.spawned) && scratch.live == old(scratch.live)
    ensures Validate(form.file, maxSize).None? ==>
      var file := form.file.value;
      var ws := UploadWrites(form, file, env, runner.outcome);
      scratch.live == old(scratch.live) - {Workspace(env.mediaId)}
      && runner.spawned == old(runner.spawned)
           + (if env.rawCopyOk then Started(runner.outcome, UploadRuns(form, file, env)) else [])
      && (r.Reply? <==> ToolsSucceed(form, file, env, runner.outcome) && FirstFault(ws, store.faulty) == |ws|)
      && (r.Reply? ==> r.body == UploadReply(env.mediaId, UploadRecord(form, file, env, runner.outcome)))
      && (!r.Reply? ==> r == Refuse(500, "Upload failed"))
      && store.log == old(store.log)
           + if ToolsSucceed(form, file, env, runner.outcome) then ws[..FirstFault(ws, store.faulty)] else []
  {
    var rejection := Validate(form.file, maxSize);
    if rejection.Some? {
      return Refuse(rejection.value.status, rejection.value.error);
    }
    var file := form.file.value;
    var workspace := Workspace(env.mediaId);
    scratch.Create(workspace);
    var published := Publish(store, runner, form, file, env);
    scratch.Remove(workspace);
    if published.Err? {
      return Refuse(500, "Upload failed");
    }
    r := Reply(UploadReply(env.mediaId, published.value));
  }

  /** A failed upload never writes the media record: the record is the last planned write, and no rendition
      or thumbnail write lands on its key. */
  lemma {:induction false} NoRecordBeforeLast(form: Form, file: UploadedFile, env: Environment,
                                              outcome: seq<string> -> ProcessOutcome, k: nat)
    requires k < |UploadWrites(form, file, env, outcome)|
    ensures forall w :: w in UploadWrites(form, file, env, outcome)[..k] ==> w.key != RecordKey(MediaRecords, env.mediaId)
  {
    var kind := DetectType(form.kind, file.mimeType);
    var tree := RenditionTree(kind, env.output);
    var hls := HlsWrites(TargetBucket(kind), env.mediaId, tree, "");
    var thumbs := ThumbnailWrites(kind, env.mediaId, env.thumbnail);
    var ws := UploadWrites(form, file, env, outcome);
    assert ws == hls + thumbs + [ws[|ws| - 1]];
    HlsWritesShape(TargetBucket(kind), env.mediaId, tree, "");
    forall w | w in ws[..k]
      ensures w.key != RecordKey(MediaRecords, env.mediaId)
    {
      assert w in hls + thumbs;
      if w in hls {
        var rest := w.key.1[|env.mediaId + "/hls/"|..];
        assert w.key.1 == env.mediaId + "/hls/" + rest;
        HlsKeyIsNotRecordKey(env.mediaId, rest);
      }
    }
  }

  /** After a successful upload the media record reads back as the published metadata. */
  lemma UploadReadsBack(snap: Snapshot, initial: map<ObjectKey, StoredObject>, log: seq<Write>, m: MediaMetadata)
    requires |log| >= 1 && log[|log| - 1] == RecordWrite(MediaRecords, m.id, MediaDoc(m))
    requires snap.objects == Apply(initial, log) && RecordKey(MediaRecords, m.id) !in snap.unreadable
    ensures GetMedia(snap, m.id) == Some(m)
  {
  }
}
