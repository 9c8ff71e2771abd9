/** The live channel listings: the TV playlist (functions/tv/list.ts) and the FM channel list
    (functions/fm/list.ts). Object listings, object reads and the local file read are parameters. */
module Channels {
  import opened Common
  import opened Text
  import opened Store
  import opened Delivery

  const EMPTY_PLAYLIST: string := "#EXTM3U\n"
  const MPEGURL: string := "application/vnd.apple.mpegurl"
  const DEFAULT_PLAYLIST: string := "default.m3u"

  /** A text answer with its content type. */
  datatype Playlist = Playlist(text: string, contentType: string)

  /** `objects.some(obj => obj === path || obj.endsWith('.m3u'))`. */
  predicate AnyPlaylist(objects: seq<string>, path: string)
  {
    exists o :: o in objects && (o == path || EndsWith(o, ".m3u"))
  }

  /** `objects.find(obj => obj === path || (single && obj.endsWith('.m3u')))`: the first match. */
  function FindPlaylist(objects: seq<string>, path: string, single: bool): (r: Option<string>)
    ensures r.Some? ==> r.value in objects && (r.value == path || (single && EndsWith(r.value, ".m3u")))
    ensures r.None? <==> forall o :: o in objects ==> o != path && !(single && EndsWith(o, ".m3u"))
    ensures r.Some? && |objects| > 0 && (objects[0] == path || (single && EndsWith(objects[0], ".m3u"))) ==> r.value == objects[0]
  {
    if objects == [] then None
    else if objects[0] == path || (single && EndsWith(objects[0], ".m3u")) then Some(objects[0])
    else
      var r := FindPlaylist(objects[1..], path, single);
      assert forall o :: o in objects ==> o == objects[0] || o in objects[1..];
      r
  }

  /** GET /tv/list. `read` is `getFile(bucket, name).toString()`, or nothing when the request fails. */
  function TvList(objects: seq<string>, requested: Option<string>, read: string -> Option<string>): (r: Response<Playlist>)
    ensures r.Reply? ==> r.body.contentType == MPEGURL
    ensures objects == [] ==> r == Reply(Playlist(EMPTY_PLAYLIST, MPEGURL))
    ensures r.Refuse? ==> r == Refuse(500, "Failed to get TV playlist")
  {
    var path := OrDefault(requested, DEFAULT_PLAYLIST);
    if !AnyPlaylist(objects, path) && |objects| == 0 then Reply(Playlist(EMPTY_PLAYLIST, MPEGURL))
    else
      var found := FindPlaylist(objects, path, |objects| == 1);
      var file := if found.Some? && found.value != "" then found.value else objects[0];
      if file == "" then Reply(Playlist(EMPTY_PLAYLIST, MPEGURL))
      else match read(file)
        case None => Refuse(500, "Failed to get TV playlist")
        case Some(text) => Reply(Playlist(text, MPEGURL))
  }

  /** With a non-empty listing of non-empty names, the playlist served is the requested one when it is
      listed and the first listed object otherwise, returned as read; the last fallback is never reached. */
  lemma TvSelection(objects: seq<string>, requested: Option<string>, read: string -> Option<string>)
    requires |objects| > 0 && forall o :: o in objects ==> o != ""
    ensures var path := OrDefault(requested, DEFAULT_PLAYLIST);
      var chosen := if path in objects then path else objects[0];
      TvList(objects, requested, read)
        == if read(chosen).Some? then Reply(Playlist(read(chosen).value, MPEGURL)) else Refuse(500, "Failed to get TV playlist")
  {
    var path := OrDefault(requested, DEFAULT_PLAYLIST);
    var found := FindPlaylist(objects, path, |objects| == 1);
    if |objects| == 1 {
      assert objects == [objects[0]];
    }
    assert objects[0] in objects;
  }

  /** What reading `/tmp/<name>` gives: no file, a JSON value, or text that JSON.parse rejects. */
  datatype LocalRead = Missing | Parsed(value: string) | Unparsable

  /** A channel: a JSON value read from the local copy, or one built from the object name. */
  datatype Channel =
    | Stored(value: string)
    | Listed(id: string, name: string, streamUrl: SignedUrl, kind: string)

  /** The body of the FM listing: `{ success: true, count, channels }`. */
  datatype ChannelList = ChannelList(count: nat, channels: seq<Channel>)

  predicate IsChannelName(obj: string)
  {
    EndsWith(obj, ".m3u8") || EndsWith(obj, ".json")
  }

  /** `objects.filter(obj => obj.endsWith('.m3u8') || obj.endsWith('.json'))`. */
  function ChannelNames(objects: seq<string>): seq<string>
    decreases |objects|
  {
    if objects == [] then []
    else
      var init := ChannelNames(objects[..|objects| - 1]);
      var last := objects[|objects| - 1];
      if IsChannelName(last) then init + [last] else init
  }

  /** The filter keeps exactly the `.m3u8` and `.json` names, and keeps them in listing order. */
  lemma {:induction false} ChannelNamesFilter(objects: seq<string>)
    ensures forall n :: n in ChannelNames(objects) <==> n in objects && IsChannelName(n)
    ensures |ChannelNames(objects)| <= |objects|
    ensures forall k :: 0 <= k <= |objects| ==> ChannelNames(objects[..k]) <= ChannelNames(objects)
    decreases |objects|
  {
    if objects != [] {
      var init := objects[..|objects| - 1];
      ChannelNamesFilter(init);
      assert objects == init + [objects[|objects| - 1]];
      forall k | 0 <= k <= |objects|
        ensures ChannelNames(objects[..k]) <= ChannelNames(objects)
      {
        if k < |objects| {
          assert objects[..k] == init[..k];
        } else {
          assert objects[..k] == objects;
        }
      }
    }
  }

  /** `obj.replace(/\.(m3u8|json)$/, '')`. */
  function StripExtension(obj: string): (s: string)
    ensures EndsWith(obj, ".m3u8") ==> s + ".m3u8" == obj
    ensures EndsWith(obj, ".json") ==> s + ".json" == obj
    ensures !IsChannelName(obj) ==> s == obj
  {
    if IsChannelName(obj) then
      assert obj == obj[..|obj| - 5] + obj[|obj| - 5..];
      obj[..|obj| - 5]
    else obj
  }

  /** The channel for one kept name; nothing when its local copy exists but does not parse, which throws. */
  function ChannelOf(obj: string, local: string -> LocalRead): Option<Channel>
  {
    if !EndsWith(obj, ".json") then Some(ListedChannel(obj))
    else match local("/tmp/" + obj)
      case Parsed(value) => Some(Stored(value))
      case Unparsable => None
      case Missing => Some(ListedChannel(obj))
  }

  /** The channel built from the object name alone. */
  function ListedChannel(obj: string): Channel
  {
    var base := StripExtension(LastSegment(obj, '/'));
    Listed(StripExtension(obj), if base == "" then "Unknown" else base, SignedUrl(Fm, obj, URL_TTL),
           if EndsWith(obj, ".m3u8") then "hls" else "metadata")
  }

  /** A channel built from a name: its id is the name less its extension, its type says which extension,
      its name is never empty, and its URL is the name's, in the FM bucket, for an hour. */
  lemma ListedChannelShape(obj: string, local: string -> LocalRead)
    requires IsChannelName(obj) && ChannelOf(obj, local).Some? && ChannelOf(obj, local).value.Listed?
    ensures var c := ChannelOf(obj, local).value;
      (c.kind == "hls" <==> EndsWith(obj, ".m3u8"))
      && c.id + (if c.kind == "hls" then ".m3u8" else ".json") == obj
      && c.name != "" && c.streamUrl == SignedUrl(Fm, obj, 3600)
      && (EndsWith(obj, ".json") ==> local("/tmp/" + obj).Missing?)
  {
    assert ChannelOf(obj, local).value == ListedChannel(obj);
    ListedChannelFields(obj);
  }

  lemma ListedChannelFields(obj: string)
    requires IsChannelName(obj)
    ensures var c := ListedChannel(obj);
      (c.kind == "hls" <==> EndsWith(obj, ".m3u8"))
      && c.id + (if c.kind == "hls" then ".m3u8" else ".json") == obj
      && c.name != "" && c.streamUrl == SignedUrl(Fm, obj, 3600)
  {
    ExtensionsExclusive(obj);
    if !EndsWith(obj, ".m3u8") {
      assert |"metadata"| != |"hls"|;
    }
  }

  /** No name ends in both extensions. */
  lemma ExtensionsExclusive(obj: string)
    ensures !(EndsWith(obj, ".m3u8") && EndsWith(obj, ".json"))
  {
    if EndsWith(obj, ".m3u8") {
      assert obj[|obj| - 1] == '8';
    }
  }

  /** GET /fm/list. */
  function FmList(objects: seq<string>, local: string -> LocalRead): (r: Response<ChannelList>)
    ensures r.Refuse? <==> exists n :: n in ChannelNames(objects) && ChannelOf(n, local).None?
    ensures r.Refuse? ==> r == Refuse(500, "Failed to list FM channels")
    ensures r.Reply? ==> r.body.count == |r.body.channels| == |ChannelNames(objects)|
    ensures r.Reply? ==> forall i :: 0 <= i < |r.body.channels| ==>
                           Some(r.body.channels[i]) == ChannelOf(ChannelNames(objects)[i], local)
  {
    var names := ChannelNames(objects);
    if exists n :: n in names && ChannelOf(n, local).None? then Refuse(500, "Failed to list FM channels")
    else
      var channels := seq(|names|, i requires 0 <= i < |names| => ChannelOf(names[i], local).value);
      Reply(ChannelList(|channels|, channels))
  }

  /** Only a `.json` name whose local copy does not parse fails the listing. */
  lemma FmFailsOnlyOnBadJson(objects: seq<string>, local: string -> LocalRead)
    ensures FmList(objects, local).Refuse? <==>
              exists n :: n in objects && EndsWith(n, ".json") && local("/tmp/" + n).Unparsable?
  {
    ChannelNamesFilter(objects);
  }
}
