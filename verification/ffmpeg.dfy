/** The ffmpeg driver of functions/utils/ffmpeg.ts: the argument vector of every run, the manifest paths,
    the sequencing of rendition runs, and the exit-code contract. The process itself is an oracle: what a run
    does is a function of its argument vector. */
module Transcode {
  import opened Common

  /** How a spawned process ends: with an exit code (or none, when killed) after writing `chunks` to its
      standard output, or without starting at all. */
  datatype ProcessOutcome =
    | Exited(code: int, chunks: seq<string>)
    | Killed
    | SpawnFailed(message: string)

  const HLS_SEGMENT_SECONDS: string := "10"
  const DEFAULT_THUMBNAIL_TIME: string := "00:00:01"
  const DEFAULT_VIDEO_QUALITIES: seq<string> := ["480p", "720p"]
  const DEFAULT_AUDIO_BITRATES: seq<string> := ["96k", "128k"]

  /** `path.join(a, b)` for a directory without a trailing separator and a relative `b`. */
  function PathJoin(dir: string, name: string): string
  {
    dir + "/" + name
  }

  function ManifestPath(outputDir: string, rendition: string): string
  {
    PathJoin(outputDir, rendition + "/playlist.m3u8")
  }

  function SegmentPattern(outputDir: string, rendition: string): string
  {
    PathJoin(PathJoin(outputDir, rendition), "segment_%03d.ts")
  }

  /** Only `480p` is rendered small; every other label gets the 720p settings. */
  function Resolution(quality: string): string
  {
    if quality == "480p" then "854:480" else "1280:720"
  }

  function VideoBitrate(quality: string): string
  {
    if quality == "480p" then "1000k" else "2500k"
  }

  function VideoArgs(input: string, outputDir: string, quality: string): seq<string>
  {
    ["-i", input, "-c:v", "libx264", "-c:a", "aac", "-b:v", VideoBitrate(quality), "-s", Resolution(quality),
     "-hls_time", HLS_SEGMENT_SECONDS, "-hls_list_size", "0",
     "-hls_segment_filename", SegmentPattern(outputDir, quality), "-f", "hls", ManifestPath(outputDir, quality)]
  }

  /** The bitrate label is both the `-b:a` value and the rendition's directory. */
  function AudioArgs(input: string, outputDir: string, bitrate: string): seq<string>
  {
    ["-i", input, "-c:a", "aac", "-b:a", bitrate,
     "-hls_time", HLS_SEGMENT_SECONDS, "-hls_list_size", "0",
     "-hls_segment_filename", SegmentPattern(outputDir, bitrate), "-f", "hls", ManifestPath(outputDir, bitrate)]
  }

  function ThumbnailArgs(input: string, output: string, timestamp: string): seq<string>
  {
    ["-i", input, "-ss", timestamp, "-vframes", "1", "-q:v", "2", output]
  }

  function ProbeArgs(input: string): seq<string>
  {
    ["-i", input, "-show_entries", "format=duration", "-v", "quiet", "-of", "csv=p=0"]
  }

  function VideoRuns(input: string, outputDir: string, qualities: seq<string>): (argvs: seq<seq<string>>)
    ensures |argvs| == |qualities|
    ensures forall i :: 0 <= i < |qualities| ==> argvs[i] == VideoArgs(input, outputDir, qualities[i])
  {
    seq(|qualities|, i requires 0 <= i < |qualities| => VideoArgs(input, outputDir, qualities[i]))
  }

  function AudioRuns(input: string, outputDir: string, bitrates: seq<string>): (argvs: seq<seq<string>>)
    ensures |argvs| == |bitrates|
    ensures forall i :: 0 <= i < |bitrates| ==> argvs[i] == AudioArgs(input, outputDir, bitrates[i])
  {
    seq(|bitrates|, i requires 0 <= i < |bitrates| => AudioArgs(input, outputDir, bitrates[i]))
  }

  /** One manifest per label, in label order. */
  function Manifests(outputDir: string, labels: seq<string>): (ms: seq<string>)
    ensures |ms| == |labels|
    ensures forall i :: 0 <= i < |labels| ==> ms[i] == ManifestPath(outputDir, labels[i])
  {
    seq(|labels|, i requires 0 <= i < |labels| => ManifestPath(outputDir, labels[i]))
  }

  /** `argv` holds `flag` immediately followed by `value`. */
  predicate HasOption(argv: seq<string>, flag: string, value: string)
  {
    exists i :: 0 <= i < |argv| - 1 && argv[i] == flag && argv[i + 1] == value
  }

  /** The run succeeds: exit code 0. */
  predicate Succeeded(o: ProcessOutcome)
  {
    o.Exited? && o.code == 0
  }

  function Concat(chunks: seq<string>): string
  {
    if chunks == [] then "" else Concat(chunks[..|chunks| - 1]) + chunks[|chunks| - 1]
  }

  function DigitChar(d: nat): char
    requires d < 10
  {
    "0123456789"[d]
  }

  function Digits(n: nat): (s: string)
    ensures |s| >= 1
  {
    if n < 10 then [DigitChar(n)] else Digits(n / 10) + [DigitChar(n % 10)]
  }

  /** A number as template literals print it. */
  function Decimal(i: int): string
  {
    if i < 0 then "-" + Digits(-i) else Digits(i)
  }

  /** What runFFmpeg settles with for a process outcome: the captured output (or the empty string when
      output is not captured) iff the exit code is 0, a rejection otherwise. */
  function RunResult(o: ProcessOutcome, capture: bool): (r: Result<string>)
    ensures r.Ok? <==> Succeeded(o)
    ensures r.Ok? && !capture ==> r.value == ""
    ensures r.Ok? && capture ==> r.value == Concat(o.chunks)
  {
    match o
    case SpawnFailed(message) => Err(message)
    case Killed => Err("FFmpeg exited with code null")
    case Exited(code, chunks) =>
      if code != 0 then Err("FFmpeg exited with code " + Decimal(code))
      else if capture then Ok(Concat(chunks))
      else Ok("")
  }

  /** The number of leading runs of `argvs` that succeed: the later runs are never started once one fails. */
  function FirstFailure(outcome: seq<string> -> ProcessOutcome, argvs: seq<seq<string>>): (k: nat)
    ensures k <= |argvs|
    ensures forall i :: 0 <= i < k ==> Succeeded(outcome(argvs[i]))
    ensures k < |argvs| ==> !Succeeded(outcome(argvs[k]))
  {
    if argvs == [] || !Succeeded(outcome(argvs[0])) then 0
    else 1 + FirstFailure(outcome, argvs[1..])
  }

  /** The runs a sequence of renditions starts: a leading part of the sequence, never empty when there is a
      run to start, in which every run but the last succeeded; the last one failed unless every run started. */
  function Started(outcome: seq<string> -> ProcessOutcome, argvs: seq<seq<string>>): (started: seq<seq<string>>)
    ensures started <= argvs
    ensures argvs != [] ==> started != []
    ensures forall i :: 0 <= i < |started| - 1 ==> Succeeded(outcome(started[i]))
    ensures |started| < |argvs| ==> !Succeeded(outcome(started[|started| - 1]))
  {
    var k := FirstFailure(outcome, argvs);
    if k < |argvs| then argvs[..k + 1] else argvs
  }

  /** The contract of `Started` pins it down: any leading part of the runs with those properties is it. */
  lemma StartedUnique(outcome: seq<string> -> ProcessOutcome, argvs: seq<seq<string>>, s: seq<seq<string>>)
    requires s <= argvs
    requires argvs != [] ==> s != []
    requires forall i :: 0 <= i < |s| - 1 ==> Succeeded(outcome(s[i]))
    requires |s| < |argvs| ==> !Succeeded(outcome(s[|s| - 1]))
    ensures s == Started(outcome, argvs)
  {
    var k := FirstFailure(outcome, argvs);
    if s != [] {
      if |s| < |argvs| {
        assert argvs[|s| - 1] == s[|s| - 1];
        assert s == argvs[..k + 1];
      }
    }
  }

  /** A single run is started whatever its outcome, and goes through iff it succeeds. */
  lemma SingleRun(outcome: seq<string> -> ProcessOutcome, argv: seq<string>)
    ensures Started(outcome, [argv]) == [argv]
    ensures FirstFailure(outcome, [argv]) == if Succeeded(outcome(argv)) then 1 else 0
  {
    assert [argv][1..] == [];
  }

  /** The ffmpeg binary: what each argument vector does, and the runs spawned so far. */
  class Ffmpeg {
    const outcome: seq<string> -> ProcessOutcome
    var spawned: seq<seq<string>>

    constructor (outcome: seq<string> -> ProcessOutcome)
      ensures this.outcome == outcome && spawned == []
    {
      this.outcome := outcome;
      spawned := [];
    }

    /** runFFmpeg: spawns one process and, when capturing, accumulates its standard output chunk by chunk. */
    method Run(args: seq<string>, capture: bool) returns (r: Result<string>)
      modifies this
      ensures spawned == old(spawned) + [args]
      ensures r == RunResult(outcome(args), capture)
    {
      spawned := spawned + [args];
      var o := outcome(args);
      if o.SpawnFailed? {
        return Err(o.message);
      }
      if o.Killed? {
        return Err("FFmpeg exited with code null");
      }
      var output := "";
      if capture {
        var i := 0;
        while i < |o.chunks|
          invariant 0 <= i <= |o.chunks|
          invariant output == Concat(o.chunks[..i])
        {
          assert o.chunks[..i + 1][..i] == o.chunks[..i];
          output := output + o.chunks[i];
          i := i + 1;
        }
        assert o.chunks[..i] == o.chunks;
      }
      if o.code == 0 {
        r := Ok(output);
      } else {
        r := Err("FFmpeg exited with code " + Decimal(o.code));
      }
    }

    /** The loop shared by transcodeVideo and transcodeAudio: one run per label, in order, stopping at the
        first rejection, which the whole call rejects with. */
    method RunRenditions(argvs: seq<seq<string>>, manifests: seq<string>) returns (r: Result<seq<string>>)
      requires |argvs| == |manifests|
      modifies this
      ensures spawned == old(spawned) + Started(outcome, argvs)
      ensures r.Ok? <==> FirstFailure(outcome, argvs) == |argvs|
      ensures r.Ok? ==> r.value == manifests
    {
      var done: seq<string> := [];
      var i := 0;
      while i < |argvs|
        invariant 0 <= i <= |argvs|
        invariant i <= FirstFailure(outcome, argvs)
        invariant done == manifests[..i]
        invariant spawned == old(spawned) + argvs[..i]
      {
        var run := Run(argvs[i], false);
        if run.Err? {
          assert FirstFailure(outcome, argvs) == i;
          assert argvs[..i] + [argvs[i]] == argvs[..i + 1];
          return Err(run.message);
        }
        assert manifests[..i + 1] == manifests[..i] + [manifests[i]];
        assert argvs[..i + 1] == argvs[..i] + [argvs[i]];
        done := done + [manifests[i]];
        i := i + 1;
      }
      assert argvs[..i] == argvs && manifests[..i] == manifests;
      r := Ok(done);
    }

    /** transcodeVideo: one HLS rendition per quality under `outputDir/<quality>/`. */
    method TranscodeVideo(input: string, outputDir: string, qualities: seq<string>) returns (r: Result<seq<string>>)
      modifies this
      ensures spawned == old(spawned) + Started(outcome, VideoRuns(input, outputDir, qualities))
      ensures r.Ok? <==> forall i :: 0 <= i < |qualities| ==> Succeeded(outcome(VideoArgs(input, outputDir, qualities[i])))
      ensures r.Ok? <==> FirstFailure(outcome, VideoRuns(input, outputDir, qualities)) == |qualities|
      ensures r.Ok? ==> r.value == Manifests(outputDir, qualities)
    {
      var argvs := VideoRuns(input, outputDir, qualities);
      r := RunRenditions(argvs, Manifests(outputDir, qualities));
      if !r.Ok? {
        var k := FirstFailure(outcome, argvs);
        assert !Succeeded(outcome(VideoArgs(input, outputDir, qualities[k])));
      }
    }

    /** transcodeAudio: one HLS rendition per bitrate under `outputDir/<bitrate>/`. */
    method TranscodeAudio(input: string, outputDir: string, bitrates: seq<string>) returns (r: Result<seq<string>>)
      modifies this
      ensures spawned == old(spawned) + Started(outcome, AudioRuns(input, outputDir, bitrates))
      ensures r.Ok? <==> forall i :: 0 <= i < |bitrates| ==> Succeeded(outcome(AudioArgs(input, outputDir, bitrates[i])))
      ensures r.Ok? <==> FirstFailure(outcome, AudioRuns(input, outputDir, bitrates)) == |bitrates|
      ensures r.Ok? ==> r.value == Manifests(outputDir, bitrates)
    {
      var argvs := AudioRuns(input, outputDir, bitrates);
      r := RunRenditions(argvs, Manifests(outputDir, bitrates));
      if !r.Ok? {
        var k := FirstFailure(outcome, argvs);
        assert !Succeeded(outcome(AudioArgs(input, outputDir, bitrates[k])));
      }
    }

    /** extractThumbnail: one run writing a single frame to `output`. */
    method ExtractThumbnail(input: string, output: string, timestamp: string) returns (r: Result<()>)
      modifies this
      ensures spawned == old(spawned) + [ThumbnailArgs(input, output, timestamp)]
      ensures r.Ok? <==> Succeeded(outcome(ThumbnailArgs(input, output, timestamp)))
    {
      var run := Run(ThumbnailArgs(input, output, timestamp), false);
      if run.Err? {
        return Err(run.message);
      }
      r := Ok(());
    }

    /** getDuration: the captured output read as a number, 0 when it does not read as one (or reads as 0).
        `parseNumber` stands for `parseFloat(output.trim())`, with nothing for NaN. */
    method GetDuration(input: string, parseNumber: string -> Option<real>) returns (r: Result<real>)
      modifies this
      ensures spawned == old(spawned) + [ProbeArgs(input)]
      ensures r.Ok? <==> Succeeded(outcome(ProbeArgs(input)))
      ensures r.Ok? ==> r.value == match parseNumber(Concat(outcome(ProbeArgs(input)).chunks))
                                    case Some(x) => x
                                    case None => 0.0
    {
      var run := Run(ProbeArgs(input), true);
      if run.Err? {
        return Err(run.message);
      }
      var parsed := parseNumber(run.value);
      r := Ok(if parsed.Some? then parsed.value else 0.0);
    }
  }

  /** checkFFmpegAvailable: `existsSync(path) || true` is always true. */
  function CheckFFmpegAvailable(pathExists: bool): (available: bool)
    ensures available
  {
    pathExists || true
  }

  /** Every rendition run, video or audio, cuts 10-second segments, keeps every segment in the playlist,
      names segments after the rendition, and ends with `-f hls <manifest>`. A video label picks its size and
      bitrate (`480p` is small, any other label, not only `720p`, gets the 720p settings); an audio label is
      also its bitrate. The thumbnail run takes one frame at one second by default and writes `output`. */
  lemma ArgsShape(input: string, outputDir: string, rendition: string, output: string)
    ensures var v := VideoArgs(input, outputDir, rendition);
      HasOption(v, "-hls_time", "10") && HasOption(v, "-hls_list_size", "0")
      && HasOption(v, "-hls_segment_filename", SegmentPattern(outputDir, rendition))
      && v[|v| - 3..] == ["-f", "hls", ManifestPath(outputDir, rendition)]
      && (rendition == "480p" ==> HasOption(v, "-s", "854:480") && HasOption(v, "-b:v", "1000k"))
      && (rendition != "480p" ==> HasOption(v, "-s", "1280:720") && HasOption(v, "-b:v", "2500k"))
    ensures var a := AudioArgs(input, outputDir, rendition);
      HasOption(a, "-hls_time", "10") && HasOption(a, "-hls_list_size", "0")
      && HasOption(a, "-hls_segment_filename", SegmentPattern(outputDir, rendition))
      && a[|a| - 3..] == ["-f", "hls", ManifestPath(outputDir, rendition)]
      && HasOption(a, "-b:a", rendition)
    ensures var t := ThumbnailArgs(input, output, DEFAULT_THUMBNAIL_TIME);
      HasOption(t, "-vframes", "1") && HasOption(t, "-ss", "00:00:01") && t[|t| - 1] == output
  {
    VideoArgsShape(input, outputDir, rendition);
    AudioArgsShape(input, outputDir, rendition);
    ThumbnailArgsShape(input, output);
  }

  lemma ThumbnailArgsShape(input: string, output: string)
    ensures var t := ThumbnailArgs(input, output, DEFAULT_THUMBNAIL_TIME);
      HasOption(t, "-vframes", "1") && HasOption(t, "-ss", "00:00:01") && t[|t| - 1] == output
  {
    var t := ThumbnailArgs(input, output, DEFAULT_THUMBNAIL_TIME);
    assert t[2] == "-ss" && t[3] == "00:00:01";
    assert t[4] == "-vframes" && t[5] == "1";
  }

  lemma VideoArgsShape(input: string, outputDir: string, quality: string)
    ensures var v := VideoArgs(input, outputDir, quality);
      HasOption(v, "-hls_time", "10") && HasOption(v, "-hls_list_size", "0")
      && HasOption(v, "-hls_segment_filename", SegmentPattern(outputDir, quality))
      && v[|v| - 3..] == ["-f", "hls", ManifestPath(outputDir, quality)]
      && HasOption(v, "-s", Resolution(quality)) && HasOption(v, "-b:v", VideoBitrate(quality))
  {
    var v := VideoArgs(input, outputDir, quality);
    assert v[6] == "-b:v" && v[7] == VideoBitrate(quality);
    assert v[8] == "-s" && v[9] == Resolution(quality);
    assert v[10] == "-hls_time" && v[11] == "10";
    assert v[12] == "-hls_list_size" && v[13] == "0";
    assert v[14] == "-hls_segment_filename" && v[15] == SegmentPattern(outputDir, quality);
  }

  lemma AudioArgsShape(input: string, outputDir: string, bitrate: string)
    ensures var a := AudioArgs(input, outputDir, bitrate);
      HasOption(a, "-hls_time", "10") && HasOption(a, "-hls_list_size", "0")
      && HasOption(a, "-hls_segment_filename", SegmentPattern(outputDir, bitrate))
      && a[|a| - 3..] == ["-f", "hls", ManifestPath(outputDir, bitrate)]
      && HasOption(a, "-b:a", bitrate)
  {
    var a := AudioArgs(input, outputDir, bitrate);
    assert a[4] == "-b:a" && a[5] == bitrate;
    assert a[6] == "-hls_time" && a[7] == "10";
    assert a[8] == "-hls_list_size" && a[9] == "0";
    assert a[10] == "-hls_segment_filename" && a[11] == SegmentPattern(outputDir, bitrate);
  }

  /** The manifest the i-th run writes is the i-th manifest the transcoder returns, and runs of distinct
      labels write distinct manifests, so no run overwrites another's playlist. */
  lemma RunsWriteManifests(input: string, outputDir: string, labels: seq<string>)
    ensures forall i :: 0 <= i < |labels| ==>
      var v := VideoRuns(input, outputDir, labels)[i];
      var a := AudioRuns(input, outputDir, labels)[i];
      v[|v| - 1] == Manifests(outputDir, labels)[i] && a[|a| - 1] == Manifests(outputDir, labels)[i]
    ensures forall i, j :: 0 <= i < |labels| && 0 <= j < |labels| && labels[i] != labels[j] ==>
      Manifests(outputDir, labels)[i] != Manifests(outputDir, labels)[j]
  {
    forall i | 0 <= i < |labels|
      ensures var v := VideoRuns(input, outputDir, labels)[i];
        var a := AudioRuns(input, outputDir, labels)[i];
        v[|v| - 1] == Manifests(outputDir, labels)[i] && a[|a| - 1] == Manifests(outputDir, labels)[i]
    {
      VideoArgsShape(input, outputDir, labels[i]);
      AudioArgsShape(input, outputDir, labels[i]);
    }
    forall i, j | 0 <= i < |labels| && 0 <= j < |labels| && labels[i] != labels[j]
      ensures Manifests(outputDir, labels)[i] != Manifests(outputDir, labels)[j]
    {
      if Manifests(outputDir, labels)[i] == Manifests(outputDir, labels)[j] {
        ManifestPathInjective(outputDir, labels[i], labels[j]);
      }
    }
  }

  /** Distinct labels render to distinct manifests. */
  lemma {:induction false} ManifestPathInjective(outputDir: string, a: string, b: string)
    requires ManifestPath(outputDir, a) == ManifestPath(outputDir, b)
    ensures a == b
  {
    var pa := ManifestPath(outputDir, a);
    var n := |outputDir| + 1;
    assert |a| == |b|;
    assert a == pa[n..n + |a|];
    assert b == ManifestPath(outputDir, b)[n..n + |b|];
  }
}
