/** The decisions `cb_download` and `download_with_yt` make around the
    download itself: the engine options, the callback payload, the size gate,
    how the file is delivered, and what the user is told. */
module Download {
  import opened Wrappers
  import opened Text
  import opened Transport

  // ---------------------------------------------------------------- options

  /** A post-processing step requested from the extraction engine. */
  datatype Postprocessor = Postprocessor(key: string, preferredCodec: string, preferredQuality: string)

  /** The option dictionary handed to the extraction engine; an absent key is
      None, an absent list is empty. */
  datatype Options = Options(
    outtmpl: string,
    quiet: bool,
    noWarnings: bool,
    noPlaylist: bool,
    retries: nat,
    mergeOutputFormat: Option<string>,
    httpHeaders: seq<(string, string)>,
    format: string,
    postprocessors: seq<Postprocessor>,
    keepVideo: Option<bool>,
    cookieFile: Option<string>)

  const AudioFormat := "bestaudio/best"
  /** Three alternatives, tried left to right: mp4 video with m4a audio, then
      the best single mp4, then the best of anything. */
  const VideoFormat := "bestvideo*[ext=mp4]+bestaudio[ext=m4a]/best[ext=mp4]/best"
  const Mp3Extraction := Postprocessor("FFmpegExtractAudio", "mp3", "192")
  const OutputTemplate := "%(title).120s.%(ext)s"
  const BrowserHeaders := [
    ("User-Agent", "Mozilla/5.0 (Windows NT 10.0; Win64; x64) AppleWebKit/537.36 (KHTML, like Gecko) Chrome/120.0 Safari/537.36"),
    ("Accept", "*/*"),
    ("Accept-Language", "en-US,en;q=0.9")]

  /** The cookie-file setting: the environment value stripped, or None when
      that leaves nothing. */
  function CookiesSetting(raw: string): (r: Option<string>)
    ensures r.None? <==> forall k :: 0 <= k < |raw| ==> IsSpace(raw[k])
    ensures r.Some? ==> Truthy(r) && r.value == Strip(raw)
  {
    var s := Strip(raw);
    if s == "" then None else Some(s)
  }

  /** `yt_opts`, the option builder the handlers never call. */
  function YtOpts(outtmpl: string, audioOnly: bool, cookies: Option<string>): (o: Options)
    ensures o.format == (if audioOnly then AudioFormat else "bestvideo+bestaudio/best")
    ensures o.postprocessors == (if audioOnly then [Mp3Extraction] else [])
    ensures o.keepVideo == (if audioOnly then Some(false) else None)
    ensures o.mergeOutputFormat == (if audioOnly then None else Some("mp4"))
    ensures o.cookieFile.Some? <==> Truthy(cookies)
    ensures o.cookieFile.Some? ==> o.cookieFile == cookies
    ensures o.outtmpl == outtmpl && o.retries == 2 && o.noPlaylist
    ensures o.quiet && o.noWarnings && o.httpHeaders == []
  {
    var base := Options(outtmpl, true, true, true, 2, None, [], "", [], None, None);
    var withFormat :=
      if audioOnly then base.(format := AudioFormat, postprocessors := [Mp3Extraction], keepVideo := Some(false))
      else base.(format := "bestvideo+bestaudio/best", mergeOutputFormat := Some("mp4"));
    if Truthy(cookies) then withFormat.(cookieFile := cookies) else withFormat
  }

  /** The options `download_with_yt` passes to the engine for a download into
      `outdir`. */
  function DownloadOptions(outdir: string, audioOnly: bool, cookiesFile: Option<string>): (o: Options)
    ensures o.format == AudioFormat <==> audioOnly
    ensures !audioOnly ==> o.format == VideoFormat
    ensures o.postprocessors == (if audioOnly then [Mp3Extraction] else [])
    ensures o.cookieFile.Some? <==> Truthy(cookiesFile)
    ensures o.cookieFile.Some? ==> o.cookieFile == cookiesFile
    ensures o.outtmpl == outdir + "/" + OutputTemplate
    ensures o.retries == 3 && o.noPlaylist && o.mergeOutputFormat == Some("mp4")
    ensures o.httpHeaders == BrowserHeaders
    ensures o.keepVideo.None? && o.quiet && o.noWarnings
  {
    var base := Options(outdir + "/" + OutputTemplate, true, true, true, 3, Some("mp4"),
                        BrowserHeaders, "", [], None, None);
    var withFormat :=
      if audioOnly then base.(format := AudioFormat, postprocessors := [Mp3Extraction])
      else base.(format := VideoFormat);
    assert AudioFormat != VideoFormat by { assert |AudioFormat| != |VideoFormat|; }
    if Truthy(cookiesFile) then withFormat.(cookieFile := cookiesFile) else withFormat
  }

  /** The engine reads a format as alternatives separated by `/`: the video
      format is the three-stage fallback chain, in priority order. */
  lemma VideoFallbackChain()
    ensures Split(VideoFormat, '/') == ["bestvideo*[ext=mp4]+bestaudio[ext=m4a]", "best[ext=mp4]", "best"]
  {
    var a, b, c := "bestvideo*[ext=mp4]+bestaudio[ext=m4a]", "best[ext=mp4]", "best";
    assert VideoFormat == a + ['/'] + (b + ['/'] + c);
    SplitThree(a, b, c, '/');
  }

  /** The audio format falls back from the best audio-only stream to the best
      stream of any kind. */
  lemma AudioFallbackChain()
    ensures Split(AudioFormat, '/') == ["bestaudio", "best"]
  {
    assert AudioFormat == "bestaudio" + ['/'] + "best";
    SplitTwo("bestaudio", "best", '/');
  }

  // ------------------------------------------------------- callback payload

  /** The three fields of `call.data.split("|", 2)`. */
  datatype Callback = Callback(verb: string, uid: string, mode: string)

  /** Unpacking `call.data.split("|", 2)` into three names: fails when the
      payload has fewer than two `|`; the mode keeps any further `|`. */
  function ParseCallback(data: string): (r: Option<Callback>)
    ensures r.None? <==> multiset(data)['|'] < 2
    ensures r.Some? ==> data == r.value.verb + ['|'] + (r.value.uid + ['|'] + r.value.mode)
    ensures r.Some? ==> '|' !in r.value.verb && '|' !in r.value.uid
  {
    var parts := SplitN(data, '|', 2);
    if |parts| == 3 then
      JoinThree(parts, ['|']);
      Some(Callback(parts[0], parts[1], parts[2]))
    else
      None
  }

  /** The payload of a download button. */
  function ButtonData(uid: string, mode: string): (d: string)
    ensures |d| == |"download|"| + |uid| + 1 + |mode|
    ensures "download|" <= d
    ensures d[9..9 + |uid|] == uid && d[9 + |uid|] == '|' && d[10 + |uid|..] == mode
  {
    "download|" + uid + "|" + mode
  }

  /** Parsing inverts the payload layout: three fields joined by `|`, of
      which the first two hold no `|`, come back as they were. */
  lemma {:induction false} ParseCallbackInverts(verb: string, uid: string, mode: string)
    requires '|' !in verb && '|' !in uid
    ensures ParseCallback(verb + ['|'] + (uid + ['|'] + mode)) == Some(Callback(verb, uid, mode))
  {
    var data := verb + ['|'] + (uid + ['|'] + mode);
    TwoSeparators(verb, uid, mode);
    var r := ParseCallback(data).value;
    FirstCutUnique(verb, uid + ['|'] + mode, r.verb, r.uid + ['|'] + r.mode, '|');
    FirstCutUnique(uid, mode, r.uid, r.mode, '|');
  }

  lemma TwoSeparators(verb: string, uid: string, mode: string)
    ensures multiset(verb + ['|'] + (uid + ['|'] + mode))['|'] >= 2
  {
    assert multiset(verb + ['|'] + (uid + ['|'] + mode))
      == multiset(verb) + multiset(['|']) + (multiset(uid) + multiset(['|']) + multiset(mode));
  }

  /** A button's payload parses back into its uid and mode, provided the uid
      holds no `|` (a uuid prefix never does). */
  lemma ButtonDataRoundTrip(uid: string, mode: string)
    requires '|' !in uid
    ensures ParseCallback(ButtonData(uid, mode)) == Some(Callback("download", uid, mode))
  {
    var verb := "download";
    assert '|' !in verb by {
      assert forall k :: 0 <= k < |verb| ==> verb[k] != '|';
    }
    assert ButtonData(uid, mode) == verb + ['|'] + (uid + ['|'] + mode);
    ParseCallbackInverts(verb, uid, mode);
  }

  /** `audio_only = (mode == "audio")`: any other mode is a video download. */
  function AudioOnly(mode: string): (b: bool)
    ensures b <==> mode == "audio"
  {
    mode == "audio"
  }

  // ------------------------------------------------------------- size gate

  const BytesPerMb := 1048576
  const DefaultMaxFilesizeMb := 1900

  /** The result of `path.stat()`: a size in bytes, or the error it raised. */
  datatype Stat = StatOk(size: nat) | StatFailed(error: string)

  /** `file_too_big`: the size in (binary) megabytes, a true division, is
      above the ceiling; a failing stat counts as too big. */
  function FileTooBig(stat: Stat, maxMb: int): (r: bool)
    ensures r <==> stat.StatFailed? || stat.size > maxMb * BytesPerMb
  {
    match stat
    case StatOk(size) => (size as real) / (BytesPerMb as real) > maxMb as real
    case StatFailed(_) => true
  }

  // ------------------------------------------------------------- delivery

  datatype Delivery = AsAudio | AsVideo

  const AudioSuffixes := [".mp3", ".m4a", ".opus", ".ogg"]

  /** Whether the file goes out with `send_audio` or `send_video`. */
  function DeliveryFor(audioOnly: bool, suffix: string): (d: Delivery)
    ensures d == AsAudio <==> audioOnly || Lower(suffix) in AudioSuffixes
  {
    if audioOnly || Lower(suffix) in AudioSuffixes then AsAudio else AsVideo
  }

  /** The suffix test ignores case: `.MP3` is audio like `.mp3`. */
  lemma DeliveryIgnoresCase(audioOnly: bool, suffix: string)
    ensures DeliveryFor(audioOnly, suffix) == DeliveryFor(audioOnly, Lower(suffix))
  {
    LowerIdempotent(suffix);
  }

  /** What the extraction engine did: it raised, or it produced a file whose
      stat, suffix and reported title are given. A title of None means the
      metadata has no "title" key. */
  datatype Fetch = FetchFailed(error: string) | Fetched(stat: Stat, suffix: string, title: Option<string>)

  const FailurePrefix := "\U{274c} Download failed: "

  const DownloadingLead := "\U{23f3} Downloading "
  const DownloadingTail := " \U{2014} this can take some time."

  /** The notice sent while the download runs: it names the mode. */
  function DownloadingText(mode: string): (r: string)
    ensures |r| == |DownloadingLead| + |mode| + |DownloadingTail|
    ensures DownloadingLead <= r
    ensures r[|DownloadingLead|..|DownloadingLead| + |mode|] == mode
    ensures r[|DownloadingLead| + |mode|..] == DownloadingTail
  {
    DownloadingLead + mode + DownloadingTail
  }

  const TooLargeLead := "\U{26a0}\U{fe0f} File too large ("
  const TooLargeTail := " MB)."

  /** The message for a file over the ceiling, with its size in whole
      megabytes, rounded down. */
  function TooLargeText(size: nat): (r: string)
    ensures |r| == |TooLargeLead| + |DecimalString(size / BytesPerMb)| + |TooLargeTail|
    ensures TooLargeLead <= r
    ensures r[|TooLargeLead|..|TooLargeLead| + |DecimalString(size / BytesPerMb)|] == DecimalString(size / BytesPerMb)
    ensures r[|r| - |TooLargeTail|..] == TooLargeTail
  {
    TooLargeLead + DecimalString(size / BytesPerMb) + TooLargeTail
  }

  /** What the `try` block of `cb_download` sends after the engine returns:
      one message, which is the file exactly when it was fetched and is not
      too big. A stat that fails in the size gate fails again when the size
      is put into the message, so that case reports the stat error. */
  function DownloadReply(fetch: Fetch, audioOnly: bool, maxMb: int): (events: seq<Event>)
    ensures |events| == 1
    ensures IsMedia(events[0]) <==> fetch.Fetched? && !FileTooBig(fetch.stat, maxMb)
    ensures events[0].SendAudio? <==>
      fetch.Fetched? && !FileTooBig(fetch.stat, maxMb) && DeliveryFor(audioOnly, fetch.suffix) == AsAudio
    ensures IsMedia(events[0]) ==> events[0].caption == fetch.title.GetOr("File")
    ensures fetch.FetchFailed? ==> events[0] == SendText(FailurePrefix + fetch.error, [])
    ensures fetch.Fetched? && fetch.stat.StatFailed? ==> events[0] == SendText(FailurePrefix + fetch.stat.error, [])
    ensures fetch.Fetched? && fetch.stat.StatOk? && FileTooBig(fetch.stat, maxMb) ==>
      events[0] == SendText(TooLargeText(fetch.stat.size), [])
  {
    match fetch
    case FetchFailed(error) => [SendText(FailurePrefix + error, [])]
    case Fetched(stat, suffix, title) =>
      if FileTooBig(stat, maxMb) then
        match stat
        case StatFailed(error) => [SendText(FailurePrefix + error, [])]
        case StatOk(size) => [SendText(TooLargeText(size), [])]
      else
        var caption := title.GetOr("File");
        if DeliveryFor(audioOnly, suffix) == AsAudio then [SendAudio(caption)] else [SendVideo(caption)]
  }
}
