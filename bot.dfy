/** The two handlers that share `requests_store`: `handle_links`, which files
    a request for a supported link and offers download buttons, and
    `cb_download`, which answers a button press by downloading, delivering
    and cleaning up. */
module Bot {
  import opened Wrappers
  import opened Transport
  import opened Links
  import opened Hashtags
  import opened Captions
  import opened Download

  /** An entry of `requests_store`: the link and the platform it was filed under. */
  datatype Request = Request(url: string, platform: Platform)

  /** The download the handler asks the extraction engine for. */
  datatype EngineCall = EngineCall(url: string, options: Options)

  const NoLinkText := "Send a valid link."
  const UnsupportedText := "Unsupported link. Send Instagram or YouTube public link."
  const InvalidText := "Invalid request."
  const ExpiredText := "Request expired. Send link again."
  const StartingText := "Starting download..."

  /** The "please wait" notice sent while the metadata is probed. */
  function FetchingText(p: Platform): (r: string)
    ensures "\U{1f50e} Fetching " <= r
    ensures |r| > 11 && (r[11] == 'I' <==> p == Instagram) && (r[11] == 'Y' <==> p == YouTube)
    ensures r[|r| - 8..] == " info..."
    ensures |r| >= 19 && r[11..|r| - 8] == (if p == Instagram then "Instagram" else "YouTube")
  {
    match p
    case Instagram => "\U{1f50e} Fetching Instagram info..."
    case YouTube => "\U{1f50e} Fetching YouTube info..."
  }

  /** The card's buttons: Instagram offers video only, YouTube video and audio. */
  function Buttons(p: Platform, uid: string): (bs: seq<Button>)
    ensures forall k :: 0 <= k < |bs| ==> bs[k].data in {ButtonData(uid, "video"), ButtonData(uid, "audio")}
    ensures p == Instagram ==> |bs| == 1 && bs[0].data == ButtonData(uid, "video")
    ensures p == YouTube ==> |bs| == 2 && bs[0].data == ButtonData(uid, "video") && bs[1].data == ButtonData(uid, "audio")
    ensures p == Instagram ==> bs[0].text == "\U{25b6}\U{fe0f} Download Video"
    ensures p == YouTube ==> bs[0].text == "\U{1f3a5} Download Video" && bs[1].text == "\U{1f3a7} Download Audio"
  {
    match p
    case Instagram => [Button("\U{25b6}\U{fe0f} Download Video", ButtonData(uid, "video"))]
    case YouTube => [Button("\U{1f3a5} Download Video", ButtonData(uid, "video")),
                     Button("\U{1f3a7} Download Audio", ButtonData(uid, "audio"))]
  }

  /** The card's text for each platform. */
  function CardText(p: Platform, info: Option<Meta>, minutes: string): (r: string)
    ensures r != ""
    ensures p == Instagram ==> r == InstagramText(info)
    ensures p == YouTube ==> r == YouTubeText(info, minutes)
  {
    match p
    case Instagram => InstagramText(info)
    case YouTube => YouTubeText(info, minutes)
  }

  /** What reaches the chat when the card is sent: a photo with the text as
      caption when there is a thumbnail and the transport takes it, otherwise
      the text alone (the fallback of the `except` branch). */
  function CardEvent(thumb: Option<string>, text: string, buttons: seq<Button>, photoAccepted: bool): (e: Event)
    ensures e.SendPhoto? <==> thumb.Some? && photoAccepted
    ensures e.SendPhoto? ==> e == SendPhoto(thumb.value, text, buttons)
    ensures !e.SendPhoto? ==> e == SendText(text, buttons)
  {
    if thumb.Some? && photoAccepted then SendPhoto(thumb.value, text, buttons) else SendText(text, buttons)
  }

  /** Every button of a card leads back, through the callback payload, to the
      request filed under its uid, with the mode the button names. */
  lemma ButtonsResolve(p: Platform, uid: string, k: nat)
    requires '|' !in uid && k < |Buttons(p, uid)|
    ensures var cb := ParseCallback(Buttons(p, uid)[k].data);
      cb.Some? && cb.value.uid == uid && (AudioOnly(cb.value.mode) <==> p == YouTube && k == 1)
  {
    var mode := if p == YouTube && k == 1 then "audio" else "video";
    assert Buttons(p, uid)[k].data == ButtonData(uid, mode);
    ButtonDataRoundTrip(uid, mode);
    assert AudioOnly(mode) <==> mode == "audio";
  }

  /** What a press of a button of a pending request sends, in order: the
      acknowledgement, the notice, the outcome of the download, and the
      deletion of the notice. */
  function DownloadEvents(mode: string, fetch: Fetch, maxMb: int): (events: seq<Event>)
    ensures |events| == 4
    ensures events[0] == AnswerCallback(StartingText) && events[3] == DeleteMessage
    ensures events[1] == SendText(DownloadingText(mode), [])
    ensures events[2..3] == DownloadReply(fetch, AudioOnly(mode), maxMb)
  {
    [AnswerCallback(StartingText), SendText(DownloadingText(mode), [])]
      + DownloadReply(fetch, AudioOnly(mode), maxMb) + [DeleteMessage]
  }

  /** The bot's state: the configuration it read at start-up, the pending
      requests, the messages sent so far, and the scratch directories that
      exist on disk (ghost: the filesystem is not modelled). */
  class SaveMediaBot {
    const maxFilesizeMb: int
    const cookiesFile: Option<string>
    var store: map<string, Request>
    var sent: seq<Event>
    ghost var liveDirs: set<string>

    constructor (maxFilesizeMb: int, cookiesFile: Option<string>)
      ensures this.maxFilesizeMb == maxFilesizeMb && this.cookiesFile == cookiesFile
      ensures store == map[] && sent == [] && liveDirs == {}
    {
      this.maxFilesizeMb := maxFilesizeMb;
      this.cookiesFile := cookiesFile;
      store := map[];
      sent := [];
      liveDirs := {};
    }

    /** `handle_links` for a text message. `uid` stands for the uuid prefix,
        `info` for the probe's result, `minutes` for the formatted duration,
        and `photoAccepted` for whether the transport takes the thumbnail. */
    method HandleLinks(text: string, uid: string, info: Option<Meta>, minutes: string, photoAccepted: bool)
      modifies this
      ensures liveDirs == old(liveDirs)
      ensures ExtractUrl(text).None? ==>
        store == old(store) && sent == old(sent) + [SendText(NoLinkText, [])]
      ensures ExtractUrl(text).Some? && Classify(ExtractUrl(text).value).None? ==>
        store == old(store) && sent == old(sent) + [SendText(UnsupportedText, [])]
      ensures ExtractUrl(text).Some? && Classify(ExtractUrl(text).value).Some? ==>
        var url := ExtractUrl(text).value;
        var p := Classify(url).value;
        && store == old(store)[uid := Request(url, p)]
        && sent == old(sent) + [SendText(FetchingText(p), []),
                                CardEvent(Thumbnail(info), CardText(p, info, minutes), Buttons(p, uid), photoAccepted),
                                DeleteMessage]
    {
      var found := ExtractUrl(text);
      if found.None? {
        sent := sent + [SendText(NoLinkText, [])];
        return;
      }
      var url := found.value;
      var platform := Classify(url);
      if platform.Some? {
        FileRequest(url, platform.value, uid, info, minutes, photoAccepted);
        return;
      }
      sent := sent + [SendText(UnsupportedText, [])];
    }

    /** The branch of `handle_links` for a supported link: post the notice,
        build the card, file the request under `uid`, send the card with its
        buttons and delete the notice. */
    method FileRequest(url: string, p: Platform, uid: string, info: Option<Meta>, minutes: string, photoAccepted: bool)
      modifies this`store, this`sent
      ensures store == old(store)[uid := Request(url, p)]
      ensures sent == old(sent) + [SendText(FetchingText(p), []),
                                   CardEvent(Thumbnail(info), CardText(p, info, minutes), Buttons(p, uid), photoAccepted),
                                   DeleteMessage]
    {
      var notice := SendText(FetchingText(p), []);
      var outText;
      if p == Instagram {
        var caption := CaptionSource(info);
        var hashtags := HashtagsFromText(caption);
        outText := InstagramCard(info, caption, hashtags);
      } else {
        outText := YouTubeText(info, minutes);
      }
      store := store[uid := Request(url, p)];
      var card := CardEvent(Thumbnail(info), outText, Buttons(p, uid), photoAccepted);
      sent := sent + [notice, card, DeleteMessage];
    }

    /** The `try` block of `cb_download` once the engine has returned:
        the size gate, then the file or the reason it is not sent. */
    method SendDownloadReply(fetch: Fetch, audioOnly: bool)
      modifies this`sent
      ensures sent == old(sent) + DownloadReply(fetch, audioOnly, maxFilesizeMb)
    {
      match fetch {
        case FetchFailed(error) =>
          sent := sent + [SendText(FailurePrefix + error, [])];
        case Fetched(stat, suffix, title) =>
          if FileTooBig(stat, maxFilesizeMb) {
            // the size in the message needs a second stat, which raises again
            // when the first one did; then the `except` branch answers
            match stat {
              case StatFailed(error) => sent := sent + [SendText(FailurePrefix + error, [])];
              case StatOk(size) => sent := sent + [SendText(TooLargeText(size), [])];
            }
            // `return` inside the try: the caller's finally block still runs
          } else {
            var caption := title.GetOr("File");
            if DeliveryFor(audioOnly, suffix) == AsAudio {
              sent := sent + [SendAudio(caption)];
            } else {
              sent := sent + [SendVideo(caption)];
            }
          }
      }
    }

    /** `cb_download` for a button press with payload `data`. `dir` is the
        scratch directory `mkdtemp` creates and `fetch` what the extraction
        engine did; the engine call the handler makes is returned. */
    method CbDownload(data: string, dir: string, fetch: Fetch) returns (call: Option<EngineCall>)
      modifies this
      ensures ParseCallback(data).None? ==>
        && store == old(store) && liveDirs == old(liveDirs) && call.None?
        && sent == old(sent) + [AnswerCallback(InvalidText)]
      ensures ParseCallback(data).Some? && ParseCallback(data).value.uid !in old(store) ==>
        && store == old(store) && liveDirs == old(liveDirs) && call.None?
        && sent == old(sent) + [AnswerCallback(ExpiredText)]
      ensures ParseCallback(data).Some? && ParseCallback(data).value.uid in old(store) ==>
        var uid := ParseCallback(data).value.uid;
        var mode := ParseCallback(data).value.mode;
        && store == old(store) - {uid}
        && liveDirs == old(liveDirs) - {dir}
        && call == Some(EngineCall(old(store)[uid].url, DownloadOptions(dir, AudioOnly(mode), cookiesFile)))
        && sent == old(sent) + DownloadEvents(mode, fetch, maxFilesizeMb)
    {
      var parsed := ParseCallback(data);
      if parsed.None? {
        Answer(InvalidText);
        return None;
      }
      var uid, mode := parsed.value.uid, parsed.value.mode;
      if uid !in store {
        Answer(ExpiredText);
        return None;
      }
      call := RunRequest(uid, mode, dir, fetch);
    }

    /** Answering the button press with a notice and nothing else. */
    method Answer(text: string)
      modifies this`sent
      ensures sent == old(sent) + [AnswerCallback(text)]
      ensures store == old(store) && liveDirs == old(liveDirs)
    {
      sent := sent + [AnswerCallback(text)];
    }

    /** The part of `cb_download` after the request was found: acknowledge,
        post the notice, make the scratch directory, run the download and the
        reply, then (the `finally` block) delete the notice, remove the
        directory and drop the request. */
    method RunRequest(uid: string, mode: string, dir: string, fetch: Fetch) returns (call: Option<EngineCall>)
      requires uid in store
      modifies this
      ensures store == old(store) - {uid}
      ensures liveDirs == old(liveDirs) - {dir}
      ensures call == Some(EngineCall(old(store)[uid].url, DownloadOptions(dir, AudioOnly(mode), cookiesFile)))
      ensures sent == old(sent) + DownloadEvents(mode, fetch, maxFilesizeMb)
    {
      var request := store[uid];
      ghost var before := sent;
      sent := sent + [AnswerCallback(StartingText), SendText(DownloadingText(mode), [])];
      liveDirs := liveDirs + {dir};

      // try
      var audioOnly := AudioOnly(mode);
      call := Some(EngineCall(request.url, DownloadOptions(dir, audioOnly, cookiesFile)));
      SendDownloadReply(fetch, audioOnly);

      // finally
      sent := sent + [DeleteMessage];
      assert sent == before + DownloadEvents(mode, fetch, maxFilesizeMb);
      liveDirs := liveDirs - {dir};
      store := store - {uid};
    }
  }

  /** Filing a request and then dropping it leaves the other requests as
      they were. */
  lemma FileThenDrop(store: map<string, Request>, uid: string, r: Request)
    ensures store[uid := r] - {uid} == store - {uid}
  {
    assert (store[uid := r] - {uid}).Keys == (store - {uid}).Keys;
  }

  /** A request's lifecycle: a supported link files it under `uid`, pressing
      one of its buttons downloads that link with the button's mode and drops
      the request, and pressing a button of it again only reports it expired. */
  method LinkThenPressTwice(bot: SaveMediaBot, text: string, uid: string, info: Option<Meta>, minutes: string,
                            photoAccepted: bool, mode: string, dir: string, fetch: Fetch)
    returns (first: Option<EngineCall>, second: Option<EngineCall>)
    requires '|' !in uid
    requires ExtractUrl(text).Some? && Classify(ExtractUrl(text).value).Some?
    modifies bot
    ensures first == Some(EngineCall(ExtractUrl(text).value, DownloadOptions(dir, AudioOnly(mode), bot.cookiesFile)))
    ensures second.None?
    ensures bot.store == old(bot.store) - {uid}
    ensures |bot.sent| > 0 && bot.sent[|bot.sent| - 1] == AnswerCallback(ExpiredText)
  {
    ghost var before := bot.store;
    bot.HandleLinks(text, uid, info, minutes, photoAccepted);
    ghost var filed := bot.store;
    var data := ButtonData(uid, mode);
    ButtonDataRoundTrip(uid, mode);
    first, second := PressTwice(bot, data, dir, fetch);
    FileThenDrop(before, uid, filed[uid]);
  }

  /** Two presses of a button of a pending request: the first downloads and
      drops the request, the second finds it gone. */
  method PressTwice(bot: SaveMediaBot, data: string, dir: string, fetch: Fetch)
    returns (first: Option<EngineCall>, second: Option<EngineCall>)
    requires ParseCallback(data).Some? && ParseCallback(data).value.uid in bot.store
    modifies bot
    ensures var cb := ParseCallback(data).value;
      first == Some(EngineCall(old(bot.store)[cb.uid].url, DownloadOptions(dir, AudioOnly(cb.mode), bot.cookiesFile)))
      && bot.store == old(bot.store) - {cb.uid}
    ensures second.None?
    ensures |bot.sent| > 0 && bot.sent[|bot.sent| - 1] == AnswerCallback(ExpiredText)
  {
    ghost var uid := ParseCallback(data).value.uid;
    first := bot.CbDownload(data, dir, fetch);
    assert uid !in bot.store;
    second := bot.CbDownload(data, dir, fetch);
  }
}
