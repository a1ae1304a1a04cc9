# SaveMedia bot — a Dafny model of its link and download core

The bot takes a message holding an Instagram or YouTube link. It shows a card
with the post's title, caption and hashtags (Instagram) or the video's title
and duration (YouTube), plus inline download buttons. When a button is pressed,
it downloads the media into a scratch directory, sends the file back unless the
file is above the size ceiling, and cleans up.

This project models that core of `bot.py`:

- `extract_url`, the first `http(s)://` link of a message, up to the next
  whitespace character (module `Links`).
- The domain tests that choose the Instagram branch, the YouTube branch or the
  "unsupported" answer (`Links.Classify`).
- `hashtags_from_text`: `re.findall(r"(#\w+)")` and the loop that keeps the
  first spelling of each tag, compared in lower case (module `Hashtags`). The
  loop is a method, proved against a reference definition of the filter.
- How the Instagram and YouTube card texts are assembled (module `Captions`):
  - the caption source;
  - the title line;
  - the stripped caption, cut to 800 characters plus `...`;
  - the hashtag line;
  - the placeholder text.
- The engine options of `yt_opts` and of `download_with_yt`, the callback
  payload `download|<uid>|<mode>` and how it is parsed, `file_too_big`, the
  choice between `send_audio` and `send_video`, and the single reply that the
  `try` block of `cb_download` sends (module `Download`).
- `requests_store` and the two handlers that share it, as the class
  `Bot.SaveMediaBot`:
  - `store` is the dictionary;
  - `sent` is the list of messages sent, in order;
  - `liveDirs` (ghost) is the set of scratch directories that exist.
- `HandleLinks` files a request and sends the notice, the card and the notice's
  deletion. `CbDownload` parses the payload, looks up the request, runs the
  download, then runs the `finally` block: it deletes the notice, removes the
  directory and drops the request.

What the environment decides is passed in as a parameter:

- `uid` is the uuid prefix;
- `info` is the probe's metadata;
- `minutes` is the formatted duration, used only when there is metadata;
- `photoAccepted` says whether the transport takes the thumbnail;
- `dir` is the directory `mkdtemp` returns;
- `fetch` is what the download produced: an exception, or a file with its
  stat result, suffix and title.

Behaviour of the code that the model keeps as written:

- The request is read with `requests_store.get` and is only removed in the
  `finally` block after the download. It is not consumed atomically.
- A press with a malformed payload or an unknown uid returns before the `try`
  block, so no cleanup runs for it.
- `yt_opts` is never called by the handlers; it is modelled on its own.
- When the probe returns metadata without a title, the YouTube card's title
  line shows `None`, since the f-string prints Python's `None`.
- A file whose `stat` fails counts as too big. The message's second `stat`
  then raises too, so the user gets "Download failed" with that error, not the
  size message.

## Model

| member | source | states |
|---|---|---|
| Links.ExtractUrl | bot.py:28-37 | None exactly when the pattern `https?://[^\s]+` matches nowhere in the text. Otherwise the result is the run of non-whitespace characters at the leftmost match. |
| Links.FirstUrlFrom | bot.py:36 | Finds the leftmost index at or after `from` where the pattern matches; no index before it matches. None means no index matches. |
| Links.MatchShape | bot.py:28 | A match starts with `http://` or `https://`, followed by at least one more character. |
| Links.ExtractedUrlShape | bot.py:28-37 | The extracted link starts with a scheme and has something after it. It holds no whitespace and occurs in the message. |
| Links.RunOccurs | bot.py:28 | The non-whitespace run at a match holds no whitespace and occurs in the text. |
| Links.Classify | bot.py:162-235 | Instagram exactly when the link contains `instagram.com` or `instagr.am`. YouTube exactly when it does not but contains `youtube.com` or `youtu.be`. Unsupported exactly when it contains none of the four. |
| Text.Contains | bot.py:162 | Python's `p in s` holds exactly when `p` occurs in `s` as a contiguous piece. |
| Text.Strip | bot.py:179 | `str.strip()` is the middle slice of the input. Everything cut off is whitespace, and the result has no whitespace at either end. It is empty exactly when the input is all whitespace. |
| Text.Lower | bot.py:122 | `str.lower()` keeps the length and lowers each character. |
| Text.LowerIdempotent | bot.py:122-123 | Lowering twice equals lowering once. |
| Text.SplitN | bot.py:241 | `split("|", 2)` gives min(2, number of separators) + 1 parts. Joining them back gives the input. Every part but the last is free of the separator. |
| Text.Split | bot.py:100 | Reads the engine's `/`-separated format alternatives; nothing in the code calls `split` here. A split with no limit gives one more part than there are separators. Joining gives the input back, and no part holds a separator. |
| Text.SplitCons | bot.py:100 | Used to read the `/`-separated format alternatives. Splitting a separator-free piece, a separator and a rest gives the piece followed by the parts of the rest. |
| Text.DecimalString | bot.py:261 | `str(n)` is a non-empty string of decimal digits without a leading zero. |
| Text.DecimalRoundTrip | bot.py:261 | Reading back the digits `str(n)` writes gives `n`. |
| Hashtags.WordEnd | bot.py:119 | The greedy `\w+` run ends at the first character that is not a word character. |
| Hashtags.FindTagsFrom | bot.py:119 | Every tag `findall` returns is a `#` followed by one or more word characters. |
| Hashtags.StartsIncreasing | bot.py:119 | `findall` reports its matches left to right. The start positions lie at or after the scan's start and strictly increase. |
| Hashtags.FindTagsComplete | bot.py:119 | No tag is missed. Every position at or after the scan's start where a `#` is followed by a word character is the start of a returned tag. |
| Hashtags.FindTagsGreedy | bot.py:119 | Matches are greedy. Every tag stands in the text at its recorded start, and is followed by the end of the text or a non-word character, so `#Sunday` never yields `#Sun`. |
| Hashtags.HashtagsFromText | bot.py:116-125 | The loop with its `seen` set returns exactly the reference filter: the tags that are the first of their lower-case form, in order. |
| Hashtags.FirstSpellingsInOrder | bot.py:120-124 | The kept tags keep their input order. Of two kept tags, the earlier stands earlier in the input, and both are first spellings. |
| Hashtags.FirstSpellingsSound | bot.py:120-124 | Each kept tag is an input tag that no earlier tag equals in lower case. |
| Hashtags.FirstSpellingsDistinct | bot.py:120-124 | No two kept tags are equal in lower case. |
| Hashtags.FirstSpellingsComplete | bot.py:120-124 | Every input tag's lower-case form is among the kept tags. |
| Hashtags.KeptStaysKept | bot.py:123-124 | A tag that is the first of its lower-case form is kept. |
| Hashtags.SkipNonTags | bot.py:119 | Positions where no tag starts add nothing to `findall`. |
| Hashtags.SunExample | bot.py:116-125 | For "Great day! #Sun #sun #Fun" the result is `["#Sun", "#Fun"]`. |
| Hashtags.SunTags | bot.py:119 | `findall` on that caption gives `#Sun`, `#sun`, `#Fun`. |
| Hashtags.SunSpellings | bot.py:120-124 | De-duplicating `#Sun`, `#sun`, `#Fun` keeps `#Sun` and `#Fun`. |
| Captions.Or | bot.py:168 | `x or y` is `x` when it is a non-empty string, otherwise `y`. |
| Captions.CaptionSource | bot.py:166-168 | With no metadata the caption is empty. Otherwise it is the description if non-empty, else the title if non-empty, else empty. |
| Captions.Thumbnail | bot.py:170-172 | There is a thumbnail exactly when the metadata has a non-empty one, and it is the metadata's own thumbnail. |
| Captions.Snippet | bot.py:178-181 | The stripped caption is kept as is up to 800 characters. Longer, it becomes its first 800 characters plus `...` (803 characters in total). |
| Captions.SnippetStartsAtText | bot.py:179 | The snippet of a caption that is not all whitespace starts at its first non-whitespace character. |
| Captions.TitleLine | bot.py:175-177 | The bold title line, present exactly when there is metadata; a missing or empty title gives `**`. |
| Captions.CaptionLine | bot.py:178-182 | Present exactly when the caption is not empty: the snippet between two line breaks. |
| Captions.TagLine | bot.py:183-184 | Present exactly when there are hashtags: a line break, then the tags joined by spaces. |
| Captions.InstagramCard | bot.py:174-186 | Never empty. It is the placeholder exactly when there is no metadata, no caption and no hashtag. Otherwise it is the title line, the caption paragraph and the hashtag line, in that order. |
| Captions.InstagramText | bot.py:166-186 | For a probe result: the placeholder when there is no metadata. Otherwise it starts with the bold title line, and it is the title line, the caption paragraph of the caption source and the line of its de-duplicated hashtags. |
| Captions.PlaceholderIffNoMetadata | bot.py:166-186 | For a probe result, the card is "Instagram post found." exactly when the probe gave no metadata. |
| Captions.YouTubeTitle | bot.py:212 | "YouTube Video" without metadata; `None` when the metadata has no title; otherwise the title. |
| Captions.YouTubeText | bot.py:212-216 | The YouTube card starts with the bold title line and ends with "Choose download type:". With metadata the duration text sits between them; without metadata there is no duration text. |
| Download.CookiesSetting | bot.py:19 | No cookie file exactly when the environment value is all whitespace. Otherwise the setting is the stripped value. |
| Download.YtOpts | bot.py:42-59 | Audio: `bestaudio/best`, mp3 extraction and `keepvideo` false. Video: `bestvideo+bestaudio/best` merged to mp4. Always quiet, no warnings, no extra headers, 2 retries and no playlists. The cookie file is passed only when one is set. |
| Download.DownloadOptions | bot.py:71-103 | The template is placed in the scratch directory, with quiet output, no warnings, 3 retries, mp4 merging, the browser headers and no `keepvideo` key. The format is the audio chain exactly when audio only; otherwise it is the video chain. Mp3 extraction applies only to audio. The cookie file is passed only when one is set. |
| Download.VideoFallbackChain | bot.py:99-100 | The video format is three alternatives in priority order: mp4 plus m4a, then the best mp4, then the best. |
| Download.AudioFallbackChain | bot.py:92 | The audio format is best audio, then best. |
| Download.ParseCallback | bot.py:240-244 | The unpacking fails exactly when the payload holds fewer than two `|`. Otherwise the payload is verb, `|`, uid, `|`, mode, with no `|` in verb or uid. |
| Download.ParseCallbackInverts | bot.py:240-241 | Three fields joined by `|`, the first two without `|`, parse back to themselves. |
| Text.JoinEnds | bot.py:184 | `sep.join(parts)` starts with the first part and ends with the last. With two or more parts it is at least as long as the first part, a separator and the last part together. |
| Text.JoinThree | bot.py:241 | Three parts joined by a separator read as part, separator, part, separator, part. |
| Download.TwoSeparators | bot.py:241 | A payload of three fields joined by `|` holds at least two `|`. |
| Download.ButtonData | bot.py:194 | The payload is `download|`, then the uid, a `|` and the mode, each at its position. |
| Download.ButtonDataRoundTrip | bot.py:220-241 | A button's payload `download|uid|mode` parses back to its uid and mode. |
| Download.AudioOnly | bot.py:258 | Audio only exactly when the mode is `audio`. |
| Download.FileTooBig | bot.py:127-132 | Too big exactly when the stat fails, or the size in bytes exceeds the ceiling times 1048576. |
| Download.DeliveryFor | bot.py:266-271 | Sent as audio exactly when audio only was asked for or the lower-cased suffix is `.mp3`, `.m4a`, `.opus` or `.ogg`. |
| Download.DeliveryIgnoresCase | bot.py:266 | The delivery choice is the same for a suffix and its lower-case form. |
| Download.DownloadingText | bot.py:255 | The notice is "⏳ Downloading ", the mode, and " — this can take some time.". |
| Download.TooLargeText | bot.py:261 | The message is "⚠️ File too large (", the size in whole MB as decimal digits, and " MB).". |
| Download.DownloadReply | bot.py:259-273 | Exactly one message. It is the file exactly when the download succeeded and the file is not too big, and it is sent as audio exactly when the delivery choice says so, captioned with the title or "File". An engine error, or a failing stat, gives "❌ Download failed: " with the error. A file over the ceiling gives the too-large message with its size in whole MB. |
| Bot.FetchingText | bot.py:163 | The notice starts "🔎 Fetching ", ends " info...", and holds the full platform name (Instagram or YouTube) between the two. |
| Bot.CardText | bot.py:174-216 | Never empty: the Instagram card text for Instagram, the YouTube card text for YouTube. |
| Bot.Buttons | bot.py:193-221 | Instagram: one video button. YouTube: a video and then an audio button. Each button carries the source's label ("▶️ Download Video"; "🎥 Download Video", "🎧 Download Audio"), and every payload names the request's uid. |
| Bot.CardEvent | bot.py:196-203 | The card goes out as a photo exactly when there is a thumbnail and the transport takes it. Otherwise it is a text message with the same text and buttons. |
| Bot.ButtonsResolve | bot.py:194-258 | Every button's payload parses to the request's uid. Its mode is audio exactly for the second YouTube button. |
| Bot.DownloadEvents | bot.py:253-287 | A press on a pending request sends the acknowledgement, the notice, the download's reply and the notice's deletion, in that order. |
| Bot.FileThenDrop | bot.py:283-287 | Filing a request and then dropping it leaves the other requests unchanged. |
| Bot.SaveMediaBot.constructor | bot.py:18-31 | The bot starts with the configured ceiling and cookie file, no requests, no messages and no scratch directories. |
| Bot.SaveMediaBot.HandleLinks | bot.py:154-235 | No link: "Send a valid link.", nothing filed. Unsupported link: the unsupported notice, nothing filed. Supported link: the request is filed under the uid (and nothing else changes), then the fetching notice, the card with its buttons, and the notice's deletion. |
| Bot.SaveMediaBot.FileRequest | bot.py:162-232 | The store gains the request under the uid. The messages are the notice, the card and the deletion. |
| Bot.SaveMediaBot.SendDownloadReply | bot.py:259-273 | Appends exactly the reply of `DownloadReply`. |
| Bot.SaveMediaBot.Answer | bot.py:243-248 | Answers the press with a notice; the store and the scratch directories are unchanged. |
| Bot.SaveMediaBot.CbDownload | bot.py:237-287 | Malformed payload: "Invalid request." and nothing else changes. Unknown uid: "Request expired. Send link again." and nothing else changes. Pending uid: the engine is called on the stored link with the options for the button's mode, the messages follow `DownloadEvents`, the scratch directory is gone and the request is dropped. |
| Bot.SaveMediaBot.RunRequest | bot.py:251-287 | The download part: the stored link goes to the engine, the reply is sent, and the `finally` block deletes the notice, removes the directory and drops the request. |
| Bot.LinkThenPressTwice | bot.py:154-287 | After a supported link, pressing its button downloads that link with the button's mode. The store is then as it was before the link, less any request already filed under that uid (the code overwrites such an entry without checking). Pressing again only answers "Request expired". |
| Bot.PressTwice | bot.py:246-287 | Of two presses on one pending request, the first downloads and drops it, and the second finds it gone. |

## Left out

- Telegram transport: chat and message ids, Markdown rendering and send
  failures. Every send is taken to succeed, except the photo whose rejection
  is the `photoAccepted` parameter.
- `probe_info` and the engine's download itself (bot.py:61-69, 105-114),
  including the search for the newest file when the predicted name is missing.
  Their outcome is the `info` and `fetch` parameters; the final suffix is part
  of `fetch`.
- The filesystem: `mkdtemp`, `rmtree` and `stat`. The scratch directory is a
  parameter, the set of existing directories is ghost state, and a stat is a
  `Stat` value.
- The duration text `f"{int(duration//60)}m{int(duration%60)}s"`
  (bot.py:213-214) works on floats; it is the `minutes` parameter, which the
  model ignores without metadata, where the code gives an empty text.
- The uid `str(uuid.uuid4())[:8]` is random; it is the `uid` parameter. Its
  lack of `|` is a precondition where the round trip needs it.
- Start-up: `.env` loading, the token check, the download directory, and
  parsing `MAX_FILESIZE_MB` with `int`. The parsed value and the cookie setting
  are constructor arguments; `CookiesSetting` models the cookie setting's
  stripping.
- `cmd_start`, `cb_lang`, `handle_media_forward`, `fallback_text` and
  `safe_mkdir` are not part of this core.
- The handlers' registration filters (bot.py:154, 237) are not preconditions.
  `HandleLinks` and `CbDownload` are modelled on every input.
- Concurrency: handlers run one at a time in the model, so two overlapping
  presses of one button, which the code allows, are not modelled.
- Hashtags.IsWordChar: `\w` covers only the ASCII letters, digits and `_`, not
  Python's Unicode word characters.
- Text.Lower lowers only ASCII letters; Python's `str.lower()` lowers every cased character. The tags the model finds are ASCII, so the de-duplication is exact on them.
- Download.FileTooBig: the float division `size / 1048576` is modelled
  exactly. It agrees with Python's float for sizes below 2^53 bytes.
- Download.DownloadReply: the too-large message's size is
  `size / 1048576` rounded down, as `int()` of the float gives for sizes below
  2^53 bytes.
- Exceptions raised while sending the file or deleting messages are not
  modelled.
