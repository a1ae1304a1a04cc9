/** The text of the card `handle_links` sends back for a supported link. */
module Captions {
  import opened Wrappers
  import opened Text
  import opened Hashtags

  /** The fields the bot reads from the extraction engine's metadata; a missing
      key is None. A failed probe, or an empty metadata dictionary (which Python
      treats as false), is `None: Option<Meta>`. */
  datatype Meta = Meta(title: Option<string>, description: Option<string>, thumbnail: Option<string>)

  /** `x or y` on values that are strings or None. */
  function Or(x: Option<string>, y: string): (r: string)
    ensures Truthy(x) ==> r == x.value
    ensures !Truthy(x) ==> r == y
  {
    if Truthy(x) then x.value else y
  }

  /** The caption the Instagram branch starts from:
      `info.get("description") or info.get("title") or ""`. */
  function CaptionSource(info: Option<Meta>): (c: string)
    ensures info.None? ==> c == ""
    ensures info.Some? && Truthy(info.value.description) ==> c == info.value.description.value
    ensures info.Some? && !Truthy(info.value.description) ==> c == Or(info.value.title, "")
  {
    match info
    case None => ""
    case Some(m) => if Truthy(m.description) then m.description.value else Or(m.title, "")
  }

  /** The thumbnail URL, when the metadata has a non-empty one. */
  function Thumbnail(info: Option<Meta>): (t: Option<string>)
    ensures t.Some? <==> info.Some? && Truthy(info.value.thumbnail)
    ensures t.Some? ==> t.value != "" && t == info.value.thumbnail
  {
    if info.Some? && Truthy(info.value.thumbnail) then info.value.thumbnail else None
  }

  const SnippetLimit := 800
  const Ellipsis := "..."
  const NoCaptionText := "Instagram post found."

  /** The caption as shown: stripped, and cut to 800 characters with `...`
      after it when longer. */
  function Snippet(caption: string): (r: string)
    ensures |Strip(caption)| <= SnippetLimit ==> r == Strip(caption)
    ensures |Strip(caption)| > SnippetLimit ==>
      |r| == SnippetLimit + |Ellipsis| && r == Strip(caption)[..SnippetLimit] + Ellipsis
    ensures |r| <= SnippetLimit + |Ellipsis|
    ensures r[..Min(|r|, SnippetLimit)] == Strip(caption)[..Min(|r|, SnippetLimit)]
  {
    var s := Strip(caption);
    if |s| > SnippetLimit then s[..SnippetLimit] + Ellipsis else s
  }

  /** The snippet of a caption that is not all whitespace starts with the
      caption's first non-whitespace character. */
  lemma SnippetStartsAtText(caption: string)
    requires exists k :: 0 <= k < |caption| && !IsSpace(caption[k])
    ensures Snippet(caption) != ""
    ensures Snippet(caption)[0] == caption[LeadingSpace(caption)]
  {
  }

  /** The bold title line of the Instagram card, present exactly when there
      is metadata. */
  function TitleLine(info: Option<Meta>): (l: string)
    ensures info.None? <==> l == ""
    ensures info.Some? ==> l == "*" + Or(info.value.title, "") + "*\n"
  {
    if info.Some? then "*" + Or(info.value.title, "") + "*\n" else ""
  }

  /** The caption paragraph: the snippet between two line breaks, present
      exactly when the caption is not empty (a caption of blanks still gives
      its two line breaks). */
  function CaptionLine(caption: string): (l: string)
    ensures caption == "" <==> l == ""
    ensures caption != "" ==> |l| == |Snippet(caption)| + 2 && l[0] == '\n' && l[|l| - 1] == '\n'
    ensures caption != "" ==> l[1..|l| - 1] == Snippet(caption)
  {
    if caption != "" then "\n" + Snippet(caption) + "\n" else ""
  }

  /** The hashtag line: a line break and the tags joined by spaces, present
      exactly when there are tags. */
  function TagLine(hashtags: seq<string>): (l: string)
    ensures hashtags == [] <==> l == ""
    ensures hashtags != [] ==> l == "\n" + Join(hashtags, " ")
  {
    if hashtags != [] then "\n" + Join(hashtags, " ") else ""
  }

  /** The text of the Instagram card, as `handle_links` builds `out_text`
      from the metadata, the caption and its hashtags: title line, caption
      paragraph and hashtag line in that order, or the placeholder when all
      three are absent. */
  function InstagramCard(info: Option<Meta>, caption: string, hashtags: seq<string>): (r: string)
    ensures r != ""
    ensures r == NoCaptionText <==> info.None? && caption == "" && hashtags == []
    ensures r != NoCaptionText ==> r == TitleLine(info) + CaptionLine(caption) + TagLine(hashtags)
    ensures info.Some? ==> "*" + Or(info.value.title, "") + "*\n" <= r
    ensures hashtags != [] ==> EndsWith(r, "\n" + Join(hashtags, " "))
  {
    var head := TitleLine(info);
    var body := CaptionLine(caption);
    var tags := TagLine(hashtags);
    var text := head + body + tags;
    assert info.Some? ==> text[0] == '*';
    assert info.None? && caption != "" ==> text[0] == '\n';
    assert info.None? && caption == "" && hashtags != [] ==> text[0] == '\n';
    if text == "" then NoCaptionText
    else
      assert text == (head + body) + tags;
      text
  }

  predicate EndsWith(s: string, suffix: string) {
    |suffix| <= |s| && s[|s| - |suffix|..] == suffix
  }

  /** The whole Instagram card for a probe result: the caption comes from the
      metadata and the hashtags from the caption. */
  function InstagramText(info: Option<Meta>): (r: string)
    ensures info.None? ==> r == NoCaptionText
    ensures info.Some? ==> "*" + Or(info.value.title, "") + "*\n" <= r
    ensures r != NoCaptionText ==>
      r == TitleLine(info) + CaptionLine(CaptionSource(info)) + TagLine(FirstSpellings(FindTags(CaptionSource(info))))
  {
    var caption := CaptionSource(info);
    var hashtags := FirstSpellings(FindTags(caption));
    assert info.None? ==> hashtags == [] by {
      if info.None? {
        assert FindTags(caption) == [];
        assert FirstSpellingsUpTo([], 0) == [];
      }
    }
    InstagramCard(info, caption, hashtags)
  }

  /** The placeholder text is used exactly when the probe gave no metadata. */
  lemma PlaceholderIffNoMetadata(info: Option<Meta>)
    ensures InstagramText(info) == NoCaptionText <==> info.None?
  {
    if info.Some? {
      assert InstagramText(info)[0] == '*';
    }
  }

  /** The title line of the YouTube card: `info.get("title")` when there is
      metadata (Python prints a missing title as `None`), "YouTube Video" when
      the probe failed. */
  function YouTubeTitle(info: Option<Meta>): (t: string)
    ensures info.None? ==> t == "YouTube Video"
    ensures info.Some? && info.value.title.None? ==> t == "None"
    ensures info.Some? && info.value.title.Some? ==> t == info.value.title.value
  {
    match info
    case None => "YouTube Video"
    case Some(m) => m.title.GetOr("None")
  }

  /** The text of the YouTube card. `minutes` is the formatted duration the
      metadata gives; without metadata there is no duration line text. */
  function YouTubeText(info: Option<Meta>, minutes: string): (r: string)
    ensures "*" + YouTubeTitle(info) + "*\n" <= r
    ensures EndsWith(r, "\n\nChoose download type:")
    ensures info.None? ==> r == "*" + YouTubeTitle(info) + "*\n" + "\n\nChoose download type:"
    ensures info.Some? ==> r == "*" + YouTubeTitle(info) + "*\n" + minutes + "\n\nChoose download type:"
  {
    var mins := if info.Some? then minutes else "";
    assert "*" + YouTubeTitle(info) + "*\n" + "" == "*" + YouTubeTitle(info) + "*\n";
    "*" + YouTubeTitle(info) + "*\n" + mins + "\n\nChoose download type:"
  }
}
