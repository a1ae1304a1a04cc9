/** Finding the link in a message and deciding which site it belongs to
    (`extract_url` and the domain tests of `handle_links` in bot.py). */
module Links {
  import opened Wrappers
  import opened Text

  const Http := "http://"
  const Https := "https://"

  /** Length of the scheme the pattern `https?://` matches at i, if any. */
  function SchemeLength(text: string, i: nat): nat
    requires i <= |text|
  {
    if Https <= text[i..] then |Https| else if Http <= text[i..] then |Http| else 0
  }

  /** The pattern `https?://[^\s]+` matches at index i: a scheme and at least
      one non-whitespace character after it. */
  predicate UrlAt(text: string, i: nat) {
    i <= |text| && SchemeLength(text, i) > 0
    && i + SchemeLength(text, i) < |text| && !IsSpace(text[i + SchemeLength(text, i)])
  }

  /** End of the run of non-whitespace characters that starts at k. */
  function RunEnd(text: string, k: nat): (e: nat)
    requires k <= |text|
    ensures k <= e <= |text|
    ensures forall m :: k <= m < e ==> !IsSpace(text[m])
    ensures e < |text| ==> IsSpace(text[e])
    decreases |text| - k
  {
    if k == |text| || IsSpace(text[k]) then k else RunEnd(text, k + 1)
  }

  /** Leftmost index at or after `from` where the URL pattern matches. */
  function FirstUrlFrom(text: string, from: nat): (r: Option<nat>)
    requires from <= |text|
    ensures r.None? ==> forall i :: from <= i <= |text| ==> !UrlAt(text, i)
    ensures r.Some? ==> from <= r.value && UrlAt(text, r.value)
    ensures r.Some? ==> forall i :: from <= i < r.value ==> !UrlAt(text, i)
    decreases |text| - from
  {
    if UrlAt(text, from) then Some(from)
    else if from == |text| then None
    else FirstUrlFrom(text, from + 1)
  }

  /** `extract_url`: the first `http://` or `https://` link in the text,
      running up to the next whitespace character. */
  function ExtractUrl(text: string): (r: Option<string>)
    ensures r.None? <==> forall i :: 0 <= i <= |text| ==> !UrlAt(text, i)
    ensures r.Some? ==> exists i :: 0 <= i <= |text| && UrlAt(text, i)
                                    && (forall j :: 0 <= j < i ==> !UrlAt(text, j))
                                    && r.value == text[i..RunEnd(text, i)]
  {
    if text == "" then
      None
    else
      match FirstUrlFrom(text, 0)
      case None => None
      case Some(i) =>
        assert UrlAt(text, i) && forall j :: 0 <= j < i ==> !UrlAt(text, j);
        Some(text[i..RunEnd(text, i)])
  }

  /** The URL pattern's match at i, on its own: a scheme, something after the
      scheme, and no whitespace. */
  lemma MatchShape(text: string, i: nat)
    requires UrlAt(text, i)
    ensures var url := text[i..RunEnd(text, i)];
      (Http <= url && |url| > |Http|) || (Https <= url && |url| > |Https|)
  {
    var n := SchemeLength(text, i);
    var scheme := if n == |Https| then Https else Http;
    assert scheme <= text[i..];
    forall m | i <= m < i + n
      ensures !IsSpace(text[m])
    {
      assert text[m] == text[i..][m - i] == scheme[m - i];
    }
    var e := RunEnd(text, i);
    assert e > i + n;
    assert text[i..e][..n] == scheme;
  }

  /** What a link found by ExtractUrl looks like on its own: it starts with a
      scheme, has something after the scheme, holds no whitespace and occurs
      in the text. */
  lemma ExtractedUrlShape(text: string)
    requires ExtractUrl(text).Some?
    ensures var url := ExtractUrl(text).value;
      (Http <= url && |url| > |Http|) || (Https <= url && |url| > |Https|)
    ensures forall k :: 0 <= k < |ExtractUrl(text).value| ==> !IsSpace(ExtractUrl(text).value[k])
    ensures Occurs(ExtractUrl(text).value, text)
  {
    var i := FirstUrlFrom(text, 0).value;
    var e := RunEnd(text, i);
    assert ExtractUrl(text).value == text[i..e];
    MatchShape(text, i);
    RunOccurs(text, i);
  }

  /** The run of non-whitespace characters at i holds no whitespace and
      occurs in the text. */
  lemma RunOccurs(text: string, i: nat)
    requires i <= |text|
    ensures forall k :: 0 <= k < |text[i..RunEnd(text, i)]| ==> !IsSpace(text[i..RunEnd(text, i)][k])
    ensures Occurs(text[i..RunEnd(text, i)], text)
  {
    var run := text[i..RunEnd(text, i)];
    forall k | 0 <= k < |run|
      ensures !IsSpace(run[k])
    {
      assert run[k] == text[i + k];
    }
    assert run <= text[i..];
  }

  datatype Platform = Instagram | YouTube

  /** The domain fragments `handle_links` looks for, per platform. */
  ghost predicate LooksLikeInstagram(url: string) {
    Occurs("instagram.com", url) || Occurs("instagr.am", url)
  }

  ghost predicate LooksLikeYouTube(url: string) {
    Occurs("youtube.com", url) || Occurs("youtu.be", url)
  }

  /** The branch `handle_links` takes for a link: Instagram is checked first,
      YouTube second, and anything else is unsupported (None). */
  function Classify(url: string): (r: Option<Platform>)
    ensures r == Some(Instagram) <==> LooksLikeInstagram(url)
    ensures r == Some(YouTube) <==> !LooksLikeInstagram(url) && LooksLikeYouTube(url)
    ensures r.None? <==> !LooksLikeInstagram(url) && !LooksLikeYouTube(url)
  {
    if Contains(url, "instagram.com") || Contains(url, "instagr.am") then Some(Instagram)
    else if Contains(url, "youtube.com") || Contains(url, "youtu.be") then Some(YouTube)
    else None
  }
}
