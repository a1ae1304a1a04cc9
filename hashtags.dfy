/** `hashtags_from_text`: the hashtags of a caption, each spelling kept only
    the first time its lower-case form is seen. */
module Hashtags {
  import opened Text

  /** `\w`, restricted to ASCII: letters, digits and the underscore. */
  predicate IsWordChar(c: char) {
    ('a' <= c <= 'z') || ('A' <= c <= 'Z') || ('0' <= c <= '9') || c == '_'
  }

  /** What the pattern `#\w+` matches: a `#` and one or more word characters. */
  ghost predicate IsTag(t: string) {
    |t| >= 2 && t[0] == '#' && forall k :: 1 <= k < |t| ==> IsWordChar(t[k])
  }

  /** End of the run of word characters that starts at k. */
  function WordEnd(text: string, k: nat): (e: nat)
    requires k <= |text|
    ensures k <= e <= |text|
    ensures forall m :: k <= m < e ==> IsWordChar(text[m])
    ensures e < |text| ==> !IsWordChar(text[e])
    decreases |text| - k
  {
    if k == |text| || !IsWordChar(text[k]) then k else WordEnd(text, k + 1)
  }

  /** The pattern `#\w+` matches at i. */
  predicate TagAt(text: string, i: nat) {
    i + 1 < |text| && text[i] == '#' && IsWordChar(text[i + 1])
  }

  /** `re.findall(r"(#\w+)", text[i:])`: scanning from the left, each match
      is as long as it can be and the scan resumes right after it. */
  function FindTagsFrom(text: string, i: nat): (tags: seq<string>)
    requires i <= |text|
    ensures forall k :: 0 <= k < |tags| ==> IsTag(tags[k])
    decreases |text| - i
  {
    if i == |text| then []
    else if TagAt(text, i) then
      var e := WordEnd(text, i + 1);
      [text[i..e]] + FindTagsFrom(text, e)
    else FindTagsFrom(text, i + 1)
  }

  /** Where each tag FindTagsFrom returns starts in the text. */
  function TagStartsFrom(text: string, i: nat): (starts: seq<nat>)
    requires i <= |text|
    decreases |text| - i
  {
    if i == |text| then []
    else if TagAt(text, i) then [i] + TagStartsFrom(text, WordEnd(text, i + 1))
    else TagStartsFrom(text, i + 1)
  }

  /** t stands in the text at s and cannot be extended: the text ends after
      it or the next character is not a word character. */
  predicate MaximalAt(text: string, s: nat, t: string) {
    s + |t| <= |text| && text[s..s + |t|] == t
    && (s + |t| == |text| || !IsWordChar(text[s + |t|]))
  }

  /** `findall` matches greedily: every tag is found where it stands in the
      text and is followed by a non-word character or the end, so `#Sunday`
      gives `#Sunday` and never `#Sun`. */
  lemma {:induction false} FindTagsGreedy(text: string, i: nat)
    requires i <= |text|
    ensures |TagStartsFrom(text, i)| == |FindTagsFrom(text, i)|
    ensures forall k :: 0 <= k < |FindTagsFrom(text, i)| ==>
      MaximalAt(text, TagStartsFrom(text, i)[k], FindTagsFrom(text, i)[k])
    decreases |text| - i
  {
    if i < |text| {
      if TagAt(text, i) {
        var e := WordEnd(text, i + 1);
        FindTagsGreedy(text, e);
        var tags := FindTagsFrom(text, i);
        var starts := TagStartsFrom(text, i);
        assert tags == [text[i..e]] + FindTagsFrom(text, e);
        assert starts == [i] + TagStartsFrom(text, e);
        forall k | 0 <= k < |tags|
          ensures MaximalAt(text, starts[k], tags[k])
        {
          if k > 0 {
            assert tags[k] == FindTagsFrom(text, e)[k - 1];
            assert starts[k] == TagStartsFrom(text, e)[k - 1];
          }
        }
      } else {
        FindTagsGreedy(text, i + 1);
      }
    }
  }

  /** `findall` misses no tag: every position where `#\w+` matches, at or
      after the scan's start, is the start of a returned tag. A match cannot
      begin inside an earlier tag, because `#` is not a word character. */
  lemma {:induction false} FindTagsComplete(text: string, i: nat, j: nat)
    requires i <= j <= |text| && TagAt(text, j)
    ensures j in TagStartsFrom(text, i)
    decreases |text| - i
  {
    if i < j {
      if TagAt(text, i) {
        var e := WordEnd(text, i + 1);
        assert !IsWordChar(text[j]);
        assert e <= j;
        FindTagsComplete(text, e, j);
      } else {
        FindTagsComplete(text, i + 1, j);
      }
    }
  }

  /** `findall` reports its matches left to right: the starts of the tags
      lie at or after the scan's start and strictly increase. */
  lemma {:induction false} StartsIncreasing(text: string, i: nat)
    requires i <= |text|
    ensures forall a :: 0 <= a < |TagStartsFrom(text, i)| ==> i <= TagStartsFrom(text, i)[a]
    ensures forall a, b :: 0 <= a < b < |TagStartsFrom(text, i)| ==>
      TagStartsFrom(text, i)[a] < TagStartsFrom(text, i)[b]
    decreases |text| - i
  {
    if i < |text| {
      if TagAt(text, i) {
        var e := WordEnd(text, i + 1);
        StartsIncreasing(text, e);
        assert TagStartsFrom(text, i) == [i] + TagStartsFrom(text, e);
      } else {
        StartsIncreasing(text, i + 1);
      }
    }
  }

  function FindTags(text: string): seq<string> {
    FindTagsFrom(text, 0)
  }

  /** Tag j is the first one with its lower-case form. */
  predicate IsFirstSpelling(tags: seq<string>, j: nat)
    requires j < |tags|
  {
    forall i :: 0 <= i < j ==> Lower(tags[i]) != Lower(tags[j])
  }

  /** Reference definition of the de-duplication: the tags among the first n
      that are first spellings, in their original order. */
  function FirstSpellingsUpTo(tags: seq<string>, n: nat): seq<string>
    requires n <= |tags|
  {
    if n == 0 then []
    else FirstSpellingsUpTo(tags, n - 1) + (if IsFirstSpelling(tags, n - 1) then [tags[n - 1]] else [])
  }

  function FirstSpellings(tags: seq<string>): seq<string> {
    FirstSpellingsUpTo(tags, |tags|)
  }

  /** `hashtags_from_text`, the loop with its `seen` set of lower-case forms. */
  method HashtagsFromText(text: string) returns (out: seq<string>)
    ensures out == FirstSpellings(FindTags(text))
  {
    if text == "" {
      return [];
    }
    var tags := FindTags(text);
    var seen: set<string> := {};
    out := [];
    for i := 0 to |tags|
      invariant out == FirstSpellingsUpTo(tags, i)
      invariant seen == set k | 0 <= k < i :: Lower(tags[k])
    {
      var low := Lower(tags[i]);
      if low !in seen {
        seen := seen + {low};
        out := out + [tags[i]];
      }
    }
  }

  /** Every kept tag is an input tag that is the first of its lower-case
      form; j is where it stands in the input. */
  lemma {:induction false} FirstSpellingsSound(tags: seq<string>, n: nat, a: nat) returns (j: nat)
    requires n <= |tags| && a < |FirstSpellingsUpTo(tags, n)|
    ensures j < n && FirstSpellingsUpTo(tags, n)[a] == tags[j] && IsFirstSpelling(tags, j)
  {
    var prev := FirstSpellingsUpTo(tags, n - 1);
    assert FirstSpellingsUpTo(tags, n) == prev + (if IsFirstSpelling(tags, n - 1) then [tags[n - 1]] else []);
    if a < |prev| {
      j := FirstSpellingsSound(tags, n - 1, a);
    } else {
      j := n - 1;
    }
  }

  /** The kept tags keep their input order: of two kept tags, the earlier
      one stands earlier in the input. */
  lemma {:induction false} FirstSpellingsInOrder(tags: seq<string>, n: nat, a: nat, b: nat) returns (i: nat, j: nat)
    requires n <= |tags| && a < b < |FirstSpellingsUpTo(tags, n)|
    ensures i < j < n
    ensures FirstSpellingsUpTo(tags, n)[a] == tags[i] && FirstSpellingsUpTo(tags, n)[b] == tags[j]
    ensures IsFirstSpelling(tags, i) && IsFirstSpelling(tags, j)
  {
    var prev := FirstSpellingsUpTo(tags, n - 1);
    assert FirstSpellingsUpTo(tags, n) == prev + (if IsFirstSpelling(tags, n - 1) then [tags[n - 1]] else []);
    if b < |prev| {
      i, j := FirstSpellingsInOrder(tags, n - 1, a, b);
    } else {
      i := FirstSpellingsSound(tags, n - 1, a);
      j := n - 1;
    }
  }

  /** No two kept tags are equal once lower-cased. */
  lemma {:induction false} FirstSpellingsDistinct(tags: seq<string>, n: nat)
    requires n <= |tags|
    ensures forall a, b :: 0 <= a < b < |FirstSpellingsUpTo(tags, n)| ==>
      Lower(FirstSpellingsUpTo(tags, n)[a]) != Lower(FirstSpellingsUpTo(tags, n)[b])
  {
    if n > 0 {
      var prev := FirstSpellingsUpTo(tags, n - 1);
      var out := FirstSpellingsUpTo(tags, n);
      FirstSpellingsDistinct(tags, n - 1);
      assert out == prev + (if IsFirstSpelling(tags, n - 1) then [tags[n - 1]] else []);
      forall a, b | 0 <= a < b < |out|
        ensures Lower(out[a]) != Lower(out[b])
      {
        assert out[a] == prev[a];
        if b < |prev| {
          assert out[b] == prev[b];
        } else {
          assert out[b] == tags[n - 1] && IsFirstSpelling(tags, n - 1);
          var j := FirstSpellingsSound(tags, n - 1, a);
          assert Lower(tags[j]) != Lower(tags[n - 1]);
        }
      }
    }
  }

  /** Every input tag's lower-case form is represented among the kept tags. */
  lemma {:induction false} FirstSpellingsComplete(tags: seq<string>, n: nat, j: nat)
    requires j < n <= |tags|
    ensures exists a :: (0 <= a < |FirstSpellingsUpTo(tags, n)| &&
                         Lower(FirstSpellingsUpTo(tags, n)[a]) == Lower(tags[j]))
    decreases j
  {
    if IsFirstSpelling(tags, j) {
      KeptStaysKept(tags, j, n);
    } else {
      var i :| 0 <= i < j && Lower(tags[i]) == Lower(tags[j]);
      FirstSpellingsComplete(tags, n, i);
    }
  }

  /** A first spelling at j is in the output of every longer prefix. */
  lemma {:induction false} KeptStaysKept(tags: seq<string>, j: nat, n: nat)
    requires j < n <= |tags| && IsFirstSpelling(tags, j)
    ensures tags[j] in FirstSpellingsUpTo(tags, n)
    decreases n
  {
    if n > j + 1 {
      KeptStaysKept(tags, j, n - 1);
    }
  }

  /** Positions where no tag starts add nothing to the scan. */
  lemma {:induction false} SkipNonTags(text: string, i: nat, j: nat)
    requires i <= j <= |text|
    requires forall k :: i <= k < j ==> !TagAt(text, k)
    ensures FindTagsFrom(text, i) == FindTagsFrom(text, j)
    decreases j - i
  {
    if i < j {
      SkipNonTags(text, i + 1, j);
    }
  }

  /** The documented case: `#Sun #sun #Fun` gives `#Sun` and `#Fun`. */
  lemma SunExample()
    ensures FirstSpellings(FindTags(SunText)) == ["#Sun", "#Fun"]
  {
    SunTags();
    SunSpellings();
  }

  lemma SunTags()
    ensures FindTags(SunText) == ["#Sun", "#sun", "#Fun"]
  {
    var t := SunText;
    SunLayout();
    SkipNonTags(t, 0, 11);
    assert FindTagsFrom(t, 25) == [];
    assert FindTagsFrom(t, 21) == ["#Fun"];
    assert FindTagsFrom(t, 20) == ["#Fun"];
    assert FindTagsFrom(t, 16) == ["#sun", "#Fun"];
    assert FindTagsFrom(t, 15) == ["#sun", "#Fun"];
    assert FindTagsFrom(t, 11) == ["#Sun", "#sun", "#Fun"];
  }

  const SunText := "Great day! #Sun #sun #Fun"

  /** Where the tags of the documented case start and end. */
  lemma SunLayout()
    ensures |SunText| == 25
    ensures forall k :: 0 <= k < 11 ==> !TagAt(SunText, k)
    ensures TagAt(SunText, 11) && TagAt(SunText, 16) && TagAt(SunText, 21)
    ensures !TagAt(SunText, 15) && !TagAt(SunText, 20)
    ensures WordEnd(SunText, 12) == 15 && WordEnd(SunText, 17) == 20 && WordEnd(SunText, 22) == 25
    ensures SunText[11..15] == "#Sun" && SunText[16..20] == "#sun" && SunText[21..25] == "#Fun"
  {
    var t := SunText;
    assert t[..11] == "Great day! ";
    assert t[11..15] == "#Sun" && t[15] == ' ';
    assert t[16..20] == "#sun" && t[20] == ' ';
    assert t[21..25] == "#Fun";
  }

  lemma SunSpellings()
    ensures FirstSpellings(["#Sun", "#sun", "#Fun"]) == ["#Sun", "#Fun"]
  {
    var tags := ["#Sun", "#sun", "#Fun"];
    assert Lower("#Sun") == "#sun" && Lower("#sun") == "#sun";
    assert Lower("#Fun")[1] == 'f';
    assert Lower(tags[0]) == Lower(tags[1]);
    assert IsFirstSpelling(tags, 0) && !IsFirstSpelling(tags, 1) && IsFirstSpelling(tags, 2);
    assert FirstSpellingsUpTo(tags, 1) == ["#Sun"];
    assert FirstSpellingsUpTo(tags, 2) == ["#Sun"];
  }
}
