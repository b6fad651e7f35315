/** The two spam signals of hype/hype.py: emoji count and link presence. */
module Spam {
  import opened Text

  /** The code-point ranges of the emoji pattern in `_count_emojis`, as written there. */
  predicate IsEmoji(c: char) {
    || ('\U{1F600}' <= c <= '\U{1F64F}')
    || ('\U{1F300}' <= c <= '\U{1F5FF}')
    || ('\U{1F680}' <= c <= '\U{1F6FF}')
    || ('\U{1F1E0}' <= c <= '\U{1F1FF}')
    || ('\U{2702}' <= c <= '\U{27B0}')
    || ('\U{24C2}' <= c <= '\U{1F251}')
  }

  /** `_count_emojis`: the number of characters of `text` that fall in one of the ranges. */
  function CountEmojis(text: string): (n: nat)
    ensures n <= |text|
    ensures n == 0 <==> forall i :: 0 <= i < |text| ==> !IsEmoji(text[i])
    ensures n == |text| <==> forall i :: 0 <= i < |text| ==> IsEmoji(text[i])
  {
    if text == [] then 0
    else (if IsEmoji(text[0]) then 1 else 0) + CountEmojis(text[1..])
  }

  /** Emoji counts of adjacent pieces of text add up. */
  lemma {:induction false} CountEmojisAppend(a: string, b: string)
    ensures CountEmojis(a + b) == CountEmojis(a) + CountEmojis(b)
  {
    if a == [] {
      assert a + b == b;
    } else {
      assert (a + b)[1..] == a[1..] + b;
      CountEmojisAppend(a[1..], b);
    }
  }

  /** The regular-expression class `[^\s<>"]`. */
  predicate UrlChar(c: char) {
    !IsSpace(c) && c != '<' && c != '>' && c != '"'
  }

  /**
   * A match of `https?://[^\s<>"]+|www\.[^\s<>"]+` starts at `i`: one of the
   * three prefixes, followed by at least one URL character.
   */
  predicate LinkAt(text: string, i: int) {
    || (OccursAt("http://", text, i) && i + 7 < |text| && UrlChar(text[i + 7]))
    || (OccursAt("https://", text, i) && i + 8 < |text| && UrlChar(text[i + 8]))
    || (OccursAt("www.", text, i) && i + 4 < |text| && UrlChar(text[i + 4]))
  }

  /** The leftmost-first search of the link pattern, from position `from`. */
  function SearchLinkFrom(text: string, from: nat): (found: bool)
    requires from <= |text|
    ensures found <==> exists i :: from <= i < |text| && LinkAt(text, i)
    decreases |text| - from
  {
    if from == |text| then false
    else if LinkAt(text, from) then true
    else SearchLinkFrom(text, from + 1)
  }

  /** `_has_links` */
  function HasLinks(text: string): (found: bool)
    ensures found <==> exists i :: 0 <= i < |text| && LinkAt(text, i)
  {
    SearchLinkFrom(text, 0)
  }

  /** A link found in a piece of text is still found once more text surrounds it. */
  lemma HasLinksInContext(pre: string, text: string, post: string)
    requires HasLinks(text)
    ensures HasLinks(pre + text + post)
  {
    var i :| 0 <= i < |text| && LinkAt(text, i);
    var whole := pre + text + post;
    var j := |pre| + i;
    assert whole[j] == text[i];
    if OccursAt("http://", text, i) && i + 7 < |text| && UrlChar(text[i + 7]) {
      OccursInContext("http://", pre, text, post, i);
      assert whole[j + 7] == text[i + 7];
    } else if OccursAt("https://", text, i) && i + 8 < |text| && UrlChar(text[i + 8]) {
      OccursInContext("https://", pre, text, post, i);
      assert whole[j + 8] == text[i + 8];
    } else {
      OccursInContext("www.", pre, text, post, i);
      assert whole[j + 4] == text[i + 4];
    }
    assert LinkAt(whole, j);
  }

  /** An occurrence inside `text` is an occurrence, shifted by `|pre|`, inside `pre + text + post`. */
  lemma OccursInContext(needle: string, pre: string, text: string, post: string, i: int)
    requires OccursAt(needle, text, i)
    ensures OccursAt(needle, pre + text + post, |pre| + i)
  {
    var whole := pre + text + post;
    assert whole[|pre| + i..|pre| + i + |needle|] == text[i..i + |needle|];
  }

  /**
   * Each prefix needs a URL character right after it: where `www.` or
   * `https://` occurs, a link starts there exactly when one follows.
   */
  lemma BarePrefixIsNoLink(text: string, i: int)
    ensures OccursAt("www.", text, i) ==> (LinkAt(text, i) <==> i + 4 < |text| && UrlChar(text[i + 4]))
    ensures OccursAt("https://", text, i) ==> (LinkAt(text, i) <==> i + 8 < |text| && UrlChar(text[i + 8]))
  {
    if OccursAt("www.", text, i) {
      assert text[i..i + 4] == "www.";
      assert text[i] == 'w';
    }
    if OccursAt("https://", text, i) {
      assert text[i..i + 8] == "https://";
      assert text[i] == 'h' && text[i + 4] == 's';
    }
  }
}
