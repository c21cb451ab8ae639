/**
 * `ApiGpt.extract_text_between_tags`: the text between the first start tag and
 * the nearest end tag after it, stripped of surrounding whitespace. The source
 * builds the pattern `escape(start) (.*?) escape(end)` with DOTALL and keeps the
 * first hit of `re.findall`; the tags are therefore matched literally and the
 * captured text may contain any character, newlines included.
 */
module ApiGpt {
  import opened Wrappers
  import opened Text

  /** The pattern matches with the start tag at `p` and the end tag at `q`; the group is `text[p + |startTag|..q]`. */
  predicate IsMatch(text: string, startTag: string, endTag: string, p: nat, q: nat) {
    OccursAt(text, startTag, p) && p + |startTag| <= q && OccursAt(text, endTag, q)
  }

  /**
   * The match `re.findall` lists first: the match that starts leftmost and, among those,
   * has the shortest group (the lazy `.*?`).
   */
  ghost predicate IsFirstMatch(text: string, startTag: string, endTag: string, p: nat, q: nat) {
    && IsMatch(text, startTag, endTag, p, q)
    && forall p', q' :: IsMatch(text, startTag, endTag, p', q') ==> p < p' || (p == p' && q <= q')
  }

  ghost predicate HasMatch(text: string, startTag: string, endTag: string) {
    exists p: nat, q: nat :: IsMatch(text, startTag, endTag, p, q)
  }

  /** Finds the first match: the first start tag and the first end tag after it. */
  function FirstMatch(text: string, startTag: string, endTag: string): (m: Option<(nat, nat)>)
    ensures m.Some? ==> IsFirstMatch(text, startTag, endTag, m.value.0, m.value.1)
    ensures m.None? <==> !HasMatch(text, startTag, endTag)
  {
    match FindFrom(text, startTag, 0)
    case None => None
    case Some(p) =>
      match FindFrom(text, endTag, p + |startTag|)
      case None =>
        assert forall p': nat, q': nat :: IsMatch(text, startTag, endTag, p', q') ==> p <= p' && !OccursAt(text, endTag, q');
        None
      case Some(q) =>
        assert forall p': nat, q': nat :: IsMatch(text, startTag, endTag, p', q') ==> p <= p';
        assert IsMatch(text, startTag, endTag, p, q);
        Some((p, q))
  }

  /** The source's `extract_text_between_tags(text, start_tag, end_tag)`. */
  function ExtractTextBetweenTags(text: string, startTag: string, endTag: string): (r: string)
    ensures IsStripped(r)
    ensures !HasMatch(text, startTag, endTag) ==> r == ""
    ensures forall p: nat, q: nat :: IsFirstMatch(text, startTag, endTag, p, q) ==>
              r == Strip(Captured(text, startTag, p, q))
  {
    match FirstMatch(text, startTag, endTag)
    case None => ""
    case Some((p, q)) =>
      assert forall p': nat, q': nat :: IsFirstMatch(text, startTag, endTag, p', q') ==> p' == p && q' == q;
      Strip(text[p + |startTag|..q])
  }

  /** The captured group of the match at `(p, q)`, before stripping. */
  function Captured(text: string, startTag: string, p: nat, q: nat): string
    requires p + |startTag| <= q <= |text|
  {
    text[p + |startTag|..q]
  }

  /** The first match begins at the very first occurrence of the start tag. */
  lemma FirstMatchAtFirstStartTag(text: string, startTag: string, endTag: string, p: nat, q: nat)
    requires IsFirstMatch(text, startTag, endTag, p, q)
    ensures forall k: nat :: k < p ==> !OccursAt(text, startTag, k)
  {
    forall k: nat | k < p && OccursAt(text, startTag, k)
      ensures false
    {
      assert IsMatch(text, startTag, endTag, k, q);
    }
  }

  /**
   * The lazy group stops at the nearest end tag: no end tag begins anywhere in the
   * captured text, so in particular the captured text holds no complete end tag.
   */
  lemma CapturedHasNoEndTag(text: string, startTag: string, endTag: string, p: nat, q: nat)
    requires IsFirstMatch(text, startTag, endTag, p, q)
    ensures forall k: nat :: p + |startTag| <= k < q ==> !OccursAt(text, endTag, k)
    ensures forall k: nat :: k < q - p - |startTag| ==> !OccursAt(Captured(text, startTag, p, q), endTag, k)
  {
    forall k: nat | p + |startTag| <= k < q && OccursAt(text, endTag, k)
      ensures false
    {
      assert IsMatch(text, startTag, endTag, p, k);
    }
    var c := Captured(text, startTag, p, q);
    forall k: nat | k < |c| && OccursAt(c, endTag, k)
      ensures false
    {
      var j := p + |startTag| + k;
      assert text[j..j + |endTag|] == c[k..k + |endTag|];
      assert OccursAt(text, endTag, j);
    }
  }

  /**
   * Round trip: wrapping `s` in the two tags and extracting gives `s` stripped, provided
   * the end tag does not begin inside `s` (the first end tag is the one appended).
   */
  lemma RoundTrip(startTag: string, s: string, endTag: string)
    requires forall k: nat :: k < |s| ==> !OccursAt(s + endTag, endTag, k)
    ensures ExtractTextBetweenTags(startTag + s + endTag, startTag, endTag) == Strip(s)
  {
    var text := startTag + s + endTag;
    var q := |startTag| + |s|;
    assert text[0..|startTag|] == startTag;
    assert text[q..q + |endTag|] == endTag;
    assert IsMatch(text, startTag, endTag, 0, q);
    forall p': nat, q': nat | IsMatch(text, startTag, endTag, p', q')
      ensures 0 < p' || (0 == p' && q <= q')
    {
      if p' == 0 && q' < q {
        var k := q' - |startTag|;
        assert text[q'..q' + |endTag|] == (s + endTag)[k..k + |endTag|];
        assert OccursAt(s + endTag, endTag, k);
      }
    }
    assert IsFirstMatch(text, startTag, endTag, 0, q);
    assert text[|startTag|..q] == s;
  }
}
