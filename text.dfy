/**
 * Literal string search and Python's `str.strip()`, the two string primitives
 * used by the tag extraction of the assistant integration.
 */
module Text {
  import opened Wrappers

  /** The characters for which Python's `str.isspace()` holds; `str.strip()` removes exactly these. */
  predicate IsWhitespace(c: char) {
    || ('\t' <= c <= '\r')            // tab, line feed, vertical tab, form feed, carriage return
    || ('\U{1C}' <= c <= '\U{1F}')    // file, group, record and unit separators
    || c == ' '
    || c == '\U{85}'                  // next line
    || c == '\U{A0}'                  // no-break space
    || c == '\U{1680}'                // ogham space mark
    || ('\U{2000}' <= c <= '\U{200A}')
    || c == '\U{2028}' || c == '\U{2029}'
    || c == '\U{202F}' || c == '\U{205F}' || c == '\U{3000}'
  }

  predicate AllWhitespace(s: string) {
    forall k :: 0 <= k < |s| ==> IsWhitespace(s[k])
  }

  /** A string that `strip()` leaves alone: it neither starts nor ends with whitespace. */
  predicate IsStripped(s: string) {
    s == [] || (!IsWhitespace(s[0]) && !IsWhitespace(s[|s| - 1]))
  }

  /** The number of leading whitespace characters of `s`. */
  function LeadingWhitespace(s: string): (k: nat)
    ensures k <= |s|
    ensures AllWhitespace(s[..k])
    ensures k < |s| ==> !IsWhitespace(s[k])
  {
    if s != [] && IsWhitespace(s[0]) then
      var k := 1 + LeadingWhitespace(s[1..]);
      assert s[1..][..k - 1] == s[1..k];
      k
    else 0
  }

  /** The length of `s` without its trailing whitespace. */
  function TrailingStart(s: string): (j: nat)
    ensures j <= |s|
    ensures AllWhitespace(s[j..])
    ensures j > 0 ==> !IsWhitespace(s[j - 1])
  {
    if s != [] && IsWhitespace(s[|s| - 1]) then
      var j := TrailingStart(s[..|s| - 1]);
      assert s[j..] == s[..|s| - 1][j..] + [s[|s| - 1]];
      j
    else |s|
  }

  /** Python's `s.strip()`: `s` without its leading and trailing whitespace. */
  function Strip(s: string): (r: string)
    ensures IsStripped(r)
    ensures |r| <= |s|
  {
    var j := TrailingStart(s);
    var i := LeadingWhitespace(s[..j]);
    s[..j][i..]
  }

  /** Where `Strip(s)` starts inside `s`. */
  function StripStart(s: string): nat {
    LeadingWhitespace(s[..TrailingStart(s)])
  }

  /** What `strip()` removes is whitespace and nothing else: `s` is whitespace, then `Strip(s)`, then whitespace. */
  lemma StripDecomposes(s: string)
    ensures StripStart(s) + |Strip(s)| <= |s|
    ensures s == s[..StripStart(s)] + Strip(s) + s[StripStart(s) + |Strip(s)|..]
    ensures AllWhitespace(s[..StripStart(s)])
    ensures AllWhitespace(s[StripStart(s) + |Strip(s)|..])
  {
    var j := TrailingStart(s);
    var i := LeadingWhitespace(s[..j]);
    assert s[..i] == s[..j][..i];
    assert s == s[..i] + s[..j][i..] + s[j..];
  }

  /** Padding a stripped string with whitespace on both sides and stripping it again gives it back. */
  lemma StripPadded(w1: string, t: string, w2: string)
    requires AllWhitespace(w1) && AllWhitespace(w2) && IsStripped(t)
    ensures Strip(w1 + t + w2) == t
  {
    var s := w1 + t + w2;
    if t == [] {
      assert s == [] + (w1 + w2);
      assert AllWhitespace(w1 + w2);
      TrailingOfPadded([], w1 + w2);
    } else {
      TrailingOfPadded(w1 + t, w2);
      assert s[..|w1 + t|] == w1 + t;
      LeadingOfPadded(w1, t);
    }
  }

  lemma {:induction false} TrailingOfPadded(u: string, w: string)
    requires AllWhitespace(w)
    requires u == [] || !IsWhitespace(u[|u| - 1])
    ensures TrailingStart(u + w) == |u|
  {
    if w != [] {
      var s := u + w;
      assert s[..|s| - 1] == u + w[..|w| - 1];
      TrailingOfPadded(u, w[..|w| - 1]);
    } else {
      assert u + w == u;
    }
  }

  lemma {:induction false} LeadingOfPadded(w: string, t: string)
    requires AllWhitespace(w) && IsStripped(t)
    ensures LeadingWhitespace(w + t) == |w|
  {
    if w != [] {
      assert (w + t)[1..] == w[1..] + t;
      LeadingOfPadded(w[1..], t);
    } else {
      assert w + t == t;
    }
  }

  /** `strip()` is idempotent. */
  lemma StripIdempotent(s: string)
    ensures Strip(Strip(s)) == Strip(s)
  {
    StripPadded([], Strip(s), []);
    assert [] + Strip(s) + [] == Strip(s);
  }

  /** `pat` occurs literally in `text` starting at index `i`. */
  predicate OccursAt(text: string, pat: string, i: nat) {
    i + |pat| <= |text| && text[i..i + |pat|] == pat
  }

  /** The first index at or after `from` where `pat` occurs literally in `text`, if any. */
  function FindFrom(text: string, pat: string, from: nat): (r: Option<nat>)
    decreases |text| - from
    ensures r.Some? ==> from <= r.value && OccursAt(text, pat, r.value)
    ensures r.Some? ==> forall k :: from <= k < r.value ==> !OccursAt(text, pat, k)
    ensures r.None? ==> forall k :: from <= k ==> !OccursAt(text, pat, k)
  {
    if from + |pat| > |text| then None
    else if OccursAt(text, pat, from) then Some(from)
    else FindFrom(text, pat, from + 1)
  }
}
