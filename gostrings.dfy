/**
  The three functions of Go's `strings` package that the credential loader
  relies on: `HasPrefix`, `TrimPrefix` and `TrimSpace`, with white space as
  Go's `unicode.IsSpace` defines it. Strings are sequences of Unicode scalar
  values here, where Go works on their UTF-8 bytes.
 */
module GoStrings {

  /** unicode.IsSpace: the Latin-1 spaces plus the Unicode White_Space code points. */
  predicate IsSpace(c: char)
    ensures c <= '\U{00FF}' ==> (IsSpace(c) <==> c in "\t\n\U{000B}\U{000C}\r \U{0085}\U{00A0}")
  {
    c == '\t' || c == '\n' || c == '\U{000B}' || c == '\U{000C}' || c == '\r' || c == ' '
    || c == '\U{0085}' || c == '\U{00A0}' || c == '\U{1680}'
    || ('\U{2000}' <= c <= '\U{200A}')
    || c == '\U{2028}' || c == '\U{2029}' || c == '\U{202F}' || c == '\U{205F}' || c == '\U{3000}'
  }

  predicate AllSpace(s: string) {
    forall i :: 0 <= i < |s| ==> IsSpace(s[i])
  }

  /** No white space at either end (the empty string qualifies). */
  predicate Trimmed(s: string) {
    s != [] ==> !IsSpace(s[0]) && !IsSpace(s[|s| - 1])
  }

  /** strings.HasPrefix: the text begins with `prefix`, compared exactly. */
  predicate HasPrefix(s: string, prefix: string)
    ensures HasPrefix(s, prefix) <==> |prefix| <= |s| && forall i :: 0 <= i < |prefix| ==> s[i] == prefix[i]
  {
    |prefix| <= |s| && s[..|prefix|] == prefix
  }

  /** strings.TrimPrefix: drops `prefix` when the text begins with it, else returns the text. */
  function TrimPrefix(s: string, prefix: string): (r: string)
    ensures HasPrefix(s, prefix) ==> prefix + r == s
    ensures !HasPrefix(s, prefix) ==> r == s
  {
    if HasPrefix(s, prefix) then s[|prefix|..] else s
  }

  /** The length of the longest all-space prefix. */
  function LeadingSpace(s: string): (n: nat)
    ensures n <= |s|
    ensures AllSpace(s[..n])
    ensures n < |s| ==> !IsSpace(s[n])
  {
    if s == [] || !IsSpace(s[0]) then 0
    else
      var m := LeadingSpace(s[1..]);
      assert s[..m + 1] == [s[0]] + s[1..][..m];
      m + 1
  }

  /** The length of the longest all-space suffix. */
  function TrailingSpace(s: string): (n: nat)
    ensures n <= |s|
    ensures AllSpace(s[|s| - n..])
    ensures n < |s| ==> !IsSpace(s[|s| - n - 1])
  {
    if s == [] || !IsSpace(s[|s| - 1]) then 0
    else
      var init := s[..|s| - 1];
      var m := TrailingSpace(init);
      assert s[|s| - (m + 1)..] == init[|init| - m..] + [s[|s| - 1]];
      m + 1
  }

  /**
    strings.TrimSpace: the text with all leading and trailing white space
    removed. The result is one contiguous slice of the input, so white space
    inside it is kept, and only white space is cut away on either side.
   */
  function TrimSpace(s: string): (r: string)
    ensures LeadingSpace(s) + |r| <= |s|
    ensures r == s[LeadingSpace(s)..LeadingSpace(s) + |r|]
    ensures AllSpace(s[..LeadingSpace(s)])
    ensures AllSpace(s[LeadingSpace(s) + |r|..])
    ensures Trimmed(r)
  {
    var start := LeadingSpace(s);
    var rest := s[start..];
    var stop := |rest| - TrailingSpace(rest);
    assert rest[stop..] == s[start + stop..];
    rest[..stop]
  }

  lemma {:induction false} LeadingSpaceAppend(w: string, t: string)
    requires AllSpace(w)
    ensures LeadingSpace(w + t) == |w| + LeadingSpace(t)
  {
    if w == [] {
      assert w + t == t;
    } else {
      assert (w + t)[0] == w[0];
      assert (w + t)[1..] == w[1..] + t;
      LeadingSpaceAppend(w[1..], t);
    }
  }

  lemma {:induction false} TrailingSpaceAppend(t: string, w: string)
    requires AllSpace(w)
    ensures TrailingSpace(t + w) == TrailingSpace(t) + |w|
  {
    if w == [] {
      assert t + w == t;
    } else {
      assert (t + w)[|t + w| - 1] == w[|w| - 1];
      assert (t + w)[..|t + w| - 1] == t + w[..|w| - 1];
      TrailingSpaceAppend(t, w[..|w| - 1]);
    }
  }

  /**
    TrimSpace is determined by what it keeps: padding a trimmed value with
    white space on either side and trimming gives the value back, whatever
    white space the value holds inside.
   */
  lemma {:induction false} TrimSpacePadded(pre: string, v: string, post: string)
    requires AllSpace(pre) && AllSpace(post) && Trimmed(v)
    ensures TrimSpace(pre + v + post) == v
  {
    var s := pre + v + post;
    assert s == pre + (v + post);
    LeadingSpaceAppend(pre, v + post);
    if v == [] {
      assert v + post == post + [];
      LeadingSpaceAppend(post, []);
      assert LeadingSpace(s) == |s|;
    } else {
      assert (v + post)[0] == v[0];
      assert LeadingSpace(v + post) == 0;
      TrailingSpaceAppend(v, post);
      assert TrailingSpace(v) == 0;
      assert s[|pre|..] == v + post;
      assert (v + post)[..|v|] == v;
    }
  }

  /** Trimming twice is trimming once. */
  lemma TrimSpaceIdempotent(s: string)
    ensures TrimSpace(TrimSpace(s)) == TrimSpace(s)
  {
    var r := TrimSpace(s);
    assert r == [] + r + [];
    TrimSpacePadded([], r, []);
  }
}
