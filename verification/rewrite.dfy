/** `str.replace`, as `_get` applies it to turn every `webp` of the query into `png`. */
module Rewrite {

  /** `w` occurs in `s` starting at index `i`. */
  predicate OccursAt(s: string, w: string, i: int) {
    0 <= i && i + |w| <= |s| && s[i..i + |w|] == w
  }

  ghost predicate Occurs(s: string, w: string) {
    exists i :: OccursAt(s, w, i)
  }

  /** Python `s.replace(pat, rep)` for a non-empty pattern `pat`: scan left to right,
      replace each occurrence and resume after it, so matches never overlap. */
  function ReplaceAll(s: string, pat: string, rep: string): (r: string)
    requires |pat| > 0
    ensures |rep| == |pat| ==> |r| == |s|
    decreases |s|
  {
    if |s| < |pat| then s
    else if s[..|pat|] == pat then rep + ReplaceAll(s[|pat|..], pat, rep)
    else [s[0]] + ReplaceAll(s[1..], pat, rep)
  }

  /** The image-format rewrite `query.replace('webp', 'png')`. */
  function WebpToPng(query: string): (r: string)
    ensures |r| <= |query|
  {
    ReplaceNeverGrows(query, "webp", "png");
    ReplaceAll(query, "webp", "png")
  }

  /** An occurrence in a suffix is an occurrence in the whole string. */
  lemma OccursInSuffix(s: string, w: string, n: nat, i: int)
    requires n <= |s|
    requires OccursAt(s[n..], w, i)
    ensures OccursAt(s, w, i + n)
  {
    assert s[n..][i..i + |w|] == s[i + n..i + n + |w|];
  }

  /** A string with no occurrence of `pat` comes back unchanged. */
  lemma {:induction false} NoOccurrenceUnchanged(s: string, pat: string, rep: string)
    requires |pat| > 0
    requires !Occurs(s, pat)
    ensures ReplaceAll(s, pat, rep) == s
    decreases |s|
  {
    if |s| >= |pat| {
      assert !OccursAt(s, pat, 0);
      assert s[..|pat|] != pat;
      forall i | OccursAt(s[1..], pat, i)
        ensures false
      {
        OccursInSuffix(s, pat, 1, i);
      }
      NoOccurrenceUnchanged(s[1..], pat, rep);
      assert s == [s[0]] + s[1..];
    }
  }

  /** A replacement no longer than its pattern never lengthens the string. */
  lemma {:induction false} ReplaceNeverGrows(s: string, pat: string, rep: string)
    requires 0 < |pat| && |rep| <= |pat|
    ensures |ReplaceAll(s, pat, rep)| <= |s|
    decreases |s|
  {
    if |s| >= |pat| {
      if s[..|pat|] == pat {
        ReplaceNeverGrows(s[|pat|..], pat, rep);
      } else {
        ReplaceNeverGrows(s[1..], pat, rep);
      }
    }
  }

  /** With a replacement strictly shorter than the pattern, any occurrence shortens the result. */
  lemma {:induction false} OccurrenceShrinks(s: string, pat: string, rep: string)
    requires 0 < |pat| && |rep| < |pat|
    requires Occurs(s, pat)
    ensures |ReplaceAll(s, pat, rep)| < |s|
    decreases |s|
  {
    var i :| OccursAt(s, pat, i);
    if s[..|pat|] == pat {
      ReplaceNeverGrows(s[|pat|..], pat, rep);
    } else {
      assert i != 0;
      assert s[1..][i - 1..i - 1 + |pat|] == s[i..i + |pat|];
      assert OccursAt(s[1..], pat, i - 1);
      OccurrenceShrinks(s[1..], pat, rep);
    }
  }

  /** The rewrite leaves a query unchanged exactly when `webp` does not occur in
      it, and otherwise shortens it. */
  lemma RewriteFixesExactly(query: string)
    ensures WebpToPng(query) == query <==> !Occurs(query, "webp")
    ensures |WebpToPng(query)| <= |query|
  {
    ReplaceNeverGrows(query, "webp", "png");
    if Occurs(query, "webp") {
      OccurrenceShrinks(query, "webp", "png");
    } else {
      NoOccurrenceUnchanged(query, "webp", "png");
    }
  }

  /** A prefix that does not contain the first character of the pattern is
      copied through unchanged. */
  lemma {:induction false} SkipPlainPrefix(a: string, b: string, pat: string, rep: string)
    requires |pat| > 0
    requires forall k :: 0 <= k < |a| ==> a[k] != pat[0]
    ensures ReplaceAll(a + b, pat, rep) == a + ReplaceAll(b, pat, rep)
    decreases |a|
  {
    if |a| > 0 {
      var s := a + b;
      var tail := ReplaceAll(a[1..] + b, pat, rep);
      if |s| >= |pat| {
        assert s[..|pat|] != pat by { assert s[..|pat|][0] == a[0]; }
        assert s[1..] == a[1..] + b;
        assert ReplaceAll(s, pat, rep) == [a[0]] + tail;
      } else {
        assert ReplaceAll(s, pat, rep) == s;
        assert tail == a[1..] + b;
      }
      SkipPlainPrefix(a[1..], b, pat, rep);
      assert a == [a[0]] + a[1..];
    } else {
      assert a + b == b;
    }
  }

  /** The rewrite is not idempotent: `webwebp` becomes `webpng`, which still
      holds `webp` and is rewritten again by a second pass. */
  lemma RewriteNotIdempotent(query: string)
    requires query == "webwebp"
    ensures WebpToPng(query) == "webpng"
    ensures OccursAt(WebpToPng(query), "webp", 0)
    ensures WebpToPng(WebpToPng(query)) != WebpToPng(query)
  {
    var tail := "webp";
    assert query[..4] != tail by {
      assert query[..4][3] == 'w' && tail[3] == 'p';
    }
    assert ReplaceAll(query, tail, "png") == [query[0]] + ReplaceAll(query[1..], tail, "png");
    assert query[1..] == "eb" + tail;
    SkipPlainPrefix("eb", tail, tail, "png");
    assert ReplaceAll(tail, tail, "png") == "png" by {
      assert tail[..4] == tail && tail[4..] == [];
    }
    var once := WebpToPng(query);
    assert once == "webpng";
    assert once[..4] == tail;
    RewriteFixesExactly(once);
  }

  /** A query ending in a webp link, whose earlier text holds no `w`, ends in
      a png link instead: `?avatar=http://x/img.webp` is sent as
      `?avatar=http://x/img.png`. */
  lemma RewriteWebpLink(a: string)
    requires forall k :: 0 <= k < |a| ==> a[k] != 'w'
    ensures WebpToPng(a + "webp") == a + "png"
  {
    SkipPlainPrefix(a, "webp", "webp", "png");
    assert WebpToPng("webp") == "png" by {
      assert "webp"[4..] == [];
    }
  }
}
