/** How many parameters a query string holds, counted by its `&`
    separators, and which of the client's transformations keep that count. */
module QueryText {
  import opened Rewrite
  import opened Quoting
  import opened Config
  import opened Requests

  /** The number of `&` in `s`: every one starts a further query parameter. */
  function Separators(s: string): (n: nat)
    ensures n <= |s|
    decreases |s|
  {
    if s == [] then 0
    else (if s[0] == '&' then 1 else 0) + Separators(s[1..])
  }

  /** A string opens no parameter exactly when it holds no `&`. */
  lemma {:induction false} NoSeparators(s: string)
    ensures Separators(s) == 0 <==> forall k :: 0 <= k < |s| ==> s[k] != '&'
    decreases |s|
  {
    if s != [] {
      NoSeparators(s[1..]);
      if s[0] != '&' && Separators(s) == 0 {
        forall k | 0 <= k < |s|
          ensures s[k] != '&'
        {
          if k > 0 {
            assert s[k] == s[1..][k - 1];
          }
        }
      }
    }
  }

  /** Separators of a concatenation add up. */
  lemma {:induction false} SeparatorsAppend(a: string, b: string)
    ensures Separators(a + b) == Separators(a) + Separators(b)
    decreases |a|
  {
    if a != [] {
      assert (a + b)[1..] == a[1..] + b;
      SeparatorsAppend(a[1..], b);
    } else {
      assert a + b == b;
    }
  }

  /** A quoted string adds no parameter, whatever it was. */
  lemma QuotedHasNoSeparator(s: string)
    ensures Separators(Quote(s)) == 0
  {
    QuotedCannotSplitQuery(s);
    NoSeparators(Quote(s));
  }

  /** Replacing a pattern by a replacement, neither holding `&`, keeps the
      number of separators. */
  lemma {:induction false} ReplaceKeepsSeparators(s: string, pat: string, rep: string)
    requires |pat| > 0 && Separators(pat) == 0 && Separators(rep) == 0
    ensures Separators(ReplaceAll(s, pat, rep)) == Separators(s)
    decreases |s|
  {
    if |s| >= |pat| {
      if s[..|pat|] == pat {
        ReplaceKeepsSeparators(s[|pat|..], pat, rep);
        SeparatorsAppend(rep, ReplaceAll(s[|pat|..], pat, rep));
        assert s == pat + s[|pat|..];
        SeparatorsAppend(pat, s[|pat|..]);
      } else {
        ReplaceKeepsSeparators(s[1..], pat, rep);
        SeparatorsAppend([s[0]], ReplaceAll(s[1..], pat, rep));
        assert s == [s[0]] + s[1..];
        SeparatorsAppend([s[0]], s[1..]);
      }
    }
  }

  /** The `webp` rewrite of `_get` never adds or removes a parameter. */
  lemma RewriteKeepsSeparators(query: string)
    ensures Separators(WebpToPng(query)) == Separators(query)
  {
    ReplaceKeepsSeparators(query, "webp", "png");
  }

  /** A key that opens a further parameter: one leading `&` and no other. */
  lemma OneSeparator(key: string)
    requires |key| > 0 && key[0] == '&' && forall k :: 1 <= k < |key| ==> key[k] != '&'
    ensures Separators(key) == 1
  {
    NoSeparators(key[1..]);
  }

  /** The parameters of a `_get` URL are those of its host and path plus
      those of its query: the rewrite adds none. */
  lemma GetSeparators(c: Client, endpoint: string, query: string)
    ensures Separators(Get(c, endpoint, query).url) == Separators(c.baseUrl + endpoint) + Separators(query)
  {
    var prefix := c.baseUrl + endpoint;
    var url := Get(c, endpoint, query).url;
    assert url == prefix + WebpToPng(query);
    SeparatorsAppend(prefix, WebpToPng(query));
    RewriteKeepsSeparators(query);
  }

  /** The separators of a query of three `key=value` pairs are those of its
      keys and values. */
  lemma ThreePairs(k1: string, v1: string, k2: string, v2: string, k3: string, v3: string)
    ensures Separators(k1 + v1 + k2 + v2 + k3 + v3) ==
      Separators(k1) + Separators(v1) + Separators(k2) + Separators(v2) + Separators(k3) + Separators(v3)
  {
    SeparatorsAppend(k1, v1);
    SeparatorsAppend(k1 + v1, k2);
    SeparatorsAppend(k1 + v1 + k2, v2);
    SeparatorsAppend(k1 + v1 + k2 + v2, k3);
    SeparatorsAppend(k1 + v1 + k2 + v2 + k3, v3);
  }

  /** As `ThreePairs`, for four pairs. */
  lemma FourPairs(k1: string, v1: string, k2: string, v2: string, k3: string, v3: string,
                  k4: string, v4: string)
    ensures Separators(k1 + v1 + k2 + v2 + k3 + v3 + k4 + v4) ==
      Separators(k1) + Separators(v1) + Separators(k2) + Separators(v2)
      + Separators(k3) + Separators(v3) + Separators(k4) + Separators(v4)
  {
    ThreePairs(k1, v1, k2, v2, k3, v3);
    SeparatorsAppend(k1 + v1 + k2 + v2 + k3 + v3, k4);
    SeparatorsAppend(k1 + v1 + k2 + v2 + k3 + v3 + k4, v4);
  }
}
