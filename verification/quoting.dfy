/** `urllib.parse.quote` with its default arguments: the string is encoded as
    UTF-8 and every byte outside the safe set is written as `%XX`. */
module Quoting {

  /** Bytes never quoted: ASCII letters, digits and `_.-~`. */
  predicate AlwaysSafe(c: char) {
    'A' <= c <= 'Z' || 'a' <= c <= 'z' || '0' <= c <= '9'
    || c == '_' || c == '.' || c == '-' || c == '~'
  }

  /** The default `safe='/'` adds the slash. */
  predicate IsSafe(c: char) {
    AlwaysSafe(c) || c == '/'
  }

  /** A character quote can emit: a safe one, or the `%` that starts an escape. */
  predicate Emittable(c: char) {
    IsSafe(c) || c == '%'
  }

  /** The UTF-8 encoding of one Unicode scalar value. */
  function Utf8(c: char): (bytes: seq<int>)
    ensures 1 <= |bytes| <= 4
    ensures forall k :: 0 <= k < |bytes| ==> 0 <= bytes[k] < 256
    ensures |bytes| == 1 <==> c as int < 0x80
    ensures |bytes| == 1 ==> bytes[0] == c as int
    ensures |bytes| > 1 ==> forall k :: 0 <= k < |bytes| ==> bytes[k] >= 0x80
  {
    var n := c as int;
    if n < 0x80 then [n]
    else if n < 0x800 then [0xC0 + n / 0x40, 0x80 + n % 0x40]
    else if n < 0x1_0000 then [0xE0 + n / 0x1000, 0x80 + (n / 0x40) % 0x40, 0x80 + n % 0x40]
    else [0xF0 + n / 0x4_0000, 0x80 + (n / 0x1000) % 0x40, 0x80 + (n / 0x40) % 0x40, 0x80 + n % 0x40]
  }

  const HexDigits := "0123456789ABCDEF"

  /** `%XX` with upper-case hex digits, one escape per byte. */
  function Escape(bytes: seq<int>): (r: string)
    requires forall k :: 0 <= k < |bytes| ==> 0 <= bytes[k] < 256
    ensures |r| == 3 * |bytes|
    ensures forall k :: 0 <= k < |r| ==> Emittable(r[k])
    ensures |bytes| > 0 ==> r[0] == '%'
    decreases |bytes|
  {
    if bytes == [] then []
    else ['%', HexDigits[bytes[0] / 16], HexDigits[bytes[0] % 16]] + Escape(bytes[1..])
  }

  /** One character: kept when safe, otherwise its UTF-8 bytes escaped. */
  function QuoteChar(c: char): (r: string)
    ensures IsSafe(c) ==> r == [c]
    ensures !IsSafe(c) ==> |r| >= 3 && r[0] == '%'
    ensures forall k :: 0 <= k < |r| ==> Emittable(r[k])
  {
    if IsSafe(c) then [c] else Escape(Utf8(c))
  }

  /** `urllib.parse.quote(s)` for a string `s`. */
  function Quote(s: string): (r: string)
    ensures forall k :: 0 <= k < |r| ==> Emittable(r[k])
    ensures |r| >= |s|
    decreases |s|
  {
    if s == [] then [] else QuoteChar(s[0]) + Quote(s[1..])
  }

  /** Quoting changes a string exactly when it holds a character outside the
      safe set; each such character costs at least two extra characters. */
  lemma {:induction false} QuoteFixesExactly(s: string)
    ensures Quote(s) == s <==> forall k :: 0 <= k < |s| ==> IsSafe(s[k])
    ensures (exists k :: 0 <= k < |s| && !IsSafe(s[k])) ==> |Quote(s)| >= |s| + 2
    decreases |s|
  {
    if s != [] {
      QuoteFixesExactly(s[1..]);
      if !IsSafe(s[0]) {
        assert |Quote(s)| >= |s| + 2;
      } else if exists k :: 0 <= k < |s| && !IsSafe(s[k]) {
        var k :| 0 <= k < |s| && !IsSafe(s[k]);
        assert !IsSafe(s[1..][k - 1]);
      } else {
        assert forall k :: 0 <= k < |s[1..]| ==> IsSafe(s[1..][k]);
        assert s == [s[0]] + s[1..];
      }
    }
  }

  /** A quoted value cannot open or split a query parameter: it holds no `&`,
      `=`, `?`, `#`, `+` or space, whatever the input. */
  lemma QuotedCannotSplitQuery(s: string)
    ensures forall k :: 0 <= k < |Quote(s)| ==>
      Quote(s)[k] !in {'&', '=', '?', '#', '+', ' '}
  {
  }

  /** Example: a user tag with `#` has its reserved character escaped. */
  lemma QuoteUserTag()
    ensures Quote("a#1") == "a%231"
  {
    assert Quote("1") == "1";
    assert Quote("#1") == "%23" + Quote("1");
  }
}
