/**
 * Query-string encoding in the style of PHP's `urlencode`, used for every path
 * fragment placed in a files-app link, and the decoder that inverts it.
 */
module Url {
  import opened Wrappers

  /** Characters `urlencode` leaves as they are. */
  predicate IsUnreserved(c: char) {
    ('a' <= c <= 'z') || ('A' <= c <= 'Z') || ('0' <= c <= '9') || c == '-' || c == '_' || c == '.'
  }

  /** Text `urlencode` leaves as it is. */
  predicate Unreserved(s: string) {
    forall i :: 0 <= i < |s| ==> IsUnreserved(s[i])
  }

  /** Characters that structure a query string or end the attribute holding it. */
  predicate IsDelimiter(c: char) {
    c == '&' || c == '=' || c == '?' || c == '#' || c == '/' || c == '"' || c == '\'' || c == '<' || c == '>'
  }

  /** No character of `s` can split a query argument or leave the `href` attribute. */
  predicate QuerySafe(s: string) {
    forall i :: 0 <= i < |s| ==> !IsDelimiter(s[i])
  }

  /** Upper-case hexadecimal digit of `n`. */
  function HexDigit(n: nat): (c: char)
    requires n < 16
    ensures HexValue(c) == Some(n)
  {
    if n < 10 then ('0' as int + n) as char else ('A' as int + n - 10) as char
  }

  /** Value of a hexadecimal digit in either case. */
  function HexValue(c: char): (r: Option<nat>)
    ensures r.Some? ==> r.value < 16
  {
    if '0' <= c <= '9' then Some(c as int - '0' as int)
    else if 'A' <= c <= 'F' then Some(c as int - 'A' as int + 10)
    else if 'a' <= c <= 'f' then Some(c as int - 'a' as int + 10)
    else None
  }

  function EncodeChar(c: char): (r: string)
    ensures QuerySafe(r)
  {
    if IsUnreserved(c) then [c]
    else if c == ' ' then "+"
    else if (c as int) < 256 then ['%', HexDigit(c as int / 16), HexDigit(c as int % 16)]
    else [c]
  }

  /** The `urlencode` form of `s`. */
  function Encode(s: string): (r: string)
    ensures QuerySafe(r)
  {
    if |s| == 0 then ""
    else EncodeChar(s[0]) + Encode(s[1..])
  }

  /** The `urldecode` form of `s`: `%XX` escapes and `+` are decoded, the rest copied. */
  function Decode(s: string): string
    decreases |s|
  {
    if |s| == 0 then ""
    else if s[0] == '%' && |s| >= 3 && HexValue(s[1]).Some? && HexValue(s[2]).Some? then
      [(16 * HexValue(s[1]).value + HexValue(s[2]).value) as char] + Decode(s[3..])
    else if s[0] == '+' then " " + Decode(s[1..])
    else [s[0]] + Decode(s[1..])
  }

  lemma DecodeEncodeChar(c: char, rest: string)
    ensures Decode(EncodeChar(c) + rest) == [c] + Decode(rest)
  {
    var s := EncodeChar(c) + rest;
    if IsUnreserved(c) {
      assert s[0] == c && s[1..] == rest;
    } else if c == ' ' {
      assert s[0] == '+' && s[1..] == rest;
    } else if (c as int) < 256 {
      var hi, lo := c as int / 16, c as int % 16;
      assert s[0] == '%' && s[1] == HexDigit(hi) && s[2] == HexDigit(lo);
      assert s[3..] == rest;
      assert (16 * hi + lo) as char == c;
    } else {
      assert s[0] == c && s[1..] == rest;
    }
  }

  /** Encoding loses nothing: decoding gives back the original text. */
  lemma {:induction false} EncodeRoundTrip(s: string)
    ensures Decode(Encode(s)) == s
  {
    if |s| > 0 {
      DecodeEncodeChar(s[0], Encode(s[1..]));
      EncodeRoundTrip(s[1..]);
      assert [s[0]] + s[1..] == s;
    }
  }

  /** Encoding works character by character. */
  lemma {:induction false} EncodeConcat(a: string, b: string)
    ensures Encode(a + b) == Encode(a) + Encode(b)
  {
    if |a| > 0 {
      assert (a + b)[0] == a[0] && (a + b)[1..] == a[1..] + b;
      EncodeConcat(a[1..], b);
    } else {
      assert a + b == b;
    }
  }

  /** Text made of unreserved characters is its own encoding. */
  lemma {:induction false} EncodeUnreserved(s: string)
    requires Unreserved(s)
    ensures Encode(s) == s
  {
    if |s| > 0 {
      EncodeUnreserved(s[1..]);
      assert [s[0]] + s[1..] == s;
    }
  }

  lemma EncodeSlash()
    ensures Encode("/") == "%2F"
  {
    assert Encode("/") == EncodeChar('/') + Encode("");
  }
}
