/**
 * HTML escaping of untrusted text (file names, user names) before it is put
 * into element content or a double-quoted attribute value, with the decoder
 * that inverts it.
 */
module Html {
  import opened Strings

  /** Characters that could open or close a tag or end a quoted attribute. */
  predicate IsMarkupChar(c: char) {
    c == '<' || c == '>' || c == '"' || c == '\''
  }

  predicate NeedsEscape(c: char) {
    c == '&' || IsMarkupChar(c)
  }

  /** No character of `s` can break out of element text or an attribute value. */
  predicate Inert(s: string) {
    forall i :: 0 <= i < |s| ==> !IsMarkupChar(s[i])
  }

  /** `s` is left alone by `Escape`. */
  predicate Plain(s: string) {
    forall i :: 0 <= i < |s| ==> !NeedsEscape(s[i])
  }

  function EscapeChar(c: char): (r: string)
    ensures Inert(r)
    ensures |r| == 1 <==> !NeedsEscape(c)
    ensures !NeedsEscape(c) ==> r == [c]
    ensures |r| >= 1
  {
    if c == '&' then "&amp;"
    else if c == '<' then "&lt;"
    else if c == '>' then "&gt;"
    else if c == '"' then "&quot;"
    else if c == '\'' then "&#039;"
    else [c]
  }

  /** The entity-escaped form of `s`. */
  function Escape(s: string): (r: string)
    ensures Inert(r)
    ensures |r| >= |s|
  {
    if |s| == 0 then ""
    else EscapeChar(s[0]) + Escape(s[1..])
  }

  /** Escaping introduces no '/': no entity contains one. */
  lemma {:induction false} EscapeKeepsSlashFree(s: string)
    ensures '/' !in s ==> '/' !in Escape(s)
  {
    if |s| > 0 && '/' !in s {
      assert s[0] in s;
      assert '/' !in EscapeChar(s[0]);
      assert forall c :: c in s[1..] ==> c in s;
      EscapeKeepsSlashFree(s[1..]);
    }
  }

  /** The character an entity (or a plain character) at the head of non-empty `s` decodes to, and its length. */
  function DecodeHead(s: string): (r: (char, nat))
    requires |s| > 0
    ensures 1 <= r.1 <= |s|
  {
    if IsPrefix("&amp;", s) then ('&', 5)
    else if IsPrefix("&lt;", s) then ('<', 4)
    else if IsPrefix("&gt;", s) then ('>', 4)
    else if IsPrefix("&quot;", s) then ('"', 6)
    else if IsPrefix("&#039;", s) then ('\'', 6)
    else (s[0], 1)
  }

  /** Decodes the five entities `Escape` produces; everything else is copied. */
  function Unescape(s: string): string
    decreases |s|
  {
    if |s| == 0 then ""
    else
      var (c, n) := DecodeHead(s);
      [c] + Unescape(s[n..])
  }

  lemma DecodeHeadEscapeChar(c: char, rest: string)
    ensures DecodeHead(EscapeChar(c) + rest) == (c, |EscapeChar(c)|)
  {
    var s := EscapeChar(c) + rest;
    if c == '&' {
      assert s[..5] == "&amp;";
    } else if c == '<' {
      assert s[..4] == "&lt;";
      assert s[1] == 'l';
    } else if c == '>' {
      assert s[..4] == "&gt;";
      assert s[1] == 'g';
    } else if c == '"' {
      assert s[..6] == "&quot;";
      assert s[1] == 'q';
    } else if c == '\'' {
      assert s[..6] == "&#039;";
      assert s[1] == '#';
    } else {
      assert s[0] == c;
    }
  }

  lemma UnescapeEscapeChar(c: char, rest: string)
    ensures Unescape(EscapeChar(c) + rest) == [c] + Unescape(rest)
  {
    var s := EscapeChar(c) + rest;
    DecodeHeadEscapeChar(c, rest);
    assert s[|EscapeChar(c)|..] == rest;
  }

  /** Escaping loses nothing: the decoder gives back the original text. */
  lemma {:induction false} EscapeRoundTrip(s: string)
    ensures Unescape(Escape(s)) == s
  {
    if |s| > 0 {
      UnescapeEscapeChar(s[0], Escape(s[1..]));
      EscapeRoundTrip(s[1..]);
      assert [s[0]] + s[1..] == s;
    }
  }

  /** Escaping changes a string exactly when it holds a character that needs escaping. */
  lemma {:induction false} EscapeFixesExactlyPlain(s: string)
    ensures Escape(s) == s <==> Plain(s)
    ensures |Escape(s)| == |s| <==> Plain(s)
  {
    if |s| > 0 {
      EscapeFixesExactlyPlain(s[1..]);
      assert Plain(s) <==> !NeedsEscape(s[0]) && Plain(s[1..]) by {
        if !NeedsEscape(s[0]) && Plain(s[1..]) {
          forall i | 0 <= i < |s| ensures !NeedsEscape(s[i]) {
            if i > 0 { assert s[i] == s[1..][i - 1]; }
          }
        }
      }
      assert [s[0]] + s[1..] == s;
    }
  }

  lemma InertConcat(a: string, b: string)
    requires Inert(a) && Inert(b)
    ensures Inert(a + b)
  {
    forall i | 0 <= i < |a + b| ensures !IsMarkupChar((a + b)[i]) {
      if i >= |a| { assert (a + b)[i] == b[i - |a|]; }
    }
  }

  /** Escaping works character by character. */
  lemma {:induction false} EscapeConcat(a: string, b: string)
    ensures Escape(a + b) == Escape(a) + Escape(b)
  {
    if |a| > 0 {
      assert (a + b)[0] == a[0] && (a + b)[1..] == a[1..] + b;
      EscapeConcat(a[1..], b);
    } else {
      assert a + b == b;
    }
  }
}
