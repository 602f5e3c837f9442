/**
 * backend/src/utils/http.js: the error type that carries a response status,
 * and the Authorization-header parser (the "Bearer" form of section 2.1 of
 * RFC 6750, with the scheme compared case-insensitively and any run of
 * whitespace accepted as a separator).
 */
module Http {
  import opened Wrappers
  import opened Strings

  /** `new HttpError(statusCode, message)`. */
  datatype HttpError = HttpError(statusCode: int, message: string)

  /** The position of the first whitespace character, or |s| when there is none. */
  function FirstSpace(s: string): (i: nat)
    ensures i <= |s| && NoSpace(s[..i])
    ensures i < |s| ==> IsSpace(s[i])
  {
    if s == [] || IsSpace(s[0]) then 0
    else
      var k := FirstSpace(s[1..]);
      assert s[..k + 1] == [s[0]] + s[1..][..k];
      k + 1
  }

  /** `s.split(/\s+/)`: the pieces between maximal runs of whitespace. */
  function SplitWhitespace(s: string): (parts: seq<string>)
    ensures |parts| >= 1
    ensures forall i :: 0 <= i < |parts| ==> NoSpace(parts[i])
    decreases |s|
  {
    var i := FirstSpace(s);
    if i == |s| then [s]
    else
      var j := i + LeadingSpaces(s[i..]);
      [s[..i]] + SplitWhitespace(s[j..])
  }

  /** The whitespace-separated words of a header value, as parseBearerToken computes them. */
  function Words(header: string): seq<string> {
    SplitWhitespace(Trim(header))
  }

  /** Text with no whitespace at either end splits into non-empty words. */
  lemma {:induction false} WordsNonEmpty(s: string)
    requires s != [] && IsTrimmed(s)
    ensures forall i :: 0 <= i < |SplitWhitespace(s)| ==> SplitWhitespace(s)[i] != []
    decreases |s|
  {
    var i := FirstSpace(s);
    if i < |s| {
      var t := s[i..];
      var n := LeadingSpaces(t);
      assert t[|t| - 1] == s[|s| - 1];
      assert n < |t|;
      var rest := s[i + n..];
      assert rest == t[n..];
      assert rest != [] && !IsSpace(rest[0]) && rest[|rest| - 1] == s[|s| - 1];
      WordsNonEmpty(rest);
      assert SplitWhitespace(s) == [s[..i]] + SplitWhitespace(rest);
    }
  }

  /** Joining non-empty, whitespace-free words with single spaces gives trimmed, non-empty text. */
  lemma {:induction false} JoinWordsTrimmed(parts: seq<string>)
    requires |parts| >= 1
    requires forall i :: 0 <= i < |parts| ==> parts[i] != [] && NoSpace(parts[i])
    ensures Join(parts, " ") != []
    ensures Join(parts, " ")[0] == parts[0][0]
    ensures var j := Join(parts, " "); var last := parts[|parts| - 1]; j[|j| - 1] == last[|last| - 1]
    ensures IsTrimmed(Join(parts, " "))
  {
    if |parts| > 1 {
      JoinWordsTrimmed(parts[1..]);
    }
  }

  /**
   * `parseBearerToken(headerValue)`: null for a missing or empty header, for
   * fewer than two words, or for a first word other than "bearer" in any
   * letter case; otherwise the remaining words joined by single spaces.
   */
  function ParseBearerToken(header: Option<string>): (token: Option<string>)
    ensures header.None? || header == Some("") ==> token.None?
    ensures token.Some? <==>
      header.Some? && |Words(header.value)| >= 2 && ToLower(Words(header.value)[0]) == "bearer"
    ensures token.Some? ==> token.value == Join(Words(header.value)[1..], " ")
    ensures token.Some? ==> token.value != [] && IsTrimmed(token.value)
  {
    if header.None? || header.value == "" then None
    else
      var trimmed := Trim(header.value);
      var parts := SplitWhitespace(trimmed);
      if |parts| < 2 then None
      else
        var scheme := parts[0];
        var joined := Join(parts[1..], " ");
        SplitWhitespaceEmpty();
        assert trimmed != [];
        WordsNonEmpty(trimmed);
        JoinWordsTrimmed(parts[1..]);
        if scheme == "" || ToLower(scheme) != "bearer" || joined == "" then None
        else Some(Trim(joined))
  }

  lemma SplitWhitespaceEmpty()
    ensures SplitWhitespace("") == [""]
  {
  }

  lemma {:induction false} FirstSpaceAfter(a: string, b: string)
    requires NoSpace(a) && b != [] && IsSpace(b[0])
    ensures FirstSpace(a + b) == |a|
  {
    if a != [] {
      assert (a + b)[1..] == a[1..] + b;
      FirstSpaceAfter(a[1..], b);
    }
  }

  lemma LowerLetterIsLetter(c: char)
    requires 'a' <= LowerChar(c) <= 'z'
    ensures !IsSpace(c)
  {
  }

  /** Text without whitespace is a single word. */
  lemma SingleWord(s: string)
    requires NoSpace(s)
    ensures SplitWhitespace(s) == [s]
  {
    assert FirstSpace(s) == |s|;
  }

  lemma TwoWords(a: string, b: string)
    requires a != [] && NoSpace(a) && b != [] && NoSpace(b)
    ensures SplitWhitespace(a + " " + b) == [a, b]
  {
    var h := a + " " + b;
    FirstSpaceAfter(a, " " + b);
    assert h == a + (" " + b);
    var t := h[|a|..];
    assert t == " " + b;
    assert t[1..] == b;
    assert LeadingSpaces(t) == 1;
    assert h[..|a|] == a;
    assert h[|a| + 1..] == b;
    SingleWord(b);
  }

  /** Any spelling of the "Bearer" scheme, one space and a whitespace-free token parse back to that token. */
  lemma BearerRoundTrip(scheme: string, token: string)
    requires ToLower(scheme) == "bearer"
    requires token != [] && NoSpace(token)
    ensures ParseBearerToken(Some(scheme + " " + token)) == Some(token)
  {
    var h := scheme + " " + token;
    forall i | 0 <= i < |scheme| ensures !IsSpace(scheme[i]) {
      assert ToLower(scheme)[i] == LowerChar(scheme[i]);
      LowerLetterIsLetter(scheme[i]);
    }
    assert h[0] == scheme[0] && h[|h| - 1] == token[|token| - 1];
    assert Trim(h) == h;
    TwoWords(scheme, token);
    assert Words(h) == [scheme, token];
    assert Join([token], " ") == token;
    assert Words(h)[1..] == [token];
  }
}
