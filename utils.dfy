/**
 * frontend/src/utils/utils.ts: character counting, the payment-link slug
 * sanitiser, random slug generation and slug validation in the dashboard.
 */
module FrontendUtils {
  import opened Wrappers
  import opened Strings
  import opened Slugs
  import Crypto
  import Payments

  /** The UTF-16 code units a character takes: two above U+FFFF. */
  function Utf16Units(c: char): nat {
    if c as int > 0xFFFF then 2 else 1
  }

  predicate InBasicPlane(text: string) {
    forall i :: 0 <= i < |text| ==> text[i] as int <= 0xFFFF
  }

  /** `countChars(text)`, that is `text.length`: the number of UTF-16 code units. */
  function CountChars(text: string): (n: nat)
    ensures |text| <= n <= 2 * |text|
    ensures InBasicPlane(text) ==> n == |text|
  {
    if text == [] then 0 else CountChars(text[..|text| - 1]) + Utf16Units(text[|text| - 1])
  }

  /** Counting is additive over concatenation. */
  lemma {:induction false} CountCharsAppend(a: string, b: string)
    ensures CountChars(a + b) == CountChars(a) + CountChars(b)
    decreases |b|
  {
    if b == [] {
      assert a + b == a;
    } else {
      var init := b[..|b| - 1];
      var last := b[|b| - 1];
      assert b == init + [last];
      assert a + b == (a + init) + [last];
      CountCharsAppend(a, init);
    }
  }

  /**
   * `sanitizeSlug(value, length)`: lower-cased, every character outside
   * [a-z0-9-] made a dash, dash runs collapsed, all leading and trailing
   * dashes removed, then `slice(0, length)`.
   */
  function SanitizeSlug(value: string, length: int): (slug: string)
    ensures AllSlugChars(slug) && NoDoubleDash(slug)
    ensures slug == [] || slug[0] != '-'
    ensures 0 <= length ==> |slug| <= length
  {
    var cleaned := StripDashRuns(CollapseDashes(ReplaceInvalid(ToLower(value))));
    var slug := SlicePrefix(cleaned, length);
    PrefixKeepsShape(cleaned, |slug|);
    slug
  }

  /** Text already in the slug alphabet without "--" only loses its edge dashes and is cut to length. */
  lemma SlugTextIsTrimmed(s: string, length: int)
    requires AllSlugChars(s) && NoDoubleDash(s)
    ensures SanitizeSlug(s, length) == SlicePrefix(StripDashRuns(s), length)
  {
    Payments.SlugCharsAreFixed(s);
    CollapseDashesIdentity(s);
  }

  /** Text that is already a clean slug is only cut to length. */
  lemma CleanSlugIsKept(s: string, length: int)
    requires AllSlugChars(s) && NoDoubleDash(s) && NoEdgeDash(s)
    ensures SanitizeSlug(s, length) == SlicePrefix(s, length)
  {
    SlugTextIsTrimmed(s, length);
    StripDashRunsKeepsClean(s);
  }

  /** A clean slug cut on a dash keeps the dash. */
  lemma CutEndsOnDash(s: string, n: nat)
    requires AllSlugChars(s) && NoDoubleDash(s) && NoEdgeDash(s)
    requires 1 <= n < |s|
    ensures SanitizeSlug(s, n) == s[..n]
  {
    CleanSlugIsKept(s, n);
  }

  /** Sanitising text that ends on a single dash, and starts on something else, drops that dash. */
  lemma ResanitizeDropsDash(t: string, n: nat)
    requires AllSlugChars(t) && NoDoubleDash(t)
    requires |t| == n >= 1 && t[0] != '-' && t[n - 1] == '-'
    ensures SanitizeSlug(t, n) == t[..n - 1]
  {
    SlugTextIsTrimmed(t, n);
    StripDashRunsDropsLastDash(t);
  }

  /**
   * The trimming runs before the cut, so a cut that ends on a dash keeps
   * it, and sanitising that result again drops it: the sanitiser is not
   * idempotent ("ab-c" cut to 3 gives "ab-", and "ab-" gives "ab").
   */
  lemma {:induction false} TrailingDashSurvives(s: string, n: nat)
    requires AllSlugChars(s) && NoDoubleDash(s) && NoEdgeDash(s)
    requires 1 <= n < |s| && s[n - 1] == '-'
    ensures var u := SanitizeSlug(s, n);
      u == s[..n] && u[n - 1] == '-' && SanitizeSlug(u, n) == u[..n - 1]
  {
    CutEndsOnDash(s, n);
    PrefixKeepsShape(s, n);
    ResanitizeDropsDash(s[..n], n);
  }

  /** A slug the dashboard produces with no trailing dash reaches the backend's `normalizeSlug` unchanged. */
  lemma SanitizedSlugSurvivesNormalize(value: string, length: int)
    requires 0 <= length <= Payments.MaxSlugLength as int
    requires NoEdgeDash(SanitizeSlug(value, length))
    ensures Payments.NormalizeSlug(SanitizeSlug(value, length)) == SanitizeSlug(value, length)
  {
    Payments.NormalizeCleanSlug(SanitizeSlug(value, length));
  }

  predicate IsBase36Digit(c: char) {
    ('0' <= c <= '9') || ('a' <= c <= 'z')
  }

  /** The value of a base-36 digit. */
  function Base36Value(c: char): nat
    requires IsBase36Digit(c)
  {
    if c <= '9' then c as int - '0' as int else c as int - 'a' as int + 10
  }

  /** `(v).toString(36)` for `0 <= v < 36`: a single digit that reads back as `v`. */
  function Base36Digit(v: nat): (c: char)
    requires v < 36
    ensures IsBase36Digit(c) && Base36Value(c) == v
  {
    if v < 10 then (v + '0' as int) as char else (v - 10 + 'a' as int) as char
  }

  /**
   * `generateRandomString(length)` on the `crypto.getRandomValues` path:
   * byte i becomes the base-36 digit of its value modulo 36. The
   * `Math.random` fallback is not part of this model.
   */
  function RandomString(length: int, bytes: seq<Crypto.Byte>): (r: string)
    requires length <= 0 || |bytes| == length
    ensures |r| == if length <= 0 then 0 else length
    ensures forall i :: 0 <= i < |r| ==> IsBase36Digit(r[i]) && Base36Value(r[i]) == bytes[i] as int % 36
  {
    if length <= 0 then ""
    else
      seq(length, i requires 0 <= i < length => Base36Digit(bytes[i] as int % 36))
  }

  /** `n` zeros. */
  function Zeros(n: nat): (z: string)
    ensures |z| == n && forall i :: 0 <= i < n ==> z[i] == '0'
  {
    if n == 0 then "" else Zeros(n - 1) + "0"
  }

  /** The 54 zeros `generateSlugValue` pads with. */
  const ZeroPad: string := Zeros(54)

  /** Zeros appended to a text shorter than `length`, cut to `length`, fill it up with zeros. */
  lemma ZeroPadded(base: string, length: int)
    ensures |base| < length <= |ZeroPad| ==>
      var p := SlicePrefix(base + ZeroPad, length);
      |p| == length && p[..|base|] == base && forall i :: |base| <= i < length ==> p[i] == '0'
  {
    if |base| < length <= |ZeroPad| {
      var p := SlicePrefix(base + ZeroPad, length);
      assert p == (base + ZeroPad)[..length];
      forall i | |base| <= i < length ensures p[i] == '0' {
        assert p[i] == ZeroPad[i - |base|];
      }
    }
  }

  /**
   * `generateSlugValue(length)` once the random text `random` is drawn: the
   * sanitised text, right-padded with zeros and cut to `length` when it is
   * shorter than `length`.
   */
  function SlugValueFrom(length: int, random: string): (slug: string)
    ensures 1 <= length <= |ZeroPad| ==> |slug| == length
    ensures var base := SanitizeSlug(random, length);
      && (|base| >= length ==> slug == base)
      && (|base| < length <= |ZeroPad| ==>
            slug[..|base|] == base && forall i :: |base| <= i < length ==> slug[i] == '0')
  {
    var base := SanitizeSlug(random, length);
    if |base| >= length then base
    else
      ZeroPadded(base, length);
      SlicePrefix(base + ZeroPad, length)
  }

  /** Base-36 digits are slug characters and include no dash. */
  lemma DigitsAreCleanSlug(s: string)
    requires forall i :: 0 <= i < |s| ==> IsBase36Digit(s[i])
    ensures AllSlugChars(s) && NoDoubleDash(s) && NoEdgeDash(s)
  {
  }

  /**
   * `generateSlugValue(length)` with the random bytes drawn for
   * `generateRandomString(Math.max(length, 12))`: for any positive length
   * the value has exactly that many characters, all base-36 digits, and the
   * zero padding is never needed.
   */
  function GenerateSlugValue(length: int, bytes: seq<Crypto.Byte>): (slug: string)
    requires |bytes| == if length > 12 then length else 12
    ensures 1 <= length ==> |slug| == length
    ensures slug == SlicePrefix(RandomString(|bytes|, bytes), length)
  {
    var random := RandomString(|bytes|, bytes);
    DigitsAreCleanSlug(random);
    CleanSlugIsKept(random, length);
    SlugValueFrom(length, random)
  }

  /** Character i of a generated slug is the base-36 digit of byte i modulo 36. */
  lemma GeneratedSlugDigits(length: int, bytes: seq<Crypto.Byte>)
    requires |bytes| == if length > 12 then length else 12
    ensures var slug := GenerateSlugValue(length, bytes);
      forall i :: 0 <= i < |slug| ==> IsBase36Digit(slug[i]) && Base36Value(slug[i]) == bytes[i] as int % 36
  {
    var random := RandomString(|bytes|, bytes);
    var slug := GenerateSlugValue(length, bytes);
    PrefixAgrees(random, slug);
  }

  /** A prefix agrees with the whole text position by position. */
  lemma PrefixAgrees(s: string, p: string)
    requires |p| <= |s| && p == s[..|p|]
    ensures forall i :: 0 <= i < |p| ==> p[i] == s[i]
  {
  }

  /**
   * `validateSlug(value, minLength, maxLength)`: the empty value gets the
   * "between" message, a value shorter than `minLength` the "at least"
   * message, and anything else passes; `maxLength` only appears in the text.
   */
  function ValidateSlug(value: string, minLength: int, maxLength: int): (error: Option<string>)
    ensures error.None? <==> value != "" && CountChars(value) >= minLength
    ensures value == "" ==>
      error == Some("Link must be between " + IntToString(minLength) + " and " + IntToString(maxLength) + " characters.")
    ensures value != "" && CountChars(value) < minLength ==>
      error == Some("Link must be at least " + IntToString(minLength) + " characters.")
  {
    if value == "" then
      Some("Link must be between " + IntToString(minLength) + " and " + IntToString(maxLength) + " characters.")
    else if CountChars(value) < minLength then Some("Link must be at least " + IntToString(minLength) + " characters.")
    else None
  }

  /** Nothing bounds the length from above: any value at least `minLength` long passes, however long. */
  lemma MaxLengthNeverChecked(value: string, minLength: int, maxLength: int)
    requires value != "" && CountChars(value) >= minLength && CountChars(value) > maxLength
    ensures ValidateSlug(value, minLength, maxLength).None?
  {
  }
}
