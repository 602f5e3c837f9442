/**
 * Credential helpers of backend/src/utils/crypto.js: the self-describing
 * password hash `iterations.salt.key`, its verification with a comparison
 * that never exits early, and OTP digit strings.
 *
 * The key derivation (PBKDF2, section 5.2 of RFC 8018, with HMAC-SHA-512 and
 * base64 output) is a function-typed parameter; random bytes are inputs.
 */
module Crypto {
  import opened Wrappers
  import opened Strings

  const PasswordSaltBytes: nat := 16
  const PasswordIterations: nat := 120000
  const PasswordKeyLen: nat := 64
  const PasswordDigest: string := "sha512"

  /** `pbkdf2Sync(password, salt, iterations, keylen, digest).toString("base64")`. */
  type Pbkdf2 = (string, string, int, int, string) -> string

  newtype Byte = x: int | 0 <= x < 256

  predicate IsBase64Char(c: char) {
    ('A' <= c <= 'Z') || ('a' <= c <= 'z') || ('0' <= c <= '9') || c == '+' || c == '/' || c == '='
  }

  /** Text in the base64 alphabet (section 4 of RFC 4648), which has no '.'. */
  predicate IsBase64(s: string) {
    forall i :: 0 <= i < |s| ==> IsBase64Char(s[i])
  }

  /** The key that `hashPassword` derives and stores for `password` with `salt`. */
  function DerivedKey(pbkdf2: Pbkdf2, password: string, salt: string): string {
    pbkdf2(password, salt, PasswordIterations, PasswordKeyLen, PasswordDigest)
  }

  /**
   * `hashPassword(password)`, where `salt` is the base64 text of the 16 random
   * bytes the source draws.
   */
  function HashPassword(pbkdf2: Pbkdf2, password: string, salt: string): (stored: string)
    requires IsBase64(salt)
    ensures IsBase64(DerivedKey(pbkdf2, password, salt)) ==>
      Split(stored, '.') == [NatToString(PasswordIterations), salt, DerivedKey(pbkdf2, password, salt)]
  {
    var key := DerivedKey(pbkdf2, password, salt);
    var head := NatToString(PasswordIterations);
    var stored := head + "." + salt + "." + key;
    if IsBase64(key) then
      SplitThree(head, salt, key);
      stored
    else stored
  }

  lemma SplitThree(a: string, b: string, c: string)
    requires AllDigits(a) && IsBase64(b) && IsBase64(c)
    ensures Split(a + "." + b + "." + c, '.') == [a, b, c]
  {
    NoDot(a);
    NoDot(b);
    NoDot(c);
    var rest := b + ['.'] + c;
    assert a + "." + b + "." + c == a + ['.'] + rest;
    SplitAfter(a, '.', rest);
    SplitAfter(b, '.', c);
    assert Split(c, '.') == [c];
  }

  lemma NoDot(s: string)
    requires AllDigits(s) || IsBase64(s)
    ensures '.' !in s
  {
    forall i | 0 <= i < |s| ensures s[i] != '.' {
    }
  }

  /** Splitting at the first separator. */
  lemma SplitAfter(a: string, sep: char, rest: string)
    requires sep !in a
    ensures Split(a + [sep] + rest, sep) == [a] + Split(rest, sep)
  {
    var s := a + [sep] + rest;
    IndexOfAfter(a, sep, rest);
    assert s[..|a|] == a && s[|a| + 1..] == rest;
  }

  lemma {:induction false} IndexOfAfter(a: string, sep: char, rest: string)
    requires sep !in a
    ensures IndexOf(a + [sep] + rest, sep) == |a|
  {
    var s := a + [sep] + rest;
    if a != [] {
      assert s[1..] == a[1..] + [sep] + rest;
      IndexOfAfter(a[1..], sep, rest);
    }
  }

  /** pbkdf2Sync accepts an iteration count that is a 32-bit integer of at least 1 and throws otherwise. */
  predicate ValidIterations(n: int) {
    1 <= n <= 0x7FFF_FFFF
  }

  /**
   * What `verifyPassword(password, stored)` returns: false unless `stored`
   * has exactly three dot-separated fields, otherwise whether the key derived
   * with the stored salt and iteration count equals the stored key. None
   * stands for pbkdf2Sync throwing on an unusable iteration count.
   */
  function PasswordMatches(pbkdf2: Pbkdf2, password: string, stored: string): (r: Option<bool>)
    ensures |Split(stored, '.')| != 3 ==> r == Some(false)
    ensures r == Some(true) ==>
      var parts := Split(stored, '.');
      |parts| == 3 && JsNumber(parts[0]).Some? &&
      parts[2] == pbkdf2(password, parts[1], JsNumber(parts[0]).value, PasswordKeyLen, PasswordDigest)
  {
    var parts := Split(stored, '.');
    if |parts| != 3 then Some(false)
    else match JsNumber(parts[0])
      case None => None
      case Some(n) =>
        if !ValidIterations(n) then None
        else Some(parts[2] == pbkdf2(password, parts[1], n, PasswordKeyLen, PasswordDigest))
  }

  /** `verifyPassword(password, stored)`. */
  method VerifyPassword(pbkdf2: Pbkdf2, password: string, stored: string) returns (r: Option<bool>)
    ensures r == PasswordMatches(pbkdf2, password, stored)
  {
    var parts := Split(stored, '.');
    if |parts| != 3 {
      return Some(false);
    }
    var iterations := JsNumber(parts[0]);
    if iterations.None? || !ValidIterations(iterations.value) {
      return None;
    }
    var derived := pbkdf2(password, parts[1], iterations.value, PasswordKeyLen, PasswordDigest);
    var same := SlowEquals(parts[2], derived);
    r := Some(same);
  }

  /** A freshly hashed password verifies: the stored iteration count is read back as 120000. */
  lemma VerifyHashedPassword(pbkdf2: Pbkdf2, password: string, salt: string)
    requires IsBase64(salt) && IsBase64(DerivedKey(pbkdf2, password, salt))
    ensures PasswordMatches(pbkdf2, password, HashPassword(pbkdf2, password, salt)) == Some(true)
  {
    JsNumberNatToString(PasswordIterations);
  }

  /**
   * A different password is rejected when the derivation separates passwords
   * for this salt and iteration count (the "overwhelming probability" of a
   * collision-resistant key derivation, stated as a hypothesis).
   */
  lemma RejectOtherPassword(pbkdf2: Pbkdf2, password: string, other: string, salt: string)
    requires IsBase64(salt) && IsBase64(DerivedKey(pbkdf2, password, salt))
    requires DerivedKey(pbkdf2, other, salt) != DerivedKey(pbkdf2, password, salt)
    ensures PasswordMatches(pbkdf2, other, HashPassword(pbkdf2, password, salt)) == Some(false)
  {
    JsNumberNatToString(PasswordIterations);
  }

  /** `a ^ b` on non-negative integers, bit by bit. */
  function BitXor(a: nat, b: nat): nat
    decreases a + b
  {
    if a == 0 && b == 0 then 0 else 2 * BitXor(a / 2, b / 2) + (a % 2 + b % 2) % 2
  }

  /** `a | b` on non-negative integers, bit by bit. */
  function BitOr(a: nat, b: nat): nat
    decreases a + b
  {
    if a == 0 && b == 0 then 0 else 2 * BitOr(a / 2, b / 2) + (if a % 2 == 1 || b % 2 == 1 then 1 else 0)
  }

  lemma {:induction false} BitXorZero(a: nat, b: nat)
    ensures BitXor(a, b) == 0 <==> a == b
    decreases a + b
  {
    if a != 0 || b != 0 {
      BitXorZero(a / 2, b / 2);
    }
  }

  lemma {:induction false} BitOrZero(a: nat, b: nat)
    ensures BitOr(a, b) == 0 <==> a == 0 && b == 0
    decreases a + b
  {
    if a != 0 || b != 0 {
      BitOrZero(a / 2, b / 2);
    }
  }

  lemma {:induction false} BitXorCommutes(a: nat, b: nat)
    ensures BitXor(a, b) == BitXor(b, a)
    decreases a + b
  {
    if a != 0 || b != 0 {
      BitXorCommutes(a / 2, b / 2);
    }
  }

  /** `s.charCodeAt(i) || 0`: the code of the character at `i`, and 0 past the end. */
  function CodeAt(s: string, i: nat): nat {
    if i < |s| then s[i] as int else 0
  }

  /** The accumulator `result` of slowEquals after visiting positions 0 .. n-1. */
  function Difference(a: string, b: string, n: nat): nat {
    if n == 0 then 0 else BitOr(Difference(a, b, n - 1), BitXor(CodeAt(a, n - 1), CodeAt(b, n - 1)))
  }

  /** The accumulator stays 0 exactly when every visited position agrees. */
  lemma {:induction false} DifferenceZero(a: string, b: string, n: nat)
    ensures Difference(a, b, n) == 0 <==> forall k :: 0 <= k < n ==> CodeAt(a, k) == CodeAt(b, k)
  {
    if n > 0 {
      DifferenceZero(a, b, n - 1);
      BitOrZero(Difference(a, b, n - 1), BitXor(CodeAt(a, n - 1), CodeAt(b, n - 1)));
      BitXorZero(CodeAt(a, n - 1), CodeAt(b, n - 1));
    }
  }

  /** The accumulator does not depend on the order of the two arguments. */
  lemma {:induction false} DifferenceSymmetric(a: string, b: string, n: nat)
    ensures Difference(a, b, n) == Difference(b, a, n)
  {
    if n > 0 {
      DifferenceSymmetric(a, b, n - 1);
      BitXorCommutes(CodeAt(a, n - 1), CodeAt(b, n - 1));
    }
  }

  function Max(x: nat, y: nat): nat {
    if x >= y then x else y
  }

  /**
   * `slowEquals(a, b)`: visits all max(|a|, |b|) positions, missing ones
   * reading as 0, and is true exactly when the strings are identical.
   */
  method SlowEquals(a: string, b: string) returns (equal: bool)
    ensures equal == (Difference(a, b, Max(|a|, |b|)) == 0 && |a| == |b|)
    ensures equal <==> a == b
  {
    var len := Max(|a|, |b|);
    var result: nat := 0;
    var i := 0;
    while i < len
      invariant 0 <= i <= len
      invariant result == Difference(a, b, i)
    {
      result := BitOr(result, BitXor(CodeAt(a, i), CodeAt(b, i)));
      i := i + 1;
    }
    equal := result == 0 && |a| == |b|;
    DifferenceZero(a, b, len);
    if equal {
      forall k | 0 <= k < |a| ensures a[k] == b[k] {
        assert CodeAt(a, k) == CodeAt(b, k);
      }
    }
  }

  const Digits: string := "0123456789"

  /** A string of exactly `length` decimal digits. */
  predicate IsOtpCode(code: string, length: nat) {
    |code| == length && AllDigits(code)
  }

  /** The code drawn from `random`: digit i is byte i modulo 10. */
  function OtpDigitsOf(random: seq<Byte>): (code: string)
    ensures |code| == |random| && forall i :: 0 <= i < |random| ==> code[i] == Digits[random[i] as int % 10]
  {
    seq(|random|, i requires 0 <= i < |random| => Digits[random[i] as int % 10])
  }

  /**
   * `generateOtpCode(length)`, where `random[i]` is the byte drawn for
   * position i: each digit is that byte modulo 10.
   */
  method GenerateOtpCode(length: nat, random: seq<Byte>) returns (code: string)
    requires |random| == length
    ensures IsOtpCode(code, length)
    ensures forall i :: 0 <= i < length ==> code[i] == Digits[random[i] as int % 10]
    ensures code == OtpDigitsOf(random)
  {
    code := "";
    var i := 0;
    while i < length
      invariant 0 <= i <= length
      invariant |code| == i
      invariant forall k :: 0 <= k < i ==> code[k] == Digits[random[k] as int % 10]
    {
      code := code + [Digits[random[i] as int % 10]];
      i := i + 1;
    }
  }
}
