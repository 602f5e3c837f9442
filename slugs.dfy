/**
 * The regular-expression stages shared by the backend's `normalizeSlug`
 * (backend/src/services/paymentService.js) and the frontend's
 * `sanitizeSlug` (frontend/src/utils/utils.ts).
 */
module Slugs {

  /** The class `[a-z0-9-]`. */
  predicate IsSlugChar(c: char) {
    ('a' <= c <= 'z') || ('0' <= c <= '9') || c == '-'
  }

  predicate AllSlugChars(s: string) {
    forall i :: 0 <= i < |s| ==> IsSlugChar(s[i])
  }

  /** No "--" anywhere. */
  predicate NoDoubleDash(s: string) {
    forall i :: 0 <= i < |s| - 1 ==> !(s[i] == '-' && s[i + 1] == '-')
  }

  /** Neither end is '-'. */
  predicate NoEdgeDash(s: string) {
    s == [] || (s[0] != '-' && s[|s| - 1] != '-')
  }

  /** `replace(/[^a-z0-9-]/g, "-")`. */
  function ReplaceInvalid(s: string): (r: string)
    ensures |r| == |s| && AllSlugChars(r)
    ensures forall i :: 0 <= i < |s| ==> r[i] == (if IsSlugChar(s[i]) then s[i] else '-')
    ensures AllSlugChars(s) ==> r == s
  {
    seq(|s|, i requires 0 <= i < |s| => if IsSlugChar(s[i]) then s[i] else '-')
  }

  /** `replace(/-+/g, "-")`: every run of dashes becomes one dash. */
  function CollapseDashes(s: string): (r: string)
    ensures NoDoubleDash(r)
    ensures |r| <= |s|
    ensures AllSlugChars(s) ==> AllSlugChars(r)
    ensures (r == []) == (s == [])
    ensures s != [] ==> r[0] == s[0] && r[|r| - 1] == s[|s| - 1]
    decreases |s|
  {
    if |s| <= 1 then s
    else if s[0] == '-' && s[1] == '-' then CollapseDashes(s[1..])
    else [s[0]] + CollapseDashes(s[1..])
  }

  /** Text that already has no "--" is left alone by the collapse. */
  lemma {:induction false} CollapseDashesIdentity(s: string)
    requires NoDoubleDash(s)
    ensures CollapseDashes(s) == s
    decreases |s|
  {
    if |s| > 1 {
      CollapseDashesIdentity(s[1..]);
      assert s == [s[0]] + s[1..];
    }
  }

  /**
   * `replace(/^-|-$/g, "")`: one leading and one trailing dash are removed
   * (the backend's form).
   */
  function StripEdgeDash(s: string): (r: string)
    ensures |r| <= |s|
    ensures AllSlugChars(s) ==> AllSlugChars(r)
    ensures NoDoubleDash(s) ==> NoDoubleDash(r) && NoEdgeDash(r)
    ensures NoEdgeDash(s) ==> r == s
  {
    var a := if |s| > 0 && s[0] == '-' then s[1..] else s;
    if |a| > 0 && a[|a| - 1] == '-' then a[..|a| - 1] else a
  }

  /** Removes every leading dash. */
  function DropLeadingDashes(s: string): (r: string)
    ensures |r| <= |s| && r == s[|s| - |r|..]
    ensures r == [] || r[0] != '-'
    ensures forall i :: 0 <= i < |s| - |r| ==> s[i] == '-'
    ensures AllSlugChars(s) ==> AllSlugChars(r)
    ensures NoDoubleDash(s) ==> NoDoubleDash(r)
    decreases |s|
  {
    if |s| > 0 && s[0] == '-' then DropLeadingDashes(s[1..]) else s
  }

  /** Removes every trailing dash. */
  function DropTrailingDashes(s: string): (r: string)
    ensures |r| <= |s| && r == s[..|r|]
    ensures r == [] || r[|r| - 1] != '-'
    ensures forall i :: |r| <= i < |s| ==> s[i] == '-'
    ensures AllSlugChars(s) ==> AllSlugChars(r)
    ensures NoDoubleDash(s) ==> NoDoubleDash(r)
    decreases |s|
  {
    if |s| > 0 && s[|s| - 1] == '-' then DropTrailingDashes(s[..|s| - 1]) else s
  }

  /** `replace(/^-+|-+$/g, "")`: all leading and all trailing dashes are removed (the frontend's form). */
  function StripDashRuns(s: string): (r: string)
    ensures |r| <= |s|
    ensures NoEdgeDash(r)
    ensures AllSlugChars(s) ==> AllSlugChars(r)
    ensures NoDoubleDash(s) ==> NoDoubleDash(r)
  {
    var a := DropLeadingDashes(s);
    var r := DropTrailingDashes(a);
    assert r != [] ==> r[0] == a[0];
    r
  }

  /** Text with no dash at either end is left alone by the trimming. */
  lemma StripDashRunsKeepsClean(s: string)
    requires NoEdgeDash(s)
    ensures StripDashRuns(s) == s
  {
    assert DropLeadingDashes(s) == s;
    assert DropTrailingDashes(s) == s;
  }

  /** Text without "--" that ends on a dash, and starts on something else, loses exactly that dash. */
  lemma StripDashRunsDropsLastDash(s: string)
    requires NoDoubleDash(s) && |s| >= 1 && s[0] != '-' && s[|s| - 1] == '-'
    ensures StripDashRuns(s) == s[..|s| - 1]
  {
    assert DropLeadingDashes(s) == s;
    var a := s[..|s| - 1];
    assert |a| >= 1 ==> a[|a| - 1] == s[|s| - 2];
    assert DropTrailingDashes(a) == a;
  }

  /** Without "--" there is at most one leading dash to drop. */
  lemma LeadingDashOnce(s: string)
    requires NoDoubleDash(s)
    ensures DropLeadingDashes(s) == if |s| > 0 && s[0] == '-' then s[1..] else s
  {
    if |s| > 1 && s[0] == '-' {
      assert s[1..][0] == s[1] != '-';
    }
  }

  /** Without "--" there is at most one trailing dash to drop. */
  lemma TrailingDashOnce(s: string)
    requires NoDoubleDash(s)
    ensures DropTrailingDashes(s) == if |s| > 0 && s[|s| - 1] == '-' then s[..|s| - 1] else s
  {
    if |s| > 1 && s[|s| - 1] == '-' {
      var a := s[..|s| - 1];
      assert a[|a| - 1] == s[|s| - 2] != '-';
    }
  }

  /** Dropping the first character keeps the absence of "--". */
  lemma NoDoubleDashTail(s: string)
    requires NoDoubleDash(s) && |s| > 0
    ensures NoDoubleDash(s[1..])
  {
    var t := s[1..];
    forall i | 0 <= i < |t| - 1 ensures !(t[i] == '-' && t[i + 1] == '-') {
      assert t[i] == s[i + 1] && t[i + 1] == s[i + 2];
    }
  }

  /** After the collapse the two trimming forms agree: the backend and frontend strip the same dashes. */
  lemma StripFormsAgree(s: string)
    requires NoDoubleDash(s)
    ensures StripDashRuns(s) == StripEdgeDash(s)
  {
    var a := if |s| > 0 && s[0] == '-' then s[1..] else s;
    LeadingDashOnce(s);
    if a != s {
      NoDoubleDashTail(s);
    }
    TrailingDashOnce(a);
  }

  /** A prefix keeps the slug alphabet and the absence of "--". */
  lemma PrefixKeepsShape(s: string, n: nat)
    requires n <= |s|
    ensures AllSlugChars(s) ==> AllSlugChars(s[..n])
    ensures NoDoubleDash(s) ==> NoDoubleDash(s[..n])
    ensures s != [] && s[0] != '-' && n > 0 ==> s[..n][0] != '-'
  {
  }
}
