/**
 * The Safari check: the lowercased user agent is tested against
 * `/^((?!chrome|android).)*safari/i` (ECMAScript regular expressions,
 * section 22.2 of ECMA-262). The pattern matches when "safari" occurs at a
 * position p such that no "chrome" or "android" starts before p and no
 * line terminator (which `.` does not match) comes before p.
 */
module SafariCheck {

  /** ASCII upper case to lower case; every other character is kept. */
  function FoldAscii(c: char): (d: char)
    ensures 'A' <= c <= 'Z' ==> d as int == c as int + 32
    ensures !('A' <= c <= 'Z') ==> d == c
    ensures !('A' <= d <= 'Z')
  {
    if 'A' <= c <= 'Z' then (c as int + 32) as char else c
  }

  /** `s.toLowerCase()`, on ASCII letters. */
  function ToLowerCase(s: string): (r: string)
    ensures |r| == |s|
    ensures forall i :: 0 <= i < |s| ==> r[i] == FoldAscii(s[i])
  {
    seq(|s|, i requires 0 <= i < |s| => FoldAscii(s[i]))
  }

  /** Character equality under the `i` flag. */
  predicate EqualIgnoringCase(a: char, b: char)
  {
    FoldAscii(a) == FoldAscii(b)
  }

  /** `word` occurs in `s` at position p, ignoring case. */
  predicate OccursAt(s: string, p: nat, word: string)
  {
    p + |word| <= |s| && forall k :: 0 <= k < |word| ==> EqualIgnoringCase(s[p + k], word[k])
  }

  /** The characters `.` does not match. */
  predicate IsLineTerminator(c: char)
  {
    c == '\n' || c == '\r' || c == '\U{2028}' || c == '\U{2029}'
  }

  /** Position q cannot be stepped over by `((?!chrome|android).)`. */
  predicate Blocked(s: string, q: nat)
    requires q < |s|
  {
    OccursAt(s, q, "chrome") || OccursAt(s, q, "android") || IsLineTerminator(s[q])
  }

  /** No position in [from, p) is blocked. */
  predicate ClearUpTo(s: string, from: nat, p: nat)
    requires p <= |s|
  {
    forall q :: from <= q < p ==> !Blocked(s, q)
  }

  /** The pattern's meaning: "safari" at some p with nothing blocked before it. */
  ghost predicate Matches(s: string)
  {
    exists p :: 0 <= p <= |s| && OccursAt(s, p, "safari") && ClearUpTo(s, 0, p)
  }

  /** The matcher from position q on: accept at "safari", otherwise step over q if it is not blocked. */
  function MatchFrom(s: string, q: nat): bool
    requires q <= |s|
    decreases |s| - q
  {
    if OccursAt(s, q, "safari") then true
    else if q < |s| && !Blocked(s, q) then MatchFrom(s, q + 1)
    else false
  }

  /** The matcher from q accepts iff "safari" occurs at some p ≥ q with nothing in [q, p) blocked. */
  lemma {:induction false} MatchFromCorrect(s: string, q: nat)
    requires q <= |s|
    ensures MatchFrom(s, q) <==> exists p :: q <= p <= |s| && OccursAt(s, p, "safari") && ClearUpTo(s, q, p)
    decreases |s| - q
  {
    if OccursAt(s, q, "safari") {
      assert ClearUpTo(s, q, q);
    } else if q < |s| && !Blocked(s, q) {
      MatchFromCorrect(s, q + 1);
      if MatchFrom(s, q + 1) {
        var p :| q + 1 <= p <= |s| && OccursAt(s, p, "safari") && ClearUpTo(s, q + 1, p);
        assert ClearUpTo(s, q, p);
      }
      if exists p :: q <= p <= |s| && OccursAt(s, p, "safari") && ClearUpTo(s, q, p) {
        var p :| q <= p <= |s| && OccursAt(s, p, "safari") && ClearUpTo(s, q, p);
        assert p != q;
        assert ClearUpTo(s, q + 1, p);
      }
    }
  }

  /** `/^((?!chrome|android).)*safari/i.test(userAgent.toLowerCase())`. */
  function IsSafari(userAgent: string): bool
  {
    MatchFrom(ToLowerCase(userAgent), 0)
  }

  /** The check is exactly the string predicate the pattern denotes, on the lowercased agent. */
  lemma IsSafariMeaning(userAgent: string)
    ensures IsSafari(userAgent) <==> Matches(ToLowerCase(userAgent))
  {
    MatchFromCorrect(ToLowerCase(userAgent), 0);
  }

  /** A user agent without "safari" anywhere is not Safari. */
  lemma NoSafariNoMatch(userAgent: string)
    requires forall p :: 0 <= p <= |userAgent| ==> !OccursAt(userAgent, p, "safari")
    ensures !IsSafari(userAgent)
  {
    var s := ToLowerCase(userAgent);
    MatchFromCorrect(s, 0);
    forall p | 0 <= p <= |s| ensures !OccursAt(s, p, "safari") {
      assert !OccursAt(userAgent, p, "safari");
    }
  }

  /**
   * Whatever follows a match cannot undo it: a "chrome" or "android"
   * after the matched "safari" does not prevent the match.
   */
  lemma MatchSurvivesSuffix(userAgent: string, suffix: string)
    requires IsSafari(userAgent)
    ensures IsSafari(userAgent + suffix)
  {
    var s, t := ToLowerCase(userAgent), ToLowerCase(userAgent + suffix);
    MatchFromCorrect(s, 0);
    MatchFromCorrect(t, 0);
    var p :| 0 <= p <= |s| && OccursAt(s, p, "safari") && ClearUpTo(s, 0, p);
    assert forall i :: 0 <= i < |s| ==> t[i] == s[i];
    assert OccursAt(t, p, "safari");
    forall q | 0 <= q < p ensures !Blocked(t, q) {
      assert !Blocked(s, q);
      assert OccursAt(t, q, "chrome") == OccursAt(s, q, "chrome");
      assert OccursAt(t, q, "android") == OccursAt(s, q, "android");
    }
    assert ClearUpTo(t, 0, p);
  }

  /** Lowercasing first changes nothing the `i` flag does not already ignore. */
  lemma IgnoresCase(userAgent: string)
    ensures MatchFrom(userAgent, 0) == IsSafari(userAgent)
    ensures IsSafari(ToLowerCase(userAgent)) == IsSafari(userAgent)
  {
    var s := ToLowerCase(userAgent);
    assert ToLowerCase(s) == s;
    SameFoldSameMatch(userAgent, s, 0);
  }

  lemma {:induction false} SameFoldSameMatch(a: string, b: string, q: nat)
    requires |a| == |b| && q <= |a|
    requires forall i :: 0 <= i < |a| ==> FoldAscii(a[i]) == FoldAscii(b[i])
    ensures MatchFrom(a, q) == MatchFrom(b, q)
    decreases |a| - q
  {
    assert OccursAt(a, q, "safari") == OccursAt(b, q, "safari");
    if q < |a| {
      assert OccursAt(a, q, "chrome") == OccursAt(b, q, "chrome");
      assert OccursAt(a, q, "android") == OccursAt(b, q, "android");
      assert IsLineTerminator(a[q]) == IsLineTerminator(b[q]) by {
        assert FoldAscii(a[q]) == FoldAscii(b[q]);
      }
      SameFoldSameMatch(a, b, q + 1);
    }
  }

  /** The hook's state: false until the effect has run. */
  class SafariHook {
    var isSafari: bool

    constructor ()
      ensures !isSafari
    {
      isSafari := false;
    }

    /** The mount effect: test the browser's user agent. */
    method RunEffect(userAgent: string)
      modifies this
      ensures isSafari == IsSafari(userAgent)
    {
      var lowered := ToLowerCase(userAgent);
      isSafari := MatchFrom(lowered, 0);
    }
  }
}
