/**
 * The 8-4-4-4-12 hexadecimal identifier pattern, matched case-insensitively,
 * both anchored (a whole path segment) and unanchored (anywhere in a path).
 */
module Uuid {

  predicate IsHexDigit(c: char) {
    ('0' <= c <= '9') || ('a' <= c <= 'f') || ('A' <= c <= 'F')
  }

  /** The positions of the four dashes. */
  predicate IsDashPosition(i: int) {
    i == 8 || i == 13 || i == 18 || i == 23
  }

  /** `/^[0-9a-f]{8}-[0-9a-f]{4}-[0-9a-f]{4}-[0-9a-f]{4}-[0-9a-f]{12}$/i`. */
  predicate IsUuid(s: string) {
    |s| == 36
    && forall i :: 0 <= i < 36 ==> if IsDashPosition(i) then s[i] == '-' else IsHexDigit(s[i])
  }

  /** The pattern matches at index `i` of `s`. */
  predicate UuidAt(s: string, i: int) {
    0 <= i <= |s| - 36 && IsUuid(s[i..i + 36])
  }

  /** The unanchored pattern: some 36-character window of `s` is an identifier. */
  predicate ContainsUuid(s: string)
    decreases |s|
  {
    |s| >= 36 && (IsUuid(s[..36]) || ContainsUuid(s[1..]))
  }

  /** The scan agrees with the search over every window. */
  lemma {:induction false} ContainsUuidIff(s: string)
    ensures ContainsUuid(s) <==> exists i :: UuidAt(s, i)
    decreases |s|
  {
    if |s| >= 36 {
      ContainsUuidIff(s[1..]);
      if IsUuid(s[..36]) {
        assert UuidAt(s, 0);
      } else {
        if exists i :: UuidAt(s, i) {
          var i :| UuidAt(s, i);
          assert i != 0;
          assert s[1..][i - 1..i - 1 + 36] == s[i..i + 36];
          assert UuidAt(s[1..], i - 1);
        }
        if ContainsUuid(s[1..]) {
          var i :| UuidAt(s[1..], i);
          assert s[1..][i..i + 36] == s[i + 1..i + 1 + 36];
          assert UuidAt(s, i + 1);
        }
      }
    }
  }

  /** A string that is an identifier contains one. */
  lemma UuidIsContained(s: string)
    requires IsUuid(s)
    ensures ContainsUuid(s)
  {
    assert s[..36] == s;
  }

  /** An identifier has no '/', so it is always a single path segment. */
  lemma UuidHasNoSlash(s: string)
    requires IsUuid(s)
    ensures '/' !in s
  {
    forall i | 0 <= i < |s|
      ensures s[i] != '/'
    {
      if !IsDashPosition(i) {
        assert IsHexDigit(s[i]);
      }
    }
  }
}
