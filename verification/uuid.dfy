/** The UUID format test of lib/env.js: the anchored, case-insensitive regular
    expression `^[0-9a-f]{8}-[0-9a-f]{4}-[0-9a-f]{4}-[0-9a-f]{4}-[0-9a-f]{12}$`,
    i.e. the 8-4-4-4-12 hexadecimal text layout of section 4 of RFC 9562.
    Version and variant digits are not inspected. */
module Uuid {

  /** One character of the class `[0-9a-f]` under the `i` flag. Without the
      `u` flag only the ASCII letters A-F fold onto a-f. */
  predicate IsHexDigit(c: char) {
    '0' <= c <= '9' || 'a' <= c <= 'f' || 'A' <= c <= 'F'
  }

  predicate AllHex(s: string) {
    forall i :: 0 <= i < |s| ==> IsHexDigit(s[i])
  }

  /** The lengths of the hexadecimal runs of the pattern, in order. */
  const UuidGroups: seq<nat> := [8, 4, 4, 4, 12]

  /** The whole of `s` matches `hex{g0} ('-' hex{g1}) ... ('-' hex{gn})`:
      `^` and `$` (no `m` flag) anchor at both ends of the input. */
  predicate MatchesGroups(s: string, groups: seq<nat>)
    requires |groups| > 0
    decreases |groups|
  {
    if |groups| == 1 then
      |s| == groups[0] && AllHex(s)
    else
      |s| > groups[0] && AllHex(s[..groups[0]]) && s[groups[0]] == '-' &&
      MatchesGroups(s[groups[0] + 1..], groups[1..])
  }

  predicate IsValidUuid(s: string) {
    MatchesGroups(s, UuidGroups)
  }

  /** Length of any string that matches `groups`: the runs plus one hyphen between each two. */
  function Span(groups: seq<nat>): nat
    requires |groups| > 0
    decreases |groups|
  {
    if |groups| == 1 then groups[0] else groups[0] + 1 + Span(groups[1..])
  }

  /** Position `i` of a matching string holds a hyphen rather than a hex digit. */
  predicate IsSeparator(groups: seq<nat>, i: int)
    requires |groups| > 0
    decreases |groups|
  {
    |groups| > 1 && (i == groups[0] || (i > groups[0] && IsSeparator(groups[1..], i - groups[0] - 1)))
  }

  /** Character-by-character reading of the grouped pattern. */
  predicate Layout(s: string, groups: seq<nat>)
    requires |groups| > 0
  {
    |s| == Span(groups) &&
    forall i :: 0 <= i < |s| ==> if IsSeparator(groups, i) then s[i] == '-' else IsHexDigit(s[i])
  }

  /** A string matches the grouped pattern exactly when it has the pattern's
      length, hyphens at the separator positions and hex digits elsewhere. */
  lemma {:induction false} MatchesGroupsLayout(s: string, groups: seq<nat>)
    requires |groups| > 0
    ensures MatchesGroups(s, groups) <==> Layout(s, groups)
    decreases |groups|
  {
    if |groups| > 1 {
      var n := groups[0];
      var rest := groups[1..];
      if |s| > n {
        var t := s[n + 1..];
        MatchesGroupsLayout(t, rest);
        if MatchesGroups(s, groups) {
          forall i | 0 <= i < |s|
            ensures if IsSeparator(groups, i) then s[i] == '-' else IsHexDigit(s[i])
          {
            if i > n {
              assert s[i] == t[i - n - 1];
            } else if i < n {
              assert s[i] == s[..n][i];
            }
          }
        }
        if Layout(s, groups) {
          forall i | 0 <= i < |t|
            ensures if IsSeparator(rest, i) then t[i] == '-' else IsHexDigit(t[i])
          {
            assert t[i] == s[i + n + 1];
            assert IsSeparator(groups, i + n + 1) == IsSeparator(rest, i);
          }
          forall i | 0 <= i < n ensures IsHexDigit(s[..n][i]) {
            assert !IsSeparator(groups, i);
          }
        }
      }
    }
  }

  predicate IsHyphenPosition(i: int) {
    i == 8 || i == 13 || i == 18 || i == 23
  }

  /** The regular expression accepts exactly the 36-character strings with
      hyphens at positions 8, 13, 18 and 23 and a hex digit, of either case,
      everywhere else. */
  lemma UuidShape(s: string)
    ensures IsValidUuid(s) <==>
      |s| == 36 &&
      forall i :: 0 <= i < |s| ==> if IsHyphenPosition(i) then s[i] == '-' else IsHexDigit(s[i])
  {
    MatchesGroupsLayout(s, UuidGroups);
    assert Span(UuidGroups) == 36;
    forall i ensures IsSeparator(UuidGroups, i) == IsHyphenPosition(i) {
      assert UuidGroups[1..] == [4, 4, 4, 12];
      assert UuidGroups[1..][1..] == [4, 4, 12];
      assert UuidGroups[1..][1..][1..] == [4, 12];
      assert UuidGroups[1..][1..][1..][1..] == [12];
    }
  }

  /** Upper-case hex digits are accepted; the same digits without hyphens,
      or with a trailing newline, are not. */
  lemma UuidExamples()
    ensures IsValidUuid("123E4567-e89b-12d3-A456-426614174000")
    ensures !IsValidUuid("123e4567e89b12d3a456426614174000")
    ensures !IsValidUuid("123e4567-e89b-12d3-a456-426614174000\n")
  {
    UuidShape("123E4567-e89b-12d3-A456-426614174000");
    UuidShape("123e4567e89b12d3a456426614174000");
    UuidShape("123e4567-e89b-12d3-a456-426614174000\n");
  }
}
