/**
 * The JavaScript string built-ins the monitor relies on: `toLowerCase`,
 * `toUpperCase` (on one character) and `includes`.
 *
 * Case mapping is modelled for the ASCII letters and for the basic Cyrillic
 * block, which holds the Ukrainian alphabet the provider writes its labels in:
 * U+0410..U+042F map to U+0430..U+044F, U+0400..U+040F to U+0450..U+045F,
 * and U+0490 (Ghe with upturn) to U+0491. Every other character maps to itself.
 */
module JsStrings {

  /** `c` has a lower-case counterpart in the modelled ranges. */
  predicate IsUpperCase(c: char) {
    ('A' <= c <= 'Z') || ('\U{0400}' <= c <= '\U{042F}') || c == '\U{0490}'
  }

  /** `c` has an upper-case counterpart in the modelled ranges. */
  predicate IsLowerCase(c: char) {
    ('a' <= c <= 'z') || ('\U{0430}' <= c <= '\U{045F}') || c == '\U{0491}'
  }

  /** One character of `String.prototype.toLowerCase`. */
  function LowerChar(c: char): (r: char)
    ensures !IsUpperCase(r)
    ensures !IsUpperCase(c) ==> r == c
    ensures IsUpperCase(c) ==> IsLowerCase(r) && UpperChar(r) == c
  {
    if 'A' <= c <= 'Z' then (c as int + 0x20) as char
    else if '\U{0410}' <= c <= '\U{042F}' then (c as int + 0x20) as char
    else if '\U{0400}' <= c <= '\U{040F}' then (c as int + 0x50) as char
    else if c == '\U{0490}' then '\U{0491}'
    else c
  }

  /** One character of `String.prototype.toUpperCase`. */
  function UpperChar(c: char): (r: char)
    ensures !IsLowerCase(r)
    ensures !IsLowerCase(c) ==> r == c
    ensures IsLowerCase(c) ==> IsUpperCase(r)
  {
    if 'a' <= c <= 'z' then (c as int - 0x20) as char
    else if '\U{0430}' <= c <= '\U{044F}' then (c as int - 0x20) as char
    else if '\U{0450}' <= c <= '\U{045F}' then (c as int - 0x50) as char
    else if c == '\U{0491}' then '\U{0490}'
    else c
  }

  /** Upper-casing a lower-case letter gives its partner: lower-casing it again gives the letter back. */
  lemma UpperCharRoundTrip(c: char)
    requires IsLowerCase(c)
    ensures LowerChar(UpperChar(c)) == c
  {
  }

  /** `String.prototype.toLowerCase`, one character at a time. */
  function Lower(s: string): (r: string)
    ensures |r| == |s|
    ensures forall i :: 0 <= i < |s| ==> r[i] == LowerChar(s[i])
  {
    if s == [] then [] else [LowerChar(s[0])] + Lower(s[1..])
  }

  /** Lower-casing twice is lower-casing once. */
  lemma LowerIdempotent(s: string)
    ensures Lower(Lower(s)) == Lower(s)
  {
  }

  /** `s` has no upper-case letter. */
  predicate NoUpperCase(s: string) {
    s == [] || (!IsUpperCase(s[0]) && NoUpperCase(s[1..]))
  }

  /** `NoUpperCase` says that no position holds an upper-case letter. */
  lemma {:induction false} NoUpperCaseAt(s: string)
    ensures NoUpperCase(s) <==> forall i :: 0 <= i < |s| ==> !IsUpperCase(s[i])
  {
    if s != [] {
      NoUpperCaseAt(s[1..]);
      assert forall i :: 1 <= i < |s| ==> s[i] == s[1..][i - 1];
    }
  }

  /** A string with no upper-case letter is its own lower-case form. */
  lemma {:induction false} LowerOfLowerCase(s: string)
    requires NoUpperCase(s)
    ensures Lower(s) == s
  {
    NoUpperCaseAt(s);
  }

  /** `s` starts with `k`. */
  predicate StartsWith(s: string, k: string) {
    |k| <= |s| && s[..|k|] == k
  }

  /** `s.includes(k)`: `k` occurs somewhere in `s`, scanning from the left. */
  predicate Contains(s: string, k: string): (r: bool)
    ensures k == [] ==> r
    ensures StartsWith(s, k) ==> r
    ensures r ==> |k| <= |s|
    decreases |s|
  {
    StartsWith(s, k) || (s != [] && Contains(s[1..], k))
  }

  /** `k` occurs in `s` at position `i`. */
  predicate OccursAt(s: string, k: string, i: int) {
    0 <= i <= |s| - |k| && s[i..i + |k|] == k
  }

  /** The left-to-right scan finds `k` exactly when `k` occurs at some position. */
  lemma {:induction false} ContainsIffOccurs(s: string, k: string)
    ensures Contains(s, k) <==> exists i :: OccursAt(s, k, i)
    decreases |s|
  {
    assert StartsWith(s, k) <==> OccursAt(s, k, 0);
    if s != [] {
      ContainsIffOccurs(s[1..], k);
      forall i | OccursAt(s[1..], k, i)
        ensures OccursAt(s, k, i + 1)
      {
        assert s[1..][i..i + |k|] == s[i + 1..i + 1 + |k|];
      }
      forall i | OccursAt(s, k, i) && i > 0
        ensures OccursAt(s[1..], k, i - 1)
      {
        assert s[1..][i - 1..i - 1 + |k|] == s[i..i + |k|];
      }
    } else {
      forall i | OccursAt(s, k, i) ensures i == 0 { }
    }
  }

  /** An occurrence survives lower-casing both strings at the same position. */
  lemma LowerPreservesOccurrence(s: string, k: string, i: int)
    requires OccursAt(s, k, i)
    ensures OccursAt(Lower(s), Lower(k), i)
  {
  }

  /** `includes` after `toLowerCase` on both sides finds every match the raw strings have. */
  lemma {:induction false} LowerPreservesContains(s: string, k: string)
    requires Contains(s, k)
    ensures Contains(Lower(s), Lower(k))
  {
    ContainsIffOccurs(s, k);
    var i :| OccursAt(s, k, i);
    LowerPreservesOccurrence(s, k, i);
    ContainsIffOccurs(Lower(s), Lower(k));
  }
}
