/**
 * The string primitives the helper relies on: `String.prototype.indexOf`,
 * `String.prototype.toUpperCase` (on ASCII letters) and the regular
 * expression `/{.*}$/` that extracts a trailing JSON object from a message.
 * Each comes with an independent, declarative characterisation.
 */
module Strings {
  import opened Wrappers

  /** `t` occurs in `s` starting at index `i`. */
  predicate OccursAt(s: string, t: string, i: int)
  {
    0 <= i && i + |t| <= |s| && s[i..i + |t|] == t
  }

  /** `t` is a substring of `s`. */
  ghost predicate Contains(s: string, t: string)
  {
    exists i :: OccursAt(s, t, i)
  }

  /** Dropping the first character shifts every occurrence one place left. */
  lemma ShiftOccurrence(s: string, t: string, j: int)
    requires |s| > 0 && 1 <= j
    ensures OccursAt(s, t, j) <==> OccursAt(s[1..], t, j - 1)
  {
  }

  /** `s.indexOf(t)`: the first index at which `t` occurs in `s`, or -1. */
  function IndexOf(s: string, t: string): (r: int)
    ensures r == -1 || OccursAt(s, t, r)
    ensures forall i :: 0 <= i && (r == -1 || i < r) ==> !OccursAt(s, t, i)
    ensures r > -1 <==> Contains(s, t)
    decreases |s|
  {
    if |s| < |t| then -1
    else if s[..|t|] == t then 0
    else
      var k := IndexOf(s[1..], t);
      assert forall j :: 1 <= j ==> (OccursAt(s, t, j) <==> OccursAt(s[1..], t, j - 1)) by {
        forall j | 1 <= j ensures OccursAt(s, t, j) <==> OccursAt(s[1..], t, j - 1) {
          ShiftOccurrence(s, t, j);
        }
      }
      assert !OccursAt(s, t, 0);
      if k == -1 then -1 else k + 1
  }

  /** Upper-casing of one character; only ASCII letters change. */
  function UpperChar(c: char): char
  {
    if 'a' <= c <= 'z' then (c as int - 32) as char else c
  }

  /** `s.toUpperCase()` restricted to ASCII letters. */
  function ToUpper(s: string): (u: string)
    ensures |u| == |s|
    ensures forall i :: 0 <= i < |s| ==> u[i] == UpperChar(s[i])
  {
    if s == [] then [] else [UpperChar(s[0])] + ToUpper(s[1..])
  }

  /** A character that `.` in a JavaScript regular expression does not match. */
  predicate LineTerminator(c: char)
  {
    c == '\n' || c == '\r' || c == '\U{2028}' || c == '\U{2029}'
  }

  /**
   * `/{.*}$/` matches `s` starting at `i`: a `{` at `i`, a `}` as the last
   * character (after `i`), and no line terminator strictly between them.
   */
  predicate ObjectAt(s: string, i: int)
  {
    && 0 <= i < |s| - 1
    && s[i] == '{'
    && s[|s| - 1] == '}'
    && forall k :: i < k < |s| - 1 ==> !LineTerminator(s[k])
  }

  /** The leftmost match position at or after `i`, as the regex engine scans. */
  function FirstObjectFrom(s: string, i: nat): (r: Option<nat>)
    requires i <= |s|
    ensures r.Some? ==> i <= r.value && ObjectAt(s, r.value)
    ensures r.Some? ==> forall j :: i <= j < r.value ==> !ObjectAt(s, j)
    ensures r.None? ==> forall j :: i <= j ==> !ObjectAt(s, j)
    decreases |s| - i
  {
    if i == |s| then None
    else if ObjectAt(s, i) then Some(i)
    else FirstObjectFrom(s, i + 1)
  }

  /**
   * `s.match(/{.*}$/)[0]` when the match succeeds: the suffix of `s` that
   * starts at the leftmost position where the pattern matches.
   */
  function TrailingObject(s: string): (r: Option<string>)
    ensures r.None? <==> forall i :: !ObjectAt(s, i)
    ensures r.Some? ==> exists i :: ObjectAt(s, i) && r.value == s[i..]
                                    && forall j :: 0 <= j < i ==> !ObjectAt(s, j)
  {
    match FirstObjectFrom(s, 0)
    case None => None
    case Some(i) => Some(s[i..])
  }

  /** Every match of `/{.*}$/` starts with a `{`, so the message contains one. */
  lemma {:induction false} ObjectImpliesBrace(s: string, i: int)
    requires ObjectAt(s, i)
    ensures Contains(s, "{")
  {
    assert s[i..i + 1] == [s[i]];
    assert OccursAt(s, "{", i);
  }
}
