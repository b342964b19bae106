/**
 * The string operations of JavaScript that the core relies on:
 * `String.prototype.indexOf`, `replace` with a string pattern, `endsWith`,
 * regular-expression containment of a literal, and `Array.prototype.join`.
 */
module Text {
  import opened Wrappers

  /** `p` occurs in `s` starting at index `i`. */
  predicate OccursAt(s: string, p: string, i: nat)
  {
    i + |p| <= |s| && s[i..i + |p|] == p
  }

  /** `p` occurs somewhere in `s`: what `/p/.test(s)` decides for a literal `p`. */
  predicate Contains(s: string, p: string)
  {
    exists i: nat | i <= |s| :: OccursAt(s, p, i)
  }

  /** `i` is the leftmost index at which `p` occurs in `s`. */
  predicate FirstOccurrence(s: string, p: string, i: nat)
  {
    OccursAt(s, p, i) && forall j: nat | j < i :: !OccursAt(s, p, j)
  }

  /** `s.endsWith(suffix)`. */
  predicate EndsWith(s: string, suffix: string)
  {
    |suffix| <= |s| && s[|s| - |suffix|..] == suffix
  }

  /** An occurrence in `s` past index 0 is an occurrence in `s[1..]`, one place earlier. */
  lemma OccurrencesInTail(s: string, p: string)
    requires |s| > 0
    ensures forall j: nat | 1 <= j :: OccursAt(s, p, j) <==> OccursAt(s[1..], p, j - 1)
  {
    var tail := s[1..];
    forall j: nat | 1 <= j
      ensures OccursAt(s, p, j) <==> OccursAt(tail, p, j - 1)
    {
      if j + |p| <= |s| {
        var here, there := s[j..j + |p|], tail[j - 1..j - 1 + |p|];
        assert forall k :: 0 <= k < |p| ==> here[k] == there[k];
        assert here == there;
      }
    }
  }

  /** `s.indexOf(p)`: the leftmost occurrence, or None where JavaScript answers -1. */
  function IndexOf(s: string, p: string): (r: Option<nat>)
    ensures r.Some? ==> FirstOccurrence(s, p, r.value)
    ensures r.None? ==> !Contains(s, p)
    decreases |s|
  {
    if |s| < |p| then None
    else if s[..|p|] == p then Some(0)
    else
      var rest := IndexOf(s[1..], p);
      OccurrencesInTail(s, p);
      assert !OccursAt(s, p, 0);
      match rest
      case None => None
      case Some(k) => Some(k + 1)
  }

  /**
   * `s.replace(p, rep)` with a string pattern: only the leftmost occurrence is
   * replaced, and a string without `p` comes back unchanged.
   */
  function ReplaceFirst(s: string, p: string, rep: string): (r: string)
    ensures !Contains(s, p) ==> r == s
    ensures forall i: nat :: FirstOccurrence(s, p, i) ==> r == s[..i] + rep + s[i + |p|..]
  {
    match IndexOf(s, p)
    case None => s
    case Some(i) => s[..i] + rep + s[i + |p|..]
  }

  /** `parts.join(sep)`. */
  function Join(parts: seq<string>, sep: string): string
  {
    if |parts| == 0 then ""
    else if |parts| == 1 then parts[0]
    else parts[0] + sep + Join(parts[1..], sep)
  }

  /** Every character of `s` is drawn from `alphabet`. */
  predicate DrawnFrom(s: string, alphabet: set<char>)
  {
    forall k :: 0 <= k < |s| ==> s[k] in alphabet
  }

  /** A pattern cannot occur in a string none of whose characters it starts with. */
  lemma {:induction false} NoOccurrenceWithoutFirstChar(s: string, p: string, alphabet: set<char>)
    requires DrawnFrom(s, alphabet)
    requires |p| > 0 && p[0] !in alphabet
    ensures !Contains(s, p)
  {
  }
}
