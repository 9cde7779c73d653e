/**
 * The regular-expression tests of `seo-analyzer.js`, for patterns that are
 * literal text: `text.match(/<h2/g)` and `body.includes('<ul')` (plain,
 * case-sensitive), `text.match(new RegExp('\\b' + keyword + '\\b', 'gi'))`
 * (ignoring case, bounded by `\b`), and the one pattern with a class,
 * `body.match(/<a[^>]*>/g)`.
 */
module Matching {
  import opened Text

  /** `\b` at position `p` of `t`: a word character on exactly one side. */
  predicate IsBoundary(t: string, p: nat)
    requires p <= |t|
  {
    (p > 0 && IsWordChar(t[p - 1])) != (p < |t| && IsWordChar(t[p]))
  }

  /**
   * The literal `pattern` matches `t` at position `i`: its characters are
   * there (up to case under the `i` flag) and, for `\b...\b`, both of its
   * ends are word boundaries.
   */
  predicate MatchesAt(t: string, pattern: string, i: nat, ignoreCase: bool, wordBounded: bool)
    requires i + |pattern| <= |t|
  {
    (if ignoreCase then Lower(t[i..i + |pattern|]) == Lower(pattern) else t[i..i + |pattern|] == pattern)
    && (wordBounded ==> IsBoundary(t, i) && IsBoundary(t, i + |pattern|))
  }

  /**
   * `(t.match(regex) || []).length` for a global regex that is the literal
   * `pattern`, searching from `i`: matches are taken left to right and do
   * not overlap; after an empty match the search moves on by one.
   */
  function MatchCount(t: string, pattern: string, ignoreCase: bool, wordBounded: bool, i: nat): nat
    decreases |t| + 1 - i
  {
    if i + |pattern| > |t| then 0
    else if MatchesAt(t, pattern, i, ignoreCase, wordBounded) then
      1 + MatchCount(t, pattern, ignoreCase, wordBounded, i + (if |pattern| == 0 then 1 else |pattern|))
    else
      MatchCount(t, pattern, ignoreCase, wordBounded, i + 1)
  }

  /** The search finds something exactly when there is a match at or after `i`. */
  lemma {:induction false} MatchCountPositive(t: string, pattern: string, ignoreCase: bool, wordBounded: bool, i: nat)
    ensures MatchCount(t, pattern, ignoreCase, wordBounded, i) > 0
            <==> exists j: nat :: i <= j && j + |pattern| <= |t| && MatchesAt(t, pattern, j, ignoreCase, wordBounded)
    decreases |t| + 1 - i
  {
    if i + |pattern| > |t| {
    } else if MatchesAt(t, pattern, i, ignoreCase, wordBounded) {
    } else {
      MatchCountPositive(t, pattern, ignoreCase, wordBounded, i + 1);
      forall j: nat | i <= j && j + |pattern| <= |t| && MatchesAt(t, pattern, j, ignoreCase, wordBounded)
        ensures i + 1 <= j
      {
      }
    }
  }

  /** Matches of a non-empty pattern do not overlap: together they fit in what is searched. */
  lemma {:induction false} MatchCountBound(t: string, pattern: string, ignoreCase: bool, wordBounded: bool, i: nat)
    requires |pattern| > 0 && i <= |t|
    ensures MatchCount(t, pattern, ignoreCase, wordBounded, i) * |pattern| <= |t| - i
    decreases |t| + 1 - i
  {
    if i + |pattern| > |t| {
    } else if MatchesAt(t, pattern, i, ignoreCase, wordBounded) {
      var n := MatchCount(t, pattern, ignoreCase, wordBounded, i + |pattern|);
      MatchCountBound(t, pattern, ignoreCase, wordBounded, i + |pattern|);
      SuccTimes(n, |pattern|);
    } else {
      MatchCountBound(t, pattern, ignoreCase, wordBounded, i + 1);
    }
  }

  lemma SuccTimes(n: nat, k: nat)
    ensures (1 + n) * k == k + n * k
  {
  }

  /** `s.includes(p)`. */
  predicate Contains(s: string, p: string) {
    exists j: nat :: j + |p| <= |s| && MatchesAt(s, p, j, false, false)
  }

  /** `(s.match(/p/g) || []).length` for a literal `p`, as the HTML checks use it. */
  function Occurrences(s: string, p: string): nat {
    MatchCount(s, p, false, false, 0)
  }

  /** A literal occurs a positive number of times exactly when the text includes it. */
  lemma OccurrencesPositive(s: string, p: string)
    ensures Occurrences(s, p) > 0 <==> Contains(s, p)
  {
    MatchCountPositive(s, p, false, false, 0);
  }

  /**
   * `countKeywordOccurrences`: `(text.match(new RegExp('\\b' + keyword + '\\b', 'gi')) || []).length`,
   * with the keyword read as literal text.
   */
  function KeywordOccurrences(text: string, keyword: string): nat {
    MatchCount(text, keyword, true, true, 0)
  }

  /** A keyword is counted at least once exactly when it occurs somewhere as a whole word or phrase. */
  lemma KeywordOccurrencesPositive(text: string, keyword: string)
    ensures KeywordOccurrences(text, keyword) > 0
            <==> exists j: nat :: j + |keyword| <= |text| && MatchesAt(text, keyword, j, true, true)
  {
    MatchCountPositive(text, keyword, true, true, 0);
  }

  /** A non-empty keyword occurs at most `|text| / |keyword|` times. */
  lemma KeywordOccurrencesBound(text: string, keyword: string)
    requires |keyword| > 0
    ensures KeywordOccurrences(text, keyword) * |keyword| <= |text|
  {
    MatchCountBound(text, keyword, true, true, 0);
  }

  /** Nothing occurs in the empty text, not even the empty keyword (no `\b` there). */
  lemma KeywordOccurrencesEmptyText(keyword: string)
    ensures KeywordOccurrences("", keyword) == 0
  {
    if keyword == [] {
      assert !IsBoundary("", 0);
      assert !MatchesAt("", keyword, 0, true, true);
    }
  }

  /** `<a` at `p` followed, further on at `q`, by the `>` of `<a[^>]*>`. */
  predicate IsLinkTag(s: string, p: nat, q: nat) {
    p + 1 < q < |s| && s[p] == '<' && s[p + 1] == 'a' && s[q] == '>'
  }

  /**
   * `(s.match(/<a[^>]*>/g) || []).length` from `i`: every `<a` followed by
   * some `>` starts a match, which ends at the first `>` after the `<a`.
   */
  function LinkCount(s: string, i: nat): nat
    decreases |s| - i
  {
    if i + 2 > |s| then 0
    else if s[i] == '<' && s[i + 1] == 'a' && IndexOf(s[i + 2..], '>') >= 0 then
      1 + LinkCount(s, i + 2 + IndexOf(s[i + 2..], '>') + 1)
    else
      LinkCount(s, i + 1)
  }

  /** The link search finds something exactly when some `<a`, at or after `i`, has a `>` after it. */
  lemma {:induction false} LinkCountPositive(s: string, i: nat)
    ensures LinkCount(s, i) > 0 <==> exists p: nat, q: nat :: i <= p && IsLinkTag(s, p, q)
    decreases |s| - i
  {
    if i + 2 > |s| {
    } else if s[i] == '<' && s[i + 1] == 'a' && IndexOf(s[i + 2..], '>') >= 0 {
      var e := IndexOf(s[i + 2..], '>');
      assert IsLinkTag(s, i, i + 2 + e);
    } else {
      LinkCountPositive(s, i + 1);
    }
  }

  /** The body has a link: some `<a` is followed by a `>`. */
  ghost predicate HasLinkTag(s: string) {
    exists p: nat, q: nat :: IsLinkTag(s, p, q)
  }

  lemma LinkCountPositiveIff(s: string)
    ensures LinkCount(s, 0) > 0 <==> HasLinkTag(s)
  {
    LinkCountPositive(s, 0);
  }
}
