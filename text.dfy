/**
 * Character classes and the tokenisation of `seo-analyzer.js`: the tag
 * stripping `replace(/<[^>]*>/g, ' ')`, `toLowerCase`, `trim`,
 * `split(/\s+/)` and the word counter `countWords` built from them.
 */
module Text {

  /** JavaScript's `\s` (WhiteSpace and LineTerminator), which `trim` also removes. */
  predicate IsSpace(c: char) {
    var n := c as int;
    (0x09 <= n <= 0x0D) || n == 0x20 || n == 0xA0 || n == 0x1680
    || (0x2000 <= n <= 0x200A) || n == 0x2028 || n == 0x2029 || n == 0x202F
    || n == 0x205F || n == 0x3000 || n == 0xFEFF
  }

  /** JavaScript's `\w` without the `u` flag: ASCII letters, digits and `_`. */
  predicate IsWordChar(c: char) {
    ('a' <= c <= 'z') || ('A' <= c <= 'Z') || ('0' <= c <= '9') || c == '_'
  }

  predicate IsUpper(c: char) {
    'A' <= c <= 'Z'
  }

  /** `toLowerCase` on one character, for the ASCII letters. */
  function LowerChar(c: char): (r: char)
    ensures !IsUpper(r)
    ensures IsSpace(r) == IsSpace(c) && IsWordChar(r) == IsWordChar(c)
    ensures !IsUpper(c) ==> r == c
    ensures IsUpper(c) ==> r as int == c as int + 32
  {
    if IsUpper(c) then (c as int + 32) as char else c
  }

  /** `toLowerCase` on a string: same length, each character lower-cased, no upper-case letter left. */
  function Lower(s: string): (r: string)
    ensures |r| == |s|
    ensures forall i :: 0 <= i < |s| ==> r[i] == LowerChar(s[i])
    ensures forall i :: 0 <= i < |r| ==> !IsUpper(r[i])
  {
    seq(|s|, i requires 0 <= i < |s| => LowerChar(s[i]))
  }

  lemma LowerIdempotent(s: string)
    ensures Lower(Lower(s)) == Lower(s)
  {
  }

  /** `s.indexOf(c)`: the first position of `c` in `s`, or -1 when there is none. */
  function IndexOf(s: string, c: char): (r: int)
    ensures -1 <= r < |s|
    ensures r == -1 <==> c !in s
    ensures 0 <= r ==> s[r] == c && c !in s[..r]
  {
    if s == [] then -1
    else if s[0] == c then 0
    else
      var r := IndexOf(s[1..], c);
      assert r >= 0 ==> s[..r + 1] == [s[0]] + s[1..][..r];
      if r == -1 then -1 else r + 1
  }

  /**
   * `s.replace(/<[^>]*>/g, ' ')`: a `<` that has a `>` somewhere after it
   * opens a tag that ends at the first such `>`, and the whole tag becomes
   * one space; a `<` with no `>` after it stays as it is.
   */
  function StripTags(s: string): (r: string)
    ensures |r| <= |s|
    decreases |s|
  {
    if s == [] then []
    else if s[0] == '<' && IndexOf(s, '>') >= 0 then
      " " + StripTags(s[IndexOf(s, '>') + 1..])
    else
      [s[0]] + StripTags(s[1..])
  }

  /** No `<` of `s` is followed, anywhere later, by a `>`: `s` holds no tag. */
  predicate HasNoTag(s: string) {
    forall i, j :: 0 <= i < j < |s| && s[i] == '<' ==> s[j] != '>'
  }

  /** A string without `<`, or without `>`, holds no tag and is left as it is. */
  lemma {:induction false} StripTagsWithoutTag(s: string)
    requires '<' !in s || '>' !in s
    ensures StripTags(s) == s
    decreases |s|
  {
    if s != [] {
      assert '<' !in s[1..] || '>' !in s[1..];
      StripTagsWithoutTag(s[1..]);
    }
  }

  /** A character other than `<` in front of a string without tags opens none. */
  lemma PrefixKeepsNoTag(c: char, t: string)
    requires c != '<' && HasNoTag(t)
    ensures HasNoTag([c] + t)
  {
    var r := [c] + t;
    forall i, j | 0 <= i < j < |r| && r[i] == '<' ensures r[j] != '>' {
      assert r[i] == t[i - 1] && r[j] == t[j - 1];
    }
  }

  /** What tag stripping leaves holds no tag. */
  lemma {:induction false} StripTagsRemovesTags(s: string)
    ensures HasNoTag(StripTags(s))
    decreases |s|
  {
    if s == [] {
    } else if s[0] == '<' && IndexOf(s, '>') >= 0 {
      var rest := s[IndexOf(s, '>') + 1..];
      StripTagsRemovesTags(rest);
      PrefixKeepsNoTag(' ', StripTags(rest));
    } else if s[0] == '<' {
      StripTagsWithoutTag(s);
    } else {
      StripTagsRemovesTags(s[1..]);
      PrefixKeepsNoTag(s[0], StripTags(s[1..]));
    }
  }

  /** Text without `<` in front of `t` passes through tag stripping unchanged. */
  lemma {:induction false} StripTagsPlainPrefix(a: string, t: string)
    requires '<' !in a
    ensures StripTags(a + t) == a + StripTags(t)
    decreases |a|
  {
    if a != [] {
      var s := a + t;
      assert s[0] == a[0] && s[1..] == a[1..] + t;
      assert StripTags(s) == [s[0]] + StripTags(s[1..]);
      StripTagsPlainPrefix(a[1..], t);
      assert a == [a[0]] + a[1..];
    } else {
      assert a + t == t;
    }
  }

  /** A tag `<...>` in front of `t` becomes one space. */
  lemma StripTagsTag(tag: string, t: string)
    requires |tag| >= 2 && tag[0] == '<' && tag[|tag| - 1] == '>' && '>' !in tag[..|tag| - 1]
    ensures StripTags(tag + t) == " " + StripTags(t)
  {
    var s := tag + t;
    var k := |tag| - 1;
    assert s[..k] == tag[..k] && s[k] == '>';
    var r := IndexOf(s, '>');
    assert r >= 0 by { assert s[k] in s; }
    assert s[k + 1..] == t;
  }

  /** Length of the longest prefix of `s` made only of whitespace (`space`) or only of other characters. */
  function Span(s: string, space: bool): (k: nat)
    ensures k <= |s|
    ensures forall i :: 0 <= i < k ==> IsSpace(s[i]) == space
    ensures k < |s| ==> IsSpace(s[k]) != space
  {
    if s == [] || IsSpace(s[0]) != space then 0 else 1 + Span(s[1..], space)
  }

  /**
   * `s.split(/\s+/)`: the fields between maximal whitespace runs, the empty
   * ones before a leading or after a trailing run included; `"".split` is `[""]`.
   */
  function Split(s: string): (fields: seq<string>)
    ensures |fields| >= 1
    decreases |s|
  {
    var k := Span(s, false);
    if k == |s| then [s]
    else
      var m := k + Span(s[k..], true);
      [s[..k]] + Split(s[m..])
  }

  /** `fields.filter(word => word.length > 0)`. */
  function NonEmpty(fields: seq<string>): (r: seq<string>)
    ensures |r| <= |fields|
    ensures forall f :: f in r <==> f in fields && f != ""
  {
    if fields == [] then []
    else (if fields[0] == "" then [] else [fields[0]]) + NonEmpty(fields[1..])
  }

  /** The filter keeps every non-empty field as often as it occurs, and drops only the empty ones. */
  lemma {:induction false} NonEmptyMultiset(fields: seq<string>)
    ensures multiset(NonEmpty(fields)) == multiset(fields)["" := 0]
    decreases |fields|
  {
    if fields != [] {
      NonEmptyMultiset(fields[1..]);
      assert fields == [fields[0]] + fields[1..];
    }
  }

  /** The input without its leading whitespace, all of which is removed. */
  function TrimStart(s: string): (r: string)
    ensures |r| <= |s| && r == s[|s| - |r|..]
    ensures r == [] || !IsSpace(r[0])
    ensures forall i :: 0 <= i < |s| - |r| ==> IsSpace(s[i])
  {
    if s != [] && IsSpace(s[0]) then TrimStart(s[1..]) else s
  }

  /** The input without its trailing whitespace, all of which is removed. */
  function TrimEnd(s: string): (r: string)
    ensures |r| <= |s| && r == s[..|r|]
    ensures r == [] || !IsSpace(r[|r| - 1])
    ensures forall i :: |r| <= i < |s| ==> IsSpace(s[i])
  {
    if s != [] && IsSpace(s[|s| - 1]) then TrimEnd(s[..|s| - 1]) else s
  }

  /**
   * `s.trim()`: the text between the leading and the trailing whitespace,
   * neither end of it whitespace. With `t` the input after its leading
   * whitespace (a suffix of `s`), the result is a prefix of `t`, and only
   * whitespace precedes `t` in `s` and follows the result in `t`.
   */
  function Trim(s: string): (r: string)
    ensures |r| <= |s|
    ensures r == [] || (!IsSpace(r[0]) && !IsSpace(r[|r| - 1]))
    ensures var t := TrimStart(s);
            t == s[|s| - |t|..] && (forall i :: 0 <= i < |s| - |t| ==> IsSpace(s[i]))
            && |r| <= |t| && r == t[..|r|] && (forall i :: |r| <= i < |t| ==> IsSpace(t[i]))
  {
    TrimEnd(TrimStart(s))
  }

  /** `countWords`: strip the tags, trim, split on whitespace runs, keep the non-empty fields. */
  function CountWords(text: string): nat {
    |NonEmpty(Split(Trim(StripTags(text))))|
  }

  /**
   * The number of maximal runs in `s` of whitespace characters (`space`) or
   * of other characters (`!space`). `starts` says whether a run may start at
   * the first character: the character before `s` is of the other kind, or
   * there is none.
   */
  function Runs(s: string, space: bool, starts: bool): nat {
    if s == [] then 0
    else (if starts && IsSpace(s[0]) == space then 1 else 0) + Runs(s[1..], space, IsSpace(s[0]) != space)
  }

  /** The number of maximal runs of non-whitespace characters: the words of `s`. */
  function WordRuns(s: string): nat {
    Runs(s, false, true)
  }

  /** The number of maximal runs of whitespace characters of `s`. */
  function SpaceRuns(s: string): nat {
    Runs(s, true, true)
  }

  /** A non-empty block of characters of one kind counts at most once, at its start. */
  lemma {:induction false} RunsBlock(s: string, k: nat, kind: bool, space: bool, starts: bool)
    requires 0 < k <= |s|
    requires forall i :: 0 <= i < k ==> IsSpace(s[i]) == kind
    ensures Runs(s, space, starts) == (if starts && kind == space then 1 else 0) + Runs(s[k..], space, kind != space)
    decreases k
  {
    if k > 1 {
      RunsBlock(s[1..], k - 1, kind, space, kind != space);
      assert s[1..][k - 1..] == s[k..];
    }
  }

  /** After its first field and the whitespace run that ends it, `Split` starts again. */
  lemma {:induction false} SplitStep(s: string)
    requires Span(s, false) < |s|
    ensures Split(s) == [s[..Span(s, false)]] + Split(s[Span(s, false) + Span(s[Span(s, false)..], true)..])
    ensures |Split(s)| == 1 + |Split(s[Span(s, false) + Span(s[Span(s, false)..], true)..])|
  {
  }

  /** A run cannot start at a character of the other kind, so `starts` does not matter there. */
  lemma {:induction false} RunsStartIrrelevant(t: string, space: bool)
    requires t == [] || IsSpace(t[0]) != space
    ensures Runs(t, space, false) == Runs(t, space, true)
  {
  }

  /**
   * A string of a leading word (possibly empty) and a whitespace run, then
   * `s[k + j..]`: word and whitespace runs of the whole in terms of the rest.
   */
  lemma {:induction false} RunsAfterFirstField(s: string, k: nat, j: nat)
    requires k == Span(s, false) && k < |s| && j == Span(s[k..], true)
    ensures k + j <= |s|
    ensures Runs(s, true, true) == 1 + Runs(s[k + j..], true, true)
    ensures Runs(s, false, true) == (if k > 0 then 1 else 0) + Runs(s[k + j..], false, true)
  {
    var t := s[k..];
    assert t[j..] == s[k + j..];
    RunsBlock(t, j, true, true, true);
    RunsBlock(t, j, true, false, false);
    RunsStartIrrelevant(s[k + j..], true);
    if k > 0 {
      RunsBlock(s, k, false, true, true);
      RunsBlock(s, k, false, false, true);
    } else {
      assert s == t;
    }
  }

  /** Split yields one field more than there are whitespace runs. */
  lemma {:induction false} SplitCountsSpaceRuns(s: string)
    ensures |Split(s)| == SpaceRuns(s) + 1
    decreases |s|
  {
    var k := Span(s, false);
    if k == |s| {
      assert Split(s) == [s];
      if k > 0 {
        RunsBlock(s, k, false, true, true);
      }
    } else {
      var j := Span(s[k..], true);
      var rest := s[k + j..];
      SplitStep(s);
      RunsAfterFirstField(s, k, j);
      SplitCountsSpaceRuns(rest);
    }
  }

  /** The non-empty fields of a split are exactly the words. */
  lemma {:induction false} SplitCountsWordRuns(s: string)
    ensures |NonEmpty(Split(s))| == WordRuns(s)
    decreases |s|
  {
    var k := Span(s, false);
    if k == |s| {
      if k > 0 {
        RunsBlock(s, k, false, false, true);
      }
    } else {
      var j := Span(s[k..], true);
      SplitStep(s);
      RunsAfterFirstField(s, k, j);
      SplitCountsWordRuns(s[k + j..]);
      var fields := Split(s);
      assert fields[0] == s[..k] && fields[1..] == Split(s[k + j..]);
      assert NonEmpty(fields) == (if s[..k] == "" then [] else [s[..k]]) + NonEmpty(Split(s[k + j..]));
    }
  }

  lemma {:induction false} TrimStartKeepsWords(s: string)
    ensures WordRuns(TrimStart(s)) == WordRuns(s)
    decreases |s|
  {
    if s != [] && IsSpace(s[0]) {
      TrimStartKeepsWords(s[1..]);
    }
  }

  lemma {:induction false} DropTrailingSpace(s: string, starts: bool)
    requires s != [] && IsSpace(s[|s| - 1])
    ensures Runs(s, false, starts) == Runs(s[..|s| - 1], false, starts)
    decreases |s|
  {
    if |s| > 1 {
      DropTrailingSpace(s[1..], IsSpace(s[0]));
      assert s[..|s| - 1][1..] == s[1..][..|s| - 2];
    }
  }

  lemma {:induction false} TrimEndKeepsWords(s: string)
    ensures WordRuns(TrimEnd(s)) == WordRuns(s)
    decreases |s|
  {
    if s != [] && IsSpace(s[|s| - 1]) {
      DropTrailingSpace(s, true);
      TrimEndKeepsWords(s[..|s| - 1]);
    }
  }

  /** Lower-casing changes no character's whitespace class, so no run count. */
  lemma {:induction false} LowerKeepsRuns(s: string, space: bool, starts: bool)
    ensures Runs(Lower(s), space, starts) == Runs(s, space, starts)
    decreases |s|
  {
    if s != [] {
      assert Lower(s)[1..] == Lower(s[1..]);
      LowerKeepsRuns(s[1..], space, IsSpace(s[0]) != space);
    }
  }

  /**
   * Word runs and whitespace runs alternate: after a whitespace character
   * the next run to start is a word, after a word character a whitespace run.
   */
  lemma {:induction false} RunsAlternate(s: string, afterSpace: bool)
    ensures afterSpace ==> Runs(s, true, false) <= Runs(s, false, true) <= Runs(s, true, false) + 1
    ensures !afterSpace ==> Runs(s, false, false) <= Runs(s, true, true) <= Runs(s, false, false) + 1
    decreases |s|
  {
    if s != [] {
      RunsAlternate(s[1..], IsSpace(s[0]));
    }
  }

  /** `countWords` counts the maximal non-whitespace runs left once the tags are stripped. */
  lemma CountWordsCountsRuns(text: string)
    ensures CountWords(text) == WordRuns(StripTags(text))
  {
    var t := StripTags(text);
    SplitCountsWordRuns(Trim(t));
    TrimEndKeepsWords(TrimStart(t));
    TrimStartKeepsWords(t);
  }

  /** The number of fields of a split differs from the number of words by 0, 1 or 2. */
  lemma SplitExceedsWords(s: string)
    ensures WordRuns(s) <= |Split(s)| <= WordRuns(s) + 2
    ensures |Split(s)| == SpaceRuns(s) + 1
  {
    SplitCountsSpaceRuns(s);
    if s != [] {
      RunsAlternate(s[1..], IsSpace(s[0]));
    }
  }

  /** `RunsBlock` for a block written as the front of a concatenation. */

  lemma RunsBlockAhead(a: string, t: string, kind: bool, space: bool, starts: bool)
    requires a != [] && forall i :: 0 <= i < |a| ==> IsSpace(a[i]) == kind
    ensures Runs(a + t, space, starts) == (if starts && kind == space then 1 else 0) + Runs(t, space, kind != space)
  {
    RunsBlock(a + t, |a|, kind, space, starts);
    assert (a + t)[|a|..] == t;
  }

  /** A word that contains neither whitespace nor tag markup. */
  predicate IsPlainWord(w: string) {
    w != [] && '<' !in w && forall i :: 0 <= i < |w| ==> !IsSpace(w[i])
  }

  /** Stripping `w</b></p>` leaves `w` and a space for each closing tag. */
  lemma StripClosingTags(w: string)
    requires IsPlainWord(w)
    ensures StripTags(w + ("</b>" + "</p>")) == w + (" " + " ")
  {
    var a5 := "</p>";
    StripTagsTag(a5, "");
    assert a5 + "" == a5;
    assert StripTags(a5) == " ";
    var a4 := "</b>" + a5;
    StripTagsTag("</b>", a5);
    assert StripTags(a4) == " " + " ";
    StripTagsPlainPrefix(w, a4);
  }

  /** Stripping the tags of a paragraph with a word and a bold word leaves a space for each tag. */
  lemma StripParagraph(w1: string, w2: string)
    requires IsPlainWord(w1) && IsPlainWord(w2)
    ensures StripTags("<p>" + (w1 + (" " + ("<b>" + (w2 + ("</b>" + "</p>"))))))
            == " " + (w1 + (" " + (" " + (w2 + (" " + " ")))))
  {
    var a3 := w2 + ("</b>" + "</p>");
    StripClosingTags(w2);
    var a2 := "<b>" + a3;
    StripTagsTag("<b>", a3);
    assert StripTags(a2) == " " + (w2 + (" " + " "));
    var a1' := " " + a2;
    StripTagsPlainPrefix(" ", a2);
    assert StripTags(a1') == " " + (" " + (w2 + (" " + " ")));
    var a1 := w1 + a1';
    StripTagsPlainPrefix(w1, a1');
    assert StripTags(a1) == w1 + (" " + (" " + (w2 + (" " + " "))));
    StripTagsTag("<p>", a1);
  }

  /** Two plain words separated and surrounded by whitespace make two word runs. */
  lemma TwoWordRuns(w1: string, w2: string)
    requires IsPlainWord(w1) && IsPlainWord(w2)
    ensures WordRuns(" " + (w1 + (" " + (" " + (w2 + (" " + " ")))))) == 2
  {
    var x6 := " ";
    var x5 := " " + x6;
    var x4 := w2 + x5;
    var x3 := " " + x4;
    var x2 := " " + x3;
    var x1 := w1 + x2;
    RunsBlockAhead(" ", x6, true, false, false);
    RunsBlockAhead(w2, x5, false, false, true);
    RunsBlockAhead(" ", x4, true, false, true);
    RunsBlockAhead(" ", x3, true, false, false);
    RunsBlockAhead(w1, x2, false, false, true);
    RunsBlockAhead(" ", x1, true, false, true);
  }

  /** A paragraph holding a word and a bold word counts two words: the tags add none. */
  lemma CountWordsParagraph(w1: string, w2: string)
    requires IsPlainWord(w1) && IsPlainWord(w2)
    ensures CountWords("<p>" + (w1 + (" " + ("<b>" + (w2 + ("</b>" + "</p>")))))) == 2
  {
    var s := "<p>" + (w1 + (" " + ("<b>" + (w2 + ("</b>" + "</p>")))));
    CountWordsCountsRuns(s);
    StripParagraph(w1, w2);
    TwoWordRuns(w1, w2);
  }

  /** The example `"<p>Hello <b>world</b></p>"` has 2 words. */
  lemma CountWordsExample() ensures CountWords("<p>Hello <b>world</b></p>") == 2 {
    assert "<p>Hello <b>world</b></p>" == "<p>" + ("Hello" + (" " + ("<b>" + ("world" + ("</b>" + "</p>")))));
    CountWordsParagraph("Hello", "world");
  }
}
