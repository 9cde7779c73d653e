/**
 * The `SEOAnalyzer` object: its keyword set, which `addKeyword` and
 * `removeKeyword` update in place, and the analysis methods that read it.
 *
 * The JavaScript `Set` is a sequence in insertion order: iterating it, and
 * the `Object.entries` of the densities built from it, visit the keywords
 * in that order.
 */
module Analyzer {
  import opened Text
  import opened Matching
  import opened Scoring

  // ---------------------------------------------------------------------
  // The keyword set, as a value
  // ---------------------------------------------------------------------

  /** A keyword set: lower-case entries, each at most once. */
  predicate IsKeywordSet(ks: seq<string>) {
    (forall i, j :: 0 <= i < j < |ks| ==> ks[i] != ks[j])
    && (forall i :: 0 <= i < |ks| ==> Lower(ks[i]) == ks[i])
  }

  /** `keywords.add(keyword.toLowerCase())`: a new key goes last, a present one stays where it is. */
  function Added(ks: seq<string>, keyword: string): (r: seq<string>)
    ensures forall x :: x in r <==> x in ks || x == Lower(keyword)
    ensures ks <= r && |r| <= |ks| + 1
  {
    var k := Lower(keyword);
    if k in ks then ks else ks + [k]
  }

  /** `ks` without `k`, the others in their order. */
  function RemoveValue(ks: seq<string>, k: string): (r: seq<string>)
    ensures forall x :: x in r <==> x in ks && x != k
    ensures |r| <= |ks|
  {
    if ks == [] then [] else (if ks[0] == k then [] else [ks[0]]) + RemoveValue(ks[1..], k)
  }

  /** `keywords.delete(keyword.toLowerCase())`. */
  function Removed(ks: seq<string>, keyword: string): (r: seq<string>)
    ensures forall x :: x in r <==> x in ks && x != Lower(keyword)
  {
    RemoveValue(ks, Lower(keyword))
  }

  /** Adding keeps the entries lower-case and distinct, and grows the set by one exactly for a new key. */
  lemma AddedKeepsSet(ks: seq<string>, keyword: string)
    requires IsKeywordSet(ks)
    ensures IsKeywordSet(Added(ks, keyword))
    ensures |Added(ks, keyword)| == if Lower(keyword) in ks then |ks| else |ks| + 1
  {
    LowerIdempotent(keyword);
  }

  /** The tail of a keyword set is one, and does not hold its head. */
  lemma TailKeepsSet(ks: seq<string>)
    requires IsKeywordSet(ks) && ks != []
    ensures IsKeywordSet(ks[1..]) && ks[0] !in ks[1..]
  {
    var rest := ks[1..];
    forall i | 0 <= i < |rest| ensures Lower(rest[i]) == rest[i] && rest[i] != ks[0] {
      assert rest[i] == ks[i + 1];
    }
    forall i, j | 0 <= i < j < |rest| ensures rest[i] != rest[j] {
      assert rest[i] == ks[i + 1] && rest[j] == ks[j + 1];
    }
  }

  /** A new lower-case entry in front of a keyword set makes a keyword set. */
  lemma ConsKeepsSet(x: string, t: seq<string>)
    requires IsKeywordSet(t) && Lower(x) == x && x !in t
    ensures IsKeywordSet([x] + t)
  {
    var r := [x] + t;
    forall i | 0 <= i < |r| ensures Lower(r[i]) == r[i] {
      if i > 0 {
        assert r[i] == t[i - 1];
      }
    }
    forall i, j | 0 <= i < j < |r| ensures r[i] != r[j] {
      assert r[j] == t[j - 1] && r[j] in t;
      if i > 0 {
        assert r[i] == t[i - 1];
      }
    }
  }

  /** Removing a value keeps the others in their order and drops exactly its occurrence. */
  lemma {:induction false} RemoveValueKeepsSet(ks: seq<string>, k: string)
    requires IsKeywordSet(ks)
    ensures IsKeywordSet(RemoveValue(ks, k))
    ensures |RemoveValue(ks, k)| == if k in ks then |ks| - 1 else |ks|
    decreases |ks|
  {
    if ks != [] {
      var rest := ks[1..];
      TailKeepsSet(ks);
      RemoveValueKeepsSet(rest, k);
      assert k in ks <==> ks[0] == k || k in rest by {
        assert ks == [ks[0]] + rest;
      }
      var tail := RemoveValue(rest, k);
      if ks[0] != k {
        assert RemoveValue(ks, k) == [ks[0]] + tail;
        ConsKeepsSet(ks[0], tail);
      }
    }
  }

  /** Removing a value held once, at `p`, cuts out exactly that position: the others keep their order. */
  lemma {:induction false} RemoveValueAt(ks: seq<string>, k: string, p: nat)
    requires p < |ks| && ks[p] == k && k !in ks[..p] && k !in ks[p + 1..]
    ensures RemoveValue(ks, k) == ks[..p] + ks[p + 1..]
    decreases p
  {
    if p == 0 {
      RemoveValueAbsent(ks[1..], k);
    } else {
      var rest := ks[1..];
      assert rest[..p - 1] == ks[1..p] && rest[p..] == ks[p + 1..];
      assert k !in rest[..p - 1] by {
        assert forall x :: x in ks[1..p] ==> x in ks[..p];
      }
      RemoveValueAt(rest, k, p - 1);
      assert ks[0] != k by {
        assert ks[0] in ks[..p];
      }
      assert ks[..p] == [ks[0]] + rest[..p - 1];
    }
  }

  /**
   * Removing keeps the entries lower-case and distinct, shrinks the set by
   * one exactly for a present key, and then cuts out just that key's
   * position, the others keeping their insertion order.
   */
  lemma RemovedKeepsSet(ks: seq<string>, keyword: string)
    requires IsKeywordSet(ks)
    ensures IsKeywordSet(Removed(ks, keyword))
    ensures |Removed(ks, keyword)| == if Lower(keyword) in ks then |ks| - 1 else |ks|
    ensures Lower(keyword) in ks ==>
              exists p :: 0 <= p < |ks| && ks[p] == Lower(keyword) && Removed(ks, keyword) == ks[..p] + ks[p + 1..]
  {
    var k := Lower(keyword);
    RemoveValueKeepsSet(ks, k);
    if k in ks {
      var p :| 0 <= p < |ks| && ks[p] == k;
      assert k !in ks[..p] by {
        forall i | 0 <= i < p ensures ks[..p][i] != k {
          assert ks[..p][i] == ks[i];
        }
      }
      var after := ks[p + 1..];
      assert k !in after by {
        forall i | 0 <= i < |after| ensures after[i] != k {
          assert after[i] == ks[p + 1 + i];
        }
      }
      RemoveValueAt(ks, k, p);
    }
  }

  /** Removing what is not there changes nothing. */
  lemma {:induction false} RemoveValueAbsent(ks: seq<string>, k: string)
    requires k !in ks
    ensures RemoveValue(ks, k) == ks
    decreases |ks|
  {
    if ks != [] {
      assert k !in ks[1..] by {
        assert forall x :: x in ks[1..] ==> x in ks;
      }
      RemoveValueAbsent(ks[1..], k);
      assert ks == [ks[0]] + ks[1..];
    }
  }

  /** Removing `k` from `ks + [k]` is removing it from `ks`. */
  lemma {:induction false} RemoveValueLast(ks: seq<string>, k: string)
    ensures RemoveValue(ks + [k], k) == RemoveValue(ks, k)
    decreases |ks|
  {
    if ks == [] {
      assert RemoveValue([k], k) == [] + RemoveValue([k][1..], k);
    } else {
      assert (ks + [k])[1..] == ks[1..] + [k];
      RemoveValueLast(ks[1..], k);
    }
  }

  /** `addKeyword` twice is `addKeyword` once. */
  lemma AddedIdempotent(ks: seq<string>, keyword: string)
    ensures Added(Added(ks, keyword), keyword) == Added(ks, keyword)
  {
  }

  /** `removeKeyword` of a keyword that is not in the set leaves the set as it was. */
  lemma RemovedAbsent(ks: seq<string>, keyword: string)
    requires Lower(keyword) !in ks
    ensures Removed(ks, keyword) == ks
  {
    RemoveValueAbsent(ks, Lower(keyword));
  }

  /** Adding a new keyword and removing it again gives back the set, in its order. */
  lemma AddThenRemove(ks: seq<string>, keyword: string)
    requires Lower(keyword) !in ks
    ensures Removed(Added(ks, keyword), keyword) == ks
  {
    RemoveValueLast(ks, Lower(keyword));
    RemoveValueAbsent(ks, Lower(keyword));
  }

  /** Keywords are compared after lower-casing: spellings that lower-case alike add and remove the same key. */
  lemma KeywordsIgnoreCase(ks: seq<string>, k1: string, k2: string)
    requires Lower(k1) == Lower(k2)
    ensures Added(ks, k1) == Added(ks, k2) && Removed(ks, k1) == Removed(ks, k2)
    ensures Lower(k2) in Added(ks, k1) && Lower(k2) !in Removed(ks, k1)
  {
  }

  // ---------------------------------------------------------------------
  // The report of analyzeContent
  // ---------------------------------------------------------------------

  /** What `analyzeContent` returns. */
  datatype AnalysisReport = AnalysisReport(
    score: int,
    dangerScore: int,
    wordCount: nat,
    suggestions: seq<Suggestion>,
    keywordAnalysis: KeywordAnalysis)

  /** The report for a page and a keyword set. */
  function Report(keywords: seq<string>, title: string, description: string, body: string): (r: AnalysisReport)
    ensures 0 <= r.score <= MaxScore && 0 <= r.dangerScore <= MaxScore
    ensures keywords == [] ==> r.score == 0 && r.dangerScore == 0 && r.keywordAnalysis == KeywordAnalysis([], 0)
    ensures r.wordCount == 0 <==> r.suggestions == [StartWriting]
    ensures |r.suggestions| <= 8
    ensures |r.keywordAnalysis.densities| == |Stored(keywords)| <= |keywords|
  {
    var a := Analyze(keywords, body);
    var s := Suggestions(title, description, body);
    assert CountWords(body) != 0 ==> s != [StartWriting] by {
      if CountWords(body) != 0 {
        assert StartWriting !in s;
      }
    }
    AnalysisReport(SeoScore(|keywords|, title, description, body, a), SpamScore(|keywords|, a), CountWords(body), s, a)
  }

  /**
   * With a keyword set, a page whose every keyword sits in the optimal band
   * and nowhere above 2.0 %, with at least 600 words, a heading, a link, an
   * image, a title and a description, scores 100 with a danger score of 0.
   */
  lemma IdealPage(keywords: seq<string>, title: string, description: string, body: string)
    requires keywords != [] && ProtoKey !in keywords
    requires title != "" && description != "" && body != "" && CountWords(body) >= 600
    requires Contains(body, "<h2") && HasLinkTag(body) && Contains(body, "<img")
    requires forall e :: e in Analyze(keywords, body).densities ==> InOptimalBand(e)
    ensures Report(keywords, title, description, body).score == 100
    ensures Report(keywords, title, description, body).dangerScore == 0
  {
    var a := Analyze(keywords, body);
    AnalyzeDensities(keywords, body);
    FullMarks(|keywords|, title, description, body, a);
    SpamScoreZeroIff(keywords, body);
  }

  /** The content block of `calculateScore`: 20 for any body, 10 more at 300 words and at 600. */
  method ContentPoints(body: string) returns (points: real)
    ensures points == ContentScore(body) as real
  {
    points := 0.0;
    if body != "" {
      points := points + 20.0;
      var wordCount := CountWords(body);
      if wordCount >= 300 {
        points := points + 10.0;
      }
      if wordCount >= 600 {
        points := points + 10.0;
      }
    }
  }

  /** The metadata block of `calculateScore`: 10 each for a title and a description. */
  method MetadataPoints(title: string, description: string) returns (points: real)
    ensures points == MetadataScore(title, description) as real
  {
    points := 0.0;
    if title != "" {
      points := points + 10.0;
    }
    if description != "" {
      points := points + 10.0;
    }
  }

  /** The `for ... of Object.entries(densities)` loop of `calculateScore`: `unit` per entry in the optimal band. */
  method KeywordUsagePoints(ds: seq<KeywordDensity>, unit: real) returns (points: real)
    ensures points == KeywordShare(ds, unit)
  {
    points := 0.0;
    var i := 0;
    while i < |ds|
      invariant 0 <= i <= |ds|
      invariant points == KeywordShare(ds[..i], unit)
    {
      assert ds[..i + 1][..i] == ds[..i];
      if Percent(ds[i]) >= OptimalMin && Percent(ds[i]) <= OptimalMax {
        points := points + unit;
      }
      i := i + 1;
    }
    assert ds[..|ds|] == ds;
  }

  /** The structure block of `calculateScore`: 10 each for a heading, a link and an image. */
  method StructurePoints(body: string) returns (points: real)
    ensures points == StructureScore(body) as real
  {
    points := 0.0;
    var h2Count := Occurrences(body, "<h2");
    var linkCount := LinkCount(body, 0);
    var imgCount := Occurrences(body, "<img");
    if h2Count > 0 {
      points := points + 10.0;
    }
    if linkCount > 0 {
      points := points + 10.0;
    }
    if imgCount > 0 {
      points := points + 10.0;
    }
  }

  /** The eight checks of `generateSuggestions` on a body with words, each pushing its advice in turn. */
  method PushChecks(f: PageFacts) returns (suggestions: seq<Suggestion>)
    ensures suggestions == RunChecks(CheckOrder, f)
  {
    PushWhenRules(f);
    suggestions := [];
    if f.h2Count == 0 {
      suggestions := suggestions + [AddHeadings];
    }
    assert suggestions == [] + PushWhen(f, AddHeadings);
    if f.wordCount > 300 && f.h2Count < 2 {
      suggestions := suggestions + [MoreHeadings];
    }
    assert suggestions == [] + PushWhen(f, AddHeadings) + PushWhen(f, MoreHeadings);
    if f.imageCount == 0 {
      suggestions := suggestions + [AddImages];
    }
    assert suggestions == [] + PushWhen(f, AddHeadings) + PushWhen(f, MoreHeadings) + PushWhen(f, AddImages);
    if !f.hasLink {
      suggestions := suggestions + [AddLinks];
    }
    assert suggestions == [] + PushWhen(f, AddHeadings) + PushWhen(f, MoreHeadings) + PushWhen(f, AddImages) + PushWhen(f, AddLinks);
    if f.wordCount < 300 {
      suggestions := suggestions + [ExpandContent];
    }
    assert suggestions == [] + PushWhen(f, AddHeadings) + PushWhen(f, MoreHeadings) + PushWhen(f, AddImages) + PushWhen(f, AddLinks) + PushWhen(f, ExpandContent);
    if !f.hasList {
      suggestions := suggestions + [UseLists];
    }
    assert suggestions == [] + PushWhen(f, AddHeadings) + PushWhen(f, MoreHeadings) + PushWhen(f, AddImages) + PushWhen(f, AddLinks) + PushWhen(f, ExpandContent) + PushWhen(f, UseLists);
    if f.titleLength < 30 {
      suggestions := suggestions + [OptimizeTitle];
    }
    assert suggestions == [] + PushWhen(f, AddHeadings) + PushWhen(f, MoreHeadings) + PushWhen(f, AddImages) + PushWhen(f, AddLinks) + PushWhen(f, ExpandContent) + PushWhen(f, UseLists) + PushWhen(f, OptimizeTitle);
    if f.descriptionLength < 120 {
      suggestions := suggestions + [OptimizeDescription];
    }
    assert suggestions == [] + PushWhen(f, AddHeadings) + PushWhen(f, MoreHeadings) + PushWhen(f, AddImages) + PushWhen(f, AddLinks) + PushWhen(f, ExpandContent) + PushWhen(f, UseLists) + PushWhen(f, OptimizeTitle) + PushWhen(f, OptimizeDescription);
    ChecksUnrolled(f);
  }

  // ---------------------------------------------------------------------
  // The analyzer object
  // ---------------------------------------------------------------------

  /** The reduce over `Object.values(densities)` in `analyzeKeywords`: the densities added in entry order. */
  method TotalDensity(densities: seq<KeywordDensity>) returns (totalDensity: nat)
    ensures totalDensity == SumDensities(densities)
  {
    totalDensity := 0;
    var j := 0;
    while j < |densities|
      invariant 0 <= j <= |densities|
      invariant totalDensity == SumDensities(densities[..j])
    {
      assert densities[..j + 1][..j] == densities[..j];
      totalDensity := totalDensity + densities[j].density;
      j := j + 1;
    }
    assert densities[..|densities|] == densities;
  }

  class SEOAnalyzer {
    /** `this.keywords`, in insertion order. */
    var keywords: seq<string>

    ghost predicate Valid()
      reads this
    {
      IsKeywordSet(keywords)
    }

    /** A new analyzer has no keyword. */
    constructor()
      ensures Valid() && keywords == []
    {
      keywords := [];
    }

    /** `addKeyword`: the lower-cased keyword joins the set. */
    method AddKeyword(keyword: string)
      requires Valid()
      modifies this
      ensures Valid()
      ensures keywords == Added(old(keywords), keyword)
    {
      AddedKeepsSet(keywords, keyword);
      keywords := Added(keywords, keyword);
    }

    /** `removeKeyword`: the lower-cased keyword leaves the set. */
    method RemoveKeyword(keyword: string)
      requires Valid()
      modifies this
      ensures Valid()
      ensures keywords == Removed(old(keywords), keyword)
    {
      RemovedKeepsSet(keywords, keyword);
      keywords := Removed(keywords, keyword);
    }

    /** `hasKeyword`: whether some keyword of the set is this one up to case. */
    function HasKeyword(keyword: string): (r: bool)
      reads this
      requires Valid()
      ensures r <==> exists x :: x in keywords && Lower(x) == Lower(keyword)
    {
      Lower(keyword) in keywords
    }

    /** `analyzeKeywords`: the count and density of each keyword, then their total. */
    method AnalyzeKeywords(text: string) returns (a: KeywordAnalysis)
      ensures a == Analyze(keywords, text)
    {
      var cleanText := CleanText(text);
      var totalWords := |Split(cleanText)|;
      var densities: seq<KeywordDensity> := [];
      var i := 0;
      while i < |keywords|
        invariant 0 <= i <= |keywords|
        invariant densities == Entries(keywords[..i], cleanText, totalWords)
      {
        var keywordCount := KeywordOccurrences(cleanText, keywords[i]);
        var density := RoundedDensity(keywordCount, totalWords);
        assert keywords[..i + 1] == keywords[..i] + [keywords[i]];
        EntriesStep(keywords[..i], keywords[i], cleanText, totalWords);
        densities := Store(densities, KeywordDensity(keywords[i], keywordCount, density));
        i := i + 1;
      }
      assert keywords[..|keywords|] == keywords;
      var totalDensity := TotalDensity(densities);
      a := KeywordAnalysis(densities, totalDensity);
    }

    /** `calculateScore`: content, metadata, keyword usage and structure points, rounded and capped. */
    method CalculateScore(title: string, description: string, body: string, keywordAnalysis: KeywordAnalysis)
      returns (result: int)
      ensures result == SeoScore(|keywords|, title, description, body, keywordAnalysis)
    {
      if |keywords| == 0 {
        return 0;
      }
      var score: real := ContentPoints(body);
      var metadata := MetadataPoints(title, description);
      score := score + metadata;
      var usage := KeywordUsagePoints(keywordAnalysis.densities, 20.0 / |keywords| as real);
      score := score + usage;
      var structure := StructurePoints(body);
      score := score + structure;
      result := Min(Round(score), MaxScore);
    }

    /** `generateSuggestions`: "start writing" alone for a body without words, else the eight checks in order. */
    method GenerateSuggestions(title: string, description: string, body: string) returns (suggestions: seq<Suggestion>)
      ensures suggestions == Suggestions(title, description, body)
    {
      var h2Count := Occurrences(body, "<h2");
      var linkCount := LinkCount(body, 0);
      var imgCount := Occurrences(body, "<img");
      var wordCount := CountWords(body);
      if wordCount == 0 {
        return [StartWriting];
      }
      var facts := PageFacts(wordCount, h2Count, imgCount, linkCount > 0,
                             Contains(body, "<ul") || Contains(body, "<ol"), |title|, |description|);
      suggestions := PushChecks(facts);
    }

    /** `calculateSpamScore`: points per over-dense keyword, 20 for a high total, rounded and capped. */
    method CalculateSpamScore(keywordAnalysis: KeywordAnalysis) returns (result: int)
      ensures result == SpamScore(|keywords|, keywordAnalysis)
    {
      if |keywords| == 0 {
        return 0;
      }
      var spamScore: real := 0.0;
      var ds := keywordAnalysis.densities;
      var i := 0;
      while i < |ds|
        invariant 0 <= i <= |ds|
        invariant spamScore == SpamSum(ds[..i])
      {
        assert ds[..i + 1][..i] == ds[..i];
        if Percent(ds[i]) > SpamDensity {
          spamScore := spamScore + (Percent(ds[i]) - SpamDensity) * 25.0;
        }
        if Percent(ds[i]) > SpamDensity * 0.8 {
          spamScore := spamScore + 10.0;
        }
        i := i + 1;
      }
      assert ds[..|ds|] == ds;
      if keywordAnalysis.totalDensity as real / 100.0 > SpamDensity * |keywords| as real {
        spamScore := spamScore + 20.0;
      }
      result := Min(Round(spamScore), MaxScore);
    }

    /** `analyzeContent`: every measure of the page, in the order the source computes them. */
    method AnalyzeContent(title: string, description: string, body: string) returns (report: AnalysisReport)
      ensures report == Report(keywords, title, description, body)
    {
      var wordCount := CountWords(body);
      var keywordAnalysis := AnalyzeKeywords(body);
      var suggestions := GenerateSuggestions(title, description, body);
      var score := CalculateScore(title, description, body, keywordAnalysis);
      var dangerScore := CalculateSpamScore(keywordAnalysis);
      report := AnalysisReport(score, dangerScore, wordCount, suggestions, keywordAnalysis);
    }
  }
}
