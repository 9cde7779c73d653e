/**
 * The scoring rules of `SEOAnalyzer`: keyword densities (`analyzeKeywords`),
 * the SEO score (`calculateScore`), the spam or "danger" score
 * (`calculateSpamScore`) and the suggestion list (`generateSuggestions`),
 * each as a function of its inputs and of the size of the keyword set.
 *
 * Densities are percentages kept to two decimals, so they are held exactly
 * as natural numbers of hundredths of a percent; the two score sums are
 * exact reals.
 */
module Scoring {
  import opened Text
  import opened Matching

  /** `OPTIMAL_DENSITY.min`, `OPTIMAL_DENSITY.max` and `SPAM_THRESHOLD.density`, in percent. */
  const OptimalMin: real := 0.5
  const OptimalMax: real := 2.0
  const SpamDensity: real := 2.5
  /** `maxScore` and `maxSpamScore`. */
  const MaxScore: int := 100

  /** The entry `densities[keyword] = { count, density }`, with `density` in hundredths of a percent. */
  datatype KeywordDensity = KeywordDensity(keyword: string, count: nat, density: nat)

  /** What `analyzeKeywords` returns: one entry per keyword, in the set's order, and the total in hundredths. */
  datatype KeywordAnalysis = KeywordAnalysis(densities: seq<KeywordDensity>, totalDensity: nat)

  /** The density of an entry as the percentage the source computes with. */
  function Percent(e: KeywordDensity): real {
    e.density as real / 100.0
  }

  function Min(a: int, b: int): (m: int)
    ensures m <= a && m <= b && (m == a || m == b)
  {
    if a <= b then a else b
  }

  /** `Math.round` on a non-negative value: the nearest integer, halves rounded up. */
  function Round(x: real): (r: int)
    ensures r as real - 0.5 <= x < r as real + 0.5
  {
    (x + 0.5).Floor
  }

  lemma RoundMonotone(x: real, y: real)
    requires x <= y
    ensures Round(x) <= Round(y)
  {
  }

  // ---------------------------------------------------------------------
  // analyzeKeywords
  // ---------------------------------------------------------------------

  /** `cleanText`: the body with its tags replaced by spaces, lower-cased. */
  function CleanText(body: string): string {
    Lower(StripTags(body))
  }

  /** `totalWords`: the number of fields of `cleanText.split(/\s+/)`, empty fields included. */
  function TotalWords(body: string): (n: nat)
    ensures n >= 1
  {
    |Split(CleanText(body))|
  }

  /**
   * `totalWords` is one more than the number of whitespace runs of the
   * stripped body, so never 0, and exceeds the word count of `countWords`
   * by 0, 1 or 2 (an empty field for whitespace at either end).
   */
  lemma TotalWordsFacts(body: string)
    ensures TotalWords(body) == SpaceRuns(StripTags(body)) + 1
    ensures CountWords(body) <= TotalWords(body) <= CountWords(body) + 2
  {
    var t := StripTags(body);
    SplitExceedsWords(Lower(t));
    LowerKeepsRuns(t, true, true);
    LowerKeepsRuns(t, false, true);
    CountWordsCountsRuns(body);
  }

  /**
   * `parseFloat((count * 100 / total).toFixed(2))` in hundredths of a
   * percent: the hundredth nearest to the density, halves rounded up.
   */
  function RoundedDensity(count: nat, total: nat): (h: nat)
    requires total >= 1
    ensures 2 * h * total <= 20000 * count + total < 2 * (h + 1) * total
  {
    var x, d := 20000 * count + total, 2 * total;
    assert x == (x / d) * d + x % d;
    x / d
  }

  /** The entry for one keyword: its whole-word count in the clean text and its density. */
  function DensityOf(keyword: string, cleanText: string, totalWords: nat): (e: KeywordDensity)
    requires totalWords >= 1
  {
    var count := KeywordOccurrences(cleanText, keyword);
    KeywordDensity(keyword, count, RoundedDensity(count, totalWords))
  }

  /** The sum of the densities of `ds`, in hundredths. */
  function SumDensities(ds: seq<KeywordDensity>): nat {
    if ds == [] then 0 else SumDensities(ds[..|ds| - 1]) + ds[|ds| - 1].density
  }

  /**
   * The one key that `densities[keyword] = ...` does not store: on a plain
   * object, assigning `__proto__` runs the inherited prototype setter and
   * creates no own property, so `Object.values` and `Object.entries` skip it.
   */
  const ProtoKey: string := "__proto__"

  /**
   * `densities[e.keyword] = { count, density }` on the plain object
   * `densities`, for a key not stored yet (the keys of a keyword set are
   * distinct): a new last entry, or none for `__proto__`.
   */
  function Store(ds: seq<KeywordDensity>, e: KeywordDensity): seq<KeywordDensity> {
    if e.keyword == ProtoKey then ds else ds + [e]
  }

  /** The keywords that end up with an entry, in their order: all but `__proto__`. */
  function Stored(ks: seq<string>): (r: seq<string>)
    ensures |r| <= |ks|
  {
    if ks == [] then []
    else Stored(ks[..|ks| - 1]) + (if ks[|ks| - 1] == ProtoKey then [] else [ks[|ks| - 1]])
  }

  /** The stored keys are exactly the keywords other than `__proto__`; without it, all of them. */
  lemma {:induction false} StoredMembers(ks: seq<string>)
    ensures forall x :: x in Stored(ks) <==> x in ks && x != ProtoKey
    ensures ProtoKey !in ks ==> Stored(ks) == ks
    decreases |ks|
  {
    if ks != [] {
      var init := ks[..|ks| - 1];
      StoredMembers(init);
      assert ks == init + [ks[|ks| - 1]];
    }
  }

  /** The entries the `forEach` of `analyzeKeywords` stores, one keyword after another. */
  function Entries(ks: seq<string>, cleanText: string, totalWords: nat): (r: seq<KeywordDensity>)
    requires totalWords >= 1
    ensures |r| == |Stored(ks)|
  {
    if ks == [] then []
    else Store(Entries(ks[..|ks| - 1], cleanText, totalWords), DensityOf(ks[|ks| - 1], cleanText, totalWords))
  }

  /** The entries are, in order, the `DensityOf` of each stored key. */
  lemma {:induction false} EntriesMeaning(ks: seq<string>, cleanText: string, totalWords: nat)
    requires totalWords >= 1
    ensures forall i :: 0 <= i < |Stored(ks)| ==>
              Entries(ks, cleanText, totalWords)[i] == DensityOf(Stored(ks)[i], cleanText, totalWords)
    decreases |ks|
  {
    if ks != [] {
      EntriesMeaning(ks[..|ks| - 1], cleanText, totalWords);
    }
  }

  /** Storing one more keyword's entry. */
  lemma EntriesStep(ks: seq<string>, k: string, cleanText: string, totalWords: nat)
    requires totalWords >= 1
    ensures Entries(ks + [k], cleanText, totalWords) == Store(Entries(ks, cleanText, totalWords), DensityOf(k, cleanText, totalWords))
  {
    assert (ks + [k])[..|ks|] == ks;
  }

  /**
   * `analyzeKeywords(body)` for the keyword set `keywords`: an entry per
   * stored keyword, in order, and their total. The total of two-decimal
   * values is itself two-decimal, so its `toFixed(2)` changes nothing.
   */
  function Analyze(keywords: seq<string>, body: string): (a: KeywordAnalysis)
    ensures |a.densities| == |Stored(keywords)| <= |keywords|
    ensures forall i :: 0 <= i < |a.densities| ==>
              a.densities[i].keyword == Stored(keywords)[i]
              && a.densities[i].count == KeywordOccurrences(CleanText(body), Stored(keywords)[i])
    ensures a.totalDensity == SumDensities(a.densities)
    ensures keywords == [] ==> a.densities == [] && a.totalDensity == 0
  {
    EntriesMeaning(keywords, CleanText(body), TotalWords(body));
    var ds := Entries(keywords, CleanText(body), TotalWords(body));
    KeywordAnalysis(ds, SumDensities(ds))
  }

  /** The keys of an analysis, in its order. */
  function Keys(a: KeywordAnalysis): seq<string> {
    seq(|a.densities|, i requires 0 <= i < |a.densities| => a.densities[i].keyword)
  }

  /**
   * The keys are the keyword set less `__proto__`, in its order: all of it
   * when `__proto__` is not a keyword.
   */
  lemma AnalyzeDensities(keywords: seq<string>, body: string)
    ensures Keys(Analyze(keywords, body)) == Stored(keywords)
    ensures forall k :: k in Keys(Analyze(keywords, body)) <==> k in keywords && k != ProtoKey
    ensures ProtoKey !in keywords ==> |Analyze(keywords, body).densities| == |keywords|
  {
    var a := Analyze(keywords, body);
    var ks := Keys(a);
    assert |ks| == |Stored(keywords)|;
    assert forall i :: 0 <= i < |ks| ==> ks[i] == Stored(keywords)[i];
    assert ks == Stored(keywords);
    StoredMembers(keywords);
  }

  /**
   * Every density is `RoundedDensity` of its count over `totalWords`: the
   * hundredth of a percent nearest to `count * 100 / totalWords`, defined
   * since `totalWords >= 1`.
   */
  lemma AnalyzeRounding(keywords: seq<string>, body: string)
    ensures forall e :: e in Analyze(keywords, body).densities ==> e.density == RoundedDensity(e.count, TotalWords(body))
  {
    var a := Analyze(keywords, body);
    EntriesMeaning(keywords, CleanText(body), TotalWords(body));
    forall e | e in a.densities
      ensures e.density == RoundedDensity(e.count, TotalWords(body))
    {
      var i :| 0 <= i < |a.densities| && a.densities[i] == e;
      assert e == DensityOf(Stored(keywords)[i], CleanText(body), TotalWords(body));
    }
  }

  /**
   * The keyword `__proto__` alone gets no entry, however often the page
   * says it: no keyword-usage points and a danger score of 0.
   */
  lemma ProtoKeyUnscored(body: string)
    ensures Analyze([ProtoKey], body) == KeywordAnalysis([], 0)
    ensures KeywordShare(Analyze([ProtoKey], body).densities, 20.0) == 0.0
    ensures SpamScore(1, Analyze([ProtoKey], body)) == 0
  {
    assert [ProtoKey][..0] == [];
  }

  /** A sequence of zero densities sums to zero. */
  lemma {:induction false} SumOfZeros(ds: seq<KeywordDensity>)
    requires forall e :: e in ds ==> e.density == 0
    ensures SumDensities(ds) == 0
    decreases |ds|
  {
    if ds != [] {
      assert forall e :: e in ds[..|ds| - 1] ==> e in ds;
      SumOfZeros(ds[..|ds| - 1]);
    }
  }

  /** On an empty body every keyword has count 0 and density 0, and so has the total. */
  lemma EmptyBodyAnalysis(keywords: seq<string>)
    ensures forall e :: e in Analyze(keywords, "").densities ==> e.count == 0 && e.density == 0
    ensures Analyze(keywords, "").totalDensity == 0
  {
    var a := Analyze(keywords, "");
    assert StripTags("") == "" && CleanText("") == "";
    AnalyzeRounding(keywords, "");
    forall e | e in a.densities ensures e.count == 0 && e.density == 0 {
      var i :| 0 <= i < |a.densities| && a.densities[i] == e;
      KeywordOccurrencesEmptyText(Stored(keywords)[i]);
      assert e.density == RoundedDensity(0, TotalWords(""));
    }
    SumOfZeros(a.densities);
  }

  /** A sum of densities each at most `bound` is at most `bound` times their number. */
  lemma {:induction false} SumDensitiesBound(ds: seq<KeywordDensity>, bound: nat)
    requires forall e :: e in ds ==> e.density <= bound
    ensures SumDensities(ds) <= bound * |ds|
    decreases |ds|
  {
    if ds != [] {
      assert forall e :: e in ds[..|ds| - 1] ==> e in ds;
      SumDensitiesBound(ds[..|ds| - 1], bound);
      assert bound * |ds| == bound * (|ds| - 1) + bound;
    }
  }

  // ---------------------------------------------------------------------
  // calculateScore
  // ---------------------------------------------------------------------

  /** `if (body) { score += 20; if (wordCount >= 300) ...; if (wordCount >= 600) ... }` */
  function ContentScore(body: string): (c: nat)
    ensures c <= 40
  {
    if body == "" then 0
    else 20 + (if CountWords(body) >= 300 then 10 else 0) + (if CountWords(body) >= 600 then 10 else 0)
  }

  /**
   * Any body earns the 20 base points, even one holding only markup; the
   * word-count bonuses need 300 and 600 words.
   */
  lemma ContentScoreLevels(body: string)
    ensures ContentScore(body) > 0 <==> body != ""
    ensures ContentScore(body) > 20 <==> body != "" && CountWords(body) >= 300
    ensures ContentScore(body) == 40 <==> body != "" && CountWords(body) >= 600
  {
  }

  /** `if (title) score += 10; if (description) score += 10;` */
  function MetadataScore(title: string, description: string): nat {
    (if title != "" then 10 else 0) + (if description != "" then 10 else 0)
  }

  /** `+10` for each of: an `<h2`, a link `<a...>`, an `<img` in the raw body. */
  function StructureScore(body: string): nat {
    (if Occurrences(body, "<h2") > 0 then 10 else 0)
    + (if LinkCount(body, 0) > 0 then 10 else 0)
    + (if Occurrences(body, "<img") > 0 then 10 else 0)
  }

  /** The structure points in terms of what the raw body contains. */
  lemma StructureScoreMeaning(body: string)
    ensures StructureScore(body) ==
              (if Contains(body, "<h2") then 10 else 0)
              + (if HasLinkTag(body) then 10 else 0)
              + (if Contains(body, "<img") then 10 else 0)
  {
    OccurrencesPositive(body, "<h2");
    OccurrencesPositive(body, "<img");
    LinkCountPositiveIff(body);
  }

  /** The density lies in `[0.5, 2.0]` percent, both ends included. */
  predicate InOptimalBand(e: KeywordDensity) {
    OptimalMin <= Percent(e) <= OptimalMax
  }

  /** The keyword-usage points: `unit` (`20 / keywords.size`) for every entry in the optimal band. */
  function KeywordShare(ds: seq<KeywordDensity>, unit: real): real {
    if ds == [] then 0.0
    else KeywordShare(ds[..|ds| - 1], unit) + (if InOptimalBand(ds[|ds| - 1]) then unit else 0.0)
  }

  /** The number of entries in the optimal band. */
  function InBandCount(ds: seq<KeywordDensity>): nat {
    if ds == [] then 0
    else InBandCount(ds[..|ds| - 1]) + (if InOptimalBand(ds[|ds| - 1]) then 1 else 0)
  }

  /** The keyword-usage points are one unit per entry in the band. */
  lemma {:induction false} KeywordShareCounts(ds: seq<KeywordDensity>, unit: real)
    ensures KeywordShare(ds, unit) == InBandCount(ds) as real * unit
    decreases |ds|
  {
    if ds != [] {
      KeywordShareCounts(ds[..|ds| - 1], unit);
    }
  }

  /** At most every entry is in the band, and exactly every one is when all of them are. */
  lemma {:induction false} InBandCountBound(ds: seq<KeywordDensity>)
    ensures InBandCount(ds) <= |ds|
    ensures InBandCount(ds) == |ds| <==> forall e :: e in ds ==> InOptimalBand(e)
    decreases |ds|
  {
    if ds != [] {
      var init := ds[..|ds| - 1];
      InBandCountBound(init);
      assert ds == init + [ds[|ds| - 1]];
      assert forall e :: e in ds <==> e in init || e == ds[|ds| - 1];
    }
  }

  /** The raw sum of `calculateScore` before rounding, for a non-empty keyword set. */
  function RawScore(size: nat, title: string, description: string, body: string, a: KeywordAnalysis): real
    requires size > 0
  {
    (ContentScore(body) + MetadataScore(title, description)) as real
    + KeywordShare(a.densities, 20.0 / size as real)
    + StructureScore(body) as real
  }

  /** `calculateScore`: 0 with no keyword, else the rounded sum capped at 100. */
  function SeoScore(size: nat, title: string, description: string, body: string, a: KeywordAnalysis): (score: int)
    ensures size == 0 ==> score == 0
    ensures 0 <= score <= MaxScore
  {
    if size == 0 then 0
    else
      UnitPositive(size);
      KeywordShareNonNegative(a.densities, 20.0 / size as real);
      Min(Round(RawScore(size, title, description, body, a)), MaxScore)
  }

  lemma UnitPositive(size: nat)
    requires size > 0
    ensures 20.0 / size as real > 0.0
    ensures size as real * (20.0 / size as real) == 20.0
  {
  }

  lemma {:induction false} KeywordShareNonNegative(ds: seq<KeywordDensity>, unit: real)
    requires unit >= 0.0
    ensures KeywordShare(ds, unit) >= 0.0
    decreases |ds|
  {
    if ds != [] {
      KeywordShareNonNegative(ds[..|ds| - 1], unit);
    }
  }

  lemma ScaleMonotone(c: nat, d: nat, unit: real)
    requires c <= d && unit >= 0.0
    ensures c as real * unit <= d as real * unit
    ensures c < d && unit > 0.0 ==> c as real * unit < d as real * unit
  {
    assert d as real * unit == c as real * unit + (d - c) as real * unit;
  }

  /**
   * With at most one entry per keyword, the keyword-usage part is at most
   * 20, and exactly 20 when, and only when, there is one entry per keyword
   * and every density is in the optimal band.
   */
  lemma KeywordShareAtMost20(size: nat, ds: seq<KeywordDensity>)
    requires size > 0 && |ds| <= size
    ensures KeywordShare(ds, 20.0 / size as real) <= 20.0
    ensures KeywordShare(ds, 20.0 / size as real) == 20.0 <==> |ds| == size && forall e :: e in ds ==> InOptimalBand(e)
  {
    KeywordShareCounts(ds, 20.0 / size as real);
    InBandCountBound(ds);
    ShareOfCount(InBandCount(ds), size);
  }

  /** `c` units of `20 / size`, for `c <= size`, are at most 20, and exactly 20 for `c == size`. */
  lemma ShareOfCount(c: nat, size: nat)
    requires 0 < size && c <= size
    ensures c as real * (20.0 / size as real) <= 20.0
    ensures c as real * (20.0 / size as real) == 20.0 <==> c == size
  {
    UnitPositive(size);
    ScaleMonotone(c, size, 20.0 / size as real);
  }

  /** More entries in the band, no fewer keyword-usage points. */
  lemma KeywordShareMonotone(ds: seq<KeywordDensity>, es: seq<KeywordDensity>, unit: real)
    requires InBandCount(ds) <= InBandCount(es) && unit >= 0.0
    ensures KeywordShare(ds, unit) <= KeywordShare(es, unit)
  {
    KeywordShareCounts(ds, unit);
    KeywordShareCounts(es, unit);
    ScaleMonotone(InBandCount(ds), InBandCount(es), unit);
  }

  /**
   * For a fixed keyword set size and fixed content, more entries in the
   * optimal band never lower the score.
   */
  lemma SeoScoreMonotone(size: nat, title: string, description: string, body: string, a: KeywordAnalysis, b: KeywordAnalysis)
    requires InBandCount(a.densities) <= InBandCount(b.densities)
    ensures SeoScore(size, title, description, body, a) <= SeoScore(size, title, description, body, b)
  {
    if size > 0 {
      var unit := 20.0 / size as real;
      UnitPositive(size);
      KeywordShareMonotone(a.densities, b.densities, unit);
      var ra, rb := RawScore(size, title, description, body, a), RawScore(size, title, description, body, b);
      assert ra <= rb;
      RoundMonotone(ra, rb);
    }
  }

  /**
   * A body of at least 600 words with a heading, a link and an image, a
   * title, a description and every keyword in the band adds up to 110,
   * which the cap turns into 100.
   */
  lemma FullMarks(size: nat, title: string, description: string, body: string, a: KeywordAnalysis)
    requires title != "" && description != "" && body != "" && CountWords(body) >= 600
    requires Contains(body, "<h2") && HasLinkTag(body) && Contains(body, "<img")
    requires size > 0 && |a.densities| == size
    requires forall e :: e in a.densities ==> InOptimalBand(e)
    ensures RawScore(size, title, description, body, a) == 110.0
    ensures SeoScore(size, title, description, body, a) == 100
  {
    StructureScoreMeaning(body);
    KeywordShareAtMost20(size, a.densities);
  }

  // ---------------------------------------------------------------------
  // calculateSpamScore
  // ---------------------------------------------------------------------

  /** One entry's spam points: `(d - 2.5) * 25` above 2.5 %, and 10 more above `2.5 * 0.8` %. */
  function SpamPoints(e: KeywordDensity): (p: real)
    ensures p >= 0.0
    ensures p > 0.0 <==> Percent(e) > SpamDensity * 0.8
  {
    (if Percent(e) > SpamDensity then (Percent(e) - SpamDensity) * 25.0 else 0.0)
    + (if Percent(e) > SpamDensity * 0.8 then 10.0 else 0.0)
  }

  function SpamSum(ds: seq<KeywordDensity>): real {
    if ds == [] then 0.0 else SpamSum(ds[..|ds| - 1]) + SpamPoints(ds[|ds| - 1])
  }

  /** The spam sum is at least the points of any one of its entries. */
  lemma {:induction false} SpamSumAtLeast(ds: seq<KeywordDensity>, j: nat)
    requires j < |ds|
    ensures SpamSum(ds) >= SpamPoints(ds[j])
    ensures SpamSum(ds) >= 0.0
    decreases |ds|
  {
    if j < |ds| - 1 {
      SpamSumAtLeast(ds[..|ds| - 1], j);
    } else if |ds| > 1 {
      SpamSumAtLeast(ds[..|ds| - 1], 0);
    }
  }

  lemma SpamSumNonNegative(ds: seq<KeywordDensity>)
    ensures SpamSum(ds) >= 0.0
  {
    if ds != [] {
      SpamSumAtLeast(ds, 0);
    }
  }

  /** No density above 2.0 %, no spam points. */
  lemma {:induction false} SpamSumZero(ds: seq<KeywordDensity>)
    requires forall e :: e in ds ==> Percent(e) <= SpamDensity * 0.8
    ensures SpamSum(ds) == 0.0
    decreases |ds|
  {
    if ds != [] {
      assert forall e :: e in ds[..|ds| - 1] ==> e in ds;
      SpamSumZero(ds[..|ds| - 1]);
    }
  }

  /** `+20` when the total density exceeds 2.5 % per keyword. */
  function TotalPenalty(size: nat, a: KeywordAnalysis): real {
    if a.totalDensity as real / 100.0 > SpamDensity * size as real then 20.0 else 0.0
  }

  /** `calculateSpamScore`: 0 with no keyword, else the rounded sum capped at 100. */
  function SpamScore(size: nat, a: KeywordAnalysis): (score: int)
    ensures size == 0 ==> score == 0
    ensures 0 <= score <= MaxScore
  {
    if size == 0 then 0
    else
      SpamSumNonNegative(a.densities);
      Min(Round(SpamSum(a.densities) + TotalPenalty(size, a)), MaxScore)
  }

  /** No density above 2.0 % and a total within 2.5 % per keyword: the spam score is 0. */
  lemma SpamScoreCalm(size: nat, a: KeywordAnalysis)
    requires forall e :: e in a.densities ==> Percent(e) <= SpamDensity * 0.8
    requires a.totalDensity as real / 100.0 <= SpamDensity * size as real
    ensures SpamScore(size, a) == 0
  {
    SpamSumZero(a.densities);
  }

  /** One keyword at 6.5 % or more saturates the spam score on its own. */
  lemma SpamScoreSaturates(size: nat, a: KeywordAnalysis, j: nat)
    requires size > 0 && j < |a.densities| && Percent(a.densities[j]) >= 6.5
    ensures SpamScore(size, a) == MaxScore
  {
    SpamSumAtLeast(a.densities, j);
  }

  /**
   * For the analysis of a body against a non-empty keyword set, the spam
   * score is 0 exactly when no keyword's density exceeds 2.0 %: the total
   * of densities that are all at most 2.0 % cannot exceed 2.5 % per keyword.
   */
  lemma SpamScoreZeroIff(keywords: seq<string>, body: string)
    requires |keywords| > 0
    ensures var a := Analyze(keywords, body);
            SpamScore(|keywords|, a) == 0 <==> forall e :: e in a.densities ==> Percent(e) <= SpamDensity * 0.8
  {
    var a := Analyze(keywords, body);
    if forall e :: e in a.densities ==> Percent(e) <= SpamDensity * 0.8 {
      assert forall e :: e in a.densities ==> e.density <= 200;
      SumDensitiesBound(a.densities, 200);
      CalmTotal(a.totalDensity, |a.densities|, |keywords|);
      SpamScoreCalm(|keywords|, a);
    } else {
      var e :| e in a.densities && Percent(e) > SpamDensity * 0.8;
      var j :| 0 <= j < |a.densities| && a.densities[j] == e;
      SpamSumAtLeast(a.densities, j);
    }
  }

  /** A total of at most 2.00 % per entry, for at most one entry per keyword, is within 2.5 % per keyword. */
  lemma CalmTotal(total: nat, entries: nat, size: nat)
    requires total <= 200 * entries && entries <= size
    ensures total as real / 100.0 <= SpamDensity * size as real
  {
  }

  // ---------------------------------------------------------------------
  // generateSuggestions
  // ---------------------------------------------------------------------

  /** The nine pieces of advice `generateSuggestions` can push, in the order it checks them. */
  datatype Suggestion =
    | StartWriting
    | AddHeadings
    | MoreHeadings
    | AddImages
    | AddLinks
    | ExpandContent
    | UseLists
    | OptimizeTitle
    | OptimizeDescription

  /** The text the source pushes for each suggestion. */
  function Message(s: Suggestion): string {
    match s
    case StartWriting => "📝 Commencez à rédiger votre contenu"
    case AddHeadings => "📚 Ajoutez des sous-titres H2 pour structurer votre contenu"
    case MoreHeadings => "🔍 Augmentez le nombre de sous-titres pour une meilleure structure"
    case AddImages => "🖼️ Ajoutez des images pertinentes avec des attributs alt"
    case AddLinks => "🔗 Ajoutez des liens internes et externes pertinents"
    case ExpandContent => "📈 Développez votre contenu (minimum 300 mots)"
    case UseLists => "📋 Utilisez des listes pour structurer l'information"
    case OptimizeTitle => "📏 Optimisez votre titre (50-60 caractères)"
    case OptimizeDescription => "📏 Optimisez votre meta description (150-160 caractères)"
  }

  /** The position of each check in `generateSuggestions`. */
  function Rank(s: Suggestion): nat {
    match s
    case StartWriting => 0
    case AddHeadings => 1
    case MoreHeadings => 2
    case AddImages => 3
    case AddLinks => 4
    case ExpandContent => 5
    case UseLists => 6
    case OptimizeTitle => 7
    case OptimizeDescription => 8
  }

  /** `s` is in the order of the checks, each at most once. */
  predicate Ranked(s: seq<Suggestion>) {
    forall i, j :: 0 <= i < j < |s| ==> Rank(s[i]) < Rank(s[j])
  }

  /** The checks `generateSuggestions` runs on a body with words, in their order. */
  const CheckOrder: seq<Suggestion> :=
    [AddHeadings, MoreHeadings, AddImages, AddLinks, ExpandContent, UseLists, OptimizeTitle, OptimizeDescription]

  lemma CheckOrderRanked()
    ensures Ranked(CheckOrder) && StartWriting !in CheckOrder
  {
  }

  /** What `generateSuggestions` measures of the page before its checks. */
  datatype PageFacts = PageFacts(wordCount: nat, h2Count: nat, imageCount: nat, hasLink: bool,
                                 hasList: bool, titleLength: nat, descriptionLength: nat)

  function Facts(title: string, description: string, body: string): PageFacts {
    PageFacts(CountWords(body), Occurrences(body, "<h2"), Occurrences(body, "<img"), LinkCount(body, 0) > 0,
              Contains(body, "<ul") || Contains(body, "<ol"), |title|, |description|)
  }

  /** Whether the check for `x` pushes it, for a body with words. */
  function Fires(x: Suggestion, f: PageFacts): bool {
    match x
    case StartWriting => false
    case AddHeadings => f.h2Count == 0
    case MoreHeadings => f.wordCount > 300 && f.h2Count < 2
    case AddImages => f.imageCount == 0
    case AddLinks => !f.hasLink
    case ExpandContent => f.wordCount < 300
    case UseLists => !f.hasList
    case OptimizeTitle => f.titleLength < 30
    case OptimizeDescription => f.descriptionLength < 120
  }

  /** Running the checks `xs` in order, pushing each one that fires on `f`. */
  function RunChecks(xs: seq<Suggestion>, f: PageFacts): (s: seq<Suggestion>)
    ensures |s| <= |xs|
  {
    if xs == [] then [] else RunChecks(xs[..|xs| - 1], f) + PushWhen(f, xs[|xs| - 1])
  }

  /** The checks push exactly the suggestions whose checks fire. */
  lemma {:induction false} RunChecksMembers(xs: seq<Suggestion>, f: PageFacts)
    ensures forall x :: x in RunChecks(xs, f) <==> x in xs && Fires(x, f)
    decreases |xs|
  {
    if xs != [] {
      var init, last := xs[..|xs| - 1], xs[|xs| - 1];
      RunChecksMembers(init, f);
      assert xs == init + [last];
    }
  }

  /** Checks run in order push their suggestions in order. */
  lemma {:induction false} RunChecksRanked(xs: seq<Suggestion>, f: PageFacts)
    requires Ranked(xs)
    ensures Ranked(RunChecks(xs, f))
    decreases |xs|
  {
    if xs != [] {
      var init, last := xs[..|xs| - 1], xs[|xs| - 1];
      RankedBeforeLast(xs);
      RunChecksRanked(init, f);
      RunChecksMembers(init, f);
      RankedPush(RunChecks(init, f), last, PushWhen(f, last));
    }
  }

  /** In checks that are in order, every check before the last ranks below it. */
  lemma RankedBeforeLast(xs: seq<Suggestion>)
    requires xs != [] && Ranked(xs)
    ensures Ranked(xs[..|xs| - 1])
    ensures forall x :: x in xs[..|xs| - 1] ==> Rank(x) < Rank(xs[|xs| - 1])
  {
    forall x | x in xs[..|xs| - 1] ensures Rank(x) < Rank(xs[|xs| - 1]) {
      var k :| 0 <= k < |xs| - 1 && xs[..|xs| - 1][k] == x;
      assert xs[k] == x;
    }
  }

  /** Pushing a check that ranks above everything pushed so far keeps the list in order. */
  lemma RankedPush(done: seq<Suggestion>, last: Suggestion, pushed: seq<Suggestion>)
    requires Ranked(done) && forall x :: x in done ==> Rank(x) < Rank(last)
    requires pushed == [] || pushed == [last]
    ensures Ranked(done + pushed)
  {
    var r := done + pushed;
    forall i, j | 0 <= i < j < |r| ensures Rank(r[i]) < Rank(r[j]) {
      assert r[i] == done[i] && r[i] in done;
      if j < |done| {
        assert r[j] == done[j];
      }
    }
  }

  /** `if (...) suggestions.push(x)`: `[x]` when its check fires, else nothing. */
  function PushWhen(f: PageFacts, x: Suggestion): seq<Suggestion> {
    if Fires(x, f) then [x] else []
  }

  /** What each check pushes, written with the conditions of `generateSuggestions`. */
  lemma PushWhenRules(f: PageFacts)
    ensures PushWhen(f, AddHeadings) == if f.h2Count == 0 then [AddHeadings] else []
    ensures PushWhen(f, MoreHeadings) == if f.wordCount > 300 && f.h2Count < 2 then [MoreHeadings] else []
    ensures PushWhen(f, AddImages) == if f.imageCount == 0 then [AddImages] else []
    ensures PushWhen(f, AddLinks) == if !f.hasLink then [AddLinks] else []
    ensures PushWhen(f, ExpandContent) == if f.wordCount < 300 then [ExpandContent] else []
    ensures PushWhen(f, UseLists) == if !f.hasList then [UseLists] else []
    ensures PushWhen(f, OptimizeTitle) == if f.titleLength < 30 then [OptimizeTitle] else []
    ensures PushWhen(f, OptimizeDescription) == if f.descriptionLength < 120 then [OptimizeDescription] else []
  {
  }

  /** The first four checks, pushed one after the other onto an empty list. */
  lemma FirstChecksUnrolled(f: PageFacts)
    ensures RunChecks(CheckOrder[..4], f)
            == [] + PushWhen(f, AddHeadings) + PushWhen(f, MoreHeadings) + PushWhen(f, AddImages) + PushWhen(f, AddLinks)
  {
    var c := CheckOrder;
    assert c[..0] == [];
    RunChecksStep(c, f, 1);
    assert RunChecks(c[..1], f) == [] + PushWhen(f, AddHeadings);
    RunChecksStep(c, f, 2);
    assert RunChecks(c[..2], f) == [] + PushWhen(f, AddHeadings) + PushWhen(f, MoreHeadings);
    RunChecksStep(c, f, 3);
    assert RunChecks(c[..3], f) == [] + PushWhen(f, AddHeadings) + PushWhen(f, MoreHeadings) + PushWhen(f, AddImages);
    RunChecksStep(c, f, 4);
    assert RunChecks(c[..4], f) == [] + PushWhen(f, AddHeadings) + PushWhen(f, MoreHeadings) + PushWhen(f, AddImages) + PushWhen(f, AddLinks);
  }

  /** The eight checks, pushed one after the other onto an empty list. */
  lemma ChecksUnrolled(f: PageFacts)
    ensures RunChecks(CheckOrder, f)
            == [] + PushWhen(f, AddHeadings) + PushWhen(f, MoreHeadings) + PushWhen(f, AddImages)
               + PushWhen(f, AddLinks) + PushWhen(f, ExpandContent) + PushWhen(f, UseLists)
               + PushWhen(f, OptimizeTitle) + PushWhen(f, OptimizeDescription)
  {
    var c := CheckOrder;
    FirstChecksUnrolled(f);
    var e := RunChecks(c[..4], f);
    RunChecksStep(c, f, 5);
    assert RunChecks(c[..5], f) == e + PushWhen(f, ExpandContent);
    RunChecksStep(c, f, 6);
    assert RunChecks(c[..6], f) == e + PushWhen(f, ExpandContent) + PushWhen(f, UseLists);
    RunChecksStep(c, f, 7);
    assert RunChecks(c[..7], f) == e + PushWhen(f, ExpandContent) + PushWhen(f, UseLists) + PushWhen(f, OptimizeTitle);
    RunChecksStep(c, f, 8);
    assert RunChecks(c[..8], f) == e + PushWhen(f, ExpandContent) + PushWhen(f, UseLists) + PushWhen(f, OptimizeTitle) + PushWhen(f, OptimizeDescription);
    assert c[..8] == c;
  }

  /** Running the first `k` checks is running the first `k - 1` and then check `k`. */
  lemma RunChecksStep(xs: seq<Suggestion>, f: PageFacts, k: nat)
    requires 0 < k <= |xs|
    ensures RunChecks(xs[..k], f) == RunChecks(xs[..k - 1], f) + PushWhen(f, xs[k - 1])
  {
    assert xs[..k][..k - 1] == xs[..k - 1];
  }

  /**
   * `generateSuggestions`: only "start writing" for a body without words;
   * otherwise the eight checks in order, each pushing its advice when its
   * condition holds.
   */
  function Suggestions(title: string, description: string, body: string): (s: seq<Suggestion>)
    ensures CountWords(body) == 0 ==> s == [StartWriting]
    ensures CountWords(body) != 0 ==> |s| <= 8 && StartWriting !in s
    ensures Ranked(s)
  {
    if CountWords(body) == 0 then [StartWriting]
    else
      var f := Facts(title, description, body);
      CheckOrderRanked();
      RunChecksRanked(CheckOrder, f);
      RunChecksMembers(CheckOrder, f);
      RunChecks(CheckOrder, f)
  }

  /** For a body with words, the suggestions are the eight checks pushed in order. */
  lemma SuggestionsUnrolled(title: string, description: string, body: string)
    requires CountWords(body) != 0
    ensures var f := Facts(title, description, body);
            Suggestions(title, description, body)
            == [] + PushWhen(f, AddHeadings) + PushWhen(f, MoreHeadings) + PushWhen(f, AddImages)
               + PushWhen(f, AddLinks) + PushWhen(f, ExpandContent) + PushWhen(f, UseLists)
               + PushWhen(f, OptimizeTitle) + PushWhen(f, OptimizeDescription)
  {
    ChecksUnrolled(Facts(title, description, body));
  }

  /** A body with words gets exactly the suggestions whose check fires. */
  lemma SuggestionsFire(title: string, description: string, body: string)
    requires CountWords(body) > 0
    ensures forall x :: x in Suggestions(title, description, body) <==> x != StartWriting && Fires(x, Facts(title, description, body))
  {
    RunChecksMembers(CheckOrder, Facts(title, description, body));
  }

  /** How the checks read the facts: each suggestion is in `s` exactly when its threshold is crossed. */
  lemma FiresRules(f: PageFacts, s: seq<Suggestion>)
    requires forall x :: x in s <==> x != StartWriting && Fires(x, f)
    ensures (AddHeadings in s <==> f.h2Count == 0) && (MoreHeadings in s <==> f.wordCount > 300 && f.h2Count < 2)
    ensures (AddImages in s <==> f.imageCount == 0) && (AddLinks in s <==> !f.hasLink)
    ensures (ExpandContent in s <==> f.wordCount < 300) && (UseLists in s <==> !f.hasList)
    ensures (OptimizeTitle in s <==> f.titleLength < 30) && (OptimizeDescription in s <==> f.descriptionLength < 120)
  {
  }

  /** The markup facts in terms of what the raw body contains. */
  lemma FactsMeaning(title: string, description: string, body: string)
    ensures var f := Facts(title, description, body);
            && (f.h2Count == 0 <==> !Contains(body, "<h2"))
            && (f.imageCount == 0 <==> !Contains(body, "<img"))
            && (f.hasLink <==> HasLinkTag(body))
  {
    OccurrencesPositive(body, "<h2");
    OccurrencesPositive(body, "<img");
    LinkCountPositiveIff(body);
  }

  /** The markup checks: each suggestion is given exactly when the raw body lacks what it asks for. */
  lemma SuggestionMarkupRules(title: string, description: string, body: string)
    requires CountWords(body) > 0
    ensures var s := Suggestions(title, description, body);
            && (AddHeadings in s <==> !Contains(body, "<h2"))
            && (AddImages in s <==> !Contains(body, "<img"))
            && (AddLinks in s <==> !HasLinkTag(body))
            && (UseLists in s <==> !Contains(body, "<ul") && !Contains(body, "<ol"))
  {
    SuggestionsFire(title, description, body);
    FiresRules(Facts(title, description, body), Suggestions(title, description, body));
    FactsMeaning(title, description, body);
  }

  /** The length checks: each suggestion is given exactly when its threshold is crossed. */
  lemma SuggestionLengthRules(title: string, description: string, body: string)
    requires CountWords(body) > 0
    ensures var s, wordCount := Suggestions(title, description, body), CountWords(body);
            && (MoreHeadings in s <==> wordCount > 300 && Occurrences(body, "<h2") < 2)
            && (ExpandContent in s <==> wordCount < 300)
            && (OptimizeTitle in s <==> |title| < 30)
            && (OptimizeDescription in s <==> |description| < 120)
  {
    SuggestionsFire(title, description, body);
    FiresRules(Facts(title, description, body), Suggestions(title, description, body));
  }

  /** A body with no word but some markup still scores its 20 content points and gets only "start writing". */
  lemma MarkupWithoutWords(title: string, description: string, body: string)
    requires body != "" && CountWords(body) == 0
    ensures ContentScore(body) == 20
    ensures Suggestions(title, description, body) == [StartWriting]
  {
  }
}
