# SEOAnalyzer scoring engine in Dafny

This project models the `SEOAnalyzer` class of `seo-analyzer.js`, the engine behind a
page-quality editor. The class holds a case-insensitive set of target keywords. Given a page
(a title, a meta description and an HTML body) it produces five things:

- a word count;
- a density analysis of each keyword in the body;
- an SEO score from 0 to 100;
- a spam (or "danger") score from 0 to 100;
- an ordered list of writing suggestions.

The project has four modules, following the structure of the source:

- `Text` (`text.dfy`): the text primitives the class uses.
  - `toLowerCase` on ASCII letters.
  - `replace(/<[^>]*>/g, ' ')`.
  - `split(/\s+/)`, with JavaScript's full `\s` set.
  - `trim` and `countWords`.
  - The run-counting functions (`Runs`, `WordRuns`, `SpaceRuns`) that say what those counts mean.
- `Matching` (`matching.dfy`): the regular-expression counts of the source.
  - A global literal pattern, optionally case-insensitive and bounded by `\b` (the `countKeywordOccurrences` pattern).
  - `includes`.
  - The `<a[^>]*>` link pattern.
- `Scoring` (`scoring.dfy`): specification functions for `analyzeKeywords`, `calculateScore`,
  `calculateSpamScore` and `generateSuggestions`, and the lemmas about them.
  - Densities are natural numbers of hundredths of a percent, which is exactly what
    `toFixed(2)` keeps.
  - Score sums are exact reals, and `Math.round` is `(x + 0.5).Floor`.
- `Analyzer` (`analyzer.dfy`): the class and its methods.
  - `SEOAnalyzer` is a class whose `keywords` field is the JavaScript `Set`. The field is a sequence in insertion order, since the set's iteration order decides the order of the densities.
  - `AddKeyword` and `RemoveKeyword` update the field in place.
  - The loops of `analyzeKeywords`, `calculateScore` and `calculateSpamScore` are `while` loops. Each is proved equal to its specification function.
  - `generateSuggestions` is the source's sequence of conditional pushes with an early return.
  - `analyzeContent` calls them all in the source's order.

Suggestions are the values of the `Suggestion` datatype. `Scoring.Message` maps each value
to the French text that the source pushes.

Three consequences of the code are easy to miss:

- **`totalWords` counts empty fields.** `"<p>cat cat cat dog</p>"` strips to
  `" cat cat cat dog "`, whose `split(/\s+/)` has 6 fields, two of them empty, so the density
  of `cat` is 50.00 %, not 75 %. `Scoring.TotalWordsFacts` states the general rule: the
  divisor is the number of whitespace runs plus one, and it is up to two more than `countWords`.
- **The division needs no guard.** `analyzeKeywords` divides by `totalWords` unguarded, and
  that is safe: `split` always yields at least one field (`Scoring.TotalWords` ensures `n >= 1`).
- **The keyword `__proto__` gets no entry.** `densities` is a plain object, so
  `densities["__proto__"] = {...}` runs the inherited prototype setter and creates no own
  property; `Object.values` and `Object.entries` then skip that keyword. `Scoring.Store`
  models the assignment, and `Scoring.ProtoKeyUnscored` shows the effect: the keyword set
  `{"__proto__"}` gives an empty analysis and a danger score of 0, however often the body
  says `__proto__`.

## Model

| member | source | states |
|---|---|---|
| Analyzer.SEOAnalyzer.constructor | seo-analyzer.js:2-12 | a new analyzer has an empty keyword set (the thresholds are module constants) |
| Analyzer.SEOAnalyzer.AddKeyword | seo-analyzer.js:14-16 | the set becomes `Added(old set, keyword)` and stays a set of distinct lower-case keys |
| Analyzer.SEOAnalyzer.RemoveKeyword | seo-analyzer.js:18-20 | the set becomes `Removed(old set, keyword)` and stays a set of distinct lower-case keys |
| Analyzer.SEOAnalyzer.HasKeyword | seo-analyzer.js:22-24 | true exactly when some stored keyword equals the argument up to case |
| Analyzer.SEOAnalyzer.AnalyzeKeywords | seo-analyzer.js:47-69 | the `forEach` stores each keyword's entry on the object and the reduce sums them, building exactly `Analyze(keywords, text)`: an entry per keyword other than `__proto__`, in set order, then their total |
| Analyzer.SEOAnalyzer.CalculateScore | seo-analyzer.js:76-111 | the accumulated score, rounded and capped, equals `SeoScore` of the set's size and the page |
| Analyzer.SEOAnalyzer.GenerateSuggestions | seo-analyzer.js:113-162 | the pushes, with the early return for a body without words, give exactly `Suggestions(title, description, body)` |
| Analyzer.SEOAnalyzer.CalculateSpamScore | seo-analyzer.js:164-184 | the loop and the total-density penalty, rounded and capped, equal `SpamScore` of the set's size and the analysis |
| Analyzer.SEOAnalyzer.AnalyzeContent | seo-analyzer.js:31-45 | the report is `Report(keywords, title, description, body)` |
| Analyzer.TotalDensity | seo-analyzer.js:62-63 | the reduce over the entries adds up exactly `SumDensities` of them |
| Analyzer.ContentPoints | seo-analyzer.js:82-88 | the content block adds exactly `ContentScore(body)` |
| Analyzer.MetadataPoints | seo-analyzer.js:90-92 | the metadata block adds 10 for a non-empty title and 10 for a non-empty description |
| Analyzer.KeywordUsagePoints | seo-analyzer.js:94-99 | the loop over the densities adds `20 / size` per entry in the optimal band, i.e. `KeywordShare` |
| Analyzer.StructurePoints | seo-analyzer.js:101-108 | the structure block adds exactly `StructureScore(body)` |
| Analyzer.PushChecks | seo-analyzer.js:127-161 | the eight conditional pushes yield `RunChecks(CheckOrder, facts)` |
| Analyzer.Added | seo-analyzer.js:14-16 | after adding, the members are the old ones plus the lower-cased keyword; the old order is a prefix; at most one more entry |
| Analyzer.RemoveValue | seo-analyzer.js:18-20 | the members are the old ones except the removed value, and there are no more of them (their order is in `RemoveValueAt`) |
| Analyzer.Removed | seo-analyzer.js:18-20 | after deleting, the members are the old ones except the lower-cased keyword (their order is in `RemovedKeepsSet`) |
| Analyzer.AddedKeepsSet | seo-analyzer.js:14-16 | adding keeps entries distinct and lower-case, and grows the set by one exactly when the key was new |
| Analyzer.RemoveValueKeepsSet | seo-analyzer.js:18-20 | removing keeps entries distinct and lower-case and drops exactly one entry when the key was present |
| Analyzer.RemoveValueAt | seo-analyzer.js:18-20 | removing a value held once cuts out exactly its position, the other entries keeping their order |
| Analyzer.RemovedKeepsSet | seo-analyzer.js:18-20 | `removeKeyword` keeps the set invariant, shrinks it by one exactly for a present key, and then cuts out just that key's position, the rest keeping insertion order |
| Analyzer.RemoveValueAbsent | seo-analyzer.js:18-20 | removing an absent value leaves the sequence unchanged |
| Analyzer.RemovedAbsent | seo-analyzer.js:18-20 | removing a keyword that is not in the set changes nothing |
| Analyzer.RemoveValueLast | seo-analyzer.js:18-20 | removing the last-added value gives what removing it before the addition gives |
| Analyzer.AddedIdempotent | seo-analyzer.js:14-16 | adding the same keyword twice is adding it once |
| Analyzer.AddThenRemove | seo-analyzer.js:14-20 | adding a new keyword and then removing it restores the set, order included |
| Analyzer.KeywordsIgnoreCase | seo-analyzer.js:14-24 | keywords equal up to case add and remove the same entry; after adding one the other is present, after removing one the other is absent |
| Analyzer.Report | seo-analyzer.js:31-45 | both scores lie in 0..100; with no keyword both are 0 and the analysis is empty; the word count is 0 exactly when the suggestions are only "start writing"; at most 8 suggestions; one density per keyword other than `__proto__` |
| Analyzer.IdealPage | seo-analyzer.js:31-45 | a page with 600+ words, title, description, heading, link and image, every keyword in the optimal band and none of them `__proto__` (which would get no entry and so no usage points), scores 100 with danger 0 |
| Text.LowerChar | seo-analyzer.js:15 | an upper-case letter moves down by 32 to its lower-case letter; the result is never upper-case and keeps its whitespace and word-character classes |
| Text.Lower | seo-analyzer.js:48 | lower-casing keeps the length, lower-cases every character in place and leaves no upper-case letter |
| Text.LowerIdempotent | seo-analyzer.js:14-16 | lower-casing twice is lower-casing once, so stored keys are their own lower case |
| Text.IndexOf | seo-analyzer.js:103 | the first position of a character, or -1 exactly when it does not occur |
| Text.StripTags | seo-analyzer.js:27 | stripping never lengthens the text |
| Text.StripTagsRemovesTags | seo-analyzer.js:27 | no `<...>` span is left after stripping |
| Text.StripTagsWithoutTag | seo-analyzer.js:27 | a text without `<`, or without `>`, is unchanged |
| Text.StripTagsTag | seo-analyzer.js:27 | a leading tag becomes exactly one space |
| Text.StripTagsPlainPrefix | seo-analyzer.js:27 | text before the first `<` is kept as it is |
| Text.Span | seo-analyzer.js:49 | the longest prefix of one character class, and the character after it is of the other class |
| Text.Split | seo-analyzer.js:49 | `split(/\s+/)` always yields at least one field |
| Text.NonEmpty | seo-analyzer.js:28 | the filter keeps the non-empty values of the input and no others, and never lengthens it |
| Text.NonEmptyMultiset | seo-analyzer.js:28 | the filter keeps every non-empty field as often as it occurs and drops every empty one, so its length is the number of non-empty fields |
| Text.TrimStart | seo-analyzer.js:28 | a suffix of the input that does not start with whitespace, everything removed before it being whitespace |
| Text.TrimEnd | seo-analyzer.js:28 | a prefix of the input that does not end with whitespace, everything removed after it being whitespace |
| Text.Trim | seo-analyzer.js:28 | neither end of the result is whitespace; it is a prefix of the input after its leading whitespace, and only whitespace precedes it and follows it |
| Text.CountWords | seo-analyzer.js:26-29 | `countWords`: the non-empty fields of the trimmed, tag-stripped text split on whitespace (`CountWordsCountsRuns` gives its meaning) |
| Text.SplitCountsSpaceRuns | seo-analyzer.js:49-50 | the number of fields is the number of whitespace runs plus one |
| Text.SplitCountsWordRuns | seo-analyzer.js:28 | the non-empty fields are exactly the words (maximal non-whitespace runs) |
| Text.TrimStartKeepsWords | seo-analyzer.js:28 | trimming the start keeps the number of words |
| Text.TrimEndKeepsWords | seo-analyzer.js:28 | trimming the end keeps the number of words |
| Text.LowerKeepsRuns | seo-analyzer.js:48-49 | lower-casing changes no run count |
| Text.RunsAlternate | seo-analyzer.js:49 | word runs and whitespace runs alternate, so their counts differ by at most one |
| Text.CountWordsCountsRuns | seo-analyzer.js:26-29 | `countWords` is the number of maximal non-whitespace runs of the tag-stripped text |
| Text.SplitExceedsWords | seo-analyzer.js:49-50 | the number of split fields is between the word count and the word count plus two |
| Text.CountWordsParagraph | seo-analyzer.js:26-29 | a paragraph with a word and a bold word counts 2: the tags add no word |
| Text.CountWordsExample | seo-analyzer.js:26-29 | `"<p>Hello <b>world</b></p>"` counts 2 words |
| Matching.MatchCount | seo-analyzer.js:73 | a global literal regex's match count from a position: left to right, non-overlapping, optionally case-insensitive and between `\b` boundaries (its meaning is in `MatchCountPositive` and `MatchCountBound`) |
| Matching.MatchCountPositive | seo-analyzer.js:73 | a global match count is positive exactly when some match exists at or after the start |
| Matching.MatchCountBound | seo-analyzer.js:73 | non-overlapping matches of a non-empty pattern fit in the text |
| Matching.Contains | seo-analyzer.js:149 | `includes`: the literal occurs at some position |
| Matching.Occurrences | seo-analyzer.js:102-104 | the `/<h2/g` and `/<img/g` counts: case-sensitive literal matches without boundaries |
| Matching.OccurrencesPositive | seo-analyzer.js:102-104 | a literal tag is counted at least once exactly when the body includes it |
| Matching.KeywordOccurrences | seo-analyzer.js:71-74 | `countKeywordOccurrences`: case-insensitive whole-word matches of the keyword (its meaning is in the three lemmas below) |
| Matching.KeywordOccurrencesPositive | seo-analyzer.js:71-74 | a keyword is counted at least once exactly when it occurs, up to case, between two word boundaries |
| Matching.KeywordOccurrencesBound | seo-analyzer.js:71-74 | a non-empty keyword occurs at most `|text| / |keyword|` times |
| Matching.KeywordOccurrencesEmptyText | seo-analyzer.js:71-74 | nothing occurs in the empty text |
| Matching.LinkCount | seo-analyzer.js:103 | the `/<a[^>]*>/g` count from a position: each `<a` with a later `>` is one match, ending at the first `>` (its meaning is in the two lemmas below) |
| Matching.LinkCountPositive | seo-analyzer.js:103 | the link search from a position finds something exactly when some `<a` after it is followed by a `>` |
| Matching.LinkCountPositiveIff | seo-analyzer.js:103 | `linkCount > 0` exactly when the body has a `<a` followed by a `>` |
| Scoring.Min | seo-analyzer.js:110 | `Math.min`: at most both arguments and equal to one of them |
| Scoring.Round | seo-analyzer.js:110 | `Math.round`: within one half of its argument, halves rounded up |
| Scoring.RoundMonotone | seo-analyzer.js:110 | rounding is monotone |
| Scoring.TotalWords | seo-analyzer.js:48-50 | `totalWords` is at least 1, so every density is defined |
| Scoring.TotalWordsFacts | seo-analyzer.js:49-50 | `totalWords` is the number of whitespace runs of the stripped body plus one, and between `countWords` and `countWords + 2` |
| Scoring.RoundedDensity | seo-analyzer.js:55-58 | the density in hundredths is `count * 100 / totalWords` rounded half up to two decimals |
| Scoring.CleanText | seo-analyzer.js:48 | `cleanText`: the body with tags replaced by spaces, lower-cased |
| Scoring.DensityOf | seo-analyzer.js:54-59 | one keyword's entry: its whole-word count in the clean text and the rounded density of that count |
| Scoring.SumDensities | seo-analyzer.js:62-63 | the reduce over `Object.values`: the densities added in entry order |
| Scoring.Store | seo-analyzer.js:56-59 | `densities[keyword] = {...}` on a plain object for a new key: a new last entry, and none for `__proto__` |
| Scoring.Stored | seo-analyzer.js:53-60 | the keywords that get an entry, in set order; never more than the keywords |
| Scoring.StoredMembers | seo-analyzer.js:53-60 | the stored keys are exactly the keywords other than `__proto__`, and all of them when `__proto__` is not a keyword |
| Scoring.Entries | seo-analyzer.js:53-60 | the `forEach` leaves exactly one entry per stored key |
| Scoring.EntriesMeaning | seo-analyzer.js:53-60 | the entries are, in order, each stored key's `DensityOf` |
| Scoring.EntriesStep | seo-analyzer.js:53-60 | one more iteration of the `forEach` stores one more keyword's entry |
| Scoring.Analyze | seo-analyzer.js:47-67 | one entry per stored keyword (every keyword but `__proto__`), in order, counting its whole-word occurrences in the cleaned text; no more entries than keywords; the total is the sum of the densities; empty for an empty set |
| Scoring.AnalyzeDensities | seo-analyzer.js:53-62 | the keys are the keyword set without `__proto__`, in set order, and the whole set when `__proto__` is not in it |
| Scoring.AnalyzeRounding | seo-analyzer.js:55-58 | each density is `RoundedDensity` of its count over `totalWords`: the hundredth of a percent nearest to `count * 100 / totalWords`, halves rounded up |
| Scoring.ProtoKeyUnscored | seo-analyzer.js:51-63 | the keyword set `{"__proto__"}` gives no entry and total 0, no keyword-usage points and danger score 0, whatever the body |
| Scoring.EmptyBodyAnalysis | seo-analyzer.js:47-67 | an empty body gives every keyword count 0 and density 0, and total 0 |
| Scoring.SumDensitiesBound | seo-analyzer.js:62-63 | if every density is at most a bound, their total is at most the bound times their number |
| Scoring.ContentScore | seo-analyzer.js:83-88 | the content points are at most 40 |
| Scoring.ContentScoreLevels | seo-analyzer.js:83-88 | content points are positive exactly for a non-empty body; the word bonuses apply only to a non-empty body with 300 (and 600) words |
| Scoring.MetadataScore | seo-analyzer.js:91-92 | 10 points each for a non-empty title and a non-empty description |
| Scoring.StructureScore | seo-analyzer.js:101-108 | 10 points each for a positive `<h2`, link and `<img` count (their meaning is in `StructureScoreMeaning`) |
| Scoring.StructureScoreMeaning | seo-analyzer.js:101-108 | 10 points each for a body that includes `<h2`, has a link tag, includes `<img` |
| Scoring.KeywordShare | seo-analyzer.js:94-99 | the keyword-usage points: one unit per entry in the optimal band, in entry order |
| Scoring.KeywordShareCounts | seo-analyzer.js:94-99 | the keyword-usage points are the number of in-band entries times `20 / size` |
| Scoring.InBandCountBound | seo-analyzer.js:94-99 | at most every entry is in the band, and all are exactly when every density lies in [0.5, 2.0] |
| Scoring.KeywordShareAtMost20 | seo-analyzer.js:94-99 | with at most one entry per keyword the usage points are at most 20, and exactly 20 when there is one entry per keyword and every density is in [0.5, 2.0] |
| Scoring.KeywordShareMonotone | seo-analyzer.js:94-99 | more in-band entries never give fewer usage points |
| Scoring.RawScore | seo-analyzer.js:79-108 | the sum before rounding: content, metadata, keyword-usage and structure points |
| Scoring.SeoScore | seo-analyzer.js:76-111 | 0 for an empty keyword set, and always within 0..100 |
| Scoring.SeoScoreMonotone | seo-analyzer.js:94-110 | more keywords in the optimal band never lower the SEO score |
| Scoring.FullMarks | seo-analyzer.js:76-111 | every part at its maximum gives a raw sum of 110, capped to 100 |
| Scoring.SpamPoints | seo-analyzer.js:170-177 | one entry's spam points are non-negative, and positive exactly when its density exceeds 2.0 % |
| Scoring.SpamSum | seo-analyzer.js:170-177 | the spam points of every entry, added in entry order |
| Scoring.SpamSumAtLeast | seo-analyzer.js:170-177 | the spam sum is at least the points of any one entry |
| Scoring.SpamSumNonNegative | seo-analyzer.js:170-177 | the spam sum is never negative |
| Scoring.SpamSumZero | seo-analyzer.js:170-177 | no density above 2.0 % gives a spam sum of 0 |
| Scoring.TotalPenalty | seo-analyzer.js:179-181 | 20 more points when the total density exceeds 2.5 % times the number of keywords |
| Scoring.SpamScore | seo-analyzer.js:164-184 | 0 for an empty keyword set, and always within 0..100 |
| Scoring.SpamScoreCalm | seo-analyzer.js:164-184 | no density above 2.0 % and a total within 2.5 % per keyword give spam score 0 |
| Scoring.SpamScoreSaturates | seo-analyzer.js:170-183 | one keyword at 6.5 % or more gives spam score 100 |
| Scoring.SpamScoreZeroIff | seo-analyzer.js:164-184 | for a real analysis, the spam score is 0 exactly when no density exceeds 2.0 % |
| Scoring.Message | seo-analyzer.js:123-158 | the text pushed for each suggestion |
| Scoring.Facts | seo-analyzer.js:114-120 | the measures taken before the checks: words, `<h2` and `<img` counts, whether a link and a list exist, title and description lengths |
| Scoring.Fires | seo-analyzer.js:127-159 | each suggestion's condition on those measures (`FiresRules` ties them to the page) |
| Scoring.PushWhen | seo-analyzer.js:127-159 | one conditional push: the suggestion when its condition holds, else nothing |
| Scoring.CheckOrderRanked | seo-analyzer.js:127-159 | the eight checks run in a fixed order, each once, without "start writing" |
| Scoring.RunChecks | seo-analyzer.js:127-161 | running checks pushes at most one suggestion per check |
| Scoring.RunChecksMembers | seo-analyzer.js:127-161 | a suggestion is pushed exactly when its check is run and its condition holds |
| Scoring.RunChecksRanked | seo-analyzer.js:127-161 | the pushed suggestions keep the order of the checks |
| Scoring.ChecksUnrolled | seo-analyzer.js:127-161 | running the eight checks is the eight pushes one after another |
| Scoring.Suggestions | seo-analyzer.js:113-162 | exactly "start writing" for a body without words; otherwise at most 8 suggestions without it; always in check order |
| Scoring.SuggestionsUnrolled | seo-analyzer.js:127-161 | for a body with words, the suggestions are the eight conditional pushes in order |
| Scoring.SuggestionsFire | seo-analyzer.js:127-159 | for a body with words, a suggestion is present exactly when its condition holds |
| Scoring.FiresRules | seo-analyzer.js:127-159 | each of the eight suggestions is present if and only if its own condition on the page facts holds |
| Scoring.FactsMeaning | seo-analyzer.js:115-118 | no `<h2` count, no `<img` count and no link count mean the body lacks that markup |
| Scoring.SuggestionMarkupRules | seo-analyzer.js:128-151 | heading, image, link and list suggestions appear exactly when the body lacks that markup |
| Scoring.SuggestionLengthRules | seo-analyzer.js:131-158 | more-headings, expand-content, title and description suggestions appear exactly under their word-count and length thresholds |
| Scoring.MarkupWithoutWords | seo-analyzer.js:83-125 | a body of markup only earns the 20 content points yet gets only "start writing" |

## Left out

- `main.js` is not part of this model. It holds the DOM wiring, event listeners, tooltips, the editor, the debounce timer and the rendering of results.
- Floating point: densities, sums and scores are exact. Differences that IEEE doubles can make are not modelled:
  - `toFixed(2)` on a binary value near a half;
  - the accumulation of `20 / size` in `calculateScore`;
  - the sum behind `totalDensity`.
- Scoring.Analyze: the `toFixed(2)` on the total is the identity here, because a sum of two-decimal values is itself two-decimal.
- Matching.KeywordOccurrences: keywords are read as literal text. Regular-expression metacharacters in a keyword, and the errors they can raise, are not modelled.
- Case folding covers ASCII letters only. Lengths count Unicode scalar values, which equals JavaScript's UTF-16 `.length` only for text inside the Basic Multilingual Plane; the length of a title or description with characters outside it (the tests at seo-analyzer.js:154 and 157) is not modelled. The `\b` word characters are ASCII `[A-Za-z0-9_]`, as in JavaScript without the `u` flag.
- The order of `Object.entries` is the set's insertion order. JavaScript lists integer-like keys (such as `"42"`) first, in numeric order. That reordering is not modelled, and it does not change the sums.
- Unused values are not modelled:
  - `h3Count` and `paragraphs` of `generateSuggestions`;
  - the `keywordAnalysis` argument of `generateSuggestions`;
  - `SPAM_THRESHOLD.consecutive`.
- Analyzer.SEOAnalyzer.GenerateSuggestions returns `Suggestion` values rather than strings. `Scoring.Message` gives each value's text.
- The thresholds are module constants rather than fields of the instance, because nothing in the class changes them.
- Parts of three methods live in module-level helper methods: the reduce of `analyzeKeywords`, one per commented block of `calculateScore`, and one for the group of pushes of `generateSuggestions`. Each helper is proved against its specification function, and the body of each part follows the source's statements.
- The `!title` and `!description` tests are the same as a length test for strings, so `|title| < 30` covers both.

