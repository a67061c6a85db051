# FairFound frontend core in Dafny

FairFound is a React frontend for freelancers. This project models its core:
- The client-feedback sentiment analyser (`src/lib/sentiment.ts`). It cleans and tokenises text, scores it against two word lists, boosts the score for intensifiers, labels it and maps tokens to improvement categories and suggestions. It also aggregates a list of reviews into label counts, a mean score and the five most frequent categories.
- The application state container (`src/context/AppContext.tsx`). It holds the user, the freelancer's metrics, the roadmap milestones, the saved ranking and the client feedback, and computes the pseudo-ranking.
- The comparison-history hook (`src/hooks/use-comparison-history.ts`), which covers seeding, adding, removing and grouping by role.
- The CSV export of reviews (`src/lib/utils.ts`).
- The pages that compute or change state:
  - the professional's mentorship dashboard;
  - both versions of the profile comparison page (`ProfileComparisonPage.tsx` and its newer copy `a.tsx`);
  - the comparison detail page;
  - the ranking badge;
  - the profile page with its hourly-rate suggestion;
  - the career roadmap;
  - the re-evaluation page;
  - the sentiment insights page;
  - the mentee's mentorship request page.

JavaScript semantics are modelled where they matter:
- Truthiness of strings and numbers: a score of 0, an empty id and an empty status are falsy.
- `??` against `||`.
- `Math.round` as `floor(x + 1/2)`.
- `Array.from(new Set(...))` keeps the order of first insertion.
- `Object.entries` lists array-index keys first.
- `Array.prototype.sort` is stable.
- `String.replace` with a string pattern replaces only the first match.
- A plain-object lookup also sees `Object.prototype`.

Numbers are reals, and instants are integers (milliseconds). Each file is one module:
- `common.dfy`: JavaScript helpers (Option, Round, Dedup, Filter, FindIndex, Trim, replace, truthiness).
- `domain.dfy`: metrics, milestones, users and reviews.
- `sentiment.dfy`, `sorting.dfy`, `aggregate.dfy`: the analyser and the aggregation.
- `app_context.dfy`, `comparison_history.dfy`, `csv_export.dfy`: the context, the history hook and the CSV export.
- One file per page.

Objects whose fields the source updates in place are classes: the context, the history hook and each page's component state. Each handler is one method with a `modifies` clause. Backend responses, browser storage and clocks are parameters of those methods.

## Model

| member | source | states |
|---|---|---|
| Common.PickId | src/pages/Freelancer/SentimentInsightsPage.tsx:28 | `id \|\| uuid \|\| pk \|\| String(id)`: the first truthy of the three, else "undefined"/"null"/the empty id as text |
| Common.TextOr | src/pages/Freelancer/SentimentInsightsPage.tsx:29 | `a \|\| b` on a possibly missing string: a when it is a non-empty string, else b |
| Common.Round | src/context/AppContext.tsx:149-155 | Math.round: the integer within half of x (halves round up) |
| Common.RoundMonotonic | src/pages/Freelancer/ProfilePage.tsx:34-36 | rounding preserves order, which keeps the price band ordered |
| Common.Dedup | src/lib/sentiment.ts:120 | `Array.from(new Set(s))`: the same members, each once |
| Common.DedupFirstOccurrenceOrder | src/lib/sentiment.ts:120 | the set keeps first-insertion order: earlier first occurrence comes first |
| Common.DedupSnoc | src/lib/sentiment.ts:120 | adding an element appends it exactly when it is new |
| Common.Filter | src/context/AppContext.tsx:192 | `filter`: exactly the elements that pass, never more than the list; Common.FilterAppend, Common.FilterAllKept and Common.FilterNoneKept fix the order on every list |
| Common.FilterSplitLength | src/pages/Professional/MentorshipDashboardPage.tsx:66 | a filter and its negation split the list |
| Common.FindIndex | src/pages/Professional/MentorshipDashboardPage.tsx:65 | `find`: the first element satisfying the predicate, or none exactly when no element does |
| Common.Trim | src/pages/Freelancer/SentimentInsightsPage.tsx:52-55 | `trim`: empty exactly for all-whitespace text, otherwise starts and ends with a non-space |
| Common.TrimIsInfix | src/pages/Freelancer/SentimentInsightsPage.tsx:55 | the trimmed text is the input with only whitespace removed at both ends |
| Common.ReplaceFirst | src/pages/Freelancer/ProfileComparisonPage.tsx:99 | `replace("-", " ")`: only the first hyphen changes, everything else is kept |
| Common.ReplaceAll | src/pages/Freelancer/a.tsx:150 | `replace(/-/g, " ")`: every hyphen changes, nothing else |
| Domain.Merge | src/context/AppContext.tsx:161-163 | `{...prev, ...patch}`: a field present in the patch wins, every other field is kept |
| Domain.MergeLaws | src/context/AppContext.tsx:161-163 | the empty patch changes nothing; applying the same patch twice equals applying it once |
| Domain.WithoutReview | src/context/AppContext.tsx:191-193 | exactly the reviews whose id differs remain |
| Domain.WithoutReviewLaws | src/context/AppContext.tsx:191-193 | deleting distributes over concatenation, so the remaining reviews keep their order; deleting an absent id changes nothing; deleting twice equals deleting once |
| Sentiment.CategoryMapInto | src/lib/sentiment.ts:12-70 | every category a token maps to is one of the seven names, has a three-line library and no ':' |
| Sentiment.CategoryNamesAreTheValues | src/lib/sentiment.ts:12-32 | the seven category names are exactly the values of categoryMap |
| Sentiment.WordListsDisjoint | src/lib/sentiment.ts:4-9 | no word is both positive and negative |
| Sentiment.LowerAscii | src/lib/sentiment.ts:86 | toLowerCase maps A-Z to a-z and keeps every other character |
| Sentiment.CleanChar | src/lib/sentiment.ts:86 | a cleaned character is a word character or whitespace, and a word character exactly when its lower case is |
| Sentiment.Cleaned | src/lib/sentiment.ts:86 | the cleaned text has the input's length and is cleaned character by character |
| Sentiment.Tokens | src/lib/sentiment.ts:87 | `split(/\s+/).filter(Boolean)`: non-empty tokens without whitespace; none exactly for all-whitespace text; with Sentiment.TokensSplitAtSpace and Sentiment.SingleToken this fixes every result |
| Sentiment.TokensSplitAtSpace | src/lib/sentiment.ts:87 | every whitespace character is a cut: the tokens of `a + [c] + b` for whitespace `c` are the tokens of `a` followed by the tokens of `b` |
| Sentiment.TokensDropSpace | src/lib/sentiment.ts:87 | a leading whitespace character adds no token |
| Sentiment.TokensTakeWord | src/lib/sentiment.ts:87 | a text that starts with a non-whitespace run yields that run as its first token, then the tokens of the rest |
| Sentiment.NoTokensIffNoWordChar | src/lib/sentiment.ts:86-87 | a text has no token exactly when no character lower-cases to a-z or 0-9 |
| Sentiment.Polarity | src/lib/sentiment.ts:92-94 | +1 exactly for a positive-only word, -1 exactly for a negative-only word |
| Sentiment.RawScore | src/lib/sentiment.ts:92-96 | the raw score lies within plus or minus the number of tokens |
| Sentiment.IntensifierCount | src/lib/sentiment.ts:99 | at most one intensifier per token |
| Sentiment.Sign | src/lib/sentiment.ts:100 | Math.sign: one of 1, -1 and 0, positive exactly for positive x and negative exactly for negative x |
| Sentiment.Boost | src/lib/sentiment.ts:99-100 | each intensifier moves the raw score 0.5 away from zero: down for a negative score, up for zero or a positive one |
| Sentiment.BoostKeepsPolarity | src/lib/sentiment.ts:100 | intensifiers push a negative score further down and any other score up, never flipping its sign; a zero score with an intensifier becomes positive |
| Sentiment.NormalizeScore | src/lib/sentiment.ts:72-77 | 0 without tokens; otherwise raw/tokens clamped to [-1, 1], clamping exactly when out of range |
| Sentiment.LabelFromScore | src/lib/sentiment.ts:79-83 | positive iff score > 0.15, negative iff < -0.15, neutral iff in between |
| Sentiment.MatchedCategories | src/lib/sentiment.ts:95 | at most one category per token, each one of the seven names |
| Sentiment.MatchedCategoriesSource | src/lib/sentiment.ts:95 | a category is matched exactly when some token is an own key of categoryMap mapping to it |
| Sentiment.FoundCategoriesFacts | src/lib/sentiment.ts:90-96 | the category Set: distinct names, exactly those of matching tokens, in order of first match |
| Sentiment.FoundCategories | src/lib/sentiment.ts:90-96 | no contract of its own: the de-duplicated token categories under own-key lookup; Sentiment.FoundCategoriesFacts states what it contains and in which order |
| Sentiment.TokenStep | src/lib/sentiment.ts:92-96 | one loop step adds the token's polarity and, when new, its category |
| Sentiment.ScoreTokens | src/lib/sentiment.ts:89-96 | the token loop computes the raw score and the category Set of the token list |
| Sentiment.SuggestionStep | src/lib/sentiment.ts:107-117 | one step of the suggestion loop appends that category's lines |
| Sentiment.PushSuggestions | src/lib/sentiment.ts:106-117 | the suggestion loop pushes a reinforcement line (positive) or the whole library (otherwise) per category |
| Sentiment.AnalyzeSentiment | src/lib/sentiment.ts:85-129 | analyzeSentiment: text kept, score in [-1, 1], label is the score's threshold, distinct categories among the seven names, distinct suggestions |
| Sentiment.Analyze | src/lib/sentiment.ts:85-129 | no contract of its own: analyzeSentiment as one expression; Sentiment.AnalyzeSentiment computes it, and Sentiment.ScoreBoundedAndLabelled, Sentiment.FoundCategoriesFacts and Sentiment.SuggestionsByLabel state its meaning |
| Sentiment.ScoreBoundedAndLabelled | src/lib/sentiment.ts:102-103 | for every text, score in [-1, 1] and the label agrees with the thresholds in both directions |
| Sentiment.NoTokensIsNeutral | src/lib/sentiment.ts:73 | a text with no word character scores 0, is neutral, and has no categories and no suggestions |
| Sentiment.BlankTextIsNeutral | src/lib/sentiment.ts:73 | empty and whitespace-only text is neutral with nothing found |
| Sentiment.ReinforcementInjective | src/lib/sentiment.ts:112 | reinforcement lines of different categories differ |
| Sentiment.PositiveSuggestionsInOrder | src/lib/sentiment.ts:111-112 | with a positive label the loop pushes one reinforcement line per category, in category order |
| Sentiment.PositiveSuggestionsAreReinforcements | src/lib/sentiment.ts:111-112 | with a positive label there is one distinct reinforcement line per category |
| Sentiment.OtherSuggestionsAreLibraries | src/lib/sentiment.ts:113-114 | with another label the pushed lines are the categories' libraries concatenated |
| Sentiment.LibraryLists | src/lib/sentiment.ts:108 | the library of each category, in category order |
| Sentiment.SuggestionsByLabel | src/lib/sentiment.ts:106-127 | suggestions of a positive review are one reinforcement per category in order; otherwise the de-duplicated libraries |
| Sentiment.CleanedWord | src/lib/sentiment.ts:86 | a word of a-z and 0-9 survives cleaning unchanged |
| Sentiment.SingleToken | src/lib/sentiment.ts:87 | a non-empty text without whitespace is one token |
| Sentiment.ConstructorNotOwnKey | src/lib/sentiment.ts:12-32 | "constructor" is not an own key of categoryMap |
| Sentiment.ConstructorIsOneToken | src/lib/sentiment.ts:86-87 | the review "constructor" tokenises to itself |
| Sentiment.ConstructorTokenBecomesCategory | src/lib/sentiment.ts:95 | as written, a "constructor" token adds Object to the category Set, while own-key lookup adds only real names |
| Sentiment.ConstructorReviewExample | src/lib/sentiment.ts:95 | as written the review "constructor" has one category (Object); with own-key lookup it has none |
| Sentiment.AsOwn | src/lib/sentiment.ts:95 | wrapping names as own property values, member by member |
| Sentiment.CategoryLookupAsWritten | src/lib/sentiment.ts:95 | no contract of its own: `categoryMap[t]` on a plain object, that is an own value, the inherited constructor for "constructor", else undefined; used by the as-written lemmas |
| Sentiment.FoundCategoriesAsWritten | src/lib/sentiment.ts:90-96 | no contract of its own: the category Set as the code builds it with that lookup; Sentiment.ConstructorTokenBecomesCategory and Sentiment.AsWrittenAgreesOffConstructor state how it differs |
| Sentiment.AsWrittenAgreesOffConstructor | src/lib/sentiment.ts:95 | without a "constructor" token the code's lookup and own-key lookup find the same categories |
| Sorting.InsertBy | src/lib/sentiment.ts:139 | insertion adds exactly one element |
| Sorting.SortBy | src/lib/sentiment.ts:139 | sorting keeps the length |
| Sorting.WithKeyAppend | src/lib/sentiment.ts:139 | the elements with one key, taken from a concatenation, are those of each part in order |
| Sorting.WithKeyOfPrefix | src/lib/sentiment.ts:139 | a prefix's elements of one key are a prefix of the whole's |
| Sorting.WithKeyAbove | src/lib/sentiment.ts:139 | no element has a key smaller than all keys |
| Sorting.InsertByMultiset | src/lib/sentiment.ts:139 | insertion is a permutation of the list plus the element |
| Sorting.InsertBySorted | src/lib/sentiment.ts:139 | insertion into a sorted list keeps it sorted |
| Sorting.InsertByWithKey | src/lib/sentiment.ts:139 | insertion places an element after the equal keys already present |
| Sorting.SortByFacts | src/lib/sentiment.ts:139 | the stable sort: sorted, a permutation, and equal keys keep their order |
| Sorting.SortBySorted | src/lib/sentiment.ts:139 | sorting a sorted list changes nothing |
| Sorting.InsertAtEnd | src/lib/sentiment.ts:139 | an element with the largest key goes last |
| Aggregate.CountLabel | src/lib/sentiment.ts:133-135 | a label count never exceeds the number of reviews |
| Aggregate.LabelCountsSum | src/lib/sentiment.ts:133-135 | the three label counts add up to at most the number of reviews, exactly when every label is known |
| Aggregate.SumScoresBounds | src/lib/sentiment.ts:136 | the score sum lies between n times the lowest and n times the highest bound |
| Aggregate.MeanBounds | src/lib/sentiment.ts:136 | the mean lies within any bounds that hold for every score |
| Aggregate.AllCategoriesMembers | src/lib/sentiment.ts:138 | the flattened categories are exactly those of some review |
| Aggregate.CategoryCounts | src/lib/sentiment.ts:137-138 | the count table has exactly the categories that occur |
| Aggregate.CountCategories | src/lib/sentiment.ts:137-138 | the nested counting loop yields the keys in insertion order and each key's number of occurrences |
| Aggregate.CountReviewCategories | src/lib/sentiment.ts:138 | the inner loop over one review's categories extends the first-seen key order and the occurrence counts by exactly that review's categories |
| Aggregate.CountedIsCategoryCounts | src/lib/sentiment.ts:137-138 | a count map that holds exactly the occurring names with their occurrence numbers is the category-count map of the reviews |
| Aggregate.CountStep | src/lib/sentiment.ts:138 | `count[c] = (count[c] \|\| 0) + 1` keeps every count equal to the occurrences so far |
| Aggregate.IndexKeys | src/lib/sentiment.ts:139 | the keys that are array indices |
| Aggregate.OtherKeys | src/lib/sentiment.ts:139 | the keys that are not array indices |
| Aggregate.SplitKeysMultiset | src/lib/sentiment.ts:139 | index and other keys together are all keys |
| Aggregate.OtherKeysAll | src/lib/sentiment.ts:139 | without index keys every key is an "other" key |
| Aggregate.EntryOrderPermutes | src/lib/sentiment.ts:139 | Object.entries order is a permutation of the insertion order |
| Aggregate.EntryOrder | src/lib/sentiment.ts:139 | no contract of its own: index-like keys ascending, then the others in insertion order; the four EntryOrder lemmas state its properties |
| Aggregate.EntryOrderNoDup | src/lib/sentiment.ts:139 | the entries list each key once |
| Aggregate.EntryOrderWithoutIndices | src/lib/sentiment.ts:139 | without index-like keys Object.entries keeps insertion order |
| Aggregate.EntryOrderIndicesFirst | src/lib/sentiment.ts:139 | index-like keys come before all other keys |
| Aggregate.NoDupIffSingleOccurrences | src/lib/sentiment.ts:139 | no duplicates exactly when each multiplicity is at most one |
| Aggregate.NoDupMultiset | src/lib/sentiment.ts:139 | a permutation of a duplicate-free list is duplicate-free |
| Aggregate.Entries | src/lib/sentiment.ts:139 | one [category, count] entry per key, in order |
| Aggregate.EntriesNoDup | src/lib/sentiment.ts:139 | the entries are distinct |
| Aggregate.RankedMembers | src/lib/sentiment.ts:139 | the sorted entries are exactly the entries |
| Aggregate.Ranked | src/lib/sentiment.ts:139 | no contract of its own: the entries stably sorted by descending count; Sorting.SortByFacts and Aggregate.RankedMembers state its meaning |
| Aggregate.TopCategories | src/lib/sentiment.ts:139 | `slice(0,5)`: min(5, number of categories) names |
| Aggregate.TopCategoriesFacts | src/lib/sentiment.ts:139 | at most five distinct categories, counts non-increasing, and no omitted category is more frequent than one kept |
| Aggregate.TopIsRankedPrefix | src/lib/sentiment.ts:139 | `slice(0,5).map(([c]) => c)` takes the categories of the first ranked entries, each a key with its own count |
| Aggregate.TopDistinctMembers | src/lib/sentiment.ts:139 | at most five top categories, all distinct and all counted keys |
| Aggregate.TopOrdered | src/lib/sentiment.ts:139 | the top categories come in non-increasing count |
| Aggregate.TopNotOutranked | src/lib/sentiment.ts:139 | no category left out of the top list has a higher count than one kept |
| Aggregate.TopCategoriesKeepTieOrder | src/lib/sentiment.ts:139 | among equal counts the kept categories keep Object.entries order |
| Aggregate.CategoryCountsKeys | src/lib/sentiment.ts:137-139 | every listed entry has a count |
| Aggregate.AggregateReviews | src/lib/sentiment.ts:131-141 | the imperative aggregation computes the summary specified by AggregateOf |
| Aggregate.AggregateOf | src/lib/sentiment.ts:131-140 | no contract of its own: aggregateReviews as one expression; the Aggregate lemmas on empty input, label counts, mean and top categories state its meaning |
| Aggregate.AggregateEmpty | src/lib/sentiment.ts:132 | no reviews give the all-zero summary |
| Aggregate.AggregateLabelCounts | src/lib/sentiment.ts:133-135 | counts add up to at most the reviews, exactly when every label is one of the three |
| Aggregate.AggregateMean | src/lib/sentiment.ts:136 | the average times the number of reviews is the score sum |
| Aggregate.AggregateMeanBounded | src/lib/sentiment.ts:136 | scores in [-1, 1] give an average in [-1, 1] |
| Aggregate.AggregateTopCategoriesDistinct | src/lib/sentiment.ts:139 | the top categories are min(5, distinct categories) distinct names occurring in some review |
| Aggregate.AggregateTopCategoriesRanked | src/lib/sentiment.ts:139 | the top categories are in non-increasing frequency and no omitted category is more frequent |
| Aggregate.AggregateTieOrder | src/lib/sentiment.ts:139 | without index-like names, ties keep first-occurrence order |
| Aggregate.OrderOfAllCategories | src/lib/sentiment.ts:137-139 | the entry order lists each occurring category once, each with a count |
| App.CompletedCount | src/context/AppContext.tsx:144 | completed milestones never exceed the milestones |
| App.MilestoneBonus | src/context/AppContext.tsx:144-145 | the completed share of 15 points, so between 0 and 15; App.MilestoneBonusBounds adds that it is 15 exactly when all are done |
| App.MilestoneBonusBounds | src/context/AppContext.tsx:145 | the milestone bonus lies in [0, 15] and is 15 exactly when all are done |
| App.PseudoRanking | src/context/AppContext.tsx:143-159 | calculatePseudoRanking: never above 100; exactly 100 when the capped terms plus the bonus round to 100 or more, and otherwise that sum rounded to the nearest integer |
| App.NoneCompleted | src/context/AppContext.tsx:144 | no completed milestone gives a count of 0 |
| App.PseudoRankingBounds | src/context/AppContext.tsx:143-158 | the ranking is at most 100, with each capped term within its cap |
| App.PseudoRankingHasNoFloor | src/context/AppContext.tsx:147-156 | there is no lower clamp: completeness -400 and nothing else gives -100 |
| App.InitialRanking | src/context/AppContext.tsx:6-50 | the initial profile and roadmap rank 83 |
| App.CompletedCountMonotone | src/context/AppContext.tsx:144 | completing more milestones never lowers the count |
| App.RankingMonotoneInMilestones | src/context/AppContext.tsx:143-158 | completing milestones never lowers the ranking |
| App.Toggled | src/context/AppContext.tsx:165-169 | exactly the milestones with that id flip their completion |
| App.ToggledFacts | src/context/AppContext.tsx:165-169 | toggling keeps ids, order and titles, flips exactly the matching ones, and twice is identity |
| App.ToggleIncompleteRaisesRanking | src/context/AppContext.tsx:165-169 | toggling an incomplete milestone never lowers the ranking |
| App.LoadedProfile | src/context/AppContext.tsx:74-81 | the stored profile text, when present and parsed, is merged over the initial profile; an absent text or a throwing parse gives the initial profile |
| App.StoredText | src/context/AppContext.tsx:70-71 | `localStorage.getItem(key)` as a condition: a text exactly when the key is stored with a non-empty value |
| App.LoadedFeedback | src/context/AppContext.tsx:84-93 | the stored feedback when its text is present and parses; otherwise, including a throwing parse, the empty list |
| App.AppState.constructor | src/context/AppContext.tsx:68-93 | the provider's initial state read from storage: the user from the "user" text (none without one), the loaded profile and feedback, the initial roadmap and no saved ranking; it requires a "user" text that parses (see Left out) |
| App.AppState.UpdateFreelancerProfile | src/context/AppContext.tsx:161-163 | the profile becomes the merge of the patch; nothing else changes |
| App.AppState.ToggleMilestone | src/context/AppContext.tsx:165-169 | the milestones become the toggled list; nothing else changes |
| App.AppState.SavePreviousRanking | src/context/AppContext.tsx:171-173 | the saved ranking becomes the current ranking (at most 100) |
| App.AppState.AddClientFeedback | src/context/AppContext.tsx:175-184 | the analysed review with the given id and time is prepended and returned |
| App.AppState.DeleteClientFeedback | src/context/AppContext.tsx:191-193 | the reviews with that id are removed |
| App.AppState.Logout | src/context/AppContext.tsx:185-190 | the user is cleared and the three session keys leave storage |
| History.SeedData | src/hooks/use-comparison-history.ts:20-92 | three demo entries seed-1..3, older than now and in time order, with scores and averages |
| History.NewEntry | src/hooks/use-comparison-history.ts:137-142 | no contract of its own: `{ id, createdAt, ...partial }`, the given id and time over the submitted fields; History.ComparisonHistory.AddEntry states where it goes |
| History.LoadDecision | src/hooks/use-comparison-history.ts:105-127 | stored entries are used exactly when storage holds a non-empty array; seeding happens exactly when it does not, the flag is unset and parsing did not throw |
| History.WithoutEntry | src/hooks/use-comparison-history.ts:148 | exactly the entries with another id remain |
| History.WithoutEntryLaws | src/hooks/use-comparison-history.ts:148 | removal distributes over concatenation, is a no-op for an absent id and idempotent |
| History.Roles | src/hooks/use-comparison-history.ts:152 | the role of each entry, in order |
| History.OfRole | src/hooks/use-comparison-history.ts:152 | exactly the entries of that role |
| History.OfRoleSnoc | src/hooks/use-comparison-history.ts:152 | a new entry joins only its own role's group, at the end |
| History.OfRoleAbsent | src/hooks/use-comparison-history.ts:152 | a role no entry has has an empty group |
| History.SizeSumSnocEntry | src/hooks/use-comparison-history.ts:150-155 | one more entry adds one to the group sizes when its role is listed |
| History.SizeSumSnocKey | src/hooks/use-comparison-history.ts:150-155 | one more role adds its group's size |
| History.GroupSizesSum | src/hooks/use-comparison-history.ts:150-155 | the groups' sizes add up to the number of entries |
| History.RolesSnoc | src/hooks/use-comparison-history.ts:152 | the roles of an extended list |
| History.ContentsStep | src/hooks/use-comparison-history.ts:152 | one reduce step keeps each group equal to its role's entries |
| History.GroupStepKnown | src/hooks/use-comparison-history.ts:152 | an entry of a known role is pushed to its group |
| History.GroupStepNew | src/hooks/use-comparison-history.ts:152 | an entry of a new role opens a group |
| History.GroupsCoverEntries | src/hooks/use-comparison-history.ts:150-155 | every entry is in its role's group |
| History.ComparisonHistory.constructor | src/hooks/use-comparison-history.ts:105-127 | the mount effect: stored entries, the seed, or nothing, as LoadDecision says |
| History.ComparisonHistory.SeedDemo | src/hooks/use-comparison-history.ts:94-103 | entries become the seed and the flag "1" |
| History.ComparisonHistory.AddEntry | src/hooks/use-comparison-history.ts:137-145 | the new entry, with the given id and time, is prepended and returned |
| History.ComparisonHistory.ClearAll | src/hooks/use-comparison-history.ts:147 | no entries remain |
| History.ComparisonHistory.Remove | src/hooks/use-comparison-history.ts:148 | the entries with that id are removed |
| History.ComparisonHistory.GroupByRole | src/hooks/use-comparison-history.ts:150-155 | one non-empty group per distinct role, each exactly that role's entries, covering every entry; roles are listed in first-seen order, not the Object.entries order (see Left out) |
| CsvExport.DoubleQuotes | src/lib/utils.ts:13 | each '"' is doubled: one extra character per quote |
| CsvExport.Escape | src/lib/utils.ts:13 | a quoted field: opening and closing quote around the doubled text |
| CsvExport.EscapeAll | src/lib/utils.ts:23 | `.map(v => escape(String(v)))`: one escaped field per field, in order |
| CsvExport.RowText | src/lib/utils.ts:23 | no contract of its own: the escaped fields joined by commas; CsvExport.ReadRowText reads it back to the fields |
| CsvExport.FlattenNewlines | src/lib/utils.ts:22 | `replace(/\r?\n/g, " ")`: no newline remains, no longer than the input; the two lemmas below say which space replaces which line break |
| CsvExport.LineFeedBecomesSpace | src/lib/utils.ts:22 | a `\n` not preceded by `\r` becomes one space and the text on either side is flattened on its own |
| CsvExport.CrLfBecomesSpace | src/lib/utils.ts:22 | a `\r\n` becomes one space and the text on either side is flattened on its own |
| CsvExport.LoneCrKept | src/lib/utils.ts:22 | a `\r` not followed by `\n` is kept; with the lemmas around it this fixes the result on every text |
| CsvExport.FlattenNewlinesAppend | src/lib/utils.ts:22 | the replacement works piece by piece wherever the cut does not fall inside a `\r\n` |
| CsvExport.FlattenNewlinesNoop | src/lib/utils.ts:22 | text without newlines is unchanged |
| CsvExport.Fields | src/lib/utils.ts:14-23 | seven fields per review, the text one-line and trimmed |
| CsvExport.ExportCsv | src/lib/utils.ts:10-25 | nothing is exported exactly when there are no reviews |
| CsvExport.ReadEscaped | src/lib/utils.ts:13 | a CSV reader reads a quoted doubled field back to its text |
| CsvExport.ReadFieldEscaped | src/lib/utils.ts:13 | an escaped field reads back to its value |
| CsvExport.ReadRowText | src/lib/utils.ts:23 | a row of escaped fields reads back to its fields |
| CsvExport.ReadBareOf | src/lib/utils.ts:12 | a bare field reads back to itself |
| CsvExport.ReadFieldBare | src/lib/utils.ts:12 | a bare field reads back as a field |
| CsvExport.ReadBareLine | src/lib/utils.ts:12 | the unquoted header line reads back to its names |
| CsvExport.ReadRowTexts | src/lib/utils.ts:25 | rows joined by newlines read back to the rows |
| CsvExport.HeadersAreBare | src/lib/utils.ts:12 | the header names need no quoting |
| CsvExport.ExportReadsBack | src/lib/utils.ts:10-25 | for any non-empty list the exported text reads back to the header and every review's fields |
| MentorshipDashboard.ReadRequests | src/pages/Professional/MentorshipDashboardPage.tsx:19-26 | the parsed list when storage holds non-empty text that parses, otherwise [] |
| MentorshipDashboard.WithStatus | src/pages/Professional/MentorshipDashboardPage.tsx:41 | exactly the requests with that id get the status |
| MentorshipDashboard.LastStatusWins | src/pages/Professional/MentorshipDashboardPage.tsx:39-51 | there is no transition guard: the later status replaces the earlier |
| MentorshipDashboard.AppendMessage | src/pages/Professional/MentorshipDashboardPage.tsx:55-59 | exactly the requests with that id get the message appended |
| MentorshipDashboard.Filtered | src/pages/Professional/MentorshipDashboardPage.tsx:66 | all requests, or exactly those with the chosen status |
| MentorshipDashboard.FindSameIds | src/pages/Professional/MentorshipDashboardPage.tsx:65 | lists with the same ids find the same request |
| MentorshipDashboard.SendExtendsThread | src/pages/Professional/MentorshipDashboardPage.tsx:53-65 | sending appends the message to the open thread, or leaves it empty when no request has the id |
| MentorshipDashboard.Thread | src/pages/Professional/MentorshipDashboardPage.tsx:65 | no contract of its own: the messages of the first request with the accepted id, or none; MentorshipDashboard.SendExtendsThread states how sending changes it |
| MentorshipDashboard.StatusFiltersPartition | src/pages/Professional/MentorshipDashboardPage.tsx:66 | the three status filters split the list |
| MentorshipDashboard.Dashboard.constructor | src/pages/Professional/MentorshipDashboardPage.tsx:29-32 | initial state read from storage, no accepted request, filter "all" |
| MentorshipDashboard.Dashboard.Poll | src/pages/Professional/MentorshipDashboardPage.tsx:34-37 | each tick rereads the list from storage |
| MentorshipDashboard.Dashboard.TypeChat | src/pages/Professional/MentorshipDashboardPage.tsx:31 | only the chat input changes |
| MentorshipDashboard.Dashboard.ChooseFilter | src/pages/Professional/MentorshipDashboardPage.tsx:32 | only the filter changes |
| MentorshipDashboard.Dashboard.Accept | src/pages/Professional/MentorshipDashboardPage.tsx:39-44 | the request is accepted and opened, and the list is written |
| MentorshipDashboard.Dashboard.Decline | src/pages/Professional/MentorshipDashboardPage.tsx:46-51 | the request is declined, the list is written, and an open chat with it closes |
| MentorshipDashboard.Dashboard.Send | src/pages/Professional/MentorshipDashboardPage.tsx:53-63 | nothing without an accepted id and non-blank input; otherwise the message is appended and written and the input cleared |
| ProfileComparison.UserScore | src/pages/Freelancer/ProfileComparisonPage.tsx:32-40 | calculateUserScore: the weighted sum of completeness, proposal rate, portfolio and repeat rate, halved and rounded to the nearest integer |
| ProfileComparison.UserScoreMonotone | src/pages/Freelancer/ProfileComparisonPage.tsx:32-40 | better metrics never lower the score |
| ProfileComparison.UserScoreHasNoCeiling | src/pages/Freelancer/ProfileComparisonPage.tsx:32-40 | the score is not capped at 100: a proposal rate of 200 alone gives 200 |
| ProfileComparison.GetTier | src/pages/Freelancer/ProfileComparisonPage.tsx:26-30 | Top-tier ready iff score >= 80, Competitive iff in [60, 80), Emerging iff < 60 |
| ProfileComparison.GetTierMonotone | src/pages/Freelancer/ProfileComparisonPage.tsx:26-30 | a higher score never gets a lower tier |
| ProfileComparison.InitialProfileScore | src/pages/Freelancer/ProfileComparisonPage.tsx:32-43 | the initial profile scores 43, Emerging |
| ProfileComparison.Row | src/pages/Freelancer/ProfileComparisonPage.tsx:194-213 | difference user - top; up and "+" iff user >= top |
| ProfileComparison.TieShowsPlus | src/pages/Freelancer/ProfileComparisonPage.tsx:195 | a tie shows "+0" with the up arrow |
| ProfileComparison.Rows | src/pages/Freelancer/ProfileComparisonPage.tsx:105-135 | five rows against the averages 92, 35, 15, 75, 45 |
| ProfileComparison.RowsShowGainIffAtLeastAverage | src/pages/Freelancer/ProfileComparisonPage.tsx:18-24 | each row points up exactly when the metric reaches the top average |
| ProfileComparison.RoleHeading | src/pages/Freelancer/ProfileComparisonPage.tsx:99 | only the first hyphen of the role becomes a space |
| ProfileComparison.HeadingOfSingleHyphen | src/pages/Freelancer/ProfileComparisonPage.tsx:99 | for roles with at most one hyphen the heading equals replacing every hyphen |
| ProfileComparison.ReplaceFirstIsAll | src/pages/Freelancer/ProfileComparisonPage.tsx:99 | with at most one occurrence first and all replacement agree |
| ProfileComparison.NoOccurrenceUnchanged | src/pages/Freelancer/ProfileComparisonPage.tsx:99 | replacing an absent character changes nothing |
| ProfileComparison.HeadingKeepsSecondHyphen | src/pages/Freelancer/ProfileComparisonPage.tsx:99 | with two hyphens the heading keeps the second, unlike the global replace |
| Badge.GetLabel | src/components/freelancer/PseudoRankingBadge.tsx:11-15 | Top-tier ready iff >= 80, Competitive iff in [60, 80), Growing iff < 60 |
| Badge.GetLabelMonotone | src/components/freelancer/PseudoRankingBadge.tsx:11-15 | one of three labels, never lower for a higher score |
| CompetitorComparison.Coalesce | src/pages/Freelancer/a.tsx:89-111 | `snake ?? camel ?? current`: the first present value, zero included |
| CompetitorComparison.CoalesceKeepsZero | src/pages/Freelancer/a.tsx:89-111 | a backend 0 is kept, not replaced by the context |
| CompetitorComparison.Normalize | src/pages/Freelancer/a.tsx:88-112 | every metric from the backend when present, else the context; skills only when an array |
| CompetitorComparison.NormalizeEmptyIsContext | src/pages/Freelancer/a.tsx:88-112 | an empty backend profile normalises to the context profile |
| CompetitorComparison.StoredBackendScore | src/pages/Freelancer/a.tsx:71 | `if (res?.score)`: a zero or missing score keeps the previous one |
| CompetitorComparison.ShownScore | src/pages/Freelancer/a.tsx:123-134 | the backend score, else the computed score of the server profile, else of the context |
| CompetitorComparison.BackendZeroFallsBack | src/pages/Freelancer/a.tsx:71 | a backend score of 0 is never shown; the computed score is |
| CompetitorComparison.GetTier | src/pages/Freelancer/a.tsx:136-140 | Top-tier iff >= 80, Competitive iff in [60, 80), Emerging iff < 60 |
| CompetitorComparison.GetTierMatchesOtherPage | src/pages/Freelancer/a.tsx:136-140 | the two pages agree on the tier and differ only in the top tier's wording |
| CompetitorComparison.Make | src/pages/Freelancer/a.tsx:151-155 | name from the role with every hyphen a space; URL from role, tier and number |
| CompetitorComparison.SuggestedCompetitors | src/pages/Freelancer/a.tsx:147-165 | six competitors, two per tier Top, Mid, Low |
| CompetitorComparison.SuffixesDistinct | src/pages/Freelancer/a.tsx:157-164 | the six tier-number suffixes differ |
| CompetitorComparison.SuggestedShape | src/pages/Freelancer/a.tsx:147-165 | each URL ends in its tier-number suffix |
| CompetitorComparison.SuggestedUrlsDistinct | src/pages/Freelancer/a.tsx:147-165 | the six URLs, the buttons' keys, are distinct |
| CompetitorComparison.Identifier | src/pages/Freelancer/a.tsx:275-278 | the selected competitor, else the typed URL, else "suggested:" + role |
| CompetitorComparison.IdentifierNonEmpty | src/pages/Freelancer/a.tsx:275-278 | the identifier sent is never empty |
| CompetitorComparison.Row | src/pages/Freelancer/a.tsx:422-441 | up iff user >= top; "+" only iff user > top |
| CompetitorComparison.TieContrast | src/pages/Freelancer/a.tsx:440 | on a tie this page shows no "+" where the older page does |
| CompetitorComparison.ComparisonPage.constructor | src/pages/Freelancer/a.tsx:48-62 | initial state: role web-developer, nothing selected or loaded |
| CompetitorComparison.ComparisonPage.ReceiveRanking | src/pages/Freelancer/a.tsx:67-76 | a truthy ranking score is stored, otherwise the old one stays |
| CompetitorComparison.ComparisonPage.ReceiveProfile | src/pages/Freelancer/a.tsx:81-121 | a received profile is stored normalised; a missing one changes nothing |
| CompetitorComparison.ComparisonPage.ChangeRole | src/pages/Freelancer/a.tsx:200-203 | the role changes and the selection is cleared |
| CompetitorComparison.ComparisonPage.TypeUrl | src/pages/Freelancer/a.tsx:255-258 | the URL changes and the selection is cleared |
| CompetitorComparison.ComparisonPage.PickCompetitor | src/pages/Freelancer/a.tsx:239 | the clicked competitor becomes the selection |
| CompetitorComparison.ComparisonPage.StartComparison | src/pages/Freelancer/a.tsx:271-282 | the comparison starts and the request carries the identifier, role, score and metrics |
| ComparisonDetail.FindEntry | src/pages/Freelancer/ComparisonDetailPage.tsx:15-26 | the first entry with that id; none exactly when no entry has it |
| ComparisonDetail.FindHead | src/pages/Freelancer/ComparisonDetailPage.tsx:15 | a prepended entry is found by its id |
| ComparisonDetail.Top | src/pages/Freelancer/ComparisonDetailPage.tsx:28-34 | each stored average, else the defaults 92, 35, 15, 75, 45 |
| ComparisonDetail.TopDefaultsAreComparisonAverages | src/pages/Freelancer/ComparisonDetailPage.tsx:28-34 | the defaults are the comparison page's top averages |
| ComparisonDetail.ShownScore | src/pages/Freelancer/ComparisonDetailPage.tsx:36-41 | the stored score, else the one computed from the stored metrics |
| ComparisonDetail.Recompare | src/pages/Freelancer/ComparisonDetailPage.tsx:43-53 | a new entry with the current profile and its score is prepended, is found by its id, and its detail path is returned |
| ProfilePage.SkillBonus | src/pages/Freelancer/ProfilePage.tsx:28 | in [0, 20], the cap reached exactly from 8 skills |
| ProfilePage.PortfolioBonus | src/pages/Freelancer/ProfilePage.tsx:29 | at most 18, reached exactly from 15 items |
| ProfilePage.RepeatBonus | src/pages/Freelancer/ProfilePage.tsx:30 | at most 12, reached exactly from a 48% rate |
| ProfilePage.RankingFactor | src/pages/Freelancer/ProfilePage.tsx:31 | a quarter of the ranking |
| ProfilePage.RawPrice | src/pages/Freelancer/ProfilePage.tsx:26-32 | no contract of its own: the median plus the four bonuses; ProfilePage.RawPriceBounds and ProfilePage.NegativeRankingBelowMedian bound it |
| ProfilePage.RawPriceBounds | src/pages/Freelancer/ProfilePage.tsx:26-32 | at least the median 55 for non-negative inputs, at most 130 for a ranking up to 100 |
| ProfilePage.NegativeRankingBelowMedian | src/pages/Freelancer/ProfilePage.tsx:31 | a negative ranking pulls the price below the median |
| ProfilePage.ComputePricingSuggestion | src/pages/Freelancer/ProfilePage.tsx:26-37 | `Math.round` of 90% of raw, of 115% of raw and of raw itself, each within a half of its exact value; for non-negative raw, min <= raw <= max |
| ProfilePage.InitialSuggestion | src/pages/Freelancer/ProfilePage.tsx:26-37 | the initial profile is suggested 102 within 91 to 117 |
| ProfilePage.FirstText | src/pages/Freelancer/ProfilePage.tsx:51-52 | `a \|\| b \|\| ""`: the first non-empty text |
| ProfilePage.ProfileForm.constructor | src/pages/Freelancer/ProfilePage.tsx:15-20 | the form starts from the user and the context's profile |
| ProfilePage.ProfileForm.ApplySuggestedRate | src/pages/Freelancer/ProfilePage.tsx:40-42 | the rate becomes the rounded suggestion; nothing else changes |
| ProfilePage.ProfileForm.UseMax | src/pages/Freelancer/ProfilePage.tsx:229 | the rate becomes the top of the band; nothing else changes |
| ProfilePage.ProfileForm.LoadBackend | src/pages/Freelancer/ProfilePage.tsx:45-66 | each field from the backend with its fallback; skills reach the context only when they are an array |
| ProfilePage.SkillsPatchTouchesOnlySkills | src/pages/Freelancer/ProfilePage.tsx:58 | loading skills changes only the skills |
| CareerRoadmap.CountPositiveIffSomeDone | src/pages/Freelancer/CareerRoadmapPage.tsx:13 | the count is positive exactly when some milestone is done |
| CareerRoadmap.CountFullIffAllDone | src/pages/Freelancer/CareerRoadmapPage.tsx:13 | the count is the length exactly when all are done |
| CareerRoadmap.Progress | src/pages/Freelancer/CareerRoadmapPage.tsx:14 | progress in [0, 100]; 100 iff all done, 0 iff none done |
| CareerRoadmap.ProjectedRanking | src/pages/Freelancer/CareerRoadmapPage.tsx:16 | at most 100; never below current with at most four done, equal at four, below beyond four |
| CareerRoadmap.InitialProjection | src/pages/Freelancer/CareerRoadmapPage.tsx:16 | the initial state projects 99 |
| CareerRoadmap.ReEvaluateEnabled | src/pages/Freelancer/CareerRoadmapPage.tsx:123 | the button is enabled exactly when a milestone is done |
| CareerRoadmap.HandleReEvaluate | src/pages/Freelancer/CareerRoadmapPage.tsx:18-22 | saves the current ranking, changes nothing else, returns the re-evaluation route |
| ReEvaluation.Improvement | src/pages/Freelancer/ReEvaluationPage.tsx:13 | current - previous for a truthy saved ranking, else 0 |
| ReEvaluation.ShownPrevious | src/pages/Freelancer/ReEvaluationPage.tsx:57 | the saved ranking when truthy, else 68 |
| ReEvaluation.ImprovementMatchesShown | src/pages/Freelancer/ReEvaluationPage.tsx:13-57 | with a saved ranking the improvement is current minus the shown previous |
| ReEvaluation.FallbackDisagrees | src/pages/Freelancer/ReEvaluationPage.tsx:13-57 | without one the page shows 68 beside an improvement of 0 |
| ReEvaluation.NatText | src/pages/Freelancer/ReEvaluationPage.tsx:75 | decimal digits, at least one |
| ReEvaluation.IntText | src/pages/Freelancer/ReEvaluationPage.tsx:75 | an integer's text starts with '-' exactly when it is negative |
| ReEvaluation.BannerAsWritten | src/pages/Freelancer/ReEvaluationPage.tsx:75 | no contract of its own: the banner as written, a "+" before the improvement whatever its sign; ReEvaluation.BannerAsWrittenShowsPlusMinus exhibits a loss |
| ReEvaluation.BannerAsWrittenShowsPlusMinus | src/pages/Freelancer/ReEvaluationPage.tsx:75 | as written, a loss of 5 reads "+-5 points improvement" |
| ReEvaluation.Banner | src/pages/Freelancer/ReEvaluationPage.tsx:75 | the banner leads with '+' exactly for a gain and '-' exactly for a loss |
| ReEvaluation.Change | src/pages/Freelancer/ReEvaluationPage.tsx:84-112 | difference against the baseline; up and "+" iff strictly greater |
| ReEvaluation.Changes | src/pages/Freelancer/ReEvaluationPage.tsx:15-34 | three rows against the baselines 72, 8, 18 |
| ReEvaluation.UnchangedProfileShowsNoGain | src/pages/Freelancer/ReEvaluationPage.tsx:15-34 | the initial profile shows three flat, not-improved rows |
| SentimentInsights.Normalize | src/pages/Freelancer/SentimentInsightsPage.tsx:27-35 | each backend field with its JavaScript fallback: id chain, text or content, date or now, numeric score or 0, label or "neutral", arrays or [] |
| SentimentInsights.NormalizeAll | src/pages/Freelancer/SentimentInsightsPage.tsx:26-36 | one review per item, or none when the response is not an array |
| SentimentInsights.NormalizedLabelNonEmpty | src/pages/Freelancer/SentimentInsightsPage.tsx:32 | a normalised label is never empty |
| SentimentInsights.MissingIdsCollide | src/pages/Freelancer/SentimentInsightsPage.tsx:28 | items without ids all get "undefined", so deleting one deletes them all |
| SentimentInsights.UnknownLabelNotCounted | src/pages/Freelancer/SentimentInsightsPage.tsx:32 | an unvalidated backend label falls outside all three counts |
| SentimentInsights.SuggestionLists | src/pages/Freelancer/SentimentInsightsPage.tsx:68 | each review's suggestion list, in order |
| SentimentInsights.AllSuggestions | src/pages/Freelancer/SentimentInsightsPage.tsx:68 | exactly the suggestions of some review, each once |
| SentimentInsights.AllSuggestionsSnoc | src/pages/Freelancer/SentimentInsightsPage.tsx:68 | a later review's suggestions come after the earlier ones |
| SentimentInsights.InsightsPage.constructor | src/pages/Freelancer/SentimentInsightsPage.tsx:15-16 | no reviews, empty input |
| SentimentInsights.InsightsPage.TypeText | src/pages/Freelancer/SentimentInsightsPage.tsx:16 | only the input changes |
| SentimentInsights.InsightsPage.Load | src/pages/Freelancer/SentimentInsightsPage.tsx:21-47 | a successful fetch replaces the reviews, a failed one keeps them |
| SentimentInsights.InsightsPage.HandleAdd | src/pages/Freelancer/SentimentInsightsPage.tsx:51-63 | blank input sends nothing; otherwise the trimmed text is sent, and only success clears and reloads |
| SentimentInsights.InsightsPage.Delete | src/pages/Freelancer/SentimentInsightsPage.tsx:135-149 | optimistic removal; a failed delete restores the snapshot, a successful one reloads |
| MentorshipRequest.Normalize | src/pages/Freelancer/MentorshipRequestPage.tsx:40-48 | id chain, fields copied, files and messages or [], status or "pending" |
| MentorshipRequest.NormalizeAll | src/pages/Freelancer/MentorshipRequestPage.tsx:39-49 | one request per item, or none when the response is not an array |
| MentorshipRequest.MissingStatusIsPending | src/pages/Freelancer/MentorshipRequestPage.tsx:46 | a request without a status is pending |
| MentorshipRequest.LoadedChat | src/pages/Freelancer/MentorshipRequestPage.tsx:103-108 | one line per loaded message, every one attributed to the professional |
| MentorshipRequest.OwnMessageReadBackAsPro | src/pages/Freelancer/MentorshipRequestPage.tsx:105 | the mentee's own message is shown as the professional's once reloaded |
| MentorshipRequest.RequesterName | src/pages/Freelancer/MentorshipRequestPage.tsx:145 | the user's name, else "Anonymous"; never empty |
| MentorshipRequest.RequestPage.constructor | src/pages/Freelancer/MentorshipRequestPage.tsx:90-95 | an empty form, no selection, no chat |
| MentorshipRequest.RequestPage.Load | src/pages/Freelancer/MentorshipRequestPage.tsx:35-56 | a successful fetch replaces the list, a failed one keeps it |
| MentorshipRequest.RequestPage.TypeForm | src/pages/Freelancer/MentorshipRequestPage.tsx:90-93 | only the typed fields change |
| MentorshipRequest.RequestPage.HandleFileSelect | src/pages/Freelancer/MentorshipRequestPage.tsx:136-141 | the new file names follow the earlier ones; none selected changes nothing |
| MentorshipRequest.RequestPage.SubmitRequest | src/pages/Freelancer/MentorshipRequestPage.tsx:143-149 | blank topic or details sends nothing; otherwise the request is sent, reloaded on success, and the form reset either way |
| MentorshipRequest.RequestPage.SendMessage | src/pages/Freelancer/MentorshipRequestPage.tsx:151-156 | blank input does nothing; otherwise the mentee's line joins the chat, is forwarded only for a selected request, and the input clears |
| MentorshipRequest.RequestPage.SelectRequest | src/pages/Freelancer/MentorshipRequestPage.tsx:98-116 | the selection changes; re-selecting the selected request runs no effect and keeps the chat; a new truthy id with a successful fetch makes the chat the loaded thread, otherwise the chat is kept |

## Left out

- HTTP calls (`src/lib/api.ts`, `src/lib/endpoints/*`) are not part of this model. Their answers are method parameters: `Response` for success or failure, `Option` for non-array or null bodies.
- Browser storage is an abstract key-to-text map, and `JSON.parse` is a parameter per key that gives a value or throws. The JSON text format is not modelled. The persistence effects that write the profile, the feedback and the user back to storage (AppContext.tsx:97-118) are left out. The history's write-back (use-comparison-history.ts:129-135) is modelled: `History.ComparisonHistory` keeps the written list in `storedEntries`, and its invariant is that this list equals the entries after every change.
- App.AppState.constructor: requires that a stored "user" text parses. The user initializer (AppContext.tsx:68-72) calls `JSON.parse` without a try, so such a text throws out of the provider, and the model has no state for that. The server-side `typeof window` branch is left out as well.
- The user hydration fetch (AppContext.tsx:120-141) is left out: it is a network call. ProfilePage's `saveProfile` (ProfilePage.tsx:68-87) is left out. It first merges the form's name and email into the user, then merges the hourly rate, portfolio items, proposal success rate and repeat-client rate into the profile (that merge is `App.AppState.UpdateFreelancerProfile`), and only then calls the backend and shows a toast. ProfilePage's `performLogout` (ProfilePage.tsx:91-98) is left out too. It clears the user (as `App.AppState.Logout` does) and then navigates to the start page and shows a toast.
- Clocks and id generation are parameters: `crypto.randomUUID`, `Date.now`, `new Date()`.
- Date formatting and parsing (`toISOString`, `toLocaleString`, `new Date(text)`) and `toFixed` are parameters or left out. The CSV model takes the two formatters as functions.
- Intervals are not modelled as time, and neither are asynchronous interleavings. Each handler runs as one atomic step. The polling tick of the dashboard is `Dashboard.Poll`. The mentee page's interval (MentorshipRequestPage.tsx:119-134) changes no state and is left out.
- The loading and adding flags, toasts, navigation other than returned paths, charts and all rendering are left out.
- The remote aggregate on SentimentInsightsPage (`getAggregateFeedback`, `aggRemote`) is not modelled. It is a backend value the page only displays.
- `Number(...)` conversion of non-numeric backend values in ProfilePage.tsx:53-56 is not modelled: numeric fields arrive as numbers or are missing.
- Backend ids that are numbers are not modelled. Ids are strings or absent (`JsString`).
- `toLowerCase` and `\s` are modelled on ASCII only: Sentiment.AnalyzeSentiment requires ASCII text, and Common.Trim and Sentiment.Tokens treat the ASCII whitespace set.
- The pseudo-ranking and progress divide by the roadmap's length. The model requires a non-empty roadmap (the application always has four milestones) instead of modelling NaN.
- The CSV Blob, the object URL and the click that downloads it (utils.ts:26-33) are left out. `CsvExport.ExportCsv` returns the text.
- Aggregate.CategoryCounts: the plain-object lookup problem of the categoryMap finding below also affects `categoryCount` (sentiment.ts:137-138) and `groupedByRole` (use-comparison-history.ts:151-152). It only matters for category or role names such as "constructor", which only backend data can carry. The model counts with a map instead.
- History.ComparisonHistory.GroupByRole: the groups are a map whose roles are listed in first-seen order. The history page renders `groupedByRole` through `Object.entries` (src/pages/Freelancer/ComparisonHistoryPage.tsx:49), which lists index-like roles first. Aggregate.EntryOrder models that order, but the model does not apply it to the groups.
- Sentiment.FoundCategories: the model uses own-key lookup, which is the corrected behaviour. The code's behaviour is modelled alongside it in Sentiment.FoundCategoriesAsWritten.
- Sentiment.AnalyzeSentiment: computes the categories with the own-key lookup of Sentiment.FoundCategories, so the "constructor" token finds no category (see Findings).
- App.AppState.AddClientFeedback: analyses the text with Sentiment.AnalyzeSentiment and so uses the same own-key lookup.
- `cn` (utils.ts:5-7) is a class-name helper and is not part of the core.

## Findings

| source | as written | input that shows it | evidently intended | confidence | as-written member | corrected member |
|---|---|---|---|---|---|---|
| src/lib/sentiment.ts:95 | `if (categoryMap[t])` also finds inherited properties of the plain object, so `Object.prototype.constructor` counts as a category | the review text "constructor": categories become [Object], and a neutral label looks up `suggestionLibrary[Object]` | only own keys of categoryMap map to categories, so that review has no categories | high (not executed) | Sentiment.ConstructorReviewExample | Sentiment.FoundCategoriesFacts |
| src/pages/Freelancer/ReEvaluationPage.tsx:75 | the banner always prefixes "+" to the improvement | a ranking 5 below the saved one: "+-5 points improvement" | a "+" only before a gain, so a loss reads "-5" | high (not executed) | ReEvaluation.BannerAsWrittenShowsPlusMinus | ReEvaluation.Banner |
