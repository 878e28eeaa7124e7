# Changwon high-school choice recommender — Dafny model

This project models the recommendation engine of a small Streamlit app that
suggests up to five high-school choices (지망 1–5) for a Changwon middle-school
student. The engine is four pure Python functions in `app.py`:

- `detect_cluster` classifies the middle-school name into a residential
  cluster (`north`, `masan_core`, `uichang_core`, `seongsan_core`, or `""`)
  by looking for fixed keywords anywhere in the stripped name, trying the
  clusters in that order;
- `base_first_choice` and `base_second_choice` are the default tables on the
  student's disposition (탐구형 / 안정형 / 도전형), score and commuting zone
  (의창 / 성산 / 마산), used when there is no cluster;
- `recommend_schools` fills five slots (the cluster's fixed pair or the two
  defaults, then three schools from the zone), drops empty slots and repeats
  while keeping the first occurrence, and returns at most five names.

Modules, one per component:

| file | module | what it holds |
|---|---|---|
| options.dfy | `Options` | `Option`, standing for the engine's empty string `""` |
| text.dfy | `Text` | Python's `str.strip()` and `k in s` on `seq<char>` |
| domain.dfy | `Domain` | the schools, dispositions and zones, and the string comparisons the engine makes on them |
| clusters.dfy | `Clusters` | keyword lists and `detect_cluster` |
| choices.dfy | `Choices` | the default tables, the cluster pairs and the zone triples |
| dedup.dfy | `Deduplication` | the order-preserving deduplication loop |
| recommend.dfy | `Recommend` | `recommend_schools` and the properties of its result |

Representation choices:

- A school is a value of the `School` datatype; `Name` gives the exact Korean
  string the engine returns. `NameRoundTrip` proves names are distinct and
  never empty, so comparing names (as the engine's `r not in rec_list` does)
  is comparing schools, and the empty string `""` of an unanswered rule is
  modelled as `None`.
- Disposition and zone arrive as strings, as in the source; `ParseType` and
  `ParseZone` are the engine's literal comparisons, and every other string
  becomes `OtherType` / `OtherZone`, for which every rule falls through to
  `""`.
- The score is a `real`: the engine only compares it with 85 and 90.
- `str.strip()` is modelled with the whitespace set of Python's
  `str.isspace()`. The keywords contain no whitespace, so stripping never
  changes a match (`Text.StripPreservesContains`); the cluster properties are
  therefore stated on the name exactly as given.

## Model

| member | source | states |
|---|---|---|
| Text.LeadingSpaces | app.py:12 | counts the whitespace the name starts with: those characters are whitespace and the next one is not |
| Text.TrailingSpaces | app.py:12 | counts the whitespace the name ends with: those characters are whitespace and the one before them is not |
| Text.Contains | app.py:16-31 | `k in ms` holds exactly when `k` occurs in `ms` as a contiguous block; the empty string occurs in every string, and nothing longer than `ms` occurs in it |
| Text.Strip | app.py:12 | the stripped name is the block of the name between its leading and trailing whitespace, and neither starts nor ends with whitespace |
| Text.StripEmpty | app.py:9-12 | a name strips to the empty string exactly when it is all whitespace |
| Text.StripPreservesContains | app.py:12-32 | for a keyword without whitespace, `k in name.strip()` holds exactly when `k in name` holds |
| Clusters.Tag | app.py:17-34 | the tag is the empty string exactly for no cluster |
| Clusters.TagInjective | app.py:17-34 | different clusters have different tags, so the returned tag identifies the cluster |
| Clusters.Keywords | app.py:15-30 | only the four clusters have keywords; every keyword is a non-empty word without whitespace, and no list repeats a keyword |
| Clusters.DetectCluster | app.py:7-34 | an empty name has no cluster; a detected cluster has a keyword in the stripped name, and no cluster tried before it has one |
| Clusters.DetectOnRawName | app.py:9-32 | neither the empty-name test nor the stripping changes the detector's answer: it is the first cluster, in order, whose keywords occur in the name as given |
| Clusters.FirstMatchPrecedence | app.py:15-34 | trying clusters in a fixed order and taking the first that matches chooses a cluster exactly when it matches and no earlier one does, and none exactly when none matches |
| Clusters.DetectClusterSpec | app.py:7-34 | a cluster is detected exactly when the name mentions one of its keywords and no keyword of a cluster tried earlier (north, masan_core, uichang_core, seongsan_core); no cluster exactly when no keyword occurs; an empty or all-whitespace name has no cluster |
| Clusters.EarlierClusterWins | app.py:15-32 | a name holding keywords of two clusters never resolves to the later one, and resolves to the earlier one or one tried before it |
| Clusters.BlankMentionsNothing | app.py:9-12 | no keyword occurs in an empty or all-whitespace name |
| Clusters.YongjiIsUichangCore | app.py:24-27 | 용지중 is classified as uichang_core |
| Clusters.PaddedMixedNameIsMasanCore | app.py:12-22 | a space-padded name holding both 내서 (Masan core) and 용지 (Uichang core) is classified as masan_core |
| Domain.NameRoundTrip | app.py:130-160 | each school name reads back as its school; names are distinct and non-empty |
| Domain.ParseType | app.py:39-72 | a disposition string is one of the three dispositions exactly when it is the matching literal; anything else is unrecognised |
| Domain.ParseZone | app.py:153-160 | a zone string is one of the three zones exactly when it is the matching literal; anything else is unrecognised |
| Choices.BaseFirstChoice | app.py:37-74 | the default first choice is empty exactly when the disposition or zone is unrecognised; an explorer with 85 or more, and any challenger, gets the zone's top school (창원중앙고 / 창원남고 / 마산고); an explorer below 85 gets 사파고 in 의창 and 성산 and 마산고 in 마산; a stable student never gets the zone's top school |
| Choices.BaseSecondChoice | app.py:77-101 | the default second choice is empty exactly when the disposition or zone is unrecognised; explorers and challengers get the other Changwon zone's top school (창원남고 for 의창, 창원중앙고 for 성산 and 마산); a filled second choice always differs from the first |
| Choices.ScoreIndependence | app.py:37-101 | only the explorer's first choice depends on the score, and only through the 85 line (the 90 tier answers as the 85 tier); the challenger's first choice equals the explorer's at 85 or more; the second choice ignores the score and is shared by explorers and challengers |
| Choices.ClusterPair | app.py:128-150 | each cluster's first and second choice differ; a core cluster's first choice is the top school of the zone it is named after, and the north cluster's second choice is Uichang's top school |
| Choices.ZoneTriple | app.py:152-160 | a recognised zone gives three different schools for slots 3–5, none of them the zone's top school; any other zone gives three empty slots |
| Deduplication.Dedup | app.py:163-166 | the deduplicated list is no longer than the slot list |
| Deduplication.DedupInOrder | app.py:163-166 | the loop that appends each non-empty, not yet listed slot value computes `Dedup` |
| Deduplication.DedupMembers | app.py:163-166 | a value is in the result exactly when some slot holds it |
| Deduplication.DedupDistinct | app.py:163-166 | the result has no duplicates |
| Deduplication.DedupOrder | app.py:163-166 | values appear in the order of their first occurrence in the slots |
| Deduplication.DedupUnique | app.py:163-166 | any duplicate-free list holding exactly the slot values in first-occurrence order is the deduplicated list |
| Deduplication.DedupPrefix | app.py:163-166 | deduplicating a prefix of the slots gives a prefix of the result |
| Deduplication.DedupEmptyTail | app.py:163-166 | empty slots at the end add nothing |
| Deduplication.DedupOfDistinct | app.py:163-166 | slots filled with pairwise different values deduplicate to exactly those values |
| Deduplication.DedupHead | app.py:163-166 | a filled first slot is the first value of the result |
| Recommend.Slots | app.py:121-160 | slots 1 and 2 are filled together, with different schools, unless there is no cluster and the disposition or zone is unrecognised; slots 3–5 are filled exactly when the zone is recognised |
| Recommend.Take | app.py:169 | `xs[:n]` is the first n elements of the list, or the whole list when it has at most n |
| Recommend.RecommendSchools | app.py:104-169 | the recommendation has at most five schools |
| Recommend.RecommendIsOrderedUnion | app.py:121-169 | the recommendation lists every school of the five slots once, nothing else, in the order the slots first name them, with a filled first slot at its head; the cut to five removes nothing |
| Recommend.LeadingPairKept | app.py:163-166 | two different schools in slots 1 and 2 are the first two schools of the list |
| Recommend.ClusterOverridesDefaults | app.py:128-150 | with a cluster, the first two schools are the cluster's pair, whatever the disposition, score and zone |
| Recommend.ClusterSlotsLead | app.py:128-166 | for any cluster, its pair is the first two schools of the deduplicated slots |
| Recommend.DefaultsWithoutCluster | app.py:137-150 | without a cluster, for a recognised disposition and zone, the first two schools are the default first and second choices |
| Recommend.DefaultSlotsLead | app.py:137-166 | without a cluster, for a recognised disposition and zone, the default first and second choices are the first two schools of the deduplicated slots |
| Recommend.TripleKept | app.py:152-166 | three different schools in slots 3–5 are all listed, so the list has at least three entries |
| Recommend.OnlyLeadingPair | app.py:152-166 | when only slots 1 and 2 are filled, with different schools, the list is exactly those two |
| Recommend.RecommendLength | app.py:152-169 | a recognised zone gives three to five schools including the zone's three; an unrecognised zone gives nothing without a cluster and exactly the cluster's pair with one |
| Recommend.SlotsLength | app.py:152-166 | the deduplicated slots hold three to five schools, including the zone's three, for a recognised zone; for an unrecognised zone, nothing without a cluster and exactly the cluster's pair with one |
| Recommend.MemoInputsUnused | app.py:104-119 | the student's name and the two preferred schools never change the recommendation |
| Recommend.YongjiExample | app.py:121-169 | 용지중, 탐구형, 93, 의창 yields 창원중앙고, 사파고, 문성고, 신월고 |
| Recommend.YongjiSlotsDeduplicated | app.py:163-166 | the slots 창원중앙고, 사파고, 사파고, 문성고, 신월고 deduplicate to 창원중앙고, 사파고, 문성고, 신월고 |

## Left out

- `main` and the Streamlit page (app.py:176-209): layout, input widgets and rendering, all I/O through an external library. It is relevant only as the caller: it offers exactly the three dispositions and three zones and a score in [0, 100]; the model accepts any strings and any real score, and the unrecognised cases fall through as in the engine.
- Floating point: the score is an exact `real`, so NaN and rounding are not modelled; the engine only compares the score with 85 and 90.
- Recommend.RecommendSchools: its own contract states only the bound of five; the remaining properties of its result are the lemmas `RecommendIsOrderedUnion`, `ClusterOverridesDefaults`, `DefaultsWithoutCluster` and `RecommendLength`.
