# Job portal match scorer: a Dafny model

This project models the matching core of a job portal. The scorer gives a job
listing and a candidate profile a match score in [0, 1]. The two API routes use that
score to rank profiles or jobs.

The scorer (`lib/matching.js`) adds five weighted contributions, then clamps the sum
to [0, 1]:

| dimension | weight |
|---|---|
| skills | 0.4 |
| location | 0.2 |
| job type | 0.15 |
| experience level | 0.15 |
| salary | 0.1 |

The same file has three stand-alone helpers: `getExperienceLevel`,
`calculateSalaryMatch` and `calculateSkillsRelevance`.

`GET /api/matches` does the following:
- with a job id, it scores every profile against that job;
- with a candidate id, it scores every active job against that profile;
- it sorts the scored entries best first and returns the first ten, plus the number scored.

`GET /api/jobs/matches` takes the signed-in candidate's profile. It annotates every
active job with its score and returns them all, best first.

## Modules

- `common.dfy` (`Common`): `Option`, `Result`, `Min`/`Max`.
- `text.dfy` (`Text`): `toLowerCase`, `trim` and `includes` on `seq<char>`.
- `records.dfy` (`Records`): the fields of jobs and profiles that matching reads, and the schema enumerations.
- `matching.dfy` (`Matching`): the scorer and the three helpers.
  - JavaScript numbers are `Number = Finite(real) | NaN`.
  - A salary bound is `Bound = Fin(int) | Unbounded`. `Unbounded` stands for `Infinity`.
- `store.dfy` (`Store`): the database reads, over stored collections given as sequences.
- `session.dfy` (`Sessions`): the session `auth()` returns.
- `ranking.dfy` (`Ranking`): entries with scores and the in-place insertion sort behind both routes' `sort`.
  - The sort is proved to be a permutation.
  - When every score is a number, it is also proved non-increasing.
  - `Take` models `slice(0, k)`.
- `matches_route.dfy` (`MatchesRoute`) and `job_matches_route.dfy` (`JobMatchesRoute`): the two `GET` handlers.
  - Session, query and collections are inputs.
  - 401 and 404 are response values.

Four behaviours of the code that its doc comments do not mention; the model keeps each of them:
- **Two empty skill lists give NaN.** The doc comment of `calculateMatchScore` (lib/matching.js:5) promises a score between 0 and 1. The skills division has no guard, so two present but empty skill lists give 0/0, which is NaN, and the whole score is then NaN (`SkillsTerm`, `MatchScore`). Mongoose stores a missing array as `[]`, so this case can occur.
- **No pair that sets both experience fields scores 0.** Once the job names a level and the profile has an experience list, the Gaussian term is strictly positive, so the score is too, however little else matches (`ExperienceKeepsScorePositive`).
- **Two ranges without a usable maximum give NaN.** When both maxima are missing or zero, the salary term is `Infinity / Infinity`, which is NaN, against the same doc comment. The schemas give `salary` and `expectedSalary` a default currency, so stored documents always carry the salary objects. A job and a profile that both lack a maximum therefore score NaN.
- **Repeated job skills can overshoot.** Repeated job skills count once in the union but every time in the intersection. The skills term can then exceed its weight, and only the final clamp keeps the score at 1 (`RepeatedSkillsExceedWeight`).

## Model

| member | source | states |
|---|---|---|
| Text.ToLower | lib/matching.js:19 | lower-casing keeps the length and maps every character through `LowerChar`, which leaves no upper-case letter |
| Text.ToLowerIdempotent | lib/matching.js:19 | lower-casing twice is lower-casing once |
| Text.Trim | lib/matching.js:19 | `trim` gives a string no longer than its input that neither starts nor ends with whitespace |
| Text.TrimSpec | lib/matching.js:19 | `trim` keeps one contiguous slice of its input and removes only whitespace around it |
| Text.TrimIdempotent | lib/matching.js:34 | trimming twice is trimming once |
| Text.Includes | lib/matching.js:36 | `includes` holds exactly when the needle occurs at some position of the string |
| Text.EmptyIsIncluded | lib/matching.js:36 | the empty string is included in every string |
| Matching.Add | lib/matching.js:29 | `+` is NaN when either side is, otherwise the real sum |
| Matching.Divide | lib/matching.js:27-29 | a count over a count is NaN exactly when the divisor is 0; otherwise it is non-negative, at most 1 when the dividend is no larger, and 1 when they are equal |
| Matching.Clamp | lib/matching.js:83 | `Math.min(Math.max(n, 0), 1)` keeps NaN, lands in [0, 1], is the identity on [0, 1] and gives 1 above it |
| Matching.WeightsSumToOne | lib/matching.js:9-15 | the five weights add up to exactly 1 |
| Matching.Normalize | lib/matching.js:19-20 | `toLowerCase().trim()` gives a lower-case string that is a piece of the lower-cased input with only whitespace around it, and neither starts nor ends with whitespace |
| Matching.NormalizeIdempotent | lib/matching.js:19-20 | lower-casing and trimming twice equals doing it once |
| Matching.MatchingSkills | lib/matching.js:22-24 | the filter keeps each job skill the profile lists as many times as the job lists it, and no other skill; it is as long as the job list exactly when every job skill is listed |
| Matching.UnionEmptyIff | lib/matching.js:27 | the union of the two skill lists is empty exactly when both lists are |
| Matching.DistinctElementsCard | lib/matching.js:27 | a list without repetitions has as many distinct elements as entries |
| Matching.SkillsTerm | lib/matching.js:18-30 | 0 when either list is missing; NaN exactly when both lists are empty; otherwise non-negative |
| Matching.MatchingIsCommon | lib/matching.js:22-28 | with no repeated normalised job skill, the intersection count is the number of skills the two lists share |
| Matching.SkillsTermIsJaccard | lib/matching.js:26-29 | with no repeated normalised job skill and the lists not both empty, the skills term is the number of shared skills over the number of distinct skills of both lists, times 0.4 |
| Matching.SkillsTermWithinWeight | lib/matching.js:19-29 | with no repeated normalised job skill, the skills term is at most 0.4 |
| Matching.MatchingWithinUnion | lib/matching.js:22-28 | with no repeated job skill the intersection is no larger than the union, and equal and positive when both sides hold the same skills |
| Matching.SameSkillsEarnFullWeight | lib/matching.js:18-30 | two non-empty lists normalising to the same skills, each once, earn exactly 0.4 |
| Matching.RepeatedSkillsExceedWeight | lib/matching.js:22-29 | three copies of a skill against one copy give a skills term of 1.2, and the clamp then gives 1 |
| Matching.SkillsOvershootIsClamped | lib/matching.js:82-83 | a skills term above 1 beside a numeric salary term gives a score of exactly 1 |
| Matching.AnyIncluded | lib/matching.js:35-37 | `some` holds exactly when some normalised preferred location is included in the job location |
| Matching.LocationTerm | lib/matching.js:33-41 | location adds 0 or 0.2, and 0.2 exactly when the job location is non-empty, the profile lists locations, and some normalised preferred location is included in the normalised job location |
| Matching.OwnLocationMatches | lib/matching.js:33-41 | adding a job's own location, in any case and spacing, to the preferences earns the location weight |
| Matching.BlankPreferenceMatchesEverything | lib/matching.js:35-37 | a preferred location that trims to the empty string matches every non-empty job location |
| Matching.JobTypeTerm | lib/matching.js:44-48 | job type adds 0 or 0.15, and 0.15 exactly when the job has a type and some entry of the profile's preferred types equals it |
| Matching.PreferringJobTypeAddsWeight | lib/matching.js:44-48 | a profile that does not prefer the job's type gains exactly 0.15, and nothing else changes, by adding it |
| Matching.IndexOf | lib/matching.js:57 | `indexOf` returns the first position holding the value, and -1 exactly when it is absent |
| Matching.JobLevelIsRank | lib/matching.js:52-57 | every schema level is found, at its rank 0..4, so the -1 of `indexOf` never arises |
| Matching.ProfileLevel | lib/matching.js:53-56 | the profile level is the largest level up to 4 with twice the level at most the number of history entries |
| Matching.PowerStrictlyDecreasing | lib/matching.js:61 | powers of a factor strictly between 0 and 1 strictly fall as the exponent grows |
| Matching.Gaussian | lib/matching.js:61 | the Gaussian factor is 1 at distance 0 and always lies in (0, 1] |
| Matching.GaussianFalloff | lib/matching.js:60-61 | the Gaussian factor is 1 at distance 0, lies in (0, 1], and strictly falls as the distance grows |
| Matching.ExperienceTerm | lib/matching.js:51-63 | experience adds nothing without both fields, and otherwise a strictly positive amount of at most 0.15 |
| Matching.ExperienceTermSpec | lib/matching.js:51-63 | 0 without both fields; otherwise strictly positive and at most 0.15, exactly 0.15 when the job's rank equals the profile level, at a distance of at most 4 |
| Matching.ExperienceTermDecreasing | lib/matching.js:60-62 | a larger level distance gives a strictly smaller experience term |
| Matching.OverlapWithinWidths | lib/matching.js:67-77 | a positive overlap is no wider than either range, and infinite exactly when both maxima are |
| Matching.Ratio | lib/matching.js:77 | the overlap ratio is NaN exactly for two infinite widths, otherwise in (0, 1], and 1 exactly when the overlap fills the smaller range |
| Matching.SalaryRatio | lib/matching.js:73-79 | NaN exactly when both maxima are missing or zero; otherwise in [0, 1], and positive exactly when the ranges overlap |
| Matching.SalaryTerm | lib/matching.js:66-80 | 0 without both ranges; NaN exactly when both are present without a usable maximum; otherwise in [0, 0.1], and positive exactly when the ranges overlap |
| Matching.SalaryExample | lib/matching.js:66-80 | ranges 50000-70000 and 60000-80000 give a salary term of 0.05 |
| Matching.SameRangeEarnsFullWeight | lib/matching.js:66-80 | a bounded range compared with itself earns exactly 0.1 |
| Matching.Sum | lib/matching.js:8-80 | the accumulated score is NaN exactly when the skills or salary term is, otherwise the plain sum of the five terms |
| Matching.SumWithinUnit | lib/matching.js:9-15 | terms within their weights sum into [0, 1], so the clamp leaves the sum alone |
| Matching.MatchScore | lib/matching.js:7-84 | the score is NaN exactly when the skills or salary term is, and otherwise lies in [0, 1] |
| Matching.MissingFieldsAddNothing | lib/matching.js:18-66 | a dimension whose field is missing on either side contributes nothing |
| Matching.TermsWithinWeights | lib/matching.js:9-80 | with no repeated normalised job skill, every contribution lies between 0 and its weight |
| Matching.ScoreIsWeightedSum | lib/matching.js:82-83 | with no repeated normalised job skill the clamp never binds: the score is the unclamped sum |
| Matching.ExperienceKeepsScorePositive | lib/matching.js:51-63 | once the job names a level and the profile has an experience list, a numeric score is strictly positive |
| Matching.PerfectMatchScoresOne | lib/matching.js:7-84 | a pair that matches fully in all five dimensions scores exactly 1 |
| Matching.CalculateMatchScore | lib/matching.js:7-84 | the accumulator starting from 0, with five guarded `+=` steps and the clamp, computes `MatchScore` |
| Matching.AddSkills | lib/matching.js:18-30 | the skills step adds the skills term to the running score |
| Matching.AddLocation | lib/matching.js:33-41 | the location step adds the location term to the running score |
| Matching.AddJobType | lib/matching.js:44-48 | the job-type step adds the job-type term to the running score |
| Matching.AddExperience | lib/matching.js:51-63 | the experience step adds the experience term to the running score |
| Matching.AddSalary | lib/matching.js:66-80 | the salary step adds the salary term to the running score |
| Matching.GetExperienceLevel | lib/matching.js:91-97 | the level's rank is the number of thresholds 1, 3, 5 and 8 the years reach |
| Matching.GetExperienceLevelMonotone | lib/matching.js:91-97 | more years never give a lower level |
| Matching.CalculateSalaryMatch | lib/matching.js:105-124 | 0 without two ranges; otherwise NaN or a number in [0, 1] |
| Matching.SalaryMatchSpec | lib/matching.js:105-124 | 0 without two ranges; NaN when a bound is missing or a zero-width range touches the other; 0 for disjoint ranges; otherwise the uncapped overlap ratio, never above 1 |
| Matching.CalculateSkillsRelevance | lib/matching.js:132-143 | in [0, 1]; 0 when either list is missing or empty; otherwise the number of job positions whose lower-cased skill is in the lower-cased profile list over the number of job skills, so 1 exactly when every one is |
| Matching.RelevanceCount | lib/matching.js:135-142 | the filtered list is as long as the set of job positions whose lower-cased skill is listed, and as long as the job list exactly when every one is |
| Matching.MatchingCountsListed | lib/matching.js:138-140 | the filter over the job skills from any position on keeps one entry per later position whose skill is listed |
| Matching.RelevanceDoesNotTrim | lib/matching.js:135-136 | `"go "` does not match `"go"` in the relevance helper, which lower-cases but does not trim |
| Store.Find | app/api/matches/route.js:29 | a record is found exactly when one with that key is stored, and it is a stored record with that key; `findById` by id, here and at route.js:45, and `findOne({ user })` by owner at app/api/jobs/matches/route.js:21 are this lookup |
| Store.ActiveJobs | app/api/jobs/matches/route.js:30 | the filter keeps exactly the stored jobs whose status is active |
| Store.ActiveJobsCounts | app/api/matches/route.js:53 | each active job is kept as many times as it is stored, and each other job not at all |
| Ranking.Compare | app/api/matches/route.js:61 | the comparator `b.score - a.score` is NaN exactly when a score is, and otherwise positive exactly when `b` scores higher |
| Ranking.SortByScoreDescending | app/api/matches/route.js:61 | sorting in place permutes the array, and leaves it non-increasing by score when every score is a number |
| Ranking.InsertBackwards | app/api/matches/route.js:61 | one insertion pass permutes the array and extends the sorted prefix by one when scores are numbers |
| Ranking.SwapBackKeepsInserting | app/api/matches/route.js:61 | swapping the moving entry past a lower-scoring predecessor keeps the insertion pass's invariant |
| Ranking.InsertingDone | app/api/matches/route.js:61 | when the moving entry stops, the first entries up to it are sorted |
| Ranking.SortScored | app/api/jobs/matches/route.js:37 | the sorted list is a permutation of the entries, non-increasing by score when every score is a number |
| Ranking.Take | app/api/matches/route.js:64 | `slice(0, k)` is the prefix of length `min(k, n)` |
| Ranking.TakeOfDescendingIsTop | app/api/matches/route.js:61-64 | the prefix of a sorted list is sorted, it and the rest make up the list, and nothing in the rest scores higher than anything in it |
| MatchesRoute.CandidatesFor | app/api/matches/route.js:37-41 | one entry per stored profile, in order |
| MatchesRoute.CandidatesForAt | app/api/matches/route.js:38-41 | entry `i` pairs profile `i` with its score against the job |
| MatchesRoute.JobsFor | app/api/matches/route.js:53-57 | one entry per active job, in order |
| MatchesRoute.JobsForAt | app/api/matches/route.js:54-57 | entry `i` pairs active job `i` with its score against the profile |
| MatchesRoute.JobsForScoresActiveJobs | app/api/matches/route.js:53-57 | in the candidate branch every entry is a stored active job, scored against the profile |
| MatchesRoute.ScoredEntries | app/api/matches/route.js:25-58 | a given job id wins and fails exactly when no stored job has it, else one entry per profile; a candidate id alone fails exactly when no stored profile has it, else one entry per active job; with neither, the list is empty |
| MatchesRoute.ScoreCandidates | app/api/matches/route.js:37-41 | the `map` over profiles computes `CandidatesFor` |
| MatchesRoute.ScoreJobs | app/api/matches/route.js:53-57 | the `map` over active jobs computes `JobsFor` |
| MatchesRoute.TakeIsTop | app/api/matches/route.js:61-66 | the first ten of a sorted permutation of the entries are their top ten |
| MatchesRoute.Get | app/api/matches/route.js:9-66 | no session gives 401; a missing job or profile gives 404 and scores nothing; otherwise the response holds the top `min(10, n)` entries, best first when all scores are numbers, with `total` = n |
| JobMatchesRoute.Annotated | app/api/jobs/matches/route.js:33-36 | one annotated entry per job, in order |
| JobMatchesRoute.AnnotatedAt | app/api/jobs/matches/route.js:33-36 | entry `i` is job `i` with its `matchScore` against the profile |
| JobMatchesRoute.AnnotateJobs | app/api/jobs/matches/route.js:33-36 | the `map` computes `Annotated` |
| JobMatchesRoute.AnnotatedCounts | app/api/jobs/matches/route.js:33-36 | annotating keeps multiplicities |
| JobMatchesRoute.ListsEveryActiveJob | app/api/jobs/matches/route.js:30-37 | a response that permutes the annotated active jobs lists each active job as often as it is stored, and no other job |
| JobMatchesRoute.ListsOnlyActiveJobs | app/api/jobs/matches/route.js:30-37 | every entry of a response that permutes the annotated active jobs is a stored active job with its own score against the profile |
| JobMatchesRoute.Get | app/api/jobs/matches/route.js:8-39 | no session or a non-candidate gives 401; a candidate without a profile gives 404; otherwise a permutation of the annotated active jobs, best first when every score is a number |

## Left out

- IEEE-754 arithmetic is not modelled. Weights and ratios are exact reals, so `0.4 + 0.2 + 0.15 + 0.15 + 0.1` is exactly 1 and there is no rounding. In doubles the accumulated score of a perfect match is 1.0000000000000002, and there `Math.min(..., 1)` does bind. So "the clamp never binds" (Matching.SumWithinUnit, Matching.ScoreIsWeightedSum) holds for exact reals only.
- `Infinity` appears only as the `Unbounded` salary bound. Infinity / Infinity is the NaN it produces.
- Matching.Gaussian: `Math.exp(-d*d/2)` is modelled as `(e^(-1/2))^(d*d)`, where e^(-1/2) is taken as the rational 0.6065306597126334. Only its shape is proved: 1 at 0, within (0, 1], strictly decreasing. Its exact floating-point values are not.
- Text.ToLower: only ASCII letters are lower-cased. Full Unicode case mapping is not modelled.
- Text.IsWhitespace: `trim` strips the ECMAScript white-space and line-terminator code points listed there.
- Matching.SalaryTerm: salary bounds are whole numbers (`Records.SalaryRange` holds `int`), although the schemas declare `min` and `max` as `Number` (models/Job.js:44-45, models/Profile.js:54-55). The model does not cover fractional or infinite stored bounds in lib/matching.js:66-80; every salary property is proved for whole-number bounds only.
- Matching.CalculateSalaryMatch: bounds are integers or missing. `parseInt` string parsing is not modelled; a missing bound is NaN, as `parseInt(undefined)` is.
- Matching.GetExperienceLevel: years are a real number. A NaN or non-numeric argument, which falls through every comparison to `'lead'`, is not modelled.
- Ranking.SortByScoreDescending: stability is not stated. The insertion sort moves an entry only past strictly lower scores, so it is stable, but no contract says so. ECMAScript's `sort` is stable.
- Ranking.SortScored: stability is not stated, as for the array sort it runs.
- MatchesRoute.Get: stability is not stated, so among entries tied at the ten-entry cut `IsTopOf` admits any of them, while the stable `sort` of ECMAScript keeps the first in stored order. The order is not stated either when some score is NaN.
- JobMatchesRoute.Get: stability is not stated, so jobs with equal scores may be listed in any order, while the stable `sort` of ECMAScript keeps stored order. The order is not stated either when some score is NaN.
- Ranking.SortByScoreDescending: the order is not stated when some score is NaN. The comparator then yields NaN, which the sort treats as +0, and ECMAScript leaves the order of an inconsistent comparator to the implementation. The model picks one admissible order and only guarantees a permutation.
- Ranking.SortScored: the order is not stated when some score is NaN, as for the array sort it runs; only a permutation is guaranteed.
- Store.Find: database access, connection, `populate` and document conversion (`toObject`) are not modelled. Stored collections are input sequences, and ids and owners are assumed unique.
- Sessions: authentication (`auth()`) is not modelled. The session is an input.
- MatchesRoute.Get: the 500 response of app/api/matches/route.js:68-73 is not modelled. An id that is not a valid ObjectId makes `Job.findById` or `Profile.findById` throw, so the route answers 500; the model has only well-formed ids, so it answers `JobNotFound` or `ProfileNotFound` (404) for such an id instead. Database failures and the HTTP response wrapping are not modelled either.
- JobMatchesRoute.Get: the 500 response on a thrown error (app/api/jobs/matches/route.js:40-45) is not modelled, since the model's database reads cannot fail.
- Fields the scorer never reads (title, company, description, currency and the rest) are not modelled.
