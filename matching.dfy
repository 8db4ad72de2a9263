/**
 * The match scorer: five weighted contributions (skills, location, job type,
 * experience level, salary), summed from zero and clamped to [0, 1], plus the
 * three stand-alone helpers of the same file.
 *
 * JavaScript numbers are modelled as `Number`: a finite real or NaN. The scorer
 * produces NaN in two places (0/0 for two empty skill lists, Infinity/Infinity for
 * two unbounded salary ranges), and NaN then survives the sum and the clamp.
 */
module Matching {
  import opened Common
  import opened Text
  import opened Records

  // ---------------------------------------------------------------- numbers

  /** A JavaScript number that is not infinite. */
  datatype Number = Finite(value: real) | NaN

  /** `a + b`: NaN if either side is NaN. */
  function Add(a: Number, b: Number): (r: Number)
    ensures r.NaN? <==> a.NaN? || b.NaN?
    ensures r.Finite? ==> r.value == a.value + b.value
  {
    if a.Finite? && b.Finite? then Finite(a.value + b.value) else NaN
  }

  /** `a * w` for a finite weight `w`. */
  function Scale(a: Number, w: real): (r: Number)
    ensures r.NaN? <==> a.NaN?
    ensures r.Finite? && 0.0 <= w ==> (0.0 <= a.value ==> 0.0 <= r.value) && (a.value <= 1.0 ==> r.value <= w)
    ensures r.Finite? && a.value == 1.0 ==> r.value == w
  {
    if a.Finite? then
      assert 0.0 <= w && 0.0 <= a.value ==> 0.0 <= a.value * w;
      assert w - a.value * w == (1.0 - a.value) * w;
      assert 0.0 <= w && a.value <= 1.0 ==> 0.0 <= (1.0 - a.value) * w;
      Finite(a.value * w)
    else NaN
  }

  /** `a / b` of two counts; a zero divisor only ever comes with a zero dividend, giving NaN. */
  function Divide(a: nat, b: nat): (r: Number)
    requires b == 0 ==> a == 0
    ensures r.NaN? <==> b == 0
    ensures r.Finite? ==> 0.0 <= r.value && (a <= b ==> r.value <= 1.0) && (a == b ==> r.value == 1.0)
  {
    if b == 0 then NaN else Finite(a as real / b as real)
  }

  /** `Math.min(Math.max(n, 0), 1)`. */
  function Clamp(n: Number): (r: Number)
    ensures r.NaN? <==> n.NaN?
    ensures r.Finite? ==> 0.0 <= r.value <= 1.0
    ensures n.Finite? && 0.0 <= n.value <= 1.0 ==> r == n
    ensures n.Finite? && n.value > 1.0 ==> r == Finite(1.0)
  {
    if n.NaN? then NaN else Finite(MinReal(MaxReal(n.value, 0.0), 1.0))
  }

  // ---------------------------------------------------------------- weights

  /** The weight of each dimension. */
  datatype Weights = Weights(skills: real, location: real, jobType: real, experienceLevel: real, salary: real)

  const W: Weights := Weights(0.4, 0.2, 0.15, 0.15, 0.1)

  /** The five weights add up to exactly 1. */
  lemma WeightsSumToOne()
    ensures W.skills + W.location + W.jobType + W.experienceLevel + W.salary == 1.0
  {
  }

  // ---------------------------------------------------------------- skills

  /**
   * `s.toLowerCase().trim()`: a lower-case piece of the lower-cased input with only
   * whitespace around it, neither starting nor ending with whitespace.
   */
  function Normalize(s: string): (r: string)
    ensures IsLowerCase(r)
    ensures exists i, j :: IsTrimmedSlice(ToLower(s), r, i, j)
    ensures r == [] || (!IsWhitespace(r[0]) && !IsWhitespace(r[|r| - 1]))
  {
    var l := ToLower(s);
    ToLowerIsLowerCase(s);
    TrimSpec(l);
    SliceOfLowerCase(l, Trim(l));
    Trim(l)
  }

  /** A trimmed slice of a lower-case string is lower-case. */
  lemma SliceOfLowerCase(s: string, t: string)
    requires IsLowerCase(s) && exists i, j :: IsTrimmedSlice(s, t, i, j)
    ensures IsLowerCase(t)
  {
    var i, j :| IsTrimmedSlice(s, t, i, j);
    assert forall k :: 0 <= k < |t| ==> t[k] == s[i + k];
  }

  function NormalizeAll(ss: seq<string>): (r: seq<string>)
    ensures |r| == |ss|
  {
    seq(|ss|, i requires 0 <= i < |ss| => Normalize(ss[i]))
  }

  /** The distinct strings of a list: what `new Set(list)` holds. */
  function Elements(s: seq<string>): set<string> {
    set x | x in s
  }

  predicate Distinct(s: seq<string>) {
    forall i, j :: 0 <= i < j < |s| ==> s[i] != s[j]
  }

  /**
   * `jobSkills.filter(skill => profileSkills.includes(skill))`: the job's skills, in
   * order and with repetitions, that the profile also lists.
   */
  function MatchingSkills(jobSkills: seq<string>, profileSkills: seq<string>): (r: seq<string>)
    ensures |r| <= |jobSkills|
    ensures forall x :: x in r <==> x in jobSkills && x in profileSkills
    ensures |r| == |jobSkills| <==> forall i :: 0 <= i < |jobSkills| ==> jobSkills[i] in profileSkills
    ensures forall x :: multiset(r)[x] == if x in profileSkills then multiset(jobSkills)[x] else 0
    decreases |jobSkills|
  {
    if jobSkills == [] then []
    else
      var rest := MatchingSkills(jobSkills[1..], profileSkills);
      assert forall x :: x in jobSkills <==> x == jobSkills[0] || x in jobSkills[1..];
      SplitFirst(jobSkills);
      (if jobSkills[0] in profileSkills then [jobSkills[0]] else []) + rest
  }

  /** A non-empty list holds its first entry and then the entries of its tail. */
  lemma SplitFirst(s: seq<string>)
    requires s != []
    ensures multiset(s) == multiset([s[0]]) + multiset(s[1..])
  {
    assert s == [s[0]] + s[1..];
  }

  /** `new Set([...jobSkills, ...profileSkills]).size`. */
  function UnionSize(jobSkills: seq<string>, profileSkills: seq<string>): nat {
    |Elements(jobSkills) + Elements(profileSkills)|
  }

  /** The union is empty exactly when both lists are. */
  lemma UnionEmptyIff(jobSkills: seq<string>, profileSkills: seq<string>)
    ensures UnionSize(jobSkills, profileSkills) == 0 <==> jobSkills == [] && profileSkills == []
  {
    var u := Elements(jobSkills) + Elements(profileSkills);
    if jobSkills != [] {
      assert jobSkills[0] in u;
    } else if profileSkills != [] {
      assert profileSkills[0] in u;
    } else {
      assert u == {};
    }
  }

  /** A list without repetitions has as many distinct elements as entries. */
  lemma {:induction false} DistinctElementsCard(s: seq<string>)
    requires Distinct(s)
    ensures |Elements(s)| == |s|
    decreases |s|
  {
    if s != [] {
      var tail := s[1..];
      DistinctTail(s);
      DistinctElementsCard(tail);
      assert Elements(s) == {s[0]} + Elements(tail);
      assert s[0] !in Elements(tail);
    }
  }

  /** The tail of a list without repetitions has none either, and does not hold the head. */
  lemma DistinctTail(s: seq<string>)
    requires s != [] && Distinct(s)
    ensures Distinct(s[1..])
    ensures s[0] !in s[1..]
  {
    var tail := s[1..];
    forall i, j | 0 <= i < j < |tail| ensures tail[i] != tail[j] {
      assert tail[i] == s[i + 1] && tail[j] == s[j + 1];
    }
    forall i | 0 <= i < |tail| ensures tail[i] != s[0] {
      assert tail[i] == s[i + 1];
    }
  }

  /** A set has no more elements than its union with another. */
  lemma UnionCardAtLeast(a: set<string>, b: set<string>)
    ensures |a| <= |a + b|
  {
    assert a + b == a + (b - a);
    assert a !! (b - a);
  }

  /** The skills dimension, lib/matching.js:18-30: intersection over union, times the weight. */
  function SkillsTerm(job: Job, profile: Profile): (r: Number)
    ensures job.skills.None? || profile.skills.None? ==> r == Finite(0.0)
    ensures r.NaN? <==> job.skills == Some([]) && profile.skills == Some([])
    ensures r.Finite? ==> 0.0 <= r.value
  {
    if job.skills.Some? && profile.skills.Some? then
      var normalizedJobSkills := NormalizeAll(job.skills.value);
      var normalizedProfileSkills := NormalizeAll(profile.skills.value);
      UnionEmptyIff(normalizedJobSkills, normalizedProfileSkills);
      Scale(Divide(|MatchingSkills(normalizedJobSkills, normalizedProfileSkills)|,
                   UnionSize(normalizedJobSkills, normalizedProfileSkills)), W.skills)
    else
      Finite(0.0)
  }

  /** When the normalised job skills have no repetitions, the skills contribution is at most its weight. */
  lemma SkillsTermWithinWeight(job: Job, profile: Profile)
    requires job.skills.Some? ==> Distinct(NormalizeAll(job.skills.value))
    ensures SkillsTerm(job, profile).Finite? ==> SkillsTerm(job, profile).value <= W.skills
  {
    if job.skills.Some? && profile.skills.Some? {
      MatchingWithinUnion(NormalizeAll(job.skills.value), NormalizeAll(profile.skills.value));
    }
  }

  /** Two non-empty skill lists that normalise to the same skills, each once, earn the full weight. */
  lemma SameSkillsEarnFullWeight(job: Job, profile: Profile)
    requires job.skills.Some? && profile.skills.Some? && job.skills.value != []
    requires Distinct(NormalizeAll(job.skills.value))
    requires Elements(NormalizeAll(job.skills.value)) == Elements(NormalizeAll(profile.skills.value))
    ensures SkillsTerm(job, profile) == Finite(W.skills)
  {
    MatchingWithinUnion(NormalizeAll(job.skills.value), NormalizeAll(profile.skills.value));
  }

  /** Without repetitions in the job's list, the intersection count is at most the union size. */
  lemma MatchingWithinUnion(jobSkills: seq<string>, profileSkills: seq<string>)
    requires Distinct(jobSkills)
    ensures |MatchingSkills(jobSkills, profileSkills)| <= UnionSize(jobSkills, profileSkills)
    ensures jobSkills != [] && Elements(jobSkills) == Elements(profileSkills) ==>
            |MatchingSkills(jobSkills, profileSkills)| == UnionSize(jobSkills, profileSkills) > 0
  {
    UnionEmptyIff(jobSkills, profileSkills);
    DistinctElementsCard(jobSkills);
    UnionCardAtLeast(Elements(jobSkills), Elements(profileSkills));
    if jobSkills != [] && Elements(jobSkills) == Elements(profileSkills) {
      assert forall i :: 0 <= i < |jobSkills| ==> jobSkills[i] in Elements(profileSkills);
      assert Elements(jobSkills) + Elements(profileSkills) == Elements(jobSkills);
    }
  }

  /**
   * Without repetitions in the job's list, the filter keeps one entry per skill the two
   * lists share: the intersection count is the size of the intersection of the two sets.
   */
  lemma {:induction false} MatchingIsCommon(jobSkills: seq<string>, profileSkills: seq<string>)
    requires Distinct(jobSkills)
    ensures |MatchingSkills(jobSkills, profileSkills)| == |Elements(jobSkills) * Elements(profileSkills)|
    decreases |jobSkills|
  {
    if jobSkills == [] {
      assert Elements(jobSkills) == {};
    } else {
      DistinctTail(jobSkills);
      MatchingIsCommon(jobSkills[1..], profileSkills);
      CommonStep(jobSkills, profileSkills);
    }
  }

  /** Without its head elsewhere in the list, the shared skills are the tail's plus the head if the profile lists it. */
  lemma CommonStep(jobSkills: seq<string>, profileSkills: seq<string>)
    requires jobSkills != [] && jobSkills[0] !in jobSkills[1..]
    ensures |Elements(jobSkills) * Elements(profileSkills)| ==
            (if jobSkills[0] in profileSkills then 1 else 0) + |Elements(jobSkills[1..]) * Elements(profileSkills)|
  {
    var head, tail := jobSkills[0], jobSkills[1..];
    assert jobSkills == [head] + tail;
    assert Elements(jobSkills) == {head} + Elements(tail);
    var common := Elements(tail) * Elements(profileSkills);
    if head in profileSkills {
      assert Elements(jobSkills) * Elements(profileSkills) == {head} + common;
    } else {
      assert Elements(jobSkills) * Elements(profileSkills) == common;
    }
  }

  /**
   * The Jaccard similarity of lib/matching.js:26-29: when the normalised job skills have no
   * repetitions and the lists are not both empty, the skills term is the number of shared
   * skills over the number of distinct skills of both lists, times the weight.
   */
  lemma SkillsTermIsJaccard(job: Job, profile: Profile)
    requires job.skills.Some? && profile.skills.Some?
    requires job.skills.value != [] || profile.skills.value != []
    requires Distinct(NormalizeAll(job.skills.value))
    ensures var nj, np := Elements(NormalizeAll(job.skills.value)), Elements(NormalizeAll(profile.skills.value));
            |nj + np| > 0 && SkillsTerm(job, profile) == Finite((|nj * np| as real / |nj + np| as real) * W.skills)
  {
    var js, ps := NormalizeAll(job.skills.value), NormalizeAll(profile.skills.value);
    MatchingIsCommon(js, ps);
    UnionEmptyIff(js, ps);
  }

  /**
   * Repeated job skills are counted once in the union but every time in the
   * intersection: three copies of one skill against a profile listing it once give
   * three times the weight, and the score is then cut to 1 by the final clamp.
   */
  lemma RepeatedSkillsExceedWeight(job: Job, profile: Profile, skill: string)
    requires job.skills.Some? && NormalizeAll(job.skills.value) == [skill, skill, skill]
    requires profile.skills.Some? && NormalizeAll(profile.skills.value) == [skill]
    ensures SkillsTerm(job, profile) == Finite(3.0 * W.skills)
    ensures SalaryTerm(job, profile).Finite? ==> MatchScore(job, profile) == Finite(1.0)
  {
    RepeatedSkillsUnion(skill);
    RepeatedSkillsMatch(skill);
    var skills := SkillsTerm(job, profile);
    assert skills == Scale(Divide(3, 1), W.skills);
    if SalaryTerm(job, profile).Finite? {
      SkillsOvershootIsClamped(job, profile);
    }
  }

  /** A skills term above 1 beside a numeric salary term is cut to a score of exactly 1. */
  lemma SkillsOvershootIsClamped(job: Job, profile: Profile)
    requires SkillsTerm(job, profile).Finite? && SkillsTerm(job, profile).value > 1.0
    requires SalaryTerm(job, profile).Finite?
    ensures MatchScore(job, profile) == Finite(1.0)
  {
    var t := TermsOf(job, profile);
    assert 0.0 <= t.location && 0.0 <= t.jobType && 0.0 <= t.experience;
    assert Sum(t).value > 1.0;
  }

  /** Three copies of a skill and one copy form a union of one. */
  lemma RepeatedSkillsUnion(skill: string)
    ensures UnionSize([skill, skill, skill], [skill]) == 1
  {
    assert Elements([skill, skill, skill]) + Elements([skill]) == {skill};
  }

  /** Every copy of the skill is kept by the filter. */
  lemma RepeatedSkillsMatch(skill: string)
    ensures |MatchingSkills([skill, skill, skill], [skill])| == 3
  {
    assert MatchingSkills([skill], [skill]) == [skill];
    assert MatchingSkills([skill, skill], [skill]) == [skill, skill];
  }

  // ---------------------------------------------------------------- location

  /**
   * `preferred.some(loc => jobLocation.includes(loc.toLowerCase().trim()))`: some
   * preferred location, normalised, is included in the job location.
   */
  function AnyIncluded(jobLocation: string, preferred: seq<string>): (r: bool)
    ensures r <==> exists i :: 0 <= i < |preferred| && Includes(jobLocation, Normalize(preferred[i]))
    decreases |preferred|
  {
    if preferred == [] then false
    else
      var rest := AnyIncluded(jobLocation, preferred[1..]);
      assert forall i :: 0 < i < |preferred| ==> preferred[i] == preferred[1..][i - 1];
      Includes(jobLocation, Normalize(preferred[0])) || rest
  }

  /** lib/matching.js:33-41 runs only for a non-empty job location (the empty string is falsy). */
  predicate LocationApplies(job: Job, profile: Profile) {
    job.location.Some? && job.location.value != "" && profile.preferredLocations.Some?
  }

  /**
   * The location dimension, lib/matching.js:33-41: the full weight exactly when the
   * guard holds and some normalised preferred location is included in the normalised
   * job location, otherwise nothing.
   */
  function LocationTerm(job: Job, profile: Profile): (r: real)
    ensures r == 0.0 || r == W.location
    ensures r == W.location <==>
            && LocationApplies(job, profile)
            && exists i :: 0 <= i < |profile.preferredLocations.value| &&
                 Includes(Normalize(job.location.value), Normalize(profile.preferredLocations.value[i]))
  {
    if LocationApplies(job, profile) &&
       AnyIncluded(Normalize(job.location.value), profile.preferredLocations.value)
    then W.location
    else 0.0
  }

  /** Normalising twice is normalising once. */
  lemma NormalizeIdempotent(s: string)
    ensures Normalize(Normalize(s)) == Normalize(s)
  {
    var t := Normalize(s);
    ToLowerIsLowerCase(t);
    TrimOfTrimmed(t);
  }

  /**
   * A profile that adds a job's own location to its preferences matches that job's
   * location, whatever its case or surrounding spaces.
   */
  lemma OwnLocationMatches(job: Job, profile: Profile)
    requires LocationApplies(job, profile)
    ensures var preferred := profile.preferredLocations.value + [job.location.value];
            LocationTerm(job, profile.(preferredLocations := Some(preferred))) == W.location
  {
    var preferred := profile.preferredLocations.value + [job.location.value];
    var loc := Normalize(job.location.value);
    var last := |preferred| - 1;
    assert preferred[last] == job.location.value;
    assert loc[0..0 + |loc|] == loc;
    assert OccursAt(loc, loc, 0);
    assert Includes(loc, Normalize(preferred[last]));
    assert LocationApplies(job, profile.(preferredLocations := Some(preferred)));
  }

  /** A blank preferred location is included in every job location (`"".includes` is true). */
  lemma BlankPreferenceMatchesEverything(job: Job, profile: Profile, i: nat)
    requires LocationApplies(job, profile)
    requires i < |profile.preferredLocations.value| && Normalize(profile.preferredLocations.value[i]) == ""
    ensures LocationTerm(job, profile) == W.location
  {
    assert OccursAt(Normalize(job.location.value), Normalize(profile.preferredLocations.value[i]), 0);
  }

  // ---------------------------------------------------------------- job type

  /**
   * The job-type dimension, lib/matching.js:44-48: the full weight exactly when the job
   * has a type that some entry of the profile's preferred types equals, otherwise nothing.
   */
  function JobTypeTerm(job: Job, profile: Profile): (r: real)
    ensures r == 0.0 || r == W.jobType
    ensures r == W.jobType <==>
            && job.jobType.Some? && profile.preferredJobTypes.Some?
            && exists i :: 0 <= i < |profile.preferredJobTypes.value| && profile.preferredJobTypes.value[i] == job.jobType.value
  {
    if job.jobType.Some? && profile.preferredJobTypes.Some? &&
       job.jobType.value in profile.preferredJobTypes.value
    then W.jobType
    else 0.0
  }

  /**
   * Job type is all or nothing: a profile that does not yet prefer the job's type
   * gains exactly the job-type weight, and nothing else, by adding that type.
   */
  lemma PreferringJobTypeAddsWeight(job: Job, profile: Profile)
    requires job.jobType.Some? && profile.preferredJobTypes.Some?
    requires job.jobType.value !in profile.preferredJobTypes.value
    ensures var preferring := profile.(preferredJobTypes := Some(profile.preferredJobTypes.value + [job.jobType.value]));
            && JobTypeTerm(job, profile) == 0.0
            && JobTypeTerm(job, preferring) == W.jobType
            && RawScore(job, preferring).NaN? == RawScore(job, profile).NaN?
            && (RawScore(job, profile).Finite? ==>
                  RawScore(job, preferring).value == RawScore(job, profile).value + W.jobType)
  {
    var preferring := profile.(preferredJobTypes := Some(profile.preferredJobTypes.value + [job.jobType.value]));
    assert job.jobType.value in preferring.preferredJobTypes.value;
    assert SkillsTerm(job, preferring) == SkillsTerm(job, profile);
    assert LocationTerm(job, preferring) == LocationTerm(job, profile);
    assert ExperienceTerm(job, preferring) == ExperienceTerm(job, profile);
    assert SalaryTerm(job, preferring) == SalaryTerm(job, profile);
  }

  // ---------------------------------------------------------------- experience level

  const LevelNames: seq<string> := ["entry", "junior", "mid", "senior", "lead"]

  /** `names.indexOf(s)`: the first position holding `s`, or -1 when there is none. */
  function IndexOf(names: seq<string>, s: string): (r: int)
    ensures -1 <= r < |names|
    ensures r >= 0 ==> names[r] == s && forall k :: 0 <= k < r ==> names[k] != s
    ensures r == -1 <==> s !in names
    decreases |names|
  {
    if names == [] then -1
    else if names[0] == s then 0
    else
      var k := IndexOf(names[1..], s);
      if k == -1 then -1 else k + 1
  }

  /** `experienceLevels.indexOf(job.experienceLevel.toLowerCase())`, lib/matching.js:57. */
  function JobLevel(level: ExperienceLevel): int {
    IndexOf(LevelNames, ToLower(LevelName(level)))
  }

  /** For every level the schema allows, lib/matching.js:57 finds its rank: the -1 of `indexOf` never arises. */
  lemma JobLevelIsRank(level: ExperienceLevel)
    ensures JobLevel(level) == Rank(level)
  {
    var name := LevelName(level);
    LevelNameIsLowerCase(level);
    ToLowerIsLowerCase(name);
    assert LevelNames[Rank(level)] == name;
    var r := IndexOf(LevelNames, name);
    LevelNamesDiffer(r, Rank(level));
  }

  /** The stored level names have no upper-case letter. */
  lemma LevelNameIsLowerCase(level: ExperienceLevel)
    ensures IsLowerCase(LevelName(level))
  {
    var name := LevelName(level);
    forall i | 0 <= i < |name|
      ensures !IsUpper(name[i])
    {
      match level
      case Entry =>
      case Junior =>
      case Mid =>
      case Senior =>
      case Lead =>
    }
  }

  /** The five level names start with five different letters. */
  lemma LevelNamesDiffer(a: int, b: int)
    requires 0 <= a < 5 && 0 <= b < 5 && LevelNames[a] == LevelNames[b]
    ensures a == b
  {
    assert LevelNames[a][0] == LevelNames[b][0];
  }

  /** `Math.min(Math.floor(entries / 2), 4)`: two history entries count as one level. */
  function ProfileLevel(entries: nat): (r: nat)
    ensures r <= 4
    ensures 2 * r <= entries
    ensures r < 4 ==> entries < 2 * r + 2
  {
    Min(entries / 2, 4)
  }

  function LevelDistance(a: int, b: int): nat {
    if a >= b then a - b else b - a
  }

  /** e^(-1/2), rounded to sixteen significant digits. */
  const ExpMinusHalf: real := 0.6065306597126334

  function Power(b: real, n: nat): real {
    if n == 0 then 1.0 else b * Power(b, n - 1)
  }

  /** Multiplying by a factor strictly between 0 and 1 shrinks a positive number, keeping it positive. */
  lemma ShrinkStep(b: real, p: real, q: real)
    requires 0.0 < b < 1.0 && 0.0 < p && q == b * p
    ensures 0.0 < q < p
  {
    assert 0.0 < b * p;
    assert p - q == (1.0 - b) * p;
    assert 0.0 < (1.0 - b) * p;
    assert 0.0 < p - q;
  }

  lemma {:induction false} PowerInUnit(b: real, n: nat)
    requires 0.0 < b < 1.0
    ensures 0.0 < Power(b, n) <= 1.0
  {
    if n > 0 {
      PowerInUnit(b, n - 1);
      ShrinkStep(b, Power(b, n - 1), Power(b, n));
    }
  }

  /** Each further factor strictly lowers the power. */
  lemma PowerStep(b: real, n: nat)
    requires 0.0 < b < 1.0
    ensures Power(b, n + 1) < Power(b, n)
  {
    PowerInUnit(b, n);
    ShrinkStep(b, Power(b, n), Power(b, n + 1));
  }

  lemma {:induction false} PowerStrictlyDecreasing(b: real, m: nat, n: nat)
    requires 0.0 < b < 1.0
    requires m < n
    ensures Power(b, n) < Power(b, m)
    decreases n - m
  {
    PowerStep(b, n - 1);
    if m < n - 1 {
      PowerStrictlyDecreasing(b, m, n - 1);
    }
  }

  /** `Math.exp(-Math.pow(d, 2) / 2)`, written as (e^(-1/2))^(d*d): 1 at 0, and always in (0, 1]. */
  function Gaussian(d: nat): (r: real)
    ensures d == 0 ==> r == 1.0
    ensures 0.0 < r <= 1.0
  {
    PowerInUnit(ExpMinusHalf, d * d);
    Power(ExpMinusHalf, d * d)
  }

  /** A larger distance has a larger square. */
  lemma SquareGrows(d: nat, e: nat)
    requires d < e
    ensures d * d < e * e
  {
    assert d * e - d * d == d * (e - d);
    assert 0 <= d * (e - d);
    assert e * e - d * e == e * (e - d);
    assert 0 < e * (e - d);
  }

  /** The Gaussian factor is 1 at distance 0, lies in (0, 1] and strictly falls as the distance grows. */
  lemma GaussianFalloff(d: nat, e: nat)
    ensures Gaussian(0) == 1.0
    ensures 0.0 < Gaussian(d) <= 1.0
    ensures d < e ==> Gaussian(e) < Gaussian(d)
  {
    PowerInUnit(ExpMinusHalf, d * d);
    if d < e {
      SquareGrows(d, e);
      PowerStrictlyDecreasing(ExpMinusHalf, d * d, e * e);
    }
  }

  /** lib/matching.js:51-63 runs when the job names a level and the profile has an experience list. */
  predicate ExperienceApplies(job: Job, profile: Profile) {
    job.experienceLevel.Some? && profile.experience.Some?
  }

  /** `Math.abs(jobLevel - profileLevel)`. */
  function ExperienceDistance(job: Job, profile: Profile): nat
    requires ExperienceApplies(job, profile)
  {
    LevelDistance(JobLevel(job.experienceLevel.value), ProfileLevel(|profile.experience.value|))
  }

  /** The experience dimension, lib/matching.js:51-63: absent without both fields, otherwise positive and at most its weight. */
  function ExperienceTerm(job: Job, profile: Profile): (r: real)
    ensures !ExperienceApplies(job, profile) ==> r == 0.0
    ensures ExperienceApplies(job, profile) ==> 0.0 < r <= W.experienceLevel
  {
    if ExperienceApplies(job, profile)
    then Gaussian(ExperienceDistance(job, profile)) * W.experienceLevel
    else 0.0
  }

  /**
   * The experience contribution is absent without both fields; with them it is strictly
   * positive, at most its weight, and exactly its weight when the job's rank equals the
   * profile's level. The distance between the two is at most 4.
   */
  lemma ExperienceTermSpec(job: Job, profile: Profile)
    ensures !ExperienceApplies(job, profile) ==> ExperienceTerm(job, profile) == 0.0
    ensures ExperienceApplies(job, profile) ==>
            && ExperienceDistance(job, profile) <= 4
            && 0.0 < ExperienceTerm(job, profile) <= W.experienceLevel
            && (ExperienceTerm(job, profile) == W.experienceLevel <==>
                Rank(job.experienceLevel.value) == ProfileLevel(|profile.experience.value|))
  {
    if ExperienceApplies(job, profile) {
      var d := ExperienceDistance(job, profile);
      JobLevelIsRank(job.experienceLevel.value);
      GaussianFalloff(d, d);
      if d > 0 {
        GaussianFalloff(0, d);
      }
    }
  }

  /** A larger level distance gives a strictly smaller experience contribution. */
  lemma ExperienceTermDecreasing(job: Job, profile: Profile, job': Job, profile': Profile)
    requires ExperienceApplies(job, profile) && ExperienceApplies(job', profile')
    requires ExperienceDistance(job, profile) < ExperienceDistance(job', profile')
    ensures 0.0 < ExperienceTerm(job', profile') < ExperienceTerm(job, profile)
  {
    GaussianFalloff(ExperienceDistance(job, profile), ExperienceDistance(job', profile'));
    GaussianFalloff(ExperienceDistance(job', profile'), ExperienceDistance(job', profile'));
  }

  // ---------------------------------------------------------------- salary

  /** A salary bound after the `||` defaults: a number or JavaScript's `Infinity`. */
  datatype Bound = Fin(n: int) | Unbounded

  /** `range.min || 0`. */
  function MinOrZero(r: SalaryRange): int {
    r.min.GetOr(0)
  }

  /** `range.max || Infinity`: a missing or zero maximum means no maximum. */
  function MaxOrUnbounded(r: SalaryRange): Bound {
    if r.max.None? || r.max.value == 0 then Unbounded else Fin(r.max.value)
  }

  /** `Math.min(a, b)`. */
  function BoundMin(a: Bound, b: Bound): Bound {
    match (a, b)
    case (Fin(x), Fin(y)) => Fin(Min(x, y))
    case (Fin(_), Unbounded) => a
    case (Unbounded, _) => b
  }

  /** `a - b` for a finite `b`. */
  function Minus(a: Bound, b: int): Bound {
    if a.Fin? then Fin(a.n - b) else Unbounded
  }

  /** `a > 0`. */
  predicate Positive(a: Bound) {
    a.Unbounded? || a.n > 0
  }

  /** `Math.min(jobMax, profileMax) - Math.max(jobMin, profileMin)`, lib/matching.js:73. */
  function SalaryOverlap(job: SalaryRange, profile: SalaryRange): Bound {
    Minus(BoundMin(MaxOrUnbounded(job), MaxOrUnbounded(profile)), Max(MinOrZero(job), MinOrZero(profile)))
  }

  /** `Math.min(jobRange, profileRange)`, lib/matching.js:75-77. */
  function SmallerWidth(job: SalaryRange, profile: SalaryRange): Bound {
    BoundMin(Minus(MaxOrUnbounded(job), MinOrZero(job)), Minus(MaxOrUnbounded(profile), MinOrZero(profile)))
  }

  /**
   * A positive overlap is no wider than either range; it is infinite exactly when both
   * maxima are, and then so is the smaller width.
   */
  lemma OverlapWithinWidths(job: SalaryRange, profile: SalaryRange)
    requires Positive(SalaryOverlap(job, profile))
    ensures SalaryOverlap(job, profile).Unbounded? <==>
            MaxOrUnbounded(job).Unbounded? && MaxOrUnbounded(profile).Unbounded?
    ensures SalaryOverlap(job, profile).Unbounded? <==> SmallerWidth(job, profile).Unbounded?
    ensures SmallerWidth(job, profile).Fin? ==> 0 < SalaryOverlap(job, profile).n <= SmallerWidth(job, profile).n
  {
  }

  /** `overlap / smaller` where both are infinite or the overlap is a positive part of the width. */
  function Ratio(overlap: Bound, smaller: Bound): (r: Number)
    requires overlap.Unbounded? <==> smaller.Unbounded?
    requires smaller.Fin? ==> 0 < overlap.n <= smaller.n
    ensures r.NaN? <==> overlap.Unbounded?
    ensures r.Finite? ==> 0.0 < r.value <= 1.0
    ensures r.Finite? ==> (r.value == 1.0 <==> overlap.n == smaller.n)
  {
    if overlap.Fin? then Finite(overlap.n as real / smaller.n as real) else NaN
  }

  /** lib/matching.js:73-79 before weighting: the overlap ratio, or 0 when the ranges do not overlap. */
  function SalaryRatio(job: SalaryRange, profile: SalaryRange): (r: Number)
    ensures r.NaN? <==> MaxOrUnbounded(job).Unbounded? && MaxOrUnbounded(profile).Unbounded?
    ensures r.Finite? ==> 0.0 <= r.value <= 1.0
    ensures r.Finite? ==> (r.value > 0.0 <==> Positive(SalaryOverlap(job, profile)))
  {
    var overlap := SalaryOverlap(job, profile);
    if Positive(overlap) then
      OverlapWithinWidths(job, profile);
      Ratio(overlap, SmallerWidth(job, profile))
    else
      Finite(0.0)
  }

  predicate SalaryApplies(job: Job, profile: Profile) {
    job.salary.Some? && profile.expectedSalary.Some?
  }

  /** The salary dimension, lib/matching.js:66-80. */
  function SalaryTerm(job: Job, profile: Profile): (r: Number)
    ensures !SalaryApplies(job, profile) ==> r == Finite(0.0)
    ensures r.NaN? <==> (SalaryApplies(job, profile) &&
              MaxOrUnbounded(job.salary.value).Unbounded? && MaxOrUnbounded(profile.expectedSalary.value).Unbounded?)
    ensures r.Finite? ==> 0.0 <= r.value <= W.salary
    ensures r.Finite? ==> (r.value > 0.0 <==>
            SalaryApplies(job, profile) && Positive(SalaryOverlap(job.salary.value, profile.expectedSalary.value)))
  {
    if SalaryApplies(job, profile)
    then Scale(SalaryRatio(job.salary.value, profile.expectedSalary.value), W.salary)
    else Finite(0.0)
  }

  /** The worked example: 50000-70000 against 60000-80000 overlap by half of either range. */
  lemma SalaryExample(job: Job, profile: Profile)
    requires job.salary == Some(SalaryRange(Some(50000), Some(70000)))
    requires profile.expectedSalary == Some(SalaryRange(Some(60000), Some(80000)))
    ensures SalaryTerm(job, profile) == Finite(0.05)
  {
    var j, p := job.salary.value, profile.expectedSalary.value;
    assert SalaryOverlap(j, p) == Fin(10000);
    assert SmallerWidth(j, p) == Fin(20000);
  }

  /** A bounded range compared with itself overlaps completely and earns the full salary weight. */
  lemma SameRangeEarnsFullWeight(job: Job, profile: Profile)
    requires job.salary.Some? && profile.expectedSalary == job.salary
    requires job.salary.value.max.Some? && job.salary.value.max.value != 0
    requires MinOrZero(job.salary.value) < job.salary.value.max.value
    ensures SalaryTerm(job, profile) == Finite(W.salary)
  {
    var s := job.salary.value;
    assert SalaryOverlap(s, s) == SmallerWidth(s, s);
  }

  // ---------------------------------------------------------------- the score

  /** The five contributions of one job-profile pair, in the order lib/matching.js:18-80 adds them. */
  datatype Terms = Terms(skills: Number, location: real, jobType: real, experience: real, salary: Number)

  function TermsOf(job: Job, profile: Profile): Terms {
    Terms(SkillsTerm(job, profile), LocationTerm(job, profile), JobTypeTerm(job, profile),
          ExperienceTerm(job, profile), SalaryTerm(job, profile))
  }

  /** `score` after the five `+=` steps, starting from 0. */
  function Sum(t: Terms): (r: Number)
    ensures r.NaN? <==> t.skills.NaN? || t.salary.NaN?
    ensures r.Finite? ==> r.value == t.skills.value + t.location + t.jobType + t.experience + t.salary.value
  {
    Add(Add(Add(Add(Add(Finite(0.0), t.skills), Finite(t.location)), Finite(t.jobType)), Finite(t.experience)), t.salary)
  }

  /** Every contribution lies between 0 and its weight. */
  predicate WithinWeights(t: Terms) {
    && (t.skills.Finite? ==> 0.0 <= t.skills.value <= W.skills)
    && 0.0 <= t.location <= W.location
    && 0.0 <= t.jobType <= W.jobType
    && 0.0 <= t.experience <= W.experienceLevel
    && (t.salary.Finite? ==> 0.0 <= t.salary.value <= W.salary)
  }

  /** The weights add up to 1, so contributions within their weights never need the clamp. */
  lemma SumWithinUnit(t: Terms)
    requires WithinWeights(t)
    ensures Clamp(Sum(t)) == Sum(t)
  {
    if Sum(t).Finite? {
      assert 0.0 <= Sum(t).value <= 1.0;
    }
  }

  /** The sum before clamping. */
  function RawScore(job: Job, profile: Profile): Number {
    Sum(TermsOf(job, profile))
  }

  /**
   * `calculateMatchScore(job, profile)`: the clamped sum. It is NaN exactly when the
   * skills or the salary term is, and otherwise lies in [0, 1].
   */
  function MatchScore(job: Job, profile: Profile): (r: Number)
    ensures r.NaN? <==> SkillsTerm(job, profile).NaN? || SalaryTerm(job, profile).NaN?
    ensures r.Finite? ==> 0.0 <= r.value <= 1.0
  {
    Clamp(RawScore(job, profile))
  }

  /** A dimension whose field is missing on either side contributes nothing. */
  lemma MissingFieldsAddNothing(job: Job, profile: Profile)
    ensures job.skills.None? || profile.skills.None? ==> TermsOf(job, profile).skills == Finite(0.0)
    ensures job.location.None? || job.location == Some("") || profile.preferredLocations.None? ==>
              TermsOf(job, profile).location == 0.0
    ensures job.jobType.None? || profile.preferredJobTypes.None? ==> TermsOf(job, profile).jobType == 0.0
    ensures job.experienceLevel.None? || profile.experience.None? ==> TermsOf(job, profile).experience == 0.0
    ensures job.salary.None? || profile.expectedSalary.None? ==> TermsOf(job, profile).salary == Finite(0.0)
  {
    ExperienceTermSpec(job, profile);
  }

  /**
   * When the job lists each normalised skill once, the weighted sum never leaves [0, 1],
   * so the final clamp changes nothing: the score is the plain sum of the five terms.
   */
  lemma ScoreIsWeightedSum(job: Job, profile: Profile)
    requires job.skills.Some? ==> Distinct(NormalizeAll(job.skills.value))
    ensures MatchScore(job, profile) == Sum(TermsOf(job, profile))
  {
    TermsWithinWeights(job, profile);
    SumWithinUnit(TermsOf(job, profile));
  }

  /** With no repeated normalised job skill, every contribution lies within its weight. */
  lemma TermsWithinWeights(job: Job, profile: Profile)
    requires job.skills.Some? ==> Distinct(NormalizeAll(job.skills.value))
    ensures WithinWeights(TermsOf(job, profile))
  {
    SkillsTermWithinWeight(job, profile);
  }

  /**
   * Once the job names a level and the profile has an experience list, the score is
   * strictly positive: the Gaussian never reaches 0, so no pair of such records scores 0.
   */
  lemma ExperienceKeepsScorePositive(job: Job, profile: Profile)
    requires ExperienceApplies(job, profile)
    requires MatchScore(job, profile).Finite?
    ensures MatchScore(job, profile).value > 0.0
  {
    ExperienceTermSpec(job, profile);
    var t := TermsOf(job, profile);
    assert Sum(t).value > 0.0;
  }

  /** A pair that matches in every dimension scores exactly 1. */
  lemma PerfectMatchScoresOne(job: Job, profile: Profile)
    requires job.skills.Some? && profile.skills.Some? && job.skills.value != []
    requires Distinct(NormalizeAll(job.skills.value))
    requires Elements(NormalizeAll(job.skills.value)) == Elements(NormalizeAll(profile.skills.value))
    requires LocationApplies(job, profile) && AnyIncluded(Normalize(job.location.value), profile.preferredLocations.value)
    requires job.jobType.Some? && profile.preferredJobTypes.Some? && job.jobType.value in profile.preferredJobTypes.value
    requires ExperienceApplies(job, profile) && Rank(job.experienceLevel.value) == ProfileLevel(|profile.experience.value|)
    requires job.salary.Some? && profile.expectedSalary == job.salary
    requires job.salary.value.max.Some? && job.salary.value.max.value != 0
    requires MinOrZero(job.salary.value) < job.salary.value.max.value
    ensures MatchScore(job, profile) == Finite(1.0)
  {
    SameSkillsEarnFullWeight(job, profile);
    ExperienceTermSpec(job, profile);
    SameRangeEarnsFullWeight(job, profile);
    var t := TermsOf(job, profile);
    assert t == Terms(Finite(W.skills), W.location, W.jobType, W.experienceLevel, Finite(W.salary));
    assert Sum(t) == Finite(1.0);
  }

  /**
   * The imperative form of lib/matching.js:7-84: `score` starts at 0, each dimension whose fields
   * are present adds its contribution, and the sum is clamped.
   */
  method CalculateMatchScore(job: Job, profile: Profile) returns (score: Number)
    ensures score == MatchScore(job, profile)
  {
    score := Finite(0.0);
    score := AddSkills(score, job, profile);
    score := AddLocation(score, job, profile);
    score := AddJobType(score, job, profile);
    score := AddExperience(score, job, profile);
    score := AddSalary(score, job, profile);
    score := Clamp(score);
  }

  /** lib/matching.js:18-30: `score += (intersection / union) * weights.skills`. */
  method AddSkills(score: Number, job: Job, profile: Profile) returns (r: Number)
    ensures r == Add(score, SkillsTerm(job, profile))
  {
    r := score;
    if job.skills.Some? && profile.skills.Some? {
      var normalizedJobSkills := NormalizeAll(job.skills.value);
      var normalizedProfileSkills := NormalizeAll(profile.skills.value);
      var intersection := MatchingSkills(normalizedJobSkills, normalizedProfileSkills);
      var union := UnionSize(normalizedJobSkills, normalizedProfileSkills);
      UnionEmptyIff(normalizedJobSkills, normalizedProfileSkills);
      var skillsScore := Divide(|intersection|, union);
      r := Add(r, Scale(skillsScore, W.skills));
    } else {
      assert Add(score, Finite(0.0)) == score;
    }
  }

  /** lib/matching.js:33-41: `score += weights.location` when a preferred location is included. */
  method AddLocation(score: Number, job: Job, profile: Profile) returns (r: Number)
    ensures r == Add(score, Finite(LocationTerm(job, profile)))
  {
    r := score;
    if job.location.Some? && job.location.value != "" && profile.preferredLocations.Some? {
      var jobLocation := Normalize(job.location.value);
      var hasLocationMatch := AnyIncluded(jobLocation, profile.preferredLocations.value);
      if hasLocationMatch {
        r := Add(r, Finite(W.location));
      }
    }
    assert r == Add(score, Finite(LocationTerm(job, profile)));
  }

  /** lib/matching.js:44-48: `score += weights.jobType` when the job type is preferred. */
  method AddJobType(score: Number, job: Job, profile: Profile) returns (r: Number)
    ensures r == Add(score, Finite(JobTypeTerm(job, profile)))
  {
    r := score;
    if job.jobType.Some? && profile.preferredJobTypes.Some? {
      if job.jobType.value in profile.preferredJobTypes.value {
        r := Add(r, Finite(W.jobType));
      }
    }
    assert r == Add(score, Finite(JobTypeTerm(job, profile)));
  }

  /** lib/matching.js:51-63: `score += experienceScore * weights.experienceLevel`. */
  method AddExperience(score: Number, job: Job, profile: Profile) returns (r: Number)
    ensures r == Add(score, Finite(ExperienceTerm(job, profile)))
  {
    r := score;
    if job.experienceLevel.Some? && profile.experience.Some? {
      var profileLevel := ProfileLevel(|profile.experience.value|);
      var jobLevel := JobLevel(job.experienceLevel.value);
      var levelDifference := LevelDistance(jobLevel, profileLevel);
      var experienceScore := Gaussian(levelDifference);
      r := Add(r, Finite(experienceScore * W.experienceLevel));
    } else {
      assert Add(score, Finite(0.0)) == score;
    }
  }

  /** lib/matching.js:66-80: `score += salaryScore * weights.salary` when the ranges overlap. */
  method AddSalary(score: Number, job: Job, profile: Profile) returns (r: Number)
    ensures r == Add(score, SalaryTerm(job, profile))
  {
    r := score;
    if job.salary.Some? && profile.expectedSalary.Some? {
      var jobSalary, profileSalary := job.salary.value, profile.expectedSalary.value;
      var overlap := SalaryOverlap(jobSalary, profileSalary);
      if Positive(overlap) {
        OverlapWithinWidths(jobSalary, profileSalary);
        var salaryScore := Ratio(overlap, SmallerWidth(jobSalary, profileSalary));
        r := Add(r, Scale(salaryScore, W.salary));
      } else {
        assert r == Add(score, SalaryTerm(job, profile));
      }
    } else {
      assert Add(score, Finite(0.0)) == score;
    }
  }

  // ---------------------------------------------------------------- stand-alone helpers

  /**
   * `getExperienceLevel(years)`, lib/matching.js:91-97: the level whose rank is the
   * number of thresholds 1, 3, 5 and 8 that the years have reached.
   */
  function GetExperienceLevel(years: real): (r: ExperienceLevel)
    ensures Rank(r) == ThresholdsReached([1.0, 3.0, 5.0, 8.0], years)
  {
    var ts := [1.0, 3.0, 5.0, 8.0];
    assert ts[1..] == [3.0, 5.0, 8.0] && ts[2..] == [5.0, 8.0] && ts[3..] == [8.0] && ts[4..] == [];
    if years < 1.0 then Entry
    else if years < 3.0 then Junior
    else if years < 5.0 then Mid
    else if years < 8.0 then Senior
    else Lead
  }

  /** How many of the thresholds `ts` a number of years has reached. */
  function ThresholdsReached(ts: seq<real>, years: real): nat
    decreases |ts|
  {
    if ts == [] then 0 else (if ts[0] <= years then 1 else 0) + ThresholdsReached(ts[1..], years)
  }

  /** Each threshold a number of years reaches, a larger number reaches too. */
  lemma {:induction false} ThresholdsReachedMonotone(ts: seq<real>, years: real, more: real)
    requires years <= more
    ensures ThresholdsReached(ts, years) <= ThresholdsReached(ts, more)
    decreases |ts|
  {
    if ts != [] {
      ThresholdsReachedMonotone(ts[1..], years, more);
    }
  }

  /** More experience never gives a lower level. */
  lemma GetExperienceLevelMonotone(years: real, more: real)
    requires years <= more
    ensures Rank(GetExperienceLevel(years)) <= Rank(GetExperienceLevel(more))
  {
    ThresholdsReachedMonotone([1.0, 3.0, 5.0, 8.0], years, more);
  }

  /**
   * `calculateSalaryMatch(jobSalary, profileSalary)`, lib/matching.js:105-124. A missing bound is
   * `parseInt(undefined)`, which is NaN and stays NaN; ranges that do not overlap give 0;
   * otherwise the overlap over the smaller width, capped at 1. The result is 0 without
   * two ranges and otherwise NaN or between 0 and 1.
   */
  function CalculateSalaryMatch(jobSalary: Option<SalaryRange>, profileSalary: Option<SalaryRange>): (r: Number)
    ensures jobSalary.None? || profileSalary.None? ==> r == Finite(0.0)
    ensures r.Finite? ==> 0.0 <= r.value <= 1.0
  {
    if jobSalary.None? || profileSalary.None? then Finite(0.0)
    else
      var j, p := jobSalary.value, profileSalary.value;
      if j.min.None? || j.max.None? || p.min.None? || p.max.None? then NaN
      else
        var overlap := Min(j.max.value, p.max.value) - Max(j.min.value, p.min.value);
        if overlap < 0 then Finite(0.0)
        else
          var smaller := Min(j.max.value - j.min.value, p.max.value - p.min.value);
          // overlap <= smaller here, so a zero width is the division 0 / 0
          if smaller == 0 then NaN
          else Finite(MinReal(Share(overlap, smaller), 1.0))
  }

  /** Unlike lib/matching.js:74, the stand-alone helper scores ranges that only touch (zero overlap). */
  predicate AllBoundsGiven(j: SalaryRange, p: SalaryRange) {
    j.min.Some? && j.max.Some? && p.min.Some? && p.max.Some?
  }

  /**
   * The helper's result is 0 without two ranges; NaN when a bound is missing or a
   * zero-width range only touches the other; otherwise in [0, 1] and equal to the
   * uncapped ratio, because the overlap is never wider than either range.
   */
  lemma SalaryMatchSpec(jobSalary: Option<SalaryRange>, profileSalary: Option<SalaryRange>)
    ensures jobSalary.None? || profileSalary.None? ==> CalculateSalaryMatch(jobSalary, profileSalary) == Finite(0.0)
    ensures jobSalary.Some? && profileSalary.Some? ==>
            var j, p := jobSalary.value, profileSalary.value;
            && (!AllBoundsGiven(j, p) ==> CalculateSalaryMatch(jobSalary, profileSalary).NaN?)
            && (AllBoundsGiven(j, p) ==>
                  var overlap := Min(j.max.value, p.max.value) - Max(j.min.value, p.min.value);
                  var smaller := Min(j.max.value - j.min.value, p.max.value - p.min.value);
                  && (CalculateSalaryMatch(jobSalary, profileSalary).NaN? <==> overlap >= 0 && smaller == 0)
                  && (overlap < 0 ==> CalculateSalaryMatch(jobSalary, profileSalary) == Finite(0.0))
                  && (overlap >= 0 && smaller != 0 ==>
                        0 <= overlap <= smaller &&
                        CalculateSalaryMatch(jobSalary, profileSalary) == Finite(overlap as real / smaller as real)))
    ensures CalculateSalaryMatch(jobSalary, profileSalary).Finite? ==>
            0.0 <= CalculateSalaryMatch(jobSalary, profileSalary).value <= 1.0
  {
    if jobSalary.Some? && profileSalary.Some? && AllBoundsGiven(jobSalary.value, profileSalary.value) {
      var j, p := jobSalary.value, profileSalary.value;
      var overlap := Min(j.max.value, p.max.value) - Max(j.min.value, p.min.value);
      var smaller := Min(j.max.value - j.min.value, p.max.value - p.min.value);
      if overlap >= 0 {
        assert overlap <= smaller;
        if smaller != 0 {
          assert Share(overlap, smaller) == overlap as real / smaller as real;
        }
      }
    }
  }

  /** `a / b` for a count no larger than a positive count. */
  function Share(a: nat, b: nat): (r: real)
    requires 0 < b && a <= b
    ensures 0.0 <= r <= 1.0
    ensures r == 1.0 <==> a == b
  {
    a as real / b as real
  }

  /** `normalizedJobSkills` of lib/matching.js:135: lower-cased only, not trimmed. */
  function LowerAll(ss: seq<string>): (r: seq<string>)
    ensures |r| == |ss|
  {
    seq(|ss|, i requires 0 <= i < |ss| => ToLower(ss[i]))
  }

  /**
   * `calculateSkillsRelevance(jobSkills, profileSkills)`, lib/matching.js:132-143: the share of the
   * job's skills that the candidate has, comparing lower-cased (untrimmed) names; 0 when
   * either list is missing or empty, 1 exactly when every job skill is matched, and in
   * general the number of job positions whose lower-cased skill the profile lists over the
   * number of job skills.
   */
  function CalculateSkillsRelevance(jobSkills: Option<seq<string>>, profileSkills: Option<seq<string>>): (r: real)
    ensures 0.0 <= r <= 1.0
    ensures jobSkills.Some? && profileSkills.Some? && jobSkills.value != [] && profileSkills.value != [] ==>
            r == |set i | 0 <= i < |jobSkills.value| && ToLower(jobSkills.value[i]) in LowerAll(profileSkills.value)| as real /
                 |jobSkills.value| as real
    ensures jobSkills.None? || profileSkills.None? || jobSkills.value == [] || profileSkills.value == [] ==> r == 0.0
    ensures r == 1.0 <==>
            && jobSkills.Some? && profileSkills.Some? && jobSkills.value != [] && profileSkills.value != []
            && forall i :: 0 <= i < |jobSkills.value| ==> ToLower(jobSkills.value[i]) in LowerAll(profileSkills.value)
  {
    if jobSkills.None? || profileSkills.None? || jobSkills.value == [] || profileSkills.value == [] then 0.0
    else
      var normalizedJobSkills := LowerAll(jobSkills.value);
      var matching := MatchingSkills(normalizedJobSkills, LowerAll(profileSkills.value));
      RelevanceCount(jobSkills.value, profileSkills.value);
      Share(|matching|, |jobSkills.value|)
  }

  /** The intersection count of lib/matching.js:135-142 is the number of job positions whose lower-cased skill is listed. */
  lemma RelevanceCount(jobSkills: seq<string>, profileSkills: seq<string>)
    ensures |MatchingSkills(LowerAll(jobSkills), LowerAll(profileSkills))| ==
            |set i | 0 <= i < |jobSkills| && ToLower(jobSkills[i]) in LowerAll(profileSkills)|
    ensures |MatchingSkills(LowerAll(jobSkills), LowerAll(profileSkills))| == |jobSkills| <==>
            forall i :: 0 <= i < |jobSkills| ==> ToLower(jobSkills[i]) in LowerAll(profileSkills)
  {
    var js, ps := LowerAll(jobSkills), LowerAll(profileSkills);
    assert forall i :: 0 <= i < |jobSkills| ==> js[i] == ToLower(jobSkills[i]);
    MatchingCountsListed(js, ps, 0);
    assert js[0..] == js;
    assert ListedFrom(js, ps, 0) == set i | 0 <= i < |jobSkills| && ToLower(jobSkills[i]) in ps;
  }

  /** The positions from `k` on whose job skill the profile lists. */
  ghost function ListedFrom(jobSkills: seq<string>, profileSkills: seq<string>, k: nat): set<int> {
    set i | k <= i < |jobSkills| && jobSkills[i] in profileSkills
  }

  /** Dropping position `k` drops it from the listed positions, if it was listed. */
  lemma ListedFromStep(jobSkills: seq<string>, profileSkills: seq<string>, k: nat)
    requires k < |jobSkills|
    ensures |ListedFrom(jobSkills, profileSkills, k)| ==
            (if jobSkills[k] in profileSkills then 1 else 0) + |ListedFrom(jobSkills, profileSkills, k + 1)|
  {
    var listed, later := ListedFrom(jobSkills, profileSkills, k), ListedFrom(jobSkills, profileSkills, k + 1);
    if jobSkills[k] in profileSkills {
      assert listed == {k} + later;
    } else {
      assert listed == later;
    }
  }

  /** The filter over the job skills from `k` on keeps the skill at `k` if listed, then filters the rest. */
  lemma MatchingFromStep(jobSkills: seq<string>, profileSkills: seq<string>, k: nat)
    requires k < |jobSkills|
    ensures |MatchingSkills(jobSkills[k..], profileSkills)| ==
            (if jobSkills[k] in profileSkills then 1 else 0) + |MatchingSkills(jobSkills[k + 1..], profileSkills)|
  {
    var suffix := jobSkills[k..];
    assert suffix[0] == jobSkills[k] && suffix[1..] == jobSkills[k + 1..];
  }

  /** The filter over the job skills from position `k` on is as long as the set of those positions whose skill is listed. */
  lemma {:induction false} MatchingCountsListed(jobSkills: seq<string>, profileSkills: seq<string>, k: nat)
    requires k <= |jobSkills|
    ensures |MatchingSkills(jobSkills[k..], profileSkills)| == |ListedFrom(jobSkills, profileSkills, k)|
    decreases |jobSkills| - k
  {
    if k == |jobSkills| {
      assert ListedFrom(jobSkills, profileSkills, k) == {};
    } else {
      MatchingCountsListed(jobSkills, profileSkills, k + 1);
      MatchingFromStep(jobSkills, profileSkills, k);
      ListedFromStep(jobSkills, profileSkills, k);
    }
  }

  /** Trailing spaces matter to the relevance helper but not to the scorer's skills term. */
  lemma RelevanceDoesNotTrim()
    ensures CalculateSkillsRelevance(Some(["go "]), Some(["go"])) == 0.0
  {
    var l := ToLower("go ");
    assert l == "go " by {
      ToLowerIsLowerCase("go ");
    }
    var p := ToLower("go");
    assert p == "go" by {
      ToLowerIsLowerCase("go");
    }
    assert LowerAll(["go "]) == ["go "];
    assert LowerAll(["go"]) == ["go"];
    assert "go " != "go";
    assert MatchingSkills(["go "], ["go"]) == [];
  }
}
