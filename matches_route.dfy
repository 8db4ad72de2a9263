/**
 * `GET /api/matches`: for a job, its candidates; for a candidate, the active jobs;
 * each scored by the match scorer, sorted best first, and cut to the top ten, with the
 * number of scored entries as `total`. The session, the query and the stored
 * collections are inputs; the early returns are outcome values.
 */
module MatchesRoute {
  import opened Common
  import opened Records
  import opened Matching
  import opened Store
  import opened Ranking
  import opened Sessions

  /** What an entry of `matches` carries besides its score: a profile or a job. */
  datatype Subject = ProfileSubject(profile: Profile) | JobSubject(job: Job)

  /** How many entries the route returns at most. */
  const TopCount: nat := 10

  datatype Response =
    | Unauthorized               // 401
    | JobNotFound                // 404
    | ProfileNotFound            // 404
    | Matches(matches: seq<Scored<Subject>>, total: nat)

  /** A query parameter counts only when present and non-empty (the empty string is falsy). */
  predicate Given(p: Option<string>) {
    p.Some? && p.value != ""
  }

  /** app/api/matches/route.js:38-41: every profile, in stored order, paired with its score against the job. */
  function CandidatesFor(job: Job, profiles: seq<Profile>): (r: seq<Scored<Subject>>)
    ensures |r| == |profiles|
    decreases |profiles|
  {
    if profiles == [] then []
    else
      var last := profiles[|profiles| - 1];
      CandidatesFor(job, profiles[..|profiles| - 1]) + [Scored(ProfileSubject(last), MatchScore(job, last))]
  }

  /** app/api/matches/route.js:54-57 over the active jobs: every job, in order, paired with its score against the profile. */
  function JobsFor(profile: Profile, active: seq<Job>): (r: seq<Scored<Subject>>)
    ensures |r| == |active|
    decreases |active|
  {
    if active == [] then []
    else
      var last := active[|active| - 1];
      JobsFor(profile, active[..|active| - 1]) + [Scored(JobSubject(last), MatchScore(last, profile))]
  }

  /** Scoring one more profile appends its entry. */
  lemma CandidatesForStep(job: Job, profiles: seq<Profile>, i: nat)
    requires i < |profiles|
    ensures CandidatesFor(job, profiles[..i + 1]) ==
            CandidatesFor(job, profiles[..i]) + [Scored(ProfileSubject(profiles[i]), MatchScore(job, profiles[i]))]
  {
    assert profiles[..i + 1][..i] == profiles[..i];
  }

  /** Scoring one more active job appends its entry. */
  lemma JobsForStep(profile: Profile, active: seq<Job>, i: nat)
    requires i < |active|
    ensures JobsFor(profile, active[..i + 1]) ==
            JobsFor(profile, active[..i]) + [Scored(JobSubject(active[i]), MatchScore(active[i], profile))]
  {
    assert active[..i + 1][..i] == active[..i];
  }

  /** Entry `i` of the scored candidates is profile `i` with its score. */
  lemma {:induction false} CandidatesForAt(job: Job, profiles: seq<Profile>, i: nat)
    requires i < |profiles|
    ensures CandidatesFor(job, profiles)[i] == Scored(ProfileSubject(profiles[i]), MatchScore(job, profiles[i]))
    decreases |profiles|
  {
    var init := profiles[..|profiles| - 1];
    var last := profiles[|profiles| - 1];
    assert CandidatesFor(job, profiles) == CandidatesFor(job, init) + [Scored(ProfileSubject(last), MatchScore(job, last))];
    if i < |profiles| - 1 {
      CandidatesForAt(job, init, i);
      assert init[i] == profiles[i];
    }
  }

  /** Entry `i` of the scored jobs is active job `i` with its score. */
  lemma {:induction false} JobsForAt(profile: Profile, active: seq<Job>, i: nat)
    requires i < |active|
    ensures JobsFor(profile, active)[i] == Scored(JobSubject(active[i]), MatchScore(active[i], profile))
    decreases |active|
  {
    var init := active[..|active| - 1];
    var last := active[|active| - 1];
    assert JobsFor(profile, active) == JobsFor(profile, init) + [Scored(JobSubject(last), MatchScore(last, profile))];
    if i < |active| - 1 {
      JobsForAt(profile, init, i);
      assert init[i] == active[i];
    }
  }

  /**
   * The entries scored before sorting, app/api/matches/route.js:25-58, or the not-found response: a job id
   * wins over a candidate id and fails exactly when no stored job has it, giving one entry
   * per profile; a candidate id alone fails exactly when no stored profile has it, giving
   * one entry per active job; with neither there is nothing to score.
   */
  function ScoredEntries(jobId: Option<string>, candidateId: Option<string>, jobs: seq<Job>, profiles: seq<Profile>)
    : (r: Result<seq<Scored<Subject>>, Response>)
    ensures Given(jobId) ==> (r.Failure? <==> FindJobById(jobs, jobId.value).None?)
    ensures !Given(jobId) && Given(candidateId) ==> (r.Failure? <==> FindProfileById(profiles, candidateId.value).None?)
    ensures r.Failure? ==> r.error == (if Given(jobId) then JobNotFound else ProfileNotFound)
    ensures r.Success? && Given(jobId) ==> |r.value| == |profiles|
    ensures r.Success? && !Given(jobId) && Given(candidateId) ==> |r.value| == |ActiveJobs(jobs)|
    ensures !Given(jobId) && !Given(candidateId) ==> r == Success([])
  {
    if Given(jobId) then
      match FindJobById(jobs, jobId.value)
      case None => Failure(JobNotFound)
      case Some(job) => Success(CandidatesFor(job, profiles))
    else if Given(candidateId) then
      match FindProfileById(profiles, candidateId.value)
      case None => Failure(ProfileNotFound)
      case Some(profile) => Success(JobsFor(profile, ActiveJobs(jobs)))
    else
      Success([])
  }

  /**
   * `kept` are the best-scored of `entries`: drawn from them, at most `TopCount` of them
   * (all when there are fewer), and, when every score is a number, sorted best first and
   * with no left-out entry scoring higher than a kept one.
   */
  predicate IsTopOf(kept: seq<Scored<Subject>>, entries: seq<Scored<Subject>>) {
    && |kept| == Min(TopCount, |entries|)
    && multiset(kept) <= multiset(entries)
    && (AllFinite(entries) ==>
          && Descending(kept)
          && forall x, y :: x in kept && y in multiset(entries) - multiset(kept) ==> AtLeast(x.score, y.score))
  }

  /**
   * `GET(request)`, app/api/matches/route.js:9-66: no session is unauthorised; a missing job or profile is
   * not found; otherwise the top entries of the scored list and its full length.
   */
  method Get(session: Option<Session>, jobId: Option<string>, candidateId: Option<string>,
             jobs: seq<Job>, profiles: seq<Profile>) returns (response: Response)
    ensures session.None? ==> response == Unauthorized
    ensures session.Some? && ScoredEntries(jobId, candidateId, jobs, profiles).Failure? ==>
              response == ScoredEntries(jobId, candidateId, jobs, profiles).error
    ensures session.Some? && ScoredEntries(jobId, candidateId, jobs, profiles).Success? ==>
              var entries := ScoredEntries(jobId, candidateId, jobs, profiles).value;
              && response.Matches?
              && response.total == |entries|
              && IsTopOf(response.matches, entries)
  {
    if session.None? {
      return Unauthorized;
    }
    var matches: seq<Scored<Subject>> := [];
    if Given(jobId) {
      var found := FindJobById(jobs, jobId.value);
      if found.None? {
        return JobNotFound;
      }
      matches := ScoreCandidates(found.value, profiles);
    } else if Given(candidateId) {
      var found := FindProfileById(profiles, candidateId.value);
      if found.None? {
        return ProfileNotFound;
      }
      matches := ScoreJobs(found.value, ActiveJobs(jobs));
    }
    var sorted := SortScored(matches);
    response := Matches(Take(sorted, TopCount), |matches|);
    TakeIsTop(sorted, matches);
  }

  /** `candidates.map(profile => ({ profile, score: calculateMatchScore(job, profile) }))`. */
  method ScoreCandidates(job: Job, profiles: seq<Profile>) returns (matches: seq<Scored<Subject>>)
    ensures matches == CandidatesFor(job, profiles)
  {
    matches := [];
    for i := 0 to |profiles|
      invariant matches == CandidatesFor(job, profiles[..i])
    {
      var score := CalculateMatchScore(job, profiles[i]);
      matches := matches + [Scored(ProfileSubject(profiles[i]), score)];
      CandidatesForStep(job, profiles, i);
    }
    assert profiles[..|profiles|] == profiles;
  }

  /** `jobs.map(job => ({ job, score: calculateMatchScore(job, profile) }))` over the active jobs. */
  method ScoreJobs(profile: Profile, active: seq<Job>) returns (matches: seq<Scored<Subject>>)
    ensures matches == JobsFor(profile, active)
  {
    matches := [];
    for i := 0 to |active|
      invariant matches == JobsFor(profile, active[..i])
    {
      var score := CalculateMatchScore(active[i], profile);
      matches := matches + [Scored(JobSubject(active[i]), score)];
      JobsForStep(profile, active, i);
    }
    assert active[..|active|] == active;
  }

  /** The first `TopCount` of a sorted permutation of the entries are their best. */
  lemma TakeIsTop(sorted: seq<Scored<Subject>>, entries: seq<Scored<Subject>>)
    requires multiset(sorted) == multiset(entries)
    requires AllFinite(entries) ==> Descending(sorted)
    ensures IsTopOf(Take(sorted, TopCount), entries)
  {
    var kept := Take(sorted, TopCount);
    var n := |kept|;
    assert |sorted| == |entries| by {
      assert |multiset(sorted)| == |multiset(entries)|;
    }
    assert sorted == kept + sorted[n..];
    assert multiset(sorted) == multiset(kept) + multiset(sorted[n..]);
    if AllFinite(entries) {
      TakeOfDescendingIsTop(sorted, TopCount);
      forall x, y | x in kept && y in multiset(entries) - multiset(kept)
        ensures AtLeast(x.score, y.score)
      {
        assert y in multiset(sorted[n..]);
      }
    }
  }

  /** In the candidate branch every entry is a stored active job, scored against the profile. */
  lemma JobsForScoresActiveJobs(profile: Profile, jobs: seq<Job>, e: Scored<Subject>)
    requires e in JobsFor(profile, ActiveJobs(jobs))
    ensures e.item.JobSubject? && e.item.job in jobs && e.item.job.status == Active
    ensures e.score == MatchScore(e.item.job, profile)
  {
    var entries := JobsFor(profile, ActiveJobs(jobs));
    var i :| 0 <= i < |entries| && entries[i] == e;
    JobsForAt(profile, ActiveJobs(jobs), i);
  }
}
