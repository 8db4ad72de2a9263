/**
 * `GET /api/jobs/matches`: the signed-in candidate's view of every active job, each
 * annotated with its match score and listed best first. The session and the stored
 * collections are inputs; the early returns are outcome values.
 */
module JobMatchesRoute {
  import opened Common
  import opened Records
  import opened Matching
  import opened Store
  import opened Ranking
  import opened Sessions

  datatype Response =
    | Unauthorized               // 401: no session, or not a candidate
    | ProfileNotFound            // 404: the candidate has no profile yet
    | MatchedJobs(jobs: seq<Scored<Job>>)

  /** app/api/jobs/matches/route.js:33-36: `{ ...job.toObject(), matchScore }` for every job, in order. */
  function Annotated(profile: Profile, jobs: seq<Job>): (r: seq<Scored<Job>>)
    ensures |r| == |jobs|
    decreases |jobs|
  {
    if jobs == [] then []
    else
      var last := jobs[|jobs| - 1];
      Annotated(profile, jobs[..|jobs| - 1]) + [Scored(last, MatchScore(last, profile))]
  }

  /** Entry `i` of the annotated list is job `i` with its score against the profile. */
  lemma {:induction false} AnnotatedAt(profile: Profile, jobs: seq<Job>, i: nat)
    requires i < |jobs|
    ensures Annotated(profile, jobs)[i] == Scored(jobs[i], MatchScore(jobs[i], profile))
    decreases |jobs|
  {
    var init := jobs[..|jobs| - 1];
    assert Annotated(profile, jobs) == Annotated(profile, init) + [Scored(jobs[|jobs| - 1], MatchScore(jobs[|jobs| - 1], profile))];
    if i < |jobs| - 1 {
      AnnotatedAt(profile, init, i);
      assert init[i] == jobs[i];
    }
  }

  /** Annotating one more job appends its entry. */
  lemma AnnotatedStep(profile: Profile, jobs: seq<Job>, i: nat)
    requires i < |jobs|
    ensures Annotated(profile, jobs[..i + 1]) == Annotated(profile, jobs[..i]) + [Scored(jobs[i], MatchScore(jobs[i], profile))]
  {
    assert jobs[..i + 1][..i] == jobs[..i];
  }

  /**
   * `GET(request)`, app/api/jobs/matches/route.js:8-39: unauthorised without a candidate session; not found
   * without the candidate's profile; otherwise every active job with its score, as a
   * permutation of the annotated list, sorted best first when every score is a number.
   */
  method Get(session: Option<Session>, jobs: seq<Job>, profiles: seq<Profile>) returns (response: Response)
    ensures session.None? || session.value.role != Candidate ==> response == Unauthorized
    ensures session.Some? && session.value.role == Candidate && FindProfileByUser(profiles, session.value.userId).None? ==>
              response == ProfileNotFound
    ensures session.Some? && session.value.role == Candidate && FindProfileByUser(profiles, session.value.userId).Some? ==>
              var annotated := Annotated(FindProfileByUser(profiles, session.value.userId).value, ActiveJobs(jobs));
              && response.MatchedJobs?
              && multiset(response.jobs) == multiset(annotated)
              && (AllFinite(annotated) ==> Descending(response.jobs))
  {
    if session.None? || session.value.role != Candidate {
      return Unauthorized;
    }
    var profile := FindProfileByUser(profiles, session.value.userId);
    if profile.None? {
      return ProfileNotFound;
    }
    var active := ActiveJobs(jobs);
    var annotated := AnnotateJobs(profile.value, active);
    var matchedJobs := SortScored(annotated);
    response := MatchedJobs(matchedJobs);
  }

  /** `jobs.map(job => ({ ...job.toObject(), matchScore: calculateMatchScore(job, profile) }))`. */
  method AnnotateJobs(profile: Profile, jobs: seq<Job>) returns (annotated: seq<Scored<Job>>)
    ensures annotated == Annotated(profile, jobs)
  {
    annotated := [];
    for i := 0 to |jobs|
      invariant annotated == Annotated(profile, jobs[..i])
    {
      var matchScore := CalculateMatchScore(jobs[i], profile);
      annotated := annotated + [Scored(jobs[i], matchScore)];
      AnnotatedStep(profile, jobs, i);
    }
    assert jobs[..|jobs|] == jobs;
  }

  /**
   * Exactly the active jobs are listed, each as often as it is stored: a job's entries in
   * the response number its stored copies when it is active, and none otherwise.
   */
  lemma ListsEveryActiveJob(profile: Profile, jobs: seq<Job>, response: seq<Scored<Job>>, job: Job)
    requires multiset(response) == multiset(Annotated(profile, ActiveJobs(jobs)))
    ensures multiset(response)[Scored(job, MatchScore(job, profile))] ==
            if job.status == Active then multiset(jobs)[job] else 0
  {
    AnnotatedCounts(profile, ActiveJobs(jobs), job);
    ActiveJobsCounts(jobs, job);
  }

  /** Nothing else is listed: every entry of the response is a stored active job with its own score. */
  lemma ListsOnlyActiveJobs(profile: Profile, jobs: seq<Job>, response: seq<Scored<Job>>, e: Scored<Job>)
    requires multiset(response) == multiset(Annotated(profile, ActiveJobs(jobs)))
    requires e in response
    ensures e.item in jobs && e.item.status == Active
    ensures e.score == MatchScore(e.item, profile)
  {
    var annotated := Annotated(profile, ActiveJobs(jobs));
    assert e in multiset(response);
    assert e in annotated;
    var i :| 0 <= i < |annotated| && annotated[i] == e;
    AnnotatedAt(profile, ActiveJobs(jobs), i);
  }

  /** Annotating keeps multiplicities: each job's entry occurs as often as the job. */
  lemma AnnotatedCounts(profile: Profile, jobs: seq<Job>, job: Job)
    ensures multiset(Annotated(profile, jobs))[Scored(job, MatchScore(job, profile))] == multiset(jobs)[job]
  {
    var score := (j: Job) => MatchScore(j, profile);
    var annotated := Annotated(profile, jobs);
    forall i | 0 <= i < |jobs|
      ensures annotated[i] == Scored(jobs[i], score(jobs[i]))
    {
      AnnotatedAt(profile, jobs, i);
    }
    TaggedCounts(jobs, annotated, score, job);
  }

  /** Pairing every item with a score that depends only on the item keeps each item's multiplicity. */
  lemma {:induction false} TaggedCounts<T>(items: seq<T>, tagged: seq<Scored<T>>, score: T -> Number, x: T)
    requires |tagged| == |items|
    requires forall i :: 0 <= i < |items| ==> tagged[i] == Scored(items[i], score(items[i]))
    ensures multiset(tagged)[Scored(x, score(x))] == multiset(items)[x]
    decreases |items|
  {
    if items != [] {
      var n := |items| - 1;
      TaggedCounts(items[..n], tagged[..n], score, x);
      assert items == items[..n] + [items[n]];
      assert tagged == tagged[..n] + [tagged[n]];
      assert multiset(items) == multiset(items[..n]) + multiset{items[n]};
      assert multiset(tagged) == multiset(tagged[..n]) + multiset{tagged[n]};
    }
  }
}
