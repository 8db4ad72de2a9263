/**
 * The three database reads the routes make, over the stored collections given as
 * sequences: lookup by id, lookup of a profile by its owner, and the `status: 'active'`
 * filter on jobs.
 */
module Store {
  import opened Common
  import opened Records

  /** The first stored record whose key is `k`, if any: the lookup behind the three reads below. */
  function Find<T>(records: seq<T>, key: T -> string, k: string): (r: Option<T>)
    ensures r.Some? <==> exists i :: 0 <= i < |records| && key(records[i]) == k
    ensures r.Some? ==> r.value in records && key(r.value) == k
    decreases |records|
  {
    if records == [] then None
    else if key(records[0]) == k then Some(records[0])
    else
      var r := Find(records[1..], key, k);
      assert forall i :: 0 < i < |records| ==> records[i] == records[1..][i - 1];
      r
  }

  /** `Job.findById(id)`: a stored job with that id (ids are unique), if any. */
  function FindJobById(jobs: seq<Job>, id: string): Option<Job> {
    Find(jobs, (job: Job) => job.id, id)
  }

  /** `Profile.findById(id)`: a stored profile with that id (ids are unique), if any. */
  function FindProfileById(profiles: seq<Profile>, id: string): Option<Profile> {
    Find(profiles, (profile: Profile) => profile.id, id)
  }

  /** `Profile.findOne({ user })`: the first stored profile owned by that user, if any. */
  function FindProfileByUser(profiles: seq<Profile>, user: string): Option<Profile> {
    Find(profiles, (profile: Profile) => profile.user, user)
  }

  /** `Job.find({ status: 'active' })`: the active jobs, in stored order. */
  function ActiveJobs(jobs: seq<Job>): (r: seq<Job>)
    ensures |r| <= |jobs|
    ensures forall j :: j in r <==> j in jobs && j.status == Active
    decreases |jobs|
  {
    if jobs == [] then []
    else
      var rest := ActiveJobs(jobs[1..]);
      assert forall j :: j in jobs <==> j == jobs[0] || j in jobs[1..];
      (if jobs[0].status == Active then [jobs[0]] else []) + rest
  }

  /** Every stored active job appears among the active jobs as often as it is stored. */
  lemma {:induction false} ActiveJobsCounts(jobs: seq<Job>, j: Job)
    ensures multiset(ActiveJobs(jobs))[j] == if j.status == Active then multiset(jobs)[j] else 0
    decreases |jobs|
  {
    if jobs != [] {
      ActiveJobsCounts(jobs[1..], j);
      assert jobs == [jobs[0]] + jobs[1..];
      assert multiset(jobs) == multiset([jobs[0]]) + multiset(jobs[1..]);
    }
  }
}
