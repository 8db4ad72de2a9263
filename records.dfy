/**
 * The stored documents the scorer reads: the fields of a job listing and of a
 * candidate profile that matching uses. Every field the scorer consults is
 * optional; the enumerations are the ones the schemas allow.
 */
module Records {
  import opened Common

  /** The `jobType` enumeration, shared by jobs and by a profile's preferred job types. */
  datatype JobType = FullTime | PartTime | Contract | Internship

  /** The `experienceLevel` enumeration, in its stored order. */
  datatype ExperienceLevel = Entry | Junior | Mid | Senior | Lead

  /** The `status` enumeration of a job listing. */
  datatype JobStatus = Active | Closed | Draft

  /** A salary range, as stored: either bound may be missing. */
  datatype SalaryRange = SalaryRange(min: Option<int>, max: Option<int>)

  /** One entry of a profile's work history; matching only counts the entries. */
  datatype ExperienceEntry = ExperienceEntry(title: string, company: string)

  datatype Job = Job(
    id: string,
    status: JobStatus,
    skills: Option<seq<string>>,
    location: Option<string>,
    jobType: Option<JobType>,
    experienceLevel: Option<ExperienceLevel>,
    salary: Option<SalaryRange>)

  datatype Profile = Profile(
    id: string,
    user: string,
    skills: Option<seq<string>>,
    preferredLocations: Option<seq<string>>,
    preferredJobTypes: Option<seq<JobType>>,
    experience: Option<seq<ExperienceEntry>>,
    expectedSalary: Option<SalaryRange>)

  /** The string the schema stores for an experience level. */
  function LevelName(l: ExperienceLevel): string {
    match l
    case Entry => "entry"
    case Junior => "junior"
    case Mid => "mid"
    case Senior => "senior"
    case Lead => "lead"
  }

  /** The position of a level in the ordered enumeration. */
  function Rank(l: ExperienceLevel): nat {
    match l
    case Entry => 0
    case Junior => 1
    case Mid => 2
    case Senior => 3
    case Lead => 4
  }
}
