/** The Job schema: the stored record, the body a client sends, the
    defaults and validators Mongoose applies when a document is saved, the
    unique (title, company, employerId) index and the `isExpired` virtual. */
module JobModel {
  import opened Base

  /** The `type` enum; the first entry is the default. */
  const JobTypes: seq<string> := ["full-time", "part-time", "contract", "internship"]

  /** The `status` enum; the first entry is the default. */
  const JobStatuses: seq<string> := ["open", "closed"]

  /** A job document. A required string that was never supplied is held as
      "", which the `required` validator refuses just as it refuses a
      missing value. Times are milliseconds since the epoch. */
  datatype Job = Job(
    id: JobId,
    title: string,
    description: string,
    company: string,
    location: string,
    salary: Option<int>,
    jobType: string,
    registrationDeadline: int,
    verificationLink: string,
    requirements: seq<string>,
    benefits: seq<string>,
    employerId: UserId,
    status: string,
    createdAt: int)

  /** A request body: each field is present (`Some`) or absent (`None`). */
  datatype JobFields = JobFields(
    title: Option<string>,
    description: Option<string>,
    company: Option<string>,
    location: Option<string>,
    salary: Option<int>,
    jobType: Option<string>,
    registrationDeadline: Option<int>,
    verificationLink: Option<string>,
    requirements: Option<seq<string>>,
    benefits: Option<seq<string>>,
    employerId: Option<UserId>,
    status: Option<string>,
    createdAt: Option<int>)

  /** A body that carries no field at all. */
  const NoFields := JobFields(None, None, None, None, None, None, None, None, None, None, None, None, None)

  /** JavaScript truthiness of an optional string: present and not "". */
  predicate Truthy(o: Option<string>) {
    o.Some? && o.value != ""
  }

  /** The validators that run on `save`: every required string is non-empty
      and both enums hold. The deadline and the employer are required too;
      the typed record always has them. */
  predicate SchemaValid(job: Job) {
    && job.title != ""
    && job.description != ""
    && job.company != ""
    && job.location != ""
    && job.verificationLink != ""
    && job.jobType in JobTypes
    && job.status in JobStatuses
  }

  function Pick<T>(o: Option<T>, current: T): T {
    if o.Some? then o.value else current
  }

  /** `Object.assign(job, body)`: every field the body carries overwrites
      the document's, every other field stays. The id is not a body field. */
  function Assign(job: Job, body: JobFields): (r: Job)
    ensures r.id == job.id
  {
    Job(
      job.id,
      Pick(body.title, job.title),
      Pick(body.description, job.description),
      Pick(body.company, job.company),
      Pick(body.location, job.location),
      if body.salary.Some? then body.salary else job.salary,
      Pick(body.jobType, job.jobType),
      Pick(body.registrationDeadline, job.registrationDeadline),
      Pick(body.verificationLink, job.verificationLink),
      Pick(body.requirements, job.requirements),
      Pick(body.benefits, job.benefits),
      Pick(body.employerId, job.employerId),
      Pick(body.status, job.status),
      Pick(body.createdAt, job.createdAt))
  }

  /** A fresh document before the body is copied in: the schema defaults
      (`full-time`, `open`, creation time, empty lists), nothing else. */
  function Blank(id: JobId, owner: UserId, deadline: int, now: int): Job {
    Job(id, "", "", "", "", None, JobTypes[0], deadline, "", [], [], owner, JobStatuses[0], now)
  }

  /** `new Job({ ...body, employerId: owner })` created at time `now`. */
  function Construct(id: JobId, body: JobFields, owner: UserId, now: int): (job: Job)
    requires body.registrationDeadline.Some?
    ensures job.id == id && job.employerId == owner
    ensures job.registrationDeadline == body.registrationDeadline.value
    ensures body.title.Some? ==> job.title == body.title.value
    ensures body.company.Some? ==> job.company == body.company.value
    ensures body.verificationLink.Some? ==> job.verificationLink == body.verificationLink.value
    ensures job.jobType == if body.jobType.Some? then body.jobType.value else "full-time"
    ensures job.status == if body.status.Some? then body.status.value else "open"
    ensures job.createdAt == if body.createdAt.Some? then body.createdAt.value else now
  {
    var deadline := body.registrationDeadline.value;
    Assign(Blank(id, owner, deadline, now), body.(employerId := Some(owner)))
  }

  /** The schema accepts a new document exactly when the body supplies every
      required string, non-empty, and any type or status it gives is in its enum. */
  lemma ConstructValidIff(id: JobId, body: JobFields, owner: UserId, now: int)
    requires body.registrationDeadline.Some?
    ensures SchemaValid(Construct(id, body, owner, now)) <==>
      && Truthy(body.title) && Truthy(body.description) && Truthy(body.company)
      && Truthy(body.location) && Truthy(body.verificationLink)
      && (body.jobType.None? || body.jobType.value in JobTypes)
      && (body.status.None? || body.status.value in JobStatuses)
  {
  }

  /** An empty body changes nothing. */
  lemma AssignNothing(job: Job)
    ensures Assign(job, NoFields) == job
  {
  }

  /** Applying the same body twice is applying it once. */
  lemma AssignIdempotent(job: Job, body: JobFields)
    ensures Assign(Assign(job, body), body) == Assign(job, body)
  {
  }

  /** The `isExpired` virtual: the deadline lies strictly before now. */
  predicate IsExpired(job: Job, now: int) {
    now > job.registrationDeadline
  }

  /** On its deadline a job is not yet expired; one millisecond later it is. */
  lemma ExpiresJustAfterDeadline(job: Job)
    ensures !IsExpired(job, job.registrationDeadline)
    ensures IsExpired(job, job.registrationDeadline + 1)
  {
  }

  /** Expiry is computed from the deadline alone: closing or reopening a job
      does not change it. */
  lemma ExpiryIgnoresStatus(job: Job, status: string, now: int)
    ensures IsExpired(job.(status := status), now) == IsExpired(job, now)
  {
  }

  /** Two documents that the unique index would treat as the same posting. */
  predicate SameTriple(a: Job, b: Job) {
    a.title == b.title && a.company == b.company && a.employerId == b.employerId
  }

  /** The unique index holds over a collection. */
  ghost predicate UniqueTriples(jobs: map<JobId, Job>) {
    forall a, b :: a in jobs && b in jobs && a != b ==> !SameTriple(jobs[a], jobs[b])
  }

  /** `findOne({ _id: { $ne: except }, title, company, employerId: owner })`
      finds a document. Mongoose drops a filter key whose value is
      `undefined`, so an absent title or company constrains nothing. */
  predicate Taken(jobs: map<JobId, Job>, title: Option<string>, company: Option<string>,
                  owner: UserId, except: Option<JobId>)
  {
    exists k | k in jobs ::
      && (except.None? || k != except.value)
      && (title.None? || jobs[k].title == title.value)
      && (company.None? || jobs[k].company == company.value)
      && jobs[k].employerId == owner
  }

  /** A lookup without a title finds any job of that owner at that company. */
  lemma AbsentTitleMatchesCompany(jobs: map<JobId, Job>, k: JobId)
    requires k in jobs
    ensures Taken(jobs, None, Some(jobs[k].company), jobs[k].employerId, None)
  {
  }

  /** Inserting a document whose triple is not taken keeps the index unique. */
  lemma InsertKeepsUnique(jobs: map<JobId, Job>, job: Job)
    requires UniqueTriples(jobs)
    requires job.id !in jobs
    requires !Taken(jobs, Some(job.title), Some(job.company), job.employerId, None)
    ensures UniqueTriples(jobs[job.id := job])
  {
    var m := jobs[job.id := job];
    forall a, b | a in m && b in m && a != b ensures !SameTriple(m[a], m[b]) {
      if a == job.id {
        assert b in jobs;
      } else if b == job.id {
        assert a in jobs;
      }
    }
  }

  /** Replacing a document by one whose triple no other document holds keeps
      the index unique. */
  lemma ReplaceKeepsUnique(jobs: map<JobId, Job>, job: Job)
    requires UniqueTriples(jobs)
    requires job.id in jobs
    requires !Taken(jobs, Some(job.title), Some(job.company), job.employerId, Some(job.id))
    ensures UniqueTriples(jobs[job.id := job])
  {
    var m := jobs[job.id := job];
    forall a, b | a in m && b in m && a != b ensures !SameTriple(m[a], m[b]) {
      if a == job.id {
        assert b in jobs && b != job.id;
      } else if b == job.id {
        assert a in jobs && a != job.id;
      }
    }
  }

  /** A unique collection stays unique when a document is removed. */
  lemma RemoveKeepsUnique(jobs: map<JobId, Job>, id: JobId)
    requires UniqueTriples(jobs)
    ensures UniqueTriples(jobs - {id})
  {
  }
}
