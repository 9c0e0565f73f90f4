/** The job service: the five handlers of jobController.js over an
    in-memory job collection. Create, update and delete sit behind the auth
    gate, so they receive the caller's verified claims. */
module JobController {
  import opened Base
  import opened UrlPattern
  import opened JobModel

  /** Jobs listed newest first. */
  ghost predicate NewestFirst(list: seq<Job>) {
    forall a, b :: 0 <= a < b < |list| ==> list[a].createdAt >= list[b].createdAt
  }

  /** What every stored document satisfies: it passed the schema's
      validators and its link passed the URL pattern. */
  ghost predicate Stored(job: Job) {
    SchemaValid(job) && UrlShape(job.verificationLink)
  }

  /** Inserting `x` at `p` into a newest-first list, when everything before
      `p` is at least as new as `x` and the entry at `p` is older. */
  lemma InsertKeepsNewestFirst(list: seq<Job>, p: nat, x: Job)
    requires NewestFirst(list)
    requires p <= |list|
    requires forall q :: 0 <= q < p ==> list[q].createdAt >= x.createdAt
    requires p < |list| ==> list[p].createdAt < x.createdAt
    ensures NewestFirst(list[..p] + [x] + list[p..])
  {
    var l := list[..p] + [x] + list[p..];
    forall a, b | 0 <= a < b < |l| ensures l[a].createdAt >= l[b].createdAt {
      if b == p {
        assert l[a] == list[a];
      } else if a == p {
        assert l[b] == list[b - 1];
      } else if a < p {
        assert l[a] == list[a];
        assert l[b] == if b < p then list[b] else list[b - 1];
      } else {
        assert l[a] == list[a - 1] && l[b] == list[b - 1];
      }
    }
  }

  /** The ids a listing mentions. */
  ghost function Ids(list: seq<Job>): set<JobId> {
    set i | 0 <= i < |list| :: list[i].id
  }

  /** No job is listed twice. */
  ghost predicate DistinctIds(list: seq<Job>) {
    forall a, b :: 0 <= a < b < |list| ==> list[a].id != list[b].id
  }

  /** Every listed job is the stored document under its id. */
  ghost predicate DrawnFrom(list: seq<Job>, jobs: map<JobId, Job>) {
    forall i :: 0 <= i < |list| ==> list[i].id in jobs && jobs[list[i].id] == list[i]
  }

  /** Inserting a job with a new id into a listing drawn from `jobs`. */
  lemma InsertKeepsListing(list: seq<Job>, p: nat, x: Job, jobs: map<JobId, Job>)
    requires p <= |list|
    requires DistinctIds(list) && DrawnFrom(list, jobs)
    requires x.id in jobs && jobs[x.id] == x && x.id !in Ids(list)
    ensures Ids(list[..p] + [x] + list[p..]) == Ids(list) + {x.id}
    ensures DistinctIds(list[..p] + [x] + list[p..])
    ensures DrawnFrom(list[..p] + [x] + list[p..], jobs)
  {
    var l := list[..p] + [x] + list[p..];
    assert forall i :: 0 <= i < |l| ==> l[i] == if i < p then list[i] else if i == p then x else list[i - 1];
    forall i | 0 <= i < |list| ensures list[i].id in Ids(l) {
      if i < p { assert l[i] == list[i]; } else { assert l[i + 1] == list[i]; }
    }
    assert l[p].id == x.id;
  }

  class JobBoard {
    /** The job collection, keyed by document id. */
    var jobs: map<JobId, Job>
    /** The next fresh document id. */
    var nextId: JobId

    ghost predicate Valid()
      reads this
    {
      && (forall k :: k in jobs ==> k < nextId && jobs[k].id == k && Stored(jobs[k]))
      && UniqueTriples(jobs)
    }

    constructor ()
      ensures Valid() && jobs == map[]
    {
      jobs := map[];
      nextId := 0;
    }

    /** POST /jobs. The guards run in order: the caller's role, the
        deadline, the link, the duplicate lookup; then the document is built
        from the body (with the caller as employer) and validated on save. */
    method CreateJob(caller: Claims, body: JobFields, now: int) returns (r: Reply<Job>)
      requires Valid()
      modifies this
      ensures Valid()
      ensures r.Failure? ==> jobs == old(jobs)
      ensures caller.role != "employer" ==> r == Failure(403, "Only employers can post jobs")
      ensures caller.role == "employer" && body.registrationDeadline.None? ==>
        r == Failure(400, "Registration deadline is required")
      ensures caller.role == "employer" && body.registrationDeadline.Some? && body.registrationDeadline.value < now ==>
        r == Failure(400, "Registration deadline must be in the future")
      ensures caller.role == "employer" && body.registrationDeadline.Some? && body.registrationDeadline.value >= now ==>
        && (!Truthy(body.verificationLink) ==> r == Failure(400, "Application/verification link is required"))
        && (Truthy(body.verificationLink) && !UrlShape(body.verificationLink.value) ==>
              r == Failure(400, "Please provide a valid URL for the application link"))
        && (Truthy(body.verificationLink) && UrlShape(body.verificationLink.value)
            && Taken(old(jobs), body.title, body.company, caller.id, None) ==>
              r == Failure(400, "You already posted this job."))
      ensures r.Success? <==>
        && caller.role == "employer"
        && body.registrationDeadline.Some? && body.registrationDeadline.value >= now
        && Truthy(body.verificationLink) && UrlShape(body.verificationLink.value)
        && !Taken(old(jobs), body.title, body.company, caller.id, None)
        && SchemaValid(Construct(old(nextId), body, caller.id, now))
      ensures && caller.role == "employer"
              && body.registrationDeadline.Some? && body.registrationDeadline.value >= now
              && Truthy(body.verificationLink) && UrlShape(body.verificationLink.value)
              && !Taken(old(jobs), body.title, body.company, caller.id, None)
              && !SchemaValid(Construct(old(nextId), body, caller.id, now)) ==>
                r == Failure(500, "Server error")
      ensures r.Success? ==>
        && r.code == 201
        && r.value == Construct(old(nextId), body, caller.id, now)
        && r.value.id !in old(jobs)
        && r.value.employerId == caller.id
        && jobs == old(jobs)[r.value.id := r.value]
      ensures r.Failure? && r.code == 500 ==> r.msg == "Server error"
    {
      if caller.role != "employer" {
        return Failure(403, "Only employers can post jobs");
      }
      if body.registrationDeadline.None? {
        return Failure(400, "Registration deadline is required");
      }
      if body.registrationDeadline.value < now {
        return Failure(400, "Registration deadline must be in the future");
      }
      if !Truthy(body.verificationLink) {
        return Failure(400, "Application/verification link is required");
      }
      if !IsValidUrl(body.verificationLink.value) {
        return Failure(400, "Please provide a valid URL for the application link");
      }
      if Taken(jobs, body.title, body.company, caller.id, None) {
        return Failure(400, "You already posted this job.");
      }
      var job := Construct(nextId, body, caller.id, now);
      if !SchemaValid(job) {
        return Failure(500, "Server error");
      }
      InsertKeepsUnique(jobs, job);
      jobs := jobs[job.id := job];
      nextId := nextId + 1;
      return Success(201, job);
    }

    /** GET /jobs: every stored job, newest first. */
    method GetJobs() returns (list: seq<Job>)
      requires Valid()
      ensures NewestFirst(list)
      ensures Ids(list) == jobs.Keys
      ensures DistinctIds(list) && DrawnFrom(list, jobs)
    {
      list := [];
      var pending := jobs.Keys;
      while pending != {}
        invariant pending <= jobs.Keys
        invariant NewestFirst(list)
        invariant Ids(list) == jobs.Keys - pending
        invariant DistinctIds(list) && DrawnFrom(list, jobs)
        decreases pending
      {
        var k :| k in pending;
        var job := jobs[k];
        var p := 0;
        while p < |list| && list[p].createdAt >= job.createdAt
          invariant 0 <= p <= |list|
          invariant forall q :: 0 <= q < p ==> list[q].createdAt >= job.createdAt
        {
          p := p + 1;
        }
        InsertKeepsNewestFirst(list, p, job);
        InsertKeepsListing(list, p, job, jobs);
        list := list[..p] + [job] + list[p..];
        pending := pending - {k};
      }
    }

    /** GET /jobs/:id. */
    function GetJobById(id: JobId): (r: Reply<Job>)
      reads this
      ensures r.Success? <==> id in jobs
      ensures r.Success? ==> r.code == 200 && r.value == jobs[id]
      ensures r.Failure? ==> r == Failure(404, "Job not found")
    {
      if id in jobs then Success(200, jobs[id]) else Failure(404, "Job not found")
    }

    /** PUT /jobs/:id. Existence, then ownership; the deadline and the link
        are re-checked only when the patch carries them, the duplicate lookup
        only when it carries both title and company (the job itself excluded);
        then the patch is merged and the document validated on save, where
        the unique index may still refuse it. */
    method UpdateJob(caller: Claims, id: JobId, patch: JobFields, now: int) returns (r: Reply<Job>)
      requires Valid()
      modifies this
      ensures Valid()
      ensures r.Failure? ==> jobs == old(jobs)
      ensures id !in old(jobs) ==> r == Failure(404, "Job not found")
      ensures id in old(jobs) && old(jobs)[id].employerId != caller.id ==> r == Failure(403, "Not authorized")
      ensures id in old(jobs) && old(jobs)[id].employerId == caller.id ==>
        && (patch.registrationDeadline.Some? && patch.registrationDeadline.value < now ==>
              r == Failure(400, "Registration deadline must be in the future"))
        && ((patch.registrationDeadline.None? || patch.registrationDeadline.value >= now)
            && Truthy(patch.verificationLink) && !UrlShape(patch.verificationLink.value) ==>
              r == Failure(400, "Please provide a valid URL for the application link"))
        && ((patch.registrationDeadline.None? || patch.registrationDeadline.value >= now)
            && (Truthy(patch.verificationLink) ==> UrlShape(patch.verificationLink.value))
            && Truthy(patch.title) && Truthy(patch.company)
            && Taken(old(jobs), patch.title, patch.company, caller.id, Some(id)) ==>
              r == Failure(400, "You already posted a job with this title and company."))
      ensures r.Success? <==>
        && id in old(jobs) && old(jobs)[id].employerId == caller.id
        && (patch.registrationDeadline.None? || patch.registrationDeadline.value >= now)
        && (Truthy(patch.verificationLink) ==> UrlShape(patch.verificationLink.value))
        && !(Truthy(patch.title) && Truthy(patch.company)
             && Taken(old(jobs), patch.title, patch.company, caller.id, Some(id)))
        && var merged := Assign(old(jobs)[id], patch);
           SchemaValid(merged)
           && !Taken(old(jobs), Some(merged.title), Some(merged.company), merged.employerId, Some(id))
      ensures && id in old(jobs) && old(jobs)[id].employerId == caller.id
              && (patch.registrationDeadline.None? || patch.registrationDeadline.value >= now)
              && (Truthy(patch.verificationLink) ==> UrlShape(patch.verificationLink.value))
              && !(Truthy(patch.title) && Truthy(patch.company)
                   && Taken(old(jobs), patch.title, patch.company, caller.id, Some(id)))
              && r.Failure? ==>
                r == Failure(500, "Server error")
      ensures r.Success? ==>
        && r.code == 200
        && r.value == Assign(old(jobs)[id], patch)
        && jobs == old(jobs)[id := r.value]
      ensures r.Failure? && r.code == 500 ==> r.msg == "Server error"
    {
      if id !in jobs {
        return Failure(404, "Job not found");
      }
      var job := jobs[id];
      if job.employerId != caller.id {
        return Failure(403, "Not authorized");
      }
      if patch.registrationDeadline.Some? && patch.registrationDeadline.value < now {
        return Failure(400, "Registration deadline must be in the future");
      }
      if Truthy(patch.verificationLink) && !IsValidUrl(patch.verificationLink.value) {
        return Failure(400, "Please provide a valid URL for the application link");
      }
      if Truthy(patch.title) && Truthy(patch.company)
         && Taken(jobs, patch.title, patch.company, caller.id, Some(id))
      {
        return Failure(400, "You already posted a job with this title and company.");
      }
      var merged := Assign(job, patch);
      if !SchemaValid(merged) || Taken(jobs, Some(merged.title), Some(merged.company), merged.employerId, Some(id)) {
        return Failure(500, "Server error");
      }
      ReplaceKeepsUnique(jobs, merged);
      jobs := jobs[id := merged];
      return Success(200, merged);
    }

    /** DELETE /jobs/:id. Existence, then ownership, then removal. */
    method DeleteJob(caller: Claims, id: JobId) returns (r: Reply<string>)
      requires Valid()
      modifies this
      ensures Valid()
      ensures id !in old(jobs) ==> r == Failure(404, "Job not found") && jobs == old(jobs)
      ensures id in old(jobs) && old(jobs)[id].employerId != caller.id ==>
        r == Failure(403, "Not authorized") && jobs == old(jobs)
      ensures id in old(jobs) && old(jobs)[id].employerId == caller.id ==>
        r == Success(200, "Job deleted") && jobs == old(jobs) - {id}
      ensures nextId == old(nextId)
    {
      if id !in jobs {
        return Failure(404, "Job not found");
      }
      if jobs[id].employerId != caller.id {
        return Failure(403, "Not authorized");
      }
      RemoveKeepsUnique(jobs, id);
      jobs := jobs - {id};
      return Success(200, "Job deleted");
    }
  }

  /** An employer posts a job due tomorrow and reads it back; a second post
      at the same company without a title is a duplicate; the owner closes the
      job, which leaves its expiry alone; another employer cannot delete it. */
  method PostReadClose(employer: UserId, now: int)
    returns (created: Reply<Job>, again: Reply<Job>, closed: Reply<Job>, stranger: Reply<string>)
    ensures created.Success? && created.code == 201
    ensures created.value.status == "open" && created.value.createdAt == now
    ensures again == Failure(400, "You already posted this job.")
    ensures closed.Success? && closed.value.status == "closed"
    ensures IsExpired(closed.value, now) == IsExpired(created.value, now)
    ensures stranger == Failure(403, "Not authorized")
  {
    var board := new JobBoard();
    var caller := Claims(employer, "employer");
    var body := NoFields.(
      title := Some("Dev"), company := Some("Acme"), description := Some("..."),
      location := Some("Lagos"), registrationDeadline := Some(now + 86400000),
      verificationLink := Some("https://acme.com/apply"));
    TypicalLinkAccepted();
    created := board.CreateJob(caller, body, now);
    var read := board.GetJobById(created.value.id);
    assert read == Success(200, created.value);
    AbsentTitleMatchesCompany(board.jobs, created.value.id);
    again := board.CreateJob(caller, body.(title := None), now);
    closed := board.UpdateJob(caller, created.value.id, NoFields.(status := Some("closed")), now);
    stranger := board.DeleteJob(Claims(employer + 1, "employer"), created.value.id);
  }
}
