/** The value-level rules of src/controllers/jobController.js: building a
    new job, the truthy-field-wins update, the proposal lookups and the
    assignment both `acceptProposal` and `assignJob` perform. The handlers
    that apply them to the store are in Marketplace. */
module JobRules {
  import opened Outcomes
  import opened JobModel

  const JobNotFound := Failure(NotFound, "Job not found")
  const CreatorRequired := Failure(BadRequest, "createdBy (or userId) is required")
  const UserIdRequired := Failure(BadRequest, "userId is required to submit a proposal")
  const NotAWorker := Failure(BadRequest, "Only workers can submit proposals.")
  const AlreadyProposed := Failure(BadRequest, "You have already submitted a proposal for this job")
  const ProposalNotFound := Failure(NotFound, "Proposal not found")
  const WorkerNotFound := Failure(NotFound, "Worker not found")
  /** The schema validator's error when `save` rejects a job document. */
  const JobValidationFailed := Failure(Crash, "Job validation failed")

  /** `Job.findById(id)`. */
  function FindJob(jobs: map<JobId, Job>, id: JobId): (r: Option<Job>)
    ensures r.Some? <==> id in jobs
    ensures r.Some? ==> r.value == jobs[id]
  {
    if id in jobs then Some(jobs[id]) else None
  }

  // ---------------------------------------------------------------- createJob

  /** The body of a create request; an absent or `null` field is None. */
  datatype JobDraft = JobDraft(
    title: Option<string>,
    description: Option<string>,
    category: Option<string>,
    location: Option<Location>,
    address: Option<string>,
    budget: Option<real>,
    duration: Option<string>,
    images: Option<seq<string>>,
    createdBy: Option<UserId>,
    userId: Option<UserId>)

  /** The draft carries every field the schema requires, in a form it accepts. */
  predicate DraftComplete(d: JobDraft)
  {
    && d.title.Some? && d.title.value != ""
    && d.description.Some? && d.description.value != ""
    && d.category.Some? && d.category.value != ""
    && d.budget.Some?
    && (d.location.Some? ==> LocationValid(d.location.value))
  }

  /** `createJob`: the creator is `createdBy`, falling back to `userId`; a
      missing creator is a 400, any other missing required field fails the
      schema validation on `save`. */
  function NewJob(id: JobId, d: JobDraft): (r: Result<Job>)
    ensures r == Err(CreatorRequired) <==> d.createdBy.None? && d.userId.None?
    ensures r.Ok? <==> (d.createdBy.Some? || d.userId.Some?) && DraftComplete(d)
    ensures r.Err? ==> r == Err(CreatorRequired) || r == Err(JobValidationFailed)
    ensures r.Ok? ==> Saveable(r.value) && r.value.id == id
    ensures r.Ok? ==> r.value.status == DefaultStatus && r.value.assignedTo.None? && r.value.proposals == []
    ensures r.Ok? && d.createdBy.Some? ==> r.value.createdBy == d.createdBy.value
    ensures r.Ok? && d.createdBy.None? ==> r.value.createdBy == d.userId.value
    ensures r.Ok? ==> && r.value.title == d.title.value && r.value.description == d.description.value
                      && r.value.category == d.category.value && r.value.budget == d.budget.value
                      && r.value.location == d.location && r.value.address == d.address
                      && r.value.duration == d.duration
    ensures r.Ok? && d.images.Some? ==> r.value.images == d.images.value
    ensures r.Ok? && d.images.None? ==> r.value.images == []
  {
    var creator := if d.createdBy.Some? then d.createdBy else d.userId;
    if creator.None? then Err(CreatorRequired)
    else if !DraftComplete(d) then Err(JobValidationFailed)
    else
      Ok(Job(id, d.title.value, d.description.value, d.category.value, d.location, d.address,
             d.budget.value, d.duration, DefaultStatus, creator.value, None, [],
             if d.images.Some? then d.images.value else []))
  }

  // ---------------------------------------------------------------- updateJob

  /** The nine fields an update request may carry. */
  datatype JobPatch = JobPatch(
    title: Option<string>,
    description: Option<string>,
    category: Option<string>,
    location: Option<Location>,
    address: Option<string>,
    budget: Option<real>,
    duration: Option<string>,
    status: Option<string>,
    images: Option<seq<string>>)

  /** JavaScript truthiness of a supplied string and a supplied number.
      Objects and arrays, even empty ones, are truthy whenever supplied. */
  predicate TruthyText(v: Option<string>) { v.Some? && v.value != "" }
  predicate TruthyNumber(v: Option<real>) { v.Some? && v.value != 0.0 }

  /** `supplied || current` for a required string field. */
  function OrText(supplied: Option<string>, current: string): string
  {
    if TruthyText(supplied) then supplied.value else current
  }

  /** `supplied || current` for an optional string field. */
  function OrOptText(supplied: Option<string>, current: Option<string>): Option<string>
  {
    if TruthyText(supplied) then supplied else current
  }

  /** A status the enum validator will accept, or no status at all. */
  predicate StatusAccepted(p: JobPatch)
  {
    !TruthyText(p.status) || ParseStatus(p.status.value).Some?
  }

  /** A location the enum validator will accept, or no location at all. */
  predicate LocationAccepted(p: JobPatch)
  {
    p.location.None? || LocationValid(p.location.value)
  }

  /** `updateJob` on a found job: every field takes the supplied value when
      it is truthy and keeps its old value otherwise; then `save` validates.
      The id, creator, assignee and proposals are never touched. */
  function ApplyPatch(job: Job, p: JobPatch): (r: Result<Job>)
    ensures Saveable(job) ==> (r.Ok? <==> StatusAccepted(p) && LocationAccepted(p))
    ensures r.Err? ==> r == Err(JobValidationFailed)
    ensures r.Ok? ==> Saveable(r.value)
    ensures r.Ok? ==> && r.value.id == job.id && r.value.createdBy == job.createdBy
                      && r.value.assignedTo == job.assignedTo && r.value.proposals == job.proposals
    ensures r.Ok? ==> && r.value.title == OrText(p.title, job.title)
                      && r.value.description == OrText(p.description, job.description)
                      && r.value.category == OrText(p.category, job.category)
                      && r.value.address == OrOptText(p.address, job.address)
                      && r.value.duration == OrOptText(p.duration, job.duration)
    ensures r.Ok? && TruthyNumber(p.budget) ==> r.value.budget == p.budget.value
    ensures r.Ok? && !TruthyNumber(p.budget) ==> r.value.budget == job.budget
    ensures r.Ok? && TruthyText(p.status) ==> StatusName(r.value.status) == p.status.value
    ensures r.Ok? && !TruthyText(p.status) ==> r.value.status == job.status
    ensures r.Ok? ==> r.value.location == (if p.location.Some? then p.location else job.location)
    ensures r.Ok? ==> r.value.images == (if p.images.Some? then p.images.value else job.images)
  {
    var status := if TruthyText(p.status) then ParseStatus(p.status.value) else Some(job.status);
    if status.None? then Err(JobValidationFailed)
    else
      var merged := job.(
        title := OrText(p.title, job.title),
        description := OrText(p.description, job.description),
        category := OrText(p.category, job.category),
        location := if p.location.Some? then p.location else job.location,
        address := OrOptText(p.address, job.address),
        budget := if TruthyNumber(p.budget) then p.budget.value else job.budget,
        duration := OrOptText(p.duration, job.duration),
        status := status.value,
        images := if p.images.Some? then p.images.value else job.images);
      if Saveable(merged) then Ok(merged) else Err(JobValidationFailed)
  }

  /** A patch every field of which is absent or falsy: no title, the empty
      string, a budget of 0, and so on. */
  predicate Falsy(p: JobPatch)
  {
    && !TruthyText(p.title) && !TruthyText(p.description) && !TruthyText(p.category)
    && p.location.None? && !TruthyText(p.address) && !TruthyNumber(p.budget)
    && !TruthyText(p.duration) && !TruthyText(p.status) && p.images.None?
  }

  /** A falsy patch, such as `{ budget: 0, title: "" }`, leaves a stored job
      exactly as it was. */
  lemma FalsyPatchIsNoOp(job: Job, p: JobPatch)
    requires Saveable(job) && Falsy(p)
    ensures ApplyPatch(job, p) == Ok(job)
  {
  }

  /** Applying the same update twice is the same as applying it once. */
  lemma PatchIdempotent(job: Job, p: JobPatch)
    requires ApplyPatch(job, p).Ok?
    ensures ApplyPatch(ApplyPatch(job, p).value, p) == ApplyPatch(job, p)
  {
    var once := ApplyPatch(job, p).value;
    if TruthyText(p.status) {
      StatusNameRoundTrip(once.status);
    }
  }

  /** The update checks no transition: a stored job in any status moves to
      any other status, `completed` included, by naming it. */
  lemma PatchSetsAnyStatus(job: Job, s: JobStatus)
    requires Saveable(job)
    ensures ApplyPatch(job, JobPatch(None, None, None, None, None, None, None, Some(StatusName(s)), None))
         == Ok(job.(status := s))
  {
    StatusNameRoundTrip(s);
  }

  // ------------------------------------------------------ proposals and assignment

  /** `job.proposals.id(pid)`: the first proposal with that id. */
  function FindProposal(ps: seq<Proposal>, pid: ProposalId): (r: Option<Proposal>)
    ensures r.Some? <==> exists i :: 0 <= i < |ps| && ps[i].id == pid
    ensures r.Some? ==> r.value in ps && r.value.id == pid
    ensures r.Some? ==> exists i :: 0 <= i < |ps| && ps[i] == r.value && NoIdBefore(ps, pid, i)
  {
    if ps == [] then None
    else if ps[0].id == pid then Some(ps[0])
    else
      var rest := FindProposal(ps[1..], pid);
      assert forall i :: 1 <= i < |ps| ==> ps[i] == ps[1..][i - 1];
      if rest.Some? then
        var i :| 0 <= i < |ps[1..]| && ps[1..][i] == rest.value && NoIdBefore(ps[1..], pid, i);
        assert ps[i + 1] == rest.value && NoIdBefore(ps, pid, i + 1);
        rest
      else rest
  }

  /** No proposal before index `i` has id `pid`. */
  predicate NoIdBefore(ps: seq<Proposal>, pid: ProposalId, i: int)
    requires 0 <= i <= |ps|
  {
    forall j :: 0 <= j < i ==> ps[j].id != pid
  }

  /** The duplicate check: some proposal on the list is from this worker. */
  function HasProposalFrom(ps: seq<Proposal>, w: WorkerId): (r: bool)
    ensures r <==> exists i :: 0 <= i < |ps| && ps[i].workerId == w
  {
    if ps == [] then false
    else if ps[0].workerId == w then true
    else
      var rest := HasProposalFrom(ps[1..], w);
      assert forall i :: 1 <= i < |ps| ==> ps[i] == ps[1..][i - 1];
      rest
  }

  /** The four checks `addProposal` makes before appending, in their order;
      None when the proposal may be appended. `profile` is the id of the
      worker profile `Worker.findOne({ userId })` found, if any. */
  function ProposalGuard(job: Option<Job>, userId: Option<UserId>, profile: Option<WorkerId>): (r: Option<Failure>)
    ensures r.None? <==> && job.Some? && userId.Some? && profile.Some?
                         && !HasProposalFrom(job.value.proposals, profile.value)
    ensures job.None? ==> r == Some(JobNotFound)
    ensures job.Some? && userId.None? ==> r == Some(UserIdRequired)
    ensures job.Some? && userId.Some? && profile.None? ==> r == Some(NotAWorker)
    ensures (&& job.Some? && userId.Some? && profile.Some?
             && HasProposalFrom(job.value.proposals, profile.value))
            ==> r == Some(AlreadyProposed)
  {
    if job.None? then Some(JobNotFound)
    else if userId.None? then Some(UserIdRequired)
    else if profile.None? then Some(NotAWorker)
    else if HasProposalFrom(job.value.proposals, profile.value) then Some(AlreadyProposed)
    else None
  }

  /** No worker holds two proposals on the same job. */
  predicate DistinctWorkers(ps: seq<Proposal>)
  {
    forall i, j :: 0 <= i < j < |ps| ==> ps[i].workerId != ps[j].workerId
  }

  /** Appending a proposal that passed the duplicate check keeps the workers
      distinct, and the same worker's next attempt fails that check. */
  lemma AppendPassedProposal(ps: seq<Proposal>, p: Proposal)
    requires DistinctWorkers(ps) && !HasProposalFrom(ps, p.workerId)
    ensures DistinctWorkers(ps + [p])
    ensures HasProposalFrom(ps + [p], p.workerId)
  {
    assert (ps + [p])[|ps|] == p;
  }

  /** Every field except the assignee and the status agrees. */
  predicate SameBesidesAssignment(a: Job, b: Job)
  {
    && a.id == b.id && a.title == b.title && a.description == b.description
    && a.category == b.category && a.location == b.location && a.address == b.address
    && a.budget == b.budget && a.duration == b.duration && a.createdBy == b.createdBy
    && a.proposals == b.proposals && a.images == b.images
  }

  /** The write `acceptProposal` and `assignJob` both perform, whatever the
      job's prior status and assignee. */
  function Assign(job: Job, w: WorkerId): (r: Job)
    ensures r.assignedTo == Some(w) && r.status == Assigned
    ensures SameBesidesAssignment(job, r)
  {
    job.(assignedTo := Some(w), status := Assigned)
  }

  /** Assigning twice to the same worker is assigning once; assigning to two
      workers in turn leaves the last one (last write wins). */
  lemma AssignLastWriteWins(job: Job, w1: WorkerId, w2: WorkerId)
    ensures Assign(Assign(job, w1), w1) == Assign(job, w1)
    ensures Assign(Assign(job, w1), w2) == Assign(job, w2)
  {
  }
}
