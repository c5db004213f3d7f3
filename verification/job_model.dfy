/** The Job document and the Proposal records embedded in it
    (src/models/Job.js): enumerations, defaults and what `save` accepts. */
module JobModel {
  import opened Outcomes

  type JobId = Id
  type ProposalId = Id

  /** The five values the `status` enum admits. */
  datatype JobStatus = Pending | Assigned | InProgress | Completed | Cancelled

  /** The default `status` of a new job. */
  const DefaultStatus: JobStatus := Pending

  /** The string stored for each status. */
  function StatusName(s: JobStatus): string
  {
    match s
    case Pending => "pending"
    case Assigned => "assigned"
    case InProgress => "in-progress"
    case Completed => "completed"
    case Cancelled => "cancelled"
  }

  /** The enum validator: which status a string stands for, if any. */
  function ParseStatus(name: string): (r: Option<JobStatus>)
    ensures r.Some? ==> StatusName(r.value) == name
    ensures r.None? <==> forall s: JobStatus :: StatusName(s) != name
  {
    if name == "pending" then Some(Pending)
    else if name == "assigned" then Some(Assigned)
    else if name == "in-progress" then Some(InProgress)
    else if name == "completed" then Some(Completed)
    else if name == "cancelled" then Some(Cancelled)
    else None
  }

  /** Every status survives being written out and validated back. */
  lemma StatusNameRoundTrip(s: JobStatus)
    ensures ParseStatus(StatusName(s)) == Some(s)
  {
  }

  /** The three values a proposal's own `status` enum admits; acceptance of a
      proposal never changes it. */
  datatype ProposalStatus = ProposalPending | ProposalAccepted | ProposalRejected

  /** A worker's bid, embedded in the job's `proposals` array. */
  datatype Proposal = Proposal(
    id: ProposalId,
    workerId: WorkerId,
    bidAmount: Option<real>,
    message: Option<string>,
    status: ProposalStatus)

  /** The proposal pushed by `addProposal`: the schema fills in a fresh
      sub-document id and the default status. */
  function NewProposal(id: ProposalId, workerId: WorkerId, bidAmount: Option<real>, message: Option<string>): (p: Proposal)
    ensures p.status == ProposalPending
    ensures p.id == id && p.workerId == workerId
    ensures p.bidAmount == bidAmount && p.message == message
  {
    Proposal(id, workerId, bidAmount, message, ProposalPending)
  }

  /** The optional GeoJSON `location`; `coordinates` is [longitude, latitude]. */
  datatype Location = Location(pointType: Option<string>, coordinates: seq<real>)

  /** The only value the `location.type` enum admits. */
  const PointType := "Point"

  predicate LocationValid(l: Location)
  {
    l.pointType.None? || l.pointType == Some(PointType)
  }

  /** A job document. Required fields are plain values here; optional ones
      are `Option`s; `images` is an array of strings (default empty). */
  datatype Job = Job(
    id: JobId,
    title: string,
    description: string,
    category: string,
    location: Option<Location>,
    address: Option<string>,
    budget: real,
    duration: Option<string>,
    status: JobStatus,
    createdBy: UserId,
    assignedTo: Option<WorkerId>,
    proposals: seq<Proposal>,
    images: seq<string>)

  /** What the schema validator accepts on `save`: the required strings are
      non-empty (Mongoose's `required` rejects the empty string) and a
      location, when present, has type "Point". The required `budget`,
      `createdBy` and the `status` enum are enforced by the field types. */
  predicate Saveable(j: Job)
  {
    && j.title != ""
    && j.description != ""
    && j.category != ""
    && (j.location.Some? ==> LocationValid(j.location.value))
  }
}
