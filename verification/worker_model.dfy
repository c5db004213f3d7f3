/** The Worker profile (src/models/Worker.js), reduced to the fields the job
    and review handlers read or write. */
module WorkerModel {
  import opened Outcomes


  /** The three values the `verificationStatus` enum admits. */
  datatype VerificationStatus = VerificationPending | Verified | VerificationRejected

  /** A worker profile. `rating` and `totalJobs` are the review aggregate:
      the mean rating and the number of reviews (not of jobs performed). */
  datatype Worker = Worker(
    id: WorkerId,
    userId: UserId,
    jobname: string,
    availability: bool,
    rating: real,
    totalJobs: nat,
    verificationStatus: VerificationStatus)

  /** A new worker document: `userId` and `jobname` are required, every
      other modelled field takes its schema default. */
  function NewWorker(id: WorkerId, userId: UserId, jobname: string): (r: Option<Worker>)
    ensures r.Some? <==> jobname != ""
    ensures r.Some? ==> r.value.id == id && r.value.userId == userId && r.value.jobname == jobname
    ensures r.Some? ==> r.value.rating == 0.0 && r.value.totalJobs == 0
    ensures r.Some? ==> r.value.availability && r.value.verificationStatus == VerificationPending
  {
    if jobname == "" then None
    else Some(Worker(id, userId, jobname, true, 0.0, 0, VerificationPending))
  }

  /** `Worker.findOne({ userId })` finds something. */
  predicate HasProfile(workers: map<WorkerId, Worker>, u: UserId)
  {
    exists w :: w in workers && workers[w].userId == u
  }

  /** Each user owns at most one worker profile: registration always creates
      a fresh user before creating its profile. */
  ghost predicate OneProfilePerUser(workers: map<WorkerId, Worker>)
  {
    forall a, b :: a in workers && b in workers && workers[a].userId == workers[b].userId ==> a == b
  }

  /** The profile `Worker.findOne({ userId })` returns. */
  ghost function ProfileOf(workers: map<WorkerId, Worker>, u: UserId): (w: WorkerId)
    requires HasProfile(workers, u)
    ensures w in workers && workers[w].userId == u
  {
    var w :| w in workers && workers[w].userId == u; w
  }

  /** `Worker.findOne({ userId })` for a user id that may be missing. */
  ghost function ProfileLookup(workers: map<WorkerId, Worker>, u: Option<UserId>): (r: Option<WorkerId>)
    ensures r.Some? <==> u.Some? && HasProfile(workers, u.value)
    ensures r.Some? ==> r.value in workers && workers[r.value].userId == u.value
  {
    if u.Some? && HasProfile(workers, u.value) then Some(ProfileOf(workers, u.value)) else None
  }

  /** With one profile per user the lookup has exactly one answer. */
  lemma ProfileOfUnique(workers: map<WorkerId, Worker>, u: UserId, w: WorkerId)
    requires OneProfilePerUser(workers)
    requires w in workers && workers[w].userId == u
    ensures HasProfile(workers, u) && ProfileOf(workers, u) == w
  {
  }
}
