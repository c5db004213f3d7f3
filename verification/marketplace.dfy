/** The documents the handlers share (the jobs, worker profiles, reviews and
    notifications collections) and the request handlers of the job, review
    and notification controllers, as methods that update them in place.
    Each handler runs as one atomic step. */
module Marketplace {
  import opened Outcomes
  import opened JobModel
  import opened WorkerModel
  import opened ReviewModel
  import opened NotificationModel
  import opened JobRules
  import opened ReviewRules
  import opened NotificationRules

  const WorkerValidationFailed := Failure(Crash, "Worker validation failed")
  /** The status when `Notification.create` throws; a caller that catches
      the error may set another before rethrowing. */
  const NotificationValidationFailed := Failure(Crash, "Notification validation failed")

  /** A stored job: keyed by its own id, accepted by the schema, at most one
      proposal per worker, and every id it holds already handed out. */
  ghost predicate JobInStore(j: Job, k: Id, bound: Id)
  {
    && j.id == k && k < bound
    && Saveable(j)
    && DistinctWorkers(j.proposals)
    && (j.assignedTo.Some? ==> j.assignedTo.value < bound)
    && (forall i :: 0 <= i < |j.proposals| ==> j.proposals[i].workerId < bound)
  }

  ghost predicate JobsValid(jobs: map<Id, Job>, bound: Id)
  {
    forall k :: k in jobs ==> JobInStore(jobs[k], k, bound)
  }

  /** Worker profiles are keyed by their ids and carry the aggregate of the
      stored reviews. */
  ghost predicate WorkersValid(workers: map<Id, Worker>, reviews: seq<Review>, bound: Id)
  {
    && (forall k :: k in workers ==> workers[k].id == k && k < bound)
    && (forall k :: k in workers ==> Aggregated(workers[k], reviews))
    && OneProfilePerUser(workers)
  }

  ghost predicate ReviewsValid(reviews: seq<Review>, bound: Id)
  {
    && OneReviewPerJob(reviews)
    && (forall i :: 0 <= i < |reviews| ==> reviews[i].toWorker < bound)
  }

  ghost predicate NotificationsValid(ns: seq<Notification>, bound: Id)
  {
    && (forall i :: 0 <= i < |ns| ==> ns[i].id < bound)
    && (forall i, j :: 0 <= i < j < |ns| ==> ns[i].id != ns[j].id)
  }

  /** Handing out one more id keeps every stored job well-formed. */
  lemma JobsValidGrow(jobs: map<Id, Job>, bound: Id)
    requires JobsValid(jobs, bound)
    ensures JobsValid(jobs, bound + 1)
  {
  }

  /** Storing a review of a job that has none, against an id already handed
      out, keeps the reviews well-formed. */
  lemma AppendReviewKeepsReviewsValid(reviews: seq<Review>, x: Review, bound: Id)
    requires ReviewsValid(reviews, bound) && !Reviewed(reviews, x.jobId) && x.toWorker < bound
    ensures ReviewsValid(reviews + [x], bound + 1)
  {
    AppendUnreviewed(reviews, x);
  }

  lemma NotificationsValidGrow(ns: seq<Notification>, bound: Id)
    requires NotificationsValid(ns, bound)
    ensures NotificationsValid(ns, bound + 1)
  {
  }

  /** Storing the job with one more proposal, from a worker that passed the
      duplicate check, keeps the jobs well-formed. */
  lemma AppendProposalKeepsJobsValid(jobs: map<Id, Job>, jobId: Id, p: Proposal, bound: Id)
    requires JobsValid(jobs, bound) && jobId in jobs
    requires !HasProposalFrom(jobs[jobId].proposals, p.workerId) && p.workerId < bound
    ensures JobsValid(jobs[jobId := jobs[jobId].(proposals := jobs[jobId].proposals + [p])], bound + 1)
  {
    var job := jobs[jobId];
    AppendPassedProposal(job.proposals, p);
    var job' := job.(proposals := job.proposals + [p]);
    assert JobInStore(job', jobId, bound + 1);
  }

  /** An aggregate stays correct when the worker's own reviews are the same. */
  lemma AggregateUnaffected(w: Worker, before: seq<Review>, after: seq<Review>)
    requires Aggregated(w, before)
    requires ReviewsFor(after, w.id) == ReviewsFor(before, w.id)
    ensures Aggregated(w, after)
  {
  }

  /** Storing review `x` and recomputing its worker's aggregate keeps every
      profile in line with the reviews, whether or not that worker exists. */
  lemma StoreReviewKeepsWorkersValid(workers: map<Id, Worker>, reviews: seq<Review>, x: Review, bound: Id)
    requires WorkersValid(workers, reviews, bound)
    ensures x.toWorker in workers ==> |ReviewsFor(reviews + [x], workers[x.toWorker].id)| >= 1
    ensures WorkersValid(RecordReviewAggregate(workers, reviews + [x], x.toWorker), reviews + [x], bound + 1)
  {
    var w := x.toWorker;
    SavedReviewIsCounted(reviews, x);
    var ws := RecordReviewAggregate(workers, reviews + [x], w);
    forall k | k in ws
      ensures ws[k].id == k && k < bound + 1 && ws[k].userId == workers[k].userId
      ensures Aggregated(ws[k], reviews + [x])
    {
      if k != w {
        ReviewsForAppend(reviews, x, k);
        AggregateUnaffected(workers[k], reviews, reviews + [x]);
      }
    }
    assert OneProfilePerUser(ws);
  }

  class Store {
    var jobs: map<Id, Job>
    var workers: map<Id, Worker>
    /** The reviews collection, in insertion order. */
    var reviews: seq<Review>
    /** The notifications collection, in insertion order. */
    var notifications: seq<Notification>
    /** The next fresh ObjectId. */
    var nextId: Id

    /** The store invariant. Beside well-formedness it holds the two promises
        of the review aggregator: one review per job, and every worker's
        `rating` and `totalJobs` agree with the stored reviews. */
    ghost predicate Valid()
      reads this
    {
      && JobsValid(jobs, nextId)
      && WorkersValid(workers, reviews, nextId)
      && ReviewsValid(reviews, nextId)
      && NotificationsValid(notifications, nextId)
    }

    constructor ()
      ensures Valid()
      ensures jobs == map[] && workers == map[] && reviews == [] && notifications == []
    {
      jobs, workers, reviews, notifications, nextId := map[], map[], [], [], 0;
    }

    // ------------------------------------------------------------ worker profiles

    /** `Worker.create({ userId, jobname })` at the end of worker
        registration, which always creates a fresh user first. */
    method RegisterWorker(userId: Id, jobname: string) returns (r: Result<Worker>)
      requires Valid() && !HasProfile(workers, userId)
      modifies this
      ensures Valid()
      ensures r.Ok? <==> jobname != ""
      ensures r.Err? ==> r == Err(WorkerValidationFailed) && unchanged(this)
      ensures r.Ok? ==> && Some(r.value) == NewWorker(old(nextId), userId, jobname)
                        && workers == old(workers)[old(nextId) := r.value]
                        && nextId == old(nextId) + 1
      ensures jobs == old(jobs) && reviews == old(reviews) && notifications == old(notifications)
    {
      var w := NewWorker(nextId, userId, jobname);
      if w.None? {
        return Err(WorkerValidationFailed);
      }
      NoReviewsFor(reviews, nextId);
      JobsValidGrow(jobs, nextId);
      workers := workers[nextId := w.value];
      nextId := nextId + 1;
      r := Ok(w.value);
    }

    // ------------------------------------------------------------ jobs

    /** `createJob`. */
    method CreateJob(draft: JobDraft) returns (r: Result<Job>)
      requires Valid()
      modifies this
      ensures Valid()
      ensures r == NewJob(old(nextId), draft)
      ensures r.Ok? ==> jobs == old(jobs)[old(nextId) := r.value] && nextId == old(nextId) + 1
      ensures r.Err? ==> unchanged(this)
      ensures workers == old(workers) && reviews == old(reviews) && notifications == old(notifications)
    {
      r := NewJob(nextId, draft);
      if r.Ok? {
        jobs := jobs[nextId := r.value];
        nextId := nextId + 1;
      }
    }

    /** `getJobById`, without the `populate` projections. */
    method GetJobById(id: Id) returns (r: Result<Job>)
      ensures r.Ok? <==> id in jobs
      ensures r.Ok? ==> r.value == jobs[id]
      ensures r.Err? ==> r == Err(JobNotFound)
    {
      if id !in jobs {
        return Err(JobNotFound);
      }
      r := Ok(jobs[id]);
    }

    /** `updateJob`: 404 for a missing job, otherwise the truthy-field-wins
        merge of ApplyPatch, written back when the schema accepts it. */
    method UpdateJob(id: Id, patch: JobPatch) returns (r: Result<Job>)
      requires Valid()
      modifies this
      ensures Valid()
      ensures id !in old(jobs) ==> r == Err(JobNotFound)
      ensures id in old(jobs) ==> r == ApplyPatch(old(jobs)[id], patch)
      ensures r.Ok? ==> jobs == old(jobs)[id := r.value]
      ensures r.Err? ==> jobs == old(jobs)
      ensures workers == old(workers) && reviews == old(reviews) && notifications == old(notifications)
      ensures nextId == old(nextId)
    {
      if id !in jobs {
        return Err(JobNotFound);
      }
      r := ApplyPatch(jobs[id], patch);
      if r.Ok? {
        jobs := jobs[id := r.value];
      }
    }

    /** `deleteJob`: the job is gone; its review, if any, stays. */
    method DeleteJob(id: Id) returns (r: Result<()>)
      requires Valid()
      modifies this
      ensures Valid()
      ensures r.Ok? <==> id in old(jobs)
      ensures r.Err? ==> r == Err(JobNotFound)
      ensures jobs == old(jobs) - {id} && id !in jobs
      ensures workers == old(workers) && reviews == old(reviews) && notifications == old(notifications)
      ensures nextId == old(nextId)
    {
      if id !in jobs {
        return Err(JobNotFound);
      }
      jobs := jobs - {id};
      r := Ok(());
    }

    // ------------------------------------------------------------ proposals

    /** `addProposal` by the user `userId`: the guard chain of
        ProposalGuard, then one pending proposal from the user's worker
        profile is appended. */
    method AddProposal(jobId: Id, userId: Option<Id>, bidAmount: Option<real>, message: Option<string>)
      returns (r: Result<()>)
      requires Valid()
      modifies this
      ensures Valid()
      ensures var refusal := ProposalGuard(FindJob(old(jobs), jobId), userId, ProfileLookup(workers, userId));
              && (refusal.Some? ==> r == Err(refusal.value))
              && (refusal.None? <==> r.Ok?)
      ensures r.Err? ==> unchanged(this)
      ensures r.Ok? ==>
                var job := old(jobs)[jobId];
                var p := NewProposal(old(nextId), ProfileLookup(workers, userId).value, bidAmount, message);
                && jobs == old(jobs)[jobId := job.(proposals := job.proposals + [p])]
                && nextId == old(nextId) + 1
      ensures workers == old(workers) && reviews == old(reviews) && notifications == old(notifications)
    {
      var profile: Option<Id> := None;
      if userId.Some? && HasProfile(workers, userId.value) {
        var w :| w in workers && workers[w].userId == userId.value;
        ProfileOfUnique(workers, userId.value, w);
        profile := Some(w);
      }
      var refusal := ProposalGuard(FindJob(jobs, jobId), userId, profile);
      if refusal.Some? {
        return Err(refusal.value);
      }
      var job := jobs[jobId];
      var p := NewProposal(nextId, profile.value, bidAmount, message);
      AppendProposalKeepsJobsValid(jobs, jobId, p, nextId);
      jobs := jobs[jobId := job.(proposals := job.proposals + [p])];
      nextId := nextId + 1;
      r := Ok(());
    }

    /** `acceptProposal`: assigns the job to the proposal's worker whatever
        its status; the proposals themselves are left as they are. */
    method AcceptProposal(jobId: Id, proposalId: Id) returns (r: Result<()>)
      requires Valid()
      modifies this
      ensures Valid()
      ensures jobId !in old(jobs) ==> r == Err(JobNotFound)
      ensures jobId in old(jobs) && FindProposal(old(jobs)[jobId].proposals, proposalId).None?
              ==> r == Err(ProposalNotFound)
      ensures r.Ok? <==> jobId in old(jobs) && FindProposal(old(jobs)[jobId].proposals, proposalId).Some?
      ensures r.Ok? ==>
                var job := old(jobs)[jobId];
                jobs == old(jobs)[jobId := Assign(job, FindProposal(job.proposals, proposalId).value.workerId)]
      ensures r.Err? ==> jobs == old(jobs)
      ensures workers == old(workers) && reviews == old(reviews) && notifications == old(notifications)
      ensures nextId == old(nextId)
    {
      if jobId !in jobs {
        return Err(JobNotFound);
      }
      var job := jobs[jobId];
      var proposal := FindProposal(job.proposals, proposalId);
      if proposal.None? {
        return Err(ProposalNotFound);
      }
      ghost var i :| 0 <= i < |job.proposals| && job.proposals[i] == proposal.value;
      jobs := jobs[jobId := Assign(job, proposal.value.workerId)];
      r := Ok(());
    }

    /** `assignJob`: assigns the job to an existing worker whatever its
        status; a second identical request changes nothing. */
    method AssignJob(jobId: Id, workerId: Option<Id>) returns (r: Result<()>)
      requires Valid()
      modifies this
      ensures Valid()
      ensures jobId !in old(jobs) ==> r == Err(JobNotFound)
      ensures jobId in old(jobs) && (workerId.None? || workerId.value !in workers) ==> r == Err(WorkerNotFound)
      ensures r.Ok? <==> jobId in old(jobs) && workerId.Some? && workerId.value in workers
      ensures r.Ok? ==> jobs == old(jobs)[jobId := Assign(old(jobs)[jobId], workerId.value)]
      ensures r.Ok? && old(jobs)[jobId] == Assign(old(jobs)[jobId], workerId.value) ==> jobs == old(jobs)
      ensures r.Err? ==> jobs == old(jobs)
      ensures workers == old(workers) && reviews == old(reviews) && notifications == old(notifications)
      ensures nextId == old(nextId)
    {
      if jobId !in jobs {
        return Err(JobNotFound);
      }
      if workerId.None? || workerId.value !in workers {
        return Err(WorkerNotFound);
      }
      var worker := workers[workerId.value];
      jobs := jobs[jobId := Assign(jobs[jobId], worker.id)];
      r := Ok(());
    }

    // ------------------------------------------------------------ reviews

    /** `createJobReview` by `requester` (`req.user._id`): the guard chain of
        ReviewGuard, then the review is stored against the job's assignee
        and, when that worker exists, its aggregate is recomputed from all of
        its reviews. */
    method CreateJobReview(jobId: Id, requester: Option<Id>, rating: real, comment: Option<string>)
      returns (r: Result<()>)
      requires Valid()
      modifies this
      ensures Valid()
      ensures var refusal := ReviewGuard(FindJob(old(jobs), jobId), requester, old(reviews));
              && (refusal.Some? ==> r == Err(refusal.value))
              && (refusal.None? <==> r.Ok?)
      ensures r.Err? ==> unchanged(this)
      ensures r.Ok? ==>
                var job := old(jobs)[jobId];
                && reviews == old(reviews) + [Review(old(nextId), jobId, requester.value, job.assignedTo.value, rating, comment)]
                && nextId == old(nextId) + 1
                && jobs == old(jobs) && notifications == old(notifications)
      ensures r.Ok? ==> workers == RecordReviewAggregate(old(workers), reviews, old(jobs)[jobId].assignedTo.value)
    {
      var job := FindJob(jobs, jobId);
      var refusal := ReviewGuard(job, requester, reviews);
      if refusal.Some? {
        return Err(refusal.value);
      }
      var review := Review(nextId, jobId, requester.value, job.value.assignedTo.value, rating, comment);
      AppendReviewKeepsReviewsValid(reviews, review, nextId);
      JobsValidGrow(jobs, nextId);
      NotificationsValidGrow(notifications, nextId);
      StoreReviewKeepsWorkersValid(workers, reviews, review, nextId);
      workers := RecordReviewAggregate(workers, reviews + [review], review.toWorker);
      reviews := reviews + [review];
      nextId := nextId + 1;
      r := Ok(());
    }

    /** `getWorkerReviews`: never a 404, the query always yields a list. */
    method GetWorkerReviews(workerId: Id) returns (r: Result<seq<Review>>)
      ensures r.Ok?
      ensures r.value == ReviewsFor(reviews, workerId)
      ensures forall x :: x in r.value <==> x in reviews && x.toWorker == workerId
    {
      r := Ok(ReviewsFor(reviews, workerId));
    }

    // ------------------------------------------------------------ notifications

    /** `Notification.create(...)`, stamped with the clock reading `now`. */
    method CreateNotification(userId: Id, title: string, message: string, kind: NotificationType,
                              metadata: Option<map<string, string>>, now: nat)
      returns (r: Result<Notification>)
      requires Valid()
      modifies this
      ensures Valid()
      ensures r.Ok? <==> title != "" && message != ""
      ensures r.Err? ==> r == Err(NotificationValidationFailed) && unchanged(this)
      ensures r.Ok? ==> && Some(r.value) == NewNotification(old(nextId), userId, title, message, kind, metadata, now)
                        && notifications == old(notifications) + [r.value]
                        && nextId == old(nextId) + 1
      ensures jobs == old(jobs) && workers == old(workers) && reviews == old(reviews)
    {
      var n := NewNotification(nextId, userId, title, message, kind, metadata, now);
      if n.None? {
        return Err(NotificationValidationFailed);
      }
      notifications := notifications + [n.value];
      nextId := nextId + 1;
      r := Ok(n.value);
    }

    /** `getNotifications` for `requester` (`req.user._id`). */
    method GetNotifications(requester: Option<Id>) returns (r: Result<seq<Notification>>)
      ensures requester.None? ==> r == Err(NoSessionUser)
      ensures requester.Some? ==> r == Ok(Inbox(notifications, requester.value))
      ensures r.Ok? ==> NewestFirst(r.value)
      ensures r.Ok? ==> forall n :: n in r.value <==> n in notifications && n.userId == requester.value
      ensures r.Ok? ==> forall n :: multiset(r.value)[n]
                                  == (if n.userId == requester.value then multiset(notifications)[n] else 0)
      ensures r.Ok? ==> forall t :: StampedAt(r.value, t) == StampedAt(ForUser(notifications, requester.value), t)
    {
      if requester.None? {
        return Err(NoSessionUser);
      }
      InboxIsUsersNewestFirst(notifications, requester.value);
      r := Ok(Inbox(notifications, requester.value));
    }

    /** `markAsRead` by `requester`: 404 for a missing notification, 401 for
        someone else's; otherwise only `read` changes, to true. */
    method MarkAsRead(id: Id, requester: Option<Id>) returns (r: Result<Notification>)
      requires Valid()
      modifies this
      ensures Valid()
      ensures var at := IndexOfNotification(old(notifications), id);
              && (at.None? ==> r == Err(NotificationNotFound))
              && (at.Some? && requester.None? ==> r == Err(NoSessionUser))
              && (at.Some? && requester.Some? && requester.value != old(notifications)[at.value].userId
                  ==> r == Err(NotOwner))
              && (r.Ok? <==> at.Some? && requester == Some(old(notifications)[at.value].userId))
              && (r.Ok? ==> && r.value == old(notifications)[at.value].(read := true)
                            && notifications == old(notifications)[at.value := r.value])
              && (r.Ok? && old(notifications)[at.value].read ==> notifications == old(notifications))
      ensures r.Err? ==> notifications == old(notifications)
      ensures jobs == old(jobs) && workers == old(workers) && reviews == old(reviews) && nextId == old(nextId)
    {
      var at := IndexOfNotification(notifications, id);
      if at.None? {
        return Err(NotificationNotFound);
      }
      var n := notifications[at.value];
      if requester.None? {
        return Err(NoSessionUser);
      }
      if n.userId != requester.value {
        return Err(NotOwner);
      }
      var marked := n.(read := true);
      notifications := notifications[at.value := marked];
      r := Ok(marked);
    }
  }
}
