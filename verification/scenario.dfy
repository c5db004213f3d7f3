/** A client of the handlers: one job taken from creation through a
    proposal, its acceptance, completion and a review, using nothing but
    the handlers' contracts. */
module Scenario {
  import opened Outcomes
  import opened JobModel
  import opened WorkerModel
  import opened JobRules
  import opened ReviewRules
  import opened Marketplace

  /** User 1 posts a job with budget 100; user 7, a plumber, bids 90 and
      user 1 accepts the bid. */
  method PostAndAccept() returns (store: Store, jobId: Id, plumber: Id)
    ensures fresh(store) && store.Valid()
    ensures jobId in store.jobs && plumber in store.workers
    ensures store.jobs[jobId].createdBy == 1 && store.jobs[jobId].status == Assigned
    ensures store.jobs[jobId].assignedTo == Some(plumber) && store.workers[plumber].id == plumber
    ensures store.reviews == []
  {
    store := new Store();
    var registered := store.RegisterWorker(7, "plumber");
    plumber := registered.value.id;

    var draft := JobDraft(Some("Fix sink"), Some("The kitchen sink leaks"), Some("plumbing"),
                          None, None, Some(100.0), None, None, Some(1), None);
    var created := store.CreateJob(draft);
    jobId := created.value.id;
    assert store.jobs[jobId].status == Pending && store.jobs[jobId].proposals == [];

    ProfileOfUnique(store.workers, 7, plumber);
    var proposalId := store.nextId;
    var proposed := store.AddProposal(jobId, Some(7), Some(90.0), Some("Tomorrow morning"));
    assert proposed.Ok?;
    assert store.jobs[jobId].proposals[0].id == proposalId;

    var accepted := store.AcceptProposal(jobId, proposalId);
    assert accepted.Ok?;
  }

  /** User 1 then marks the job completed. */
  method PostAndComplete() returns (store: Store, jobId: Id, plumber: Id)
    ensures fresh(store) && store.Valid()
    ensures jobId in store.jobs && plumber in store.workers
    ensures store.jobs[jobId].createdBy == 1 && store.jobs[jobId].status == Completed
    ensures store.jobs[jobId].assignedTo == Some(plumber) && store.workers[plumber].id == plumber
    ensures store.reviews == []
  {
    store, jobId, plumber := PostAndAccept();
    var completion := JobPatch(None, None, None, None, None, None, None, Some("completed"), None);
    var completed := store.UpdateJob(jobId, completion);
    assert completed.Ok?;
  }

  /** User 1 rates the work 4: the plumber's profile carries rating 4 over
      one review. */
  method PostAndReview() returns (store: Store, jobId: Id, plumber: Id)
    ensures fresh(store) && store.Valid()
    ensures jobId in store.jobs && plumber in store.workers
    ensures store.jobs[jobId].createdBy == 1 && store.jobs[jobId].status == Completed
    ensures store.jobs[jobId].assignedTo == Some(plumber)
    ensures store.workers[plumber].totalJobs == 1 && store.workers[plumber].rating == 4.0
    ensures Reviewed(store.reviews, jobId)
  {
    store, jobId, plumber := PostAndComplete();
    var reviewed := store.CreateJobReview(jobId, Some(1), 4.0, None);
    assert reviewed.Ok?;
    var review := store.reviews[0];
    assert store.reviews == [] + [review] && review.toWorker == plumber && review.jobId == jobId;
    ReviewsForAppend([], review, plumber);
  }

  /** A second review of the same job is refused and changes nothing. */
  method JobLifecycle() returns (store: Store, plumber: Id, second: Result<()>)
    ensures store.Valid() && plumber in store.workers
    ensures store.workers[plumber].totalJobs == 1 && store.workers[plumber].rating == 4.0
    ensures second == Err(AlreadyReviewed)
  {
    var jobId;
    store, jobId, plumber := PostAndReview();
    second := store.CreateJobReview(jobId, Some(1), 5.0, None);
  }
}
