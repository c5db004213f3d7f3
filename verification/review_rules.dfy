/** The value-level rules of src/controllers/reviewController.js: the guard
    chain a review request passes, the per-worker review query, and the
    rating aggregate recomputed from every stored review. */
module ReviewRules {
  import opened Outcomes
  import opened JobModel
  import opened WorkerModel
  import opened ReviewModel
  import JobRules

  const NotJobCreator := Failure(Unauthorized, "You are not authorized to review this job.")
  const NotAssigned := Failure(BadRequest, "This job has not been assigned to a worker yet.")
  const NotCompleted := Failure(BadRequest, "You can only review completed jobs.")
  const AlreadyReviewed := Failure(BadRequest, "This job has already been reviewed.")

  /** `Review.findOne({ jobId })` finds something. */
  predicate Reviewed(rs: seq<Review>, j: JobId)
  {
    exists i :: 0 <= i < |rs| && rs[i].jobId == j
  }

  /** At most one stored review per job. */
  predicate OneReviewPerJob(rs: seq<Review>)
  {
    forall i, j :: 0 <= i < j < |rs| ==> rs[i].jobId != rs[j].jobId
  }

  /** The five checks `createJobReview` makes before storing anything, in
      their order; None when the review may be stored. `requester` is
      `req.user._id`, None when no user is attached to the request. */
  function ReviewGuard(job: Option<Job>, requester: Option<UserId>, rs: seq<Review>): (r: Option<Failure>)
    ensures r.None? <==> && job.Some? && requester == Some(job.value.createdBy)
                         && job.value.assignedTo.Some? && job.value.status == Completed
                         && !Reviewed(rs, job.value.id)
    ensures job.None? ==> r == Some(JobRules.JobNotFound)
    ensures job.Some? && requester.None? ==> r == Some(NoSessionUser)
    ensures job.Some? && requester.Some? && requester.value != job.value.createdBy ==> r == Some(NotJobCreator)
    ensures job.Some? && requester == Some(job.value.createdBy) && job.value.assignedTo.None?
            ==> r == Some(NotAssigned)
    ensures (&& job.Some? && requester == Some(job.value.createdBy) && job.value.assignedTo.Some?
             && job.value.status != Completed)
            ==> r == Some(NotCompleted)
    ensures (&& job.Some? && requester == Some(job.value.createdBy) && job.value.assignedTo.Some?
             && job.value.status == Completed && Reviewed(rs, job.value.id))
            ==> r == Some(AlreadyReviewed)
  {
    if job.None? then Some(JobRules.JobNotFound)
    else if requester.None? then Some(NoSessionUser)
    else if requester.value != job.value.createdBy then Some(NotJobCreator)
    else if job.value.assignedTo.None? then Some(NotAssigned)
    else if job.value.status != Completed then Some(NotCompleted)
    else if Reviewed(rs, job.value.id) then Some(AlreadyReviewed)
    else None
  }

  /** Appending a review of a job that has none keeps one review per job;
      a second review of that job is then refused. */
  lemma AppendUnreviewed(rs: seq<Review>, x: Review)
    requires OneReviewPerJob(rs) && !Reviewed(rs, x.jobId)
    ensures OneReviewPerJob(rs + [x])
    ensures Reviewed(rs + [x], x.jobId)
  {
    assert (rs + [x])[|rs|] == x;
  }

  /** `Review.find({ toWorker: w })`: the worker's reviews in stored order. */
  function ReviewsFor(rs: seq<Review>, w: WorkerId): (r: seq<Review>)
    ensures forall x :: x in r <==> x in rs && x.toWorker == w
    ensures |r| <= |rs|
  {
    if rs == [] then []
    else (if rs[0].toWorker == w then [rs[0]] else []) + ReviewsFor(rs[1..], w)
  }

  /** The query over a store with one more review: that review is added at
      the end of its own worker's list and no other list changes. */
  lemma {:induction false} ReviewsForAppend(rs: seq<Review>, x: Review, w: WorkerId)
    ensures ReviewsFor(rs + [x], w) == ReviewsFor(rs, w) + (if x.toWorker == w then [x] else [])
  {
    var tail := if x.toWorker == w then [x] else [];
    if rs == [] {
      assert [x][1..] == [];
      assert ReviewsFor([x], w) == tail + ReviewsFor([], w);
    } else {
      var head := if rs[0].toWorker == w then [rs[0]] else [];
      assert (rs + [x])[0] == rs[0];
      assert (rs + [x])[1..] == rs[1..] + [x];
      ReviewsForAppend(rs[1..], x, w);
      assert ReviewsFor(rs + [x], w) == head + (ReviewsFor(rs[1..], w) + tail);
      assert ReviewsFor(rs, w) == head + ReviewsFor(rs[1..], w);
      assert head + (ReviewsFor(rs[1..], w) + tail) == (head + ReviewsFor(rs[1..], w)) + tail;
    }
  }

  /** A worker none of whose reviews is stored has an empty list. */
  lemma {:induction false} NoReviewsFor(rs: seq<Review>, w: WorkerId)
    requires forall i :: 0 <= i < |rs| ==> rs[i].toWorker != w
    ensures ReviewsFor(rs, w) == []
  {
    if rs != [] {
      NoReviewsFor(rs[1..], w);
    }
  }

  /** The divisor of the recomputed mean is at least one: the review just
      stored is among the reviews of its worker. */
  lemma SavedReviewIsCounted(rs: seq<Review>, x: Review)
    ensures |ReviewsFor(rs + [x], x.toWorker)| == |ReviewsFor(rs, x.toWorker)| + 1 >= 1
  {
    ReviewsForAppend(rs, x, x.toWorker);
  }

  /** `reviews.reduce((acc, item) => item.rating + acc, 0)`. */
  function SumRatings(rs: seq<Review>): real
  {
    if rs == [] then 0.0 else rs[|rs| - 1].rating + SumRatings(rs[..|rs| - 1])
  }

  /** The aggregate a worker with these reviews should carry: their mean
      rating, and the schema default 0 while there are none. */
  function AverageRating(rs: seq<Review>): real
  {
    if |rs| == 0 then 0.0 else SumRatings(rs) / (|rs| as real)
  }

  /** The worker's stored aggregate matches the stored reviews: `totalJobs`
      counts them and `rating` is their mean. */
  predicate Aggregated(w: Worker, rs: seq<Review>)
  {
    var mine := ReviewsFor(rs, w.id);
    w.totalJobs == |mine| && w.rating == AverageRating(mine)
  }

  /** The write `createJobReview` makes to the reviewed worker: the mean of
      all its reviews and their count, nothing else. */
  function Rerate(w: Worker, rs: seq<Review>): (r: Worker)
    requires |ReviewsFor(rs, w.id)| >= 1
    ensures Aggregated(r, rs)
    ensures r.totalJobs >= 1
    ensures && r.id == w.id && r.userId == w.userId && r.jobname == w.jobname
            && r.availability == w.availability && r.verificationStatus == w.verificationStatus
  {
    var mine := ReviewsFor(rs, w.id);
    w.(rating := SumRatings(mine) / (|mine| as real), totalJobs := |mine|)
  }

  /** The worker profiles after a review of worker `w` is stored: `w`'s
      aggregate is recomputed when `w` has a profile; nothing else changes,
      and a missing profile is not an error. */
  function RecordReviewAggregate(workers: map<WorkerId, Worker>, rs: seq<Review>, w: WorkerId)
    : (r: map<WorkerId, Worker>)
    requires w in workers ==> |ReviewsFor(rs, workers[w].id)| >= 1
    ensures r.Keys == workers.Keys
    ensures forall k :: k in r && k != w ==> r[k] == workers[k]
    ensures w in r ==> Aggregated(r[w], rs) && r[w].totalJobs >= 1
    ensures w in r ==> && r[w].id == workers[w].id && r[w].userId == workers[w].userId
                       && r[w].jobname == workers[w].jobname && r[w].availability == workers[w].availability
                       && r[w].verificationStatus == workers[w].verificationStatus
  {
    if w in workers then workers[w := Rerate(workers[w], rs)] else workers
  }

  /** Ratings between `lo` and `hi` sum to between `lo` and `hi` times their
      number. */
  lemma {:induction false} SumWithinBounds(rs: seq<Review>, lo: real, hi: real)
    requires forall i :: 0 <= i < |rs| ==> lo <= rs[i].rating <= hi
    ensures lo * (|rs| as real) <= SumRatings(rs) <= hi * (|rs| as real)
  {
    if rs != [] {
      var init := rs[..|rs| - 1];
      assert forall i :: 0 <= i < |init| ==> init[i] == rs[i];
      SumWithinBounds(init, lo, hi);
      assert (|rs| as real) == (|init| as real) + 1.0;
    }
  }

  /** The aggregate stays within the range of the ratings it averages; in
      particular reviews that all carry one rating average to that rating. */
  lemma AverageWithinBounds(rs: seq<Review>, lo: real, hi: real)
    requires |rs| >= 1
    requires forall i :: 0 <= i < |rs| ==> lo <= rs[i].rating <= hi
    ensures lo <= AverageRating(rs) <= hi
  {
    SumWithinBounds(rs, lo, hi);
    var n := |rs| as real;
    assert n > 0.0;
    assert lo * n / n == lo && hi * n / n == hi;
  }
}
