# Marketplace backend: jobs, proposals, reviews and notifications

This project models the request handlers at the core of a job marketplace backend, an Express application over MongoDB:

- Clients post jobs.
- Workers bid on them with proposals.
- A proposal is accepted, or a worker assigned directly. Neither handler checks who is asking, so any caller can do either.
- The job is moved to `completed` with an ordinary update, which checks no requester either. The job's creator then reviews the worker.
- Every stored review recomputes the worker's `rating` (the mean of all of that worker's reviews) and `totalJobs` (their count).
- Users list their notifications newest first and mark them read.
- Two middlewares turn unmatched URLs and thrown errors into the HTTP response.

Layout:

- `outcomes.dfy` — ids, `Option`, and `Result`. A handler either answers or throws a `Failure`. The failure's kind records which status the handler set before throwing.
- `job_model.dfy`, `worker_model.dfy`, `review_model.dfy`, `notification_model.dfy` — the four Mongoose schemas. They cover the enumerations, the defaults and what `save` accepts.
- `job_rules.dfy`, `review_rules.dfy`, `notification_rules.dfy` — the value-level logic of the three controllers:
  - the truthy-field-wins update;
  - the proposal lookups;
  - the review guard chain;
  - the rating aggregate;
  - the notification filter and sort.
- `error_middleware.dfy` — `notFound` and `errorHandler` as pure functions.
- `marketplace.dfy` — class `Store`, which holds the four collections. Each handler is a method that updates the collections in place.
  - The invariant `Valid` carries the aggregator's two promises: there is at most one review per job, and every worker's `rating` and `totalJobs` agree with the stored reviews.
  - Every handler preserves `Valid`.
- `scenario.dfy` — one job taken from creation to review, using only the handlers' contracts.

How the model reads the code:

- **Requester.** The authentication middleware `protect` is a no-op (src/middleware/authMiddleware.js:3-7), so `req.user` is never set. The requester is therefore an `Option` parameter.
  - `None` is what the deployed code sees. Reading `req.user._id` then throws a TypeError, which is the `NoSessionUser` failure.
  - As deployed, `createJobReview` past the 404 check, `getNotifications`, and `markAsRead` past the 404 check therefore all answer 500.
- **Unanticipated exceptions.** A handler may throw without first calling `res.status(...)`. Examples are a schema validation error from `save` and a TypeError. `res.statusCode` is then still 200, and `errorHandler` turns that into 500. The model gives these failures the kind `Crash`.
  - `HandlerErrorStatuses` proves the mapping: 404, 400 and 401 come from the handlers' own checks, and 500 only from `Crash`.
  - A job or worker that the schema rejects therefore reaches the client as 500, not as a 400 validation error. The model follows the code here.
- **Truthiness in `updateJob`.** JavaScript truthiness is modelled per field. A string counts only when it is non-empty and a budget only when it is non-zero. A supplied location or image array always counts, even an empty array.
- **`getWorkerReviews`.** The 404 branch is dead: `Review.find` always yields an array. The method is modelled as always answering.

## Model

| member | source | states |
|---|---|---|
| Outcomes.StatusAtThrow | src/controllers/reviewController.js:13-41 | a handler's own checks set a 4xx status before throwing; only an unanticipated exception leaves the status at 200 |
| JobModel.ParseStatus | src/models/Job.js:19 | the status enum accepts exactly the five status names, and maps each to the status it names |
| JobModel.StatusNameRoundTrip | src/models/Job.js:19 | every status survives being stored as its name and validated back |
| JobModel.NewProposal | src/models/Job.js:22-27 | a new proposal carries the worker, bid and message it was given and the default status `pending` |
| WorkerModel.NewWorker | src/models/Worker.js:3-14 | a worker document is created iff `jobname` is present; it starts with rating 0, totalJobs 0, available, verification `pending` |
| WorkerModel.ProfileOf | src/controllers/jobController.js:113 | `Worker.findOne({ userId })` yields a profile owned by that user |
| WorkerModel.ProfileLookup | src/controllers/jobController.js:113 | the lookup finds a profile iff a user id is given and that user owns one, and the profile found is that user's |
| WorkerModel.ProfileOfUnique | src/controllers/jobController.js:113-117 | with one profile per user, the lookup by user has exactly one answer |
| NotificationModel.NewNotification | src/models/Notification.js:3-10 | a notification is created iff title and message are present; it starts unread and keeps every supplied field |
| ErrorMiddleware.NotFoundMiddleware | src/middleware/errorMiddleware.js:1-10 | `/favicon.ico` ends with 204 and forwards nothing; any other URL forwards a 404 error whose message is `Not Found - ` followed by the URL |
| ErrorMiddleware.ErrorHandler | src/middleware/errorMiddleware.js:12-23 | status 200 becomes 500 and every other status is kept; the message falls back to `An error occurred`; stack and error are null exactly in production |
| ErrorMiddleware.ErrorStatusStable | src/middleware/errorMiddleware.js:15-16 | the handler never answers 200, and handling its own status again changes nothing |
| ErrorMiddleware.UnmatchedUrlAnswers404 | src/middleware/errorMiddleware.js:7-16 | an unmatched URL other than the favicon reaches the client as 404 with a message naming the URL |
| ErrorMiddleware.HandlerErrorStatuses | src/middleware/errorMiddleware.js:15-16 | a not-found, bad-request or unauthorized failure reaches the client as 404, 400 or 401 respectively, and an unanticipated exception as 500, each in both directions |
| JobRules.FindJob | src/controllers/jobController.js:60 | `findById` finds the job iff its id is stored, and yields the stored job |
| JobRules.NewJob | src/controllers/jobController.js:8-31 | 400 iff neither `createdBy` nor `userId` is given; otherwise a saveable job with the given fields, `createdBy` falling back to `userId`, status `pending`, no assignee, no proposals, images default empty; a validation failure otherwise |
| JobRules.ApplyPatch | src/controllers/jobController.js:67-77 | each of the nine fields takes the supplied value iff it is truthy; id, creator, assignee and proposals are untouched; on a valid job, save fails iff the status or location is outside its enum |
| JobRules.FalsyPatchIsNoOp | src/controllers/jobController.js:67-75 | an update whose every field is absent or falsy (empty string, budget 0) leaves the job unchanged |
| JobRules.PatchIdempotent | src/controllers/jobController.js:67-77 | applying the same update twice gives the same job as applying it once |
| JobRules.PatchSetsAnyStatus | src/controllers/jobController.js:74 | no transition is checked: a job in any status moves to any named status, `completed` included, with nothing else changed |
| JobRules.FindProposal | src/controllers/jobController.js:148-153 | the proposal lookup succeeds iff some proposal has that id, and yields the first proposal of the job with that id |
| JobRules.HasProposalFrom | src/controllers/jobController.js:120-121 | the duplicate check holds iff some proposal on the job is from that worker |
| JobRules.ProposalGuard | src/controllers/jobController.js:103-124 | the four checks, in their order and with their errors; the proposal may be appended iff the job exists, a user id is given, that user has a worker profile, and that worker has not proposed yet |
| JobRules.AppendPassedProposal | src/controllers/jobController.js:120-133 | appending a proposal that passed the duplicate check keeps one proposal per worker, and a second attempt by that worker fails the check |
| JobRules.Assign | src/controllers/jobController.js:155-156 | the assignment sets the assignee and the status `assigned` and keeps every other field, the proposals included |
| JobRules.AssignLastWriteWins | src/controllers/jobController.js:181-182 | assigning the same worker twice is assigning once; of two assignments the last wins |
| ReviewRules.ReviewGuard | src/controllers/reviewController.js:13-41 | the five checks, in their order and with their errors; the review may be stored iff the job exists, the requester created it, it is assigned and completed, and it has no review yet |
| ReviewRules.AppendUnreviewed | src/controllers/reviewController.js:37-51 | storing a review of an unreviewed job keeps at most one review per job, and that job now counts as reviewed |
| ReviewRules.ReviewsFor | src/controllers/reviewController.js:70 | the per-worker query yields exactly the stored reviews of that worker |
| ReviewRules.ReviewsForAppend | src/controllers/reviewController.js:51-56 | a newly stored review joins the end of its own worker's list and no other list |
| ReviewRules.NoReviewsFor | src/models/Worker.js:12-13 | a worker none of whose reviews is stored has an empty list, so the defaults rating 0 and totalJobs 0 agree with the reviews |
| ReviewRules.SavedReviewIsCounted | src/controllers/reviewController.js:51-58 | the just-saved review is among its worker's reviews, so the divisor of the mean is at least one |
| ReviewRules.Rerate | src/controllers/reviewController.js:56-60 | the worker's rating becomes the mean of all of its reviews and totalJobs their count; the other fields are kept |
| ReviewRules.RecordReviewAggregate | src/controllers/reviewController.js:54-61 | only the reviewed worker's profile changes and it then agrees with the reviews; a missing worker leaves every profile unchanged |
| ReviewRules.SumWithinBounds | src/controllers/reviewController.js:57 | ratings between lo and hi sum to between lo and hi times their number |
| ReviewRules.AverageWithinBounds | src/controllers/reviewController.js:57-58 | the recomputed rating lies within the range of the ratings it averages |
| NotificationRules.IndexOfNotification | src/controllers/notificationController.js:16 | `findById` finds a notification with that id iff one is stored |
| NotificationRules.ForUser | src/controllers/notificationController.js:8 | the query yields exactly the user's notifications, each as many times as it is stored, and no others |
| NotificationRules.PrependNewest | src/controllers/notificationController.js:8 | a notification at least as new as the head of a newest-first list may go in front of it |
| NotificationRules.InsertByDate | src/controllers/notificationController.js:8 | inserting adds one element: it heads the result exactly when the list is empty or its old head is not strictly newer, and otherwise the old head stays first |
| NotificationRules.InsertByDateSorted | src/controllers/notificationController.js:8 | inserting into a newest-first list keeps it newest first and adds exactly that notification |
| NotificationRules.InsertByDateTies | src/controllers/notificationController.js:8 | the inserted notification goes in front of every notification of its own age, and other ages keep their order |
| NotificationRules.SortNewestFirst | src/controllers/notificationController.js:8 | the sort yields a permutation ordered by `createdAt` descending |
| NotificationRules.SortNewestFirstStable | src/controllers/notificationController.js:8 | the sort is stable: notifications of equal `createdAt` come out in their stored order |
| NotificationRules.InboxIsUsersNewestFirst | src/controllers/notificationController.js:8 | the listing holds exactly the user's notifications, each as many times as stored, newest first, and those of equal age in stored order |
| Marketplace.AppendReviewKeepsReviewsValid | src/controllers/reviewController.js:37-51 | storing a review of an unreviewed job keeps one review per job across calls |
| Marketplace.AppendProposalKeepsJobsValid | src/controllers/jobController.js:120-133 | storing a job with a proposal that passed the duplicate check keeps every stored job well-formed |
| Marketplace.StoreReviewKeepsWorkersValid | src/controllers/reviewController.js:51-61 | after a review is stored and its worker re-rated, every profile's aggregate agrees with the stored reviews |
| Marketplace.Store.RegisterWorker | src/controllers/workerController.js:133-141 | a worker profile with the schema defaults is stored under a fresh id iff `jobname` is present; the invariant is kept |
| Marketplace.Store.CreateJob | src/controllers/jobController.js:8-31 | the answer is NewJob's; a created job is stored under a fresh id and nothing else changes |
| Marketplace.Store.GetJobById | src/controllers/jobController.js:44-52 | the stored job, or 404 iff it is absent |
| Marketplace.Store.UpdateJob | src/controllers/jobController.js:57-79 | 404 for an absent job; otherwise ApplyPatch's result, written back only when save succeeds |
| Marketplace.Store.DeleteJob | src/controllers/jobController.js:84-94 | 404 iff the job is absent; afterwards the id is not stored and no other collection changes |
| Marketplace.Store.AddProposal | src/controllers/jobController.js:99-135 | refused iff ProposalGuard refuses, with its error; otherwise exactly one pending proposal from the user's worker profile is appended, earlier proposals unchanged, and one proposal per worker is kept |
| Marketplace.Store.AcceptProposal | src/controllers/jobController.js:140-161 | 404 for a missing job or proposal; otherwise the job is assigned to that proposal's worker whatever its status, proposals untouched |
| Marketplace.Store.AssignJob | src/controllers/jobController.js:166-187 | 404 for a missing job or worker; otherwise the job is assigned to that worker; repeating the request changes nothing |
| Marketplace.Store.CreateJobReview | src/controllers/reviewController.js:9-64 | refused iff ReviewGuard refuses, with its error; otherwise the review is stored against the assignee and that worker's aggregate recomputed over all its reviews |
| Marketplace.Store.GetWorkerReviews | src/controllers/reviewController.js:69-79 | never a 404; exactly the reviews of that worker |
| Marketplace.Store.CreateNotification | src/models/Notification.js:3-10 | a notification is stored unread iff title and message are present; nothing else changes |
| Marketplace.Store.GetNotifications | src/controllers/notificationController.js:7-10 | exactly the requester's notifications, each as many times as stored, newest first, ties in stored order; a crash when no user is attached |
| Marketplace.Store.MarkAsRead | src/controllers/notificationController.js:15-33 | 404 when absent, 401 for another user's; otherwise only `read` changes, to true, and a second call changes nothing |
| Scenario.PostAndAccept | src/controllers/jobController.js:99-161 | a posted job, bid on by a registered worker whose proposal is accepted, is assigned to that worker |
| Scenario.PostAndComplete | src/controllers/jobController.js:57-79 | the assigned job moves to `completed` by an ordinary update naming that status |
| Scenario.PostAndReview | src/controllers/reviewController.js:9-64 | after a review of 4, the worker carries rating 4 over one review and the job counts as reviewed |
| Scenario.JobLifecycle | src/controllers/reviewController.js:36-41 | a second review of the same job is refused with `This job has already been reviewed.` and leaves the worker's aggregate as it was |

## Left out

- `getJobs`: a plain `Job.find({})` with a `populate` projection. Beyond the stored jobs themselves there is nothing to state about it.
- `populate` projections: responses carry the stored documents without the joined user and worker fields.
- Timestamps: `createdAt` is modelled only for notifications, where it is an explicit parameter of `CreateNotification` taken from the clock. `updatedAt` is not modelled.
- The 2dsphere geo index: left out as a persistence concern. It can reject the insert of a job created without a location, because the schema's implicit empty `coordinates` array is stored and the index does not accept it.
- Concurrency: each handler is one atomic step. The read-modify-write races on `proposals`, `assignedTo` and the worker aggregate are not modelled.
- Floating point: ratings, bids, budgets and coordinates are exact `real` numbers. `Number(rating)` is taken as already numeric, so `NaN` and rounding are not modelled.
- Ids are naturals handed out by the store. Cast errors for malformed ObjectIds are not modelled.
- Mongoose's exact validation messages are reduced to one message per collection.
- Worker fields that no core handler reads (about, experience, education, skills, hourly rate, certificates) are not modelled. Of worker registration only the `Worker.create` step is modelled. The user creation, uploads and uniqueness checks before it are left out, and a fresh user is assumed, so the user has no profile yet.
- Notification delivery (the `Notification.create` in the chat handler) is not modelled. Only the record creation is, as `CreateNotification`.
- Marketplace.Store.CreateNotification: its `Crash` failure records only the status at the moment `Notification.create` throws. The only caller, `sendMessage` (src/controllers/chatController.js:131-163), catches the rejection, sets status 400 and rethrows, so a client sees 400 there, not 500. The chat handler is not part of this model.
- Marketplace.Store.GetNotifications: MongoDB does not fix the order of notifications with equal `createdAt`. The model's sort is stable and keeps their stored order, which is one admissible order.
- Marketplace.Store.GetWorkerReviews: `Review.find({ toWorker })` has no sort, so MongoDB does not fix the order of the result. The model answers in insertion order, which is one admissible order.
- Marketplace.Store.DeleteJob: assumes a Mongoose version where a document still has `remove()`. A review of the deleted job stays stored.
- Response bodies of successful handlers (`{ message: ... }`) are not modelled. The methods return the changed document or unit.
