/** The Review document (src/models/Review.js). `jobId`, `fromUser`,
    `toWorker` and the numeric `rating` are required, so they are plain
    values; `comment` is optional. */
module ReviewModel {
  import opened Outcomes

  type ReviewId = Id

  datatype Review = Review(
    id: ReviewId,
    jobId: Id,
    fromUser: Id,
    toWorker: Id,
    rating: real,
    comment: Option<string>)
}
