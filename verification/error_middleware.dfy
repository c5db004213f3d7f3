/** The two Express middlewares of src/middleware/errorMiddleware.js: the
    catch-all for unmatched URLs and the error handler that turns a thrown
    error into the response status and JSON body. */
module ErrorMiddleware {
  import opened Outcomes

  /** An `Error` object as the middleware sees it. */
  datatype ErrorObject = ErrorObject(message: string, stack: string)

  /** What `notFound` does with a request no route matched. */
  datatype NotFoundAction =
    | EndNoContent                               // status 204, response ended, next() not called
    | Forward(status: nat, error: ErrorObject)   // status set, error passed to next()

  /** The JSON body the error handler sends; `null` is None. */
  datatype ErrorBody = ErrorBody(message: string, stack: Option<string>, error: Option<ErrorObject>)

  datatype Response = Response(status: nat, body: ErrorBody)

  const FaviconUrl := "/favicon.ico"
  const NotFoundPrefix := "Not Found - "
  const DefaultMessage := "An error occurred"
  const ProductionEnv := "production"

  /** `notFound(req, res, next)`; `stack` is the trace the new Error captures. */
  function NotFoundMiddleware(originalUrl: string, stack: string): (a: NotFoundAction)
    ensures a.EndNoContent? <==> originalUrl == FaviconUrl
    ensures a.Forward? ==> a.status == 404
    ensures a.Forward? ==> a.error.message == NotFoundPrefix + originalUrl
  {
    if originalUrl == FaviconUrl then EndNoContent
    else Forward(404, ErrorObject(NotFoundPrefix + originalUrl, stack))
  }

  /** `errorHandler(err, req, res, next)` where `statusCode` is the response
      status so far and `nodeEnv` is `process.env.NODE_ENV`. */
  function ErrorHandler(statusCode: nat, err: ErrorObject, nodeEnv: Option<string>): (r: Response)
    ensures statusCode == 200 ==> r.status == 500
    ensures statusCode != 200 ==> r.status == statusCode
    ensures err.message != "" ==> r.body.message == err.message
    ensures err.message == "" ==> r.body.message == DefaultMessage
    ensures nodeEnv == Some(ProductionEnv) <==> r.body.stack.None?
    ensures nodeEnv == Some(ProductionEnv) <==> r.body.error.None?
    ensures r.body.stack.Some? ==> r.body.stack.value == err.stack && r.body.error == Some(err)
  {
    var production := nodeEnv == Some(ProductionEnv);
    Response(
      if statusCode == 200 then 500 else statusCode,
      ErrorBody(
        if err.message != "" then err.message else DefaultMessage,
        if production then None else Some(err.stack),
        if production then None else Some(err)))
  }

  /** The error handler never answers 200 and never changes an error status
      it is handed a second time. */
  lemma ErrorStatusStable(statusCode: nat, err: ErrorObject, nodeEnv: Option<string>)
    ensures ErrorHandler(statusCode, err, nodeEnv).status != 200
    ensures ErrorHandler(ErrorHandler(statusCode, err, nodeEnv).status, err, nodeEnv)
         == ErrorHandler(statusCode, err, nodeEnv)
  {
  }

  /** An unmatched URL other than the favicon reaches the client as a 404
      whose message names the URL. */
  lemma UnmatchedUrlAnswers404(originalUrl: string, stack: string, nodeEnv: Option<string>)
    requires originalUrl != FaviconUrl
    ensures NotFoundMiddleware(originalUrl, stack).Forward?
    ensures var a := NotFoundMiddleware(originalUrl, stack);
            var r := ErrorHandler(a.status, a.error, nodeEnv);
            r.status == 404 && r.body.message == NotFoundPrefix + originalUrl
  {
  }

  /** The status a client sees for an error a handler threw. */
  function ClientStatus(f: Failure, stack: string, nodeEnv: Option<string>): (code: nat)
  {
    ErrorHandler(StatusAtThrow(f.kind), ErrorObject(f.message, stack), nodeEnv).status
  }

  /** The kinds of handler error map to 404, 400, 401 and 500; an
      unanticipated exception is the only source of a 500. */
  lemma HandlerErrorStatuses(f: Failure, stack: string, nodeEnv: Option<string>)
    ensures f.kind == NotFound <==> ClientStatus(f, stack, nodeEnv) == 404
    ensures f.kind == BadRequest <==> ClientStatus(f, stack, nodeEnv) == 400
    ensures f.kind == Unauthorized <==> ClientStatus(f, stack, nodeEnv) == 401
    ensures f.kind == Crash <==> ClientStatus(f, stack, nodeEnv) == 500
  {
  }
}
