/** Whole facade handlers: the decision, the upstream call (a parameter),
    and the writes to a fresh response recorder. */
module Serving {
  import opened Text
  import opened Guards
  import opened Encoding
  import opened Images
  import opened Library
  import opened Facade
  import opened FacadeImages
  import opened Recorder

  /** Writes an image handler's outcome: an error line, or the image with its type. */
  method WriteOutcome(rec: ResponseRecorder, o: Outcome)
    requires !rec.wroteHeader
    modifies rec
    ensures o.Failure? ==> rec.code == o.status && rec.body == old(rec.body) + o.message + "\n"
    ensures o.Image? ==>
      rec.code == StatusOK && rec.body == old(rec.body) + o.body &&
      rec.header == old(rec.header)["Content-Type" := o.contentType]
  {
    match o
    case Failure(status, message) =>
      rec.Error(message, status);
    case Image(contentType, body) =>
      rec.SetHeader("Content-Type", contentType);
      rec.Write(body);
  }

  /** Writes the result of a JSON handler's upstream call: the encoded
      body as JSON with status 200, or the handler's 500 line. */
  method WriteUpstreamResult(rec: ResponseRecorder, failure: FailureText, result: Result<string>)
    requires !rec.wroteHeader
    modifies rec
    ensures result.Ok? ==>
      rec.code == StatusOK && rec.body == old(rec.body) + result.value &&
      rec.header == old(rec.header)["Content-Type" := "application/json"]
    ensures result.Err? ==>
      rec.code == StatusInternalServerError &&
      rec.body == old(rec.body) + UpstreamFailure(failure, result.message).1 + "\n"
  {
    match result
    case Err(errorText) =>
      var reply := UpstreamFailure(failure, errorText);
      rec.Error(reply.1, reply.0);
    case Ok(encoded) =>
      rec.SetHeader("Content-Type", "application/json");
      rec.WriteHeader(StatusOK);
      rec.Write(encoded);
  }

  /** A JSON handler served into a fresh recorder; `send` is the upstream
      call, yielding the encoded JSON body or the error's text. */
  method ServeJson(rec: ResponseRecorder, h: JsonHandler, q: Values, hdr: Values, c: Codec,
                   pbfFileUrl: Format, requestId: string, send: Call -> Result<string>)
    requires pbfFileUrl.Arity() == 4 && !rec.wroteHeader
    modifies rec
    ensures ParamsRejected(h, q) ==>
      rec.code == StatusBadRequest && rec.body == old(rec.body) + BadRequestMessage(h) + "\n"
    ensures !ParamsRejected(h, q) && ChecksToken(h) && Get(hdr, "Authorization") == "" ==>
      rec.code == StatusUnauthorized && rec.body == old(rec.body) + UnauthorizedMessage(h) + "\n"
    ensures var d := Decide(h, q, hdr, c, pbfFileUrl, requestId);
      d.Forward? ==>
        (send(d.call).Ok? ==>
          rec.code == StatusOK && rec.body == old(rec.body) + send(d.call).value &&
          rec.header == old(rec.header)["Content-Type" := "application/json"]) &&
        (send(d.call).Err? ==>
          rec.code == StatusInternalServerError &&
          rec.body == old(rec.body) + UpstreamFailure(d.failure, send(d.call).message).1 + "\n")
  {
    var d := Decide(h, q, hdr, c, pbfFileUrl, requestId);
    if d.Reply? {
      rec.Error(d.message, d.status);
    } else {
      WriteUpstreamResult(rec, d.failure, send(d.call));
    }
  }

  /** The center image handler served into a fresh recorder; `fetch` is the
      upstream exchange. The plan it made is returned. */
  method ServeCenterImage(rec: ResponseRecorder, q: Values, hdr: Values, c: Codec, freshId: string,
                          fetch: ImageRequest -> Transport<ImageResponse>) returns (p: ImagePlan)
    requires !rec.wroteHeader
    modifies rec
    ensures p.Refuse? <==> !AllPass(CenterChecks(q, hdr, c))
    ensures p.Refuse? ==> FirstFailure(CenterChecks(q, hdr, c)) == Some((p.status, p.message))
    ensures p.Refuse? ==> rec.code == p.status && rec.body == old(rec.body) + p.message + "\n"
    ensures p.Fetch? ==> p.request.url == CenterRequestUrl(q, c)
    ensures p.Fetch? ==> ForwardedHeaders(p.request.headers, hdr, freshId)
    ensures p.Fetch? ==> var o := FetchedImageOutcome(fetch(p.request), Get(q, "format"));
      (o.Failure? ==> rec.code == o.status && rec.body == old(rec.body) + o.message + "\n") &&
      (o.Image? ==> rec.code == StatusOK && rec.body == old(rec.body) + o.body &&
                    rec.header == old(rec.header)["Content-Type" := o.contentType])
  {
    p := CenterHandlerPlan(q, hdr, c, freshId);
    match p
    case Refuse(status, message) =>
      rec.Error(message, status);
    case Fetch(request) =>
      WriteOutcome(rec, FetchedImageOutcome(fetch(request), Get(q, "format")));
  }

  /** The bounded image handler served into a fresh recorder. */
  method ServeBoundedImage(rec: ResponseRecorder, q: Values, hdr: Values, c: Codec, freshId: string,
                           fetch: ImageRequest -> Transport<ImageResponse>) returns (p: ImagePlan)
    requires !rec.wroteHeader
    modifies rec
    ensures p.Refuse? <==> !AllPass(BoundedChecks(q, hdr, c))
    ensures p.Refuse? ==> FirstFailure(BoundedChecks(q, hdr, c)) == Some((p.status, p.message))
    ensures p.Refuse? ==> rec.code == p.status && rec.body == old(rec.body) + p.message + "\n"
    ensures p.Fetch? ==> p.request.url == BoundedRequestUrl(q, c)
    ensures p.Fetch? ==> ForwardedHeaders(p.request.headers, hdr, freshId)
    ensures p.Fetch? ==> var o := FetchedImageOutcome(fetch(p.request), Get(q, "format"));
      (o.Failure? ==> rec.code == o.status && rec.body == old(rec.body) + o.message + "\n") &&
      (o.Image? ==> rec.code == StatusOK && rec.body == old(rec.body) + o.body &&
                    rec.header == old(rec.header)["Content-Type" := o.contentType])
  {
    p := BoundedHandlerPlan(q, hdr, c, freshId);
    match p
    case Refuse(status, message) =>
      rec.Error(message, status);
    case Fetch(request) =>
      WriteOutcome(rec, FetchedImageOutcome(fetch(request), Get(q, "format")));
  }

  /** The auto image handler served into a fresh recorder. */
  method ServeAutoImage(rec: ResponseRecorder, q: Values, c: Codec,
                        fetch: ImageRequest -> Transport<ImageResponse>) returns (p: ImagePlan)
    requires !rec.wroteHeader
    modifies rec
    ensures p.Refuse? <==> !AllPass(AutoChecks(q, c))
    ensures p.Refuse? ==> FirstFailure(AutoChecks(q, c)) == Some((p.status, p.message))
    ensures p.Refuse? ==> rec.code == StatusBadRequest && rec.body == old(rec.body) + p.message + "\n"
    ensures p.Fetch? ==> p.request == ImageRequest(AutoRequestUrl(q, c), [])
    ensures p.Fetch? ==> var o := AutoImageOutcome(fetch(p.request), Get(q, "format"));
      (o.Failure? ==> rec.code == o.status && rec.body == old(rec.body) + o.message + "\n") &&
      (o.Image? ==> rec.code == StatusOK && rec.body == old(rec.body) + o.body &&
                    rec.header == old(rec.header)["Content-Type" := o.contentType])
  {
    p := AutoHandlerPlan(q, c);
    match p
    case Refuse(status, message) =>
      rec.Error(message, status);
    case Fetch(request) =>
      WriteOutcome(rec, AutoImageOutcome(fetch(request), Get(q, "format")));
  }

  /** A fully specified bounded request with no `Authorization` header,
      served into a new recorder, is answered 401 MissingOAuthToken + "\n". */
  method BoundedWithoutToken(q: Values, c: Codec, freshId: string,
                             fetch: ImageRequest -> Transport<ImageResponse>) returns (rec: ResponseRecorder)
    requires Get(q, "styleName") != "" && Get(q, "min_x") != "" && Get(q, "min_y") != ""
    requires Get(q, "max_x") != "" && Get(q, "max_y") != "" && Get(q, "width") != ""
    requires Get(q, "height") != "" && Get(q, "format") != ""
    requires c.parsesFloat(Get(q, "min_x")) && c.parsesFloat(Get(q, "min_y"))
    requires c.parsesFloat(Get(q, "max_x")) && c.parsesFloat(Get(q, "max_y"))
    requires c.parsesInt(Get(q, "width")) && c.parsesInt(Get(q, "height"))
    ensures rec.code == StatusUnauthorized
    ensures rec.body == MissingOAuthToken + "\n"
  {
    rec := new ResponseRecorder();
    BoundedMissingToken(q, map[], c);
    var p := ServeBoundedImage(rec, q, map[], c, freshId, fetch);
  }
}
