/** The facade's three static-map-image handlers: checks in a fixed order
    (missing, then each number, then authorization for two of them), the
    request they send themselves, and how the upstream outcome becomes the
    reply. */
module FacadeImages {
  import opened Text
  import opened Guards
  import opened Encoding
  import opened Endpoints
  import opened Images
  import opened Library
  import opened Facade

  /** A handler's own refusal, or the image request it sends. */
  datatype ImagePlan = Refuse(status: int, message: string) | Fetch(request: ImageRequest)

  /** An upstream image response: status code, status line, and body. */
  datatype ImageResponse = ImageResponse(statusCode: int, status: string, body: string)

  /** What the handler finally writes: an error reply, or the image. */
  datatype Outcome = Failure(status: int, message: string) | Image(contentType: string, body: string)

  const MissingParams := (StatusBadRequest, MissingQueryParams)

  const CreateNewRequestFailed := "Failed to create new request"
  const FetchImageFailed := "Failed to fetch image"

  /** The authorization check of the center and bounded handlers. */
  function ImageAuthGuard(hdr: Values): Guard<(int, string)> {
    Guard(Get(hdr, "Authorization") != "", (StatusUnauthorized, MissingOAuthToken))
  }

  /** The center handler's parameter checks, in order. */
  function CenterParamChecks(q: Values, c: Codec): seq<Guard<(int, string)>> {
    [ Guard(!(Get(q, "styleName") == "" || Get(q, "longitude") == "" || Get(q, "latitude") == ""
              || Get(q, "zoom") == "" || Get(q, "width") == "" || Get(q, "height") == ""
              || Get(q, "format") == ""), MissingParams),
      Guard(c.parsesFloat(Get(q, "longitude")), (StatusBadRequest, InvalidLongitude)),
      Guard(c.parsesFloat(Get(q, "latitude")), (StatusBadRequest, InvalidLatitude)),
      Guard(c.parsesInt(Get(q, "zoom")), (StatusBadRequest, InvalidZoomLevel)),
      Guard(c.parsesInt(Get(q, "width")), (StatusBadRequest, InvalidImageWidth)),
      Guard(c.parsesInt(Get(q, "height")), (StatusBadRequest, InvalidImageHeight)) ]
  }

  function CenterChecks(q: Values, hdr: Values, c: Codec): seq<Guard<(int, string)>> {
    CenterParamChecks(q, c) + [ImageAuthGuard(hdr)]
  }

  /** The bounded handler's parameter checks, in order. */
  function BoundedParamChecks(q: Values, c: Codec): seq<Guard<(int, string)>> {
    [ Guard(!(Get(q, "styleName") == "" || Get(q, "min_x") == "" || Get(q, "min_y") == ""
              || Get(q, "max_x") == "" || Get(q, "max_y") == "" || Get(q, "width") == ""
              || Get(q, "height") == "" || Get(q, "format") == ""), MissingParams),
      Guard(c.parsesFloat(Get(q, "min_x")), (StatusBadRequest, InvalidMinX)),
      Guard(c.parsesFloat(Get(q, "min_y")), (StatusBadRequest, InvalidMinY)),
      Guard(c.parsesFloat(Get(q, "max_x")), (StatusBadRequest, InvalidMaxX)),
      Guard(c.parsesFloat(Get(q, "max_y")), (StatusBadRequest, InvalidMaxY)),
      Guard(c.parsesInt(Get(q, "width")), (StatusBadRequest, InvalidImageWidth)),
      Guard(c.parsesInt(Get(q, "height")), (StatusBadRequest, InvalidImageHeight)) ]
  }

  function BoundedChecks(q: Values, hdr: Values, c: Codec): seq<Guard<(int, string)>> {
    BoundedParamChecks(q, c) + [ImageAuthGuard(hdr)]
  }

  /** The auto handler's checks: no `path`, and no authorization. */
  function AutoChecks(q: Values, c: Codec): seq<Guard<(int, string)>> {
    [ Guard(!(Get(q, "styleName") == "" || Get(q, "width") == "" || Get(q, "height") == ""
              || Get(q, "format") == ""), MissingParams),
      Guard(c.parsesInt(Get(q, "width")), (StatusBadRequest, InvalidImageWidth)),
      Guard(c.parsesInt(Get(q, "height")), (StatusBadRequest, InvalidImageHeight)) ]
  }

  /** The headers the center and bounded handlers send: the caller's request
      id or a fresh one, the token, and the caller's correlation id if any. */
  predicate ForwardedHeaders(hs: seq<(string, string)>, hdr: Values, freshId: string) {
    var requestId := if Get(hdr, "X-Request-Id") != "" then Get(hdr, "X-Request-Id") else freshId;
    var correlationId := Get(hdr, "X-Correlation-Id");
    2 <= |hs| <= 3
    && hs[0] == ("X-Request-Id", requestId)
    && hs[1] == ("Authorization", Get(hdr, "Authorization"))
    && (|hs| == 3 <==> correlationId != "")
    && (|hs| == 3 ==> hs[2] == ("X-Correlation-Id", correlationId))
  }

  /** The header steps shared by the center and bounded handlers. */
  method ForwardHeaders(hdr: Values, freshId: string) returns (headers: seq<(string, string)>)
    requires Get(hdr, "Authorization") != ""
    ensures ForwardedHeaders(headers, hdr, freshId)
  {
    var xRequestId := Get(hdr, "X-Request-Id");
    if xRequestId == "" {
      xRequestId := freshId;
    }
    headers := [("X-Request-Id", xRequestId)];
    var oauthToken := Get(hdr, "Authorization");
    if oauthToken != "" {
      headers := headers + [("Authorization", oauthToken)];
    }
    var xCorrelationId := Get(hdr, "X-Correlation-Id");
    if xCorrelationId != "" {
      headers := headers + [("X-Correlation-Id", xCorrelationId)];
    }
  }

  /** The URL the center handler requests: the filled template, then
      markers and path. */
  function CenterRequestUrl(q: Values, c: Codec): string {
    WithImageQuery(
      Sprintf(StaticMapImageCenterURL,
        [c.queryEscape(Get(q, "styleName")), c.formatFloat(Get(q, "longitude")),
         c.formatFloat(Get(q, "latitude")), c.formatInt(Get(q, "zoom")),
         c.formatInt(Get(q, "width")), c.formatInt(Get(q, "height")), Get(q, "format")]),
      GetAll(q, "marker"), Get(q, "path"), c)
  }

  /** The URL the bounded handler requests. */
  function BoundedRequestUrl(q: Values, c: Codec): string {
    WithImageQuery(
      Sprintf(StaticMapImageBoundedURL,
        [c.queryEscape(Get(q, "styleName")), c.formatFloat(Get(q, "min_x")),
         c.formatFloat(Get(q, "min_y")), c.formatFloat(Get(q, "max_x")),
         c.formatFloat(Get(q, "max_y")), c.formatInt(Get(q, "width")),
         c.formatInt(Get(q, "height")), Get(q, "format")]),
      GetAll(q, "marker"), Get(q, "path"), c)
  }

  /** The URL the auto handler requests. */
  function AutoRequestUrl(q: Values, c: Codec): string {
    WithImageQuery(
      Sprintf(StaticMapImageURL,
        [c.queryEscape(Get(q, "styleName")), c.formatInt(Get(q, "width")),
         c.formatInt(Get(q, "height")), Get(q, "format")]),
      GetAll(q, "marker"), Get(q, "path"), c)
  }

  /** `GetStaticMapImageCenterHandler` up to the upstream call. */
  method CenterHandlerPlan(q: Values, hdr: Values, c: Codec, freshId: string) returns (p: ImagePlan)
    ensures p.Refuse? <==> !AllPass(CenterChecks(q, hdr, c))
    ensures p.Refuse? ==> FirstFailure(CenterChecks(q, hdr, c)) == Some((p.status, p.message))
    ensures p.Fetch? ==> p.request.url == CenterRequestUrl(q, c)
    ensures p.Fetch? ==> ForwardedHeaders(p.request.headers, hdr, freshId)
  {
    var failure := FirstFailure(CenterChecks(q, hdr, c));
    if failure.Some? {
      return Refuse(failure.value.0, failure.value.1);
    }
    assert CenterChecks(q, hdr, c)[6].ok;
    var apiUrl := Sprintf(StaticMapImageCenterURL,
      [c.queryEscape(Get(q, "styleName")), c.formatFloat(Get(q, "longitude")),
       c.formatFloat(Get(q, "latitude")), c.formatInt(Get(q, "zoom")),
       c.formatInt(Get(q, "width")), c.formatInt(Get(q, "height")), Get(q, "format")]);
    apiUrl := AddImageQuery(apiUrl, GetAll(q, "marker"), Get(q, "path"), c);
    var headers := ForwardHeaders(hdr, freshId);
    p := Fetch(ImageRequest(apiUrl, headers));
  }

  /** `GetStaticMapImageBoundedHandler` up to the upstream call. */
  method BoundedHandlerPlan(q: Values, hdr: Values, c: Codec, freshId: string) returns (p: ImagePlan)
    ensures p.Refuse? <==> !AllPass(BoundedChecks(q, hdr, c))
    ensures p.Refuse? ==> FirstFailure(BoundedChecks(q, hdr, c)) == Some((p.status, p.message))
    ensures p.Fetch? ==> p.request.url == BoundedRequestUrl(q, c)
    ensures p.Fetch? ==> ForwardedHeaders(p.request.headers, hdr, freshId)
  {
    var failure := FirstFailure(BoundedChecks(q, hdr, c));
    if failure.Some? {
      return Refuse(failure.value.0, failure.value.1);
    }
    assert BoundedChecks(q, hdr, c)[7].ok;
    var apiUrl := Sprintf(StaticMapImageBoundedURL,
      [c.queryEscape(Get(q, "styleName")), c.formatFloat(Get(q, "min_x")),
       c.formatFloat(Get(q, "min_y")), c.formatFloat(Get(q, "max_x")),
       c.formatFloat(Get(q, "max_y")), c.formatInt(Get(q, "width")),
       c.formatInt(Get(q, "height")), Get(q, "format")]);
    apiUrl := AddImageQuery(apiUrl, GetAll(q, "marker"), Get(q, "path"), c);
    var headers := ForwardHeaders(hdr, freshId);
    p := Fetch(ImageRequest(apiUrl, headers));
  }

  /** `StaticMapImageHandler` up to the upstream call: it never answers 401
      and sends no headers at all. */
  method AutoHandlerPlan(q: Values, c: Codec) returns (p: ImagePlan)
    ensures p.Refuse? <==> !AllPass(AutoChecks(q, c))
    ensures p.Refuse? ==> FirstFailure(AutoChecks(q, c)) == Some((p.status, p.message))
    ensures p.Refuse? ==> p.status == StatusBadRequest
    ensures p.Fetch? ==> p.request == ImageRequest(AutoRequestUrl(q, c), [])
  {
    var failure := FirstFailure(AutoChecks(q, c));
    if failure.Some? {
      return Refuse(failure.value.0, failure.value.1);
    }
    var apiUrl := Sprintf(StaticMapImageURL,
      [c.queryEscape(Get(q, "styleName")), c.formatInt(Get(q, "width")),
       c.formatInt(Get(q, "height")), Get(q, "format")]);
    apiUrl := AddImageQuery(apiUrl, GetAll(q, "marker"), Get(q, "path"), c);
    p := Fetch(ImageRequest(apiUrl, []));
  }

  /** The reply of the center and bounded handlers to an upstream outcome. */
  function FetchedImageOutcome(t: Transport<ImageResponse>, format: string): (o: Outcome)
    ensures o.Image? <==> t.Delivered? && t.response.statusCode == 200
    ensures o.Image? ==> o == Image("image/" + format, t.response.body)
    ensures t.Delivered? && t.response.statusCode != 200 ==>
      o == Failure(t.response.statusCode, FetchImageFailed)
    ensures t.Unbuildable? ==> o == Failure(StatusInternalServerError, CreateNewRequestFailed)
    ensures t.Unreachable? ==> o == Failure(StatusInternalServerError, ExternalRequestFailed)
  {
    match t
    case Unbuildable => Failure(StatusInternalServerError, CreateNewRequestFailed)
    case Unreachable => Failure(StatusInternalServerError, ExternalRequestFailed)
    case Delivered(resp) =>
      if resp.statusCode != 200 then Failure(resp.statusCode, FetchImageFailed)
      else Image("image/" + format, resp.body)
  }

  /** The reply of the auto handler to an upstream outcome: a failed
      status is echoed with the upstream status line. */
  function AutoImageOutcome(t: Transport<ImageResponse>, format: string): (o: Outcome)
    ensures o.Image? <==> t.Delivered? && t.response.statusCode == 200
    ensures o.Image? ==> o == Image("image/" + format, t.response.body)
    ensures t.Delivered? && t.response.statusCode != 200 ==>
      o == Failure(t.response.statusCode, "Error: " + t.response.status)
    ensures t.Unbuildable? ==> o == Failure(StatusInternalServerError, CreateRequestFailed)
    ensures t.Unreachable? ==> o == Failure(StatusInternalServerError, SendRequestFailed)
  {
    match t
    case Unbuildable => Failure(StatusInternalServerError, CreateRequestFailed)
    case Unreachable => Failure(StatusInternalServerError, SendRequestFailed)
    case Delivered(resp) =>
      if resp.statusCode == 200 then Image("image/" + format, resp.body)
      else Failure(resp.statusCode, "Error: " + resp.status)
  }

  /** The center and bounded handlers check authorization last: an invalid
      parameter is reported whatever the headers hold. */
  lemma ImageAuthCheckedLast(q: Values, hdr1: Values, hdr2: Values, c: Codec)
    ensures !AllPass(CenterParamChecks(q, c)) ==>
      FirstFailure(CenterChecks(q, hdr1, c)) == FirstFailure(CenterChecks(q, hdr2, c))
    ensures !AllPass(BoundedParamChecks(q, c)) ==>
      FirstFailure(BoundedChecks(q, hdr1, c)) == FirstFailure(BoundedChecks(q, hdr2, c))
  {
    if !AllPass(CenterParamChecks(q, c)) {
      FirstFailurePrefix(CenterParamChecks(q, c), [ImageAuthGuard(hdr1)]);
      FirstFailurePrefix(CenterParamChecks(q, c), [ImageAuthGuard(hdr2)]);
    }
    if !AllPass(BoundedParamChecks(q, c)) {
      FirstFailurePrefix(BoundedParamChecks(q, c), [ImageAuthGuard(hdr1)]);
      FirstFailurePrefix(BoundedParamChecks(q, c), [ImageAuthGuard(hdr2)]);
    }
  }

  /** A fully specified bounded request without `Authorization` is refused
      with 401 once every number parses. */
  lemma BoundedMissingToken(q: Values, hdr: Values, c: Codec)
    requires Get(q, "styleName") != "" && Get(q, "min_x") != "" && Get(q, "min_y") != ""
    requires Get(q, "max_x") != "" && Get(q, "max_y") != "" && Get(q, "width") != ""
    requires Get(q, "height") != "" && Get(q, "format") != ""
    requires c.parsesFloat(Get(q, "min_x")) && c.parsesFloat(Get(q, "min_y"))
    requires c.parsesFloat(Get(q, "max_x")) && c.parsesFloat(Get(q, "max_y"))
    requires c.parsesInt(Get(q, "width")) && c.parsesInt(Get(q, "height"))
    requires "Authorization" !in hdr
    ensures FirstFailure(BoundedChecks(q, hdr, c)) == Some((StatusUnauthorized, MissingOAuthToken))
  {
    assert FirstFailsAt(BoundedChecks(q, hdr, c), 7);
    FirstFailureAt(BoundedChecks(q, hdr, c), 7);
  }

  /** The center handler reports the first invalid number in its order:
      a bad zoom level hides a bad width or height. */
  lemma CenterZoomReportedFirst(q: Values, hdr: Values, c: Codec)
    requires Get(q, "styleName") != "" && Get(q, "longitude") != "" && Get(q, "latitude") != ""
    requires Get(q, "zoom") != "" && Get(q, "width") != "" && Get(q, "height") != "" && Get(q, "format") != ""
    requires c.parsesFloat(Get(q, "longitude")) && c.parsesFloat(Get(q, "latitude"))
    requires !c.parsesInt(Get(q, "zoom"))
    ensures FirstFailure(CenterChecks(q, hdr, c)) == Some((StatusBadRequest, InvalidZoomLevel))
  {
    assert FirstFailsAt(CenterChecks(q, hdr, c), 3);
    FirstFailureAt(CenterChecks(q, hdr, c), 3);
  }
}
