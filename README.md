# golamap in Dafny

A model of the core of golamap, a Go client and HTTP facade for the Ola Maps
web API. It has three parts.

- **The client library** (`handlers.go`). Each `OLAMap` operation first checks
  its required parameters, then the session token. It then builds the
  provider URL from a template and hands one request to the session's
  dispatcher (`HttpService.SendOlaMapRequest`). The three static-map-image
  operations instead check their numeric fields, build a URL with an optional
  `marker`/`path` query, and send an HTTP request with their own headers.
- **The mock dispatcher** (`mock.go`). `MockStruct` answers by looking for a
  fixed path fragment in the URL, in a fixed order. It records status 200 and
  the canned body of the first fragment found, or status 400 and an error.
- **The HTTP facade** (`internal/resources/handlers.go`). Each handler reads
  query parameters and the `Authorization` header. It answers 400 or 401
  itself, or forwards one upstream request and writes the result. The
  facade's rules differ from the library's:
  - GeoCode and the tile handler reject only when every parameter is empty;
  - distance matrix and array-of-data never check the token;
  - nearest-roads defaults the radius to 500;
  - the center and bounded image handlers forward the caller's request and
    correlation ids.

How each part is modelled:

- Every chain of early returns is a sequence of `Guard`s (module `Guards`).
  `FirstFailure` runs them in order.
- The library's decisions are pure functions (`Library.PlanCall`,
  `Library.Run`). The dispatcher is a function parameter.
- The image operations, which build their query and headers step by step,
  are methods proved against specification functions.
- The mock is a class with the two fields the source mutates.
- The facade's decision is a function (`Facade.Decide`). The facade writes to
  a response recorder, which is a class (`Recorder.ResponseRecorder`) that
  models `http.Error`, `WriteHeader` and `Write`. The whole handlers are
  methods in module `Serving`.
- URL templates are `Format` values: the literal text split at each
  directive. `Sprintf` fills them in.
- The URL of every library operation is spelled out, argument by argument,
  in module `Urls`.
- `strconv`, the `%f`/`%d` renderings, and the `net/url` escapers and encoder
  are uninterpreted functions carried in a `Codec`.

Two behaviours of the facade are easy to miss:

- The auto static-image handler answers a failed upstream status with
  `"Error: "` and the upstream status line. The center and bounded handlers
  answer "Failed to fetch image" instead.
- The GeoCode and tile handlers reject only when all their parameters are
  empty. The other handlers reject when any one is empty.

## Model

| member | source | states |
|---|---|---|
| Text.Sprintf | internal/app/endpoints.go:5-20 | The filled template begins with the text before the first directive and ends with the text after the last one. |
| Text.SprintfPlacesArgs | internal/app/endpoints.go:5-20 | Each argument appears in the output, followed by the literal text after its directive. |
| Text.SprintfOne | internal/app/endpoints.go:6 | A one-directive template yields the text before it, the argument, and the text after it. |
| Text.SprintfPeel | internal/app/endpoints.go:5-20 | Filling the first directive is the same as moving its argument and the text after it into the lead, so a template can be spelled out one directive at a time. |
| Text.Join | handlers.go:379-381 | Joining one marker gives that marker, and joining none gives the empty string. |
| Text.JoinKeepsEach | handlers.go:379-381 | Every marker appears in the joined text. |
| Guards.FirstFailure | handlers.go:15-23 | There is no failure exactly when every check passes. A failure is the error of a check that fails after all earlier checks pass. |
| Guards.FirstFailureAt | handlers.go:336-371 | The first failing check decides the result, whatever the later checks say. |
| Guards.FirstFailurePrefix | handlers.go:336-371 | Checks placed after an already-failing sequence are never consulted. |
| Images.ImageQuery | handlers.go:376-384 | A `marker` pair, holding the joined markers, is present exactly when there are markers. A `path` pair is present exactly when the path is non-empty. There are exactly as many pairs as these two conditions that hold, the marker pair first and the path pair last. |
| Images.WithImageQuery | handlers.go:386-388 | The URL is unchanged exactly when there are no markers and no path. Otherwise it is the URL, then `?`, then the encoded parameters. |
| Images.AddImageQuery | internal/resources/handlers.go:636-648 | The step-by-step query construction yields exactly `WithImageQuery`. |
| Library.ParamGuards | handlers.go:16-18 | Each operation makes at most one parameter check, with the message the operation's table gives. The check passes exactly when no required value is empty. Only GetMapStyle has no check. |
| Library.EndpointUrl | handlers.go:25 | Every provider URL starts with the API host. |
| Urls.DirectionsUrl | handlers.go:25 | The directions URL is the endpoint with `?origin=`, the origin, `&destination=` and the destination, unescaped. |
| Urls.AutoCompleteUrl | handlers.go:50 | The autocomplete URL carries the input unescaped after `?input=`. |
| Urls.GeoCodeUrl | handlers.go:75 | The geocode URL carries address, bounds and language unescaped, in that order. |
| Urls.ReverseGeocodeUrl | handlers.go:100 | The reverse-geocode URL carries the query-escaped latlng after `?latlng=`. |
| Urls.DistanceMatrixUrl | handlers.go:125-126 | The distance-matrix URL carries the query-escaped origins and destinations. |
| Urls.ArrayOfDataUrl | handlers.go:151 | The data URL is the data path, `/`, the query-escaped dataset name and `.json`. |
| Urls.StyleDetailsUrl | handlers.go:176 | The style URL is the styles path, `/`, the query-escaped style name and `/style.json`. |
| Urls.PlaceDetailUrl | handlers.go:220 | The details URL carries the place id unescaped after `?place_id=`. |
| Urls.NearBySearchUrl | handlers.go:244 | The nearby-search URL carries layers, location, types, radius, strictbounds, withCentroid and limit unescaped, in that order. |
| Urls.TextSearchUrl | handlers.go:270 | The text-search URL carries the query-escaped input, then location, radius, types and size unescaped. |
| Urls.SnapToRoadUrl | handlers.go:295-298 | The snap-to-road URL is the endpoint, `?`, and the encoded `points` and `enhancePath` pair. |
| Urls.NearestRoadsUrl | handlers.go:322 | The nearest-roads URL carries points and radius unescaped. |
| Library.PlanCall | handlers.go:15-31 | The operation dispatches exactly when its parameters are present and the token is non-empty. A missing parameter yields the parameter message, whatever the token. A missing token yields "Invalid OAuth token". A dispatched call carries the verb (POST only for directions), the URL, the session's request id and the token. |
| Library.OperationFailure | handlers.go:15-23 | The checks of an operation fail first on the parameters and then on the token. |
| Library.Run | handlers.go:28-36 | A rejected operation returns its message. A dispatched one succeeds exactly when the dispatcher does, with the dispatcher's response. Otherwise it returns "failed to send request to Olamaps API". |
| Library.RejectIgnoresDispatcher | handlers.go:15-23 | An operation that fails its checks errs whatever the dispatcher, and its result does not depend on the dispatcher. |
| Library.MissingParamsBeforeToken | handlers.go:16-23 | With a required parameter missing, the result does not depend on the session. |
| Library.GetStaticMapImageCenter | handlers.go:336-414 | No request is sent exactly when a check fails, and then the error is the first failing check's. A request is sent only with a non-empty token. It is the rendered template plus the optional query, with headers X-Request-Id, Authorization and a fresh X-Correlation-Id in that order. The result is then `ImageResult` of the exchange, with "failed to send request to Olamaps API" and "Failed to make external request". |
| Library.GetStaticMapImageBounded | handlers.go:416-496 | The same for the bounded variant, with the same two transport messages. Its headers are X-Request-Id, then the session's request id again as X-Correlation-Id, then Authorization. |
| Library.StaticMapImage | handlers.go:498-553 | The same for the auto variant, where `Path` is required. The URL always carries a query, and only Authorization is sent. Its transport messages are "Failed to create request" and "Failed to send request". |
| Library.ImageResult | handlers.go:390-413 | The definition of the transport result: a delivered response is returned whatever its status; a request that cannot be built, or a response that cannot be received, yields the variant's own message. |
| Library.CenterZoomBeforeHeightAndToken | handlers.go:351-370 | An unparsable zoom level is reported even when the height and the token are also bad. |
| Library.CenterTokenCheckedLast | handlers.go:337-370 | While any parameter check fails, the center result does not depend on the session. |
| Library.BoundedTokenCheckedLast | handlers.go:417-454 | The same for the bounded variant. |
| Library.AutoTokenCheckedLast | handlers.go:499-516 | The same for the auto variant. |
| Mock.FirstMatch | mock.go:34-78 | The result is the position of a fragment contained in the URL, and no earlier fragment is contained. There is no result exactly when no fragment is contained. |
| Mock.FirstMatchIs | mock.go:34-72 | The first contained fragment wins, whatever later fragments the URL also holds. |
| Mock.RoutedInOrder | mock.go:34-78 | The fragments are tried one after another, exactly as the switch cases are. |
| Mock.MockStruct.constructor | mock.go:28-31 | A new mock holds no body and status 0. |
| Mock.MockStruct.SendOlaMapRequest | mock.go:33-80 | If some fragment is in the URL, the mock returns no error, with status 200 and the canned body of the first fragment found. Otherwise it returns "Invalid request" with status 400. |
| Mock.DirectionsAlwaysWins | mock.go:35-37 | Any URL holding the directions fragment gets the directions body. |
| Mock.StaticImageUnrouted | mock.go:20 | The static-image fragment is never looked for, and the fragment itself is answered with 400. |
| MockRouting.EndpointHoldsItsKey | mock.go:35-73 | Every provider URL contains the mock fragment of its own endpoint. |
| MockRouting.EveryEndpointRouted | mock.go:34-78 | The mock finds a fragment in every provider URL, at or before the endpoint's own. |
| MockRouting.OwnBodyWithoutEarlierKey | mock.go:34-73 | When no earlier fragment occurs in the URL, the endpoint gets its own canned body. |
| MockRouting.DirectionsGetDirectionBody | mock.go:35-37 | Directions calls always get the directions body. |
| MockRouting.MockReply | mock.go:33-80 | The mock succeeds exactly when some routed fragment is in the URL. |
| MockRouting.MockNeverFails | handlers.go:28-33 | With the mock as dispatcher, an operation succeeds exactly when its own checks pass. |
| MockRouting.RunWithMock | handlers.go:28-36 | A rejected operation leaves the mock untouched. A dispatched one makes it record status 200 and the routed body, and returns the same result as `Run` with the mock's reply. |
| Facade.Get | internal/resources/handlers.go:33 | The definition of `url.Values.Get` (and `Header.Get`): the first value stored under the key, or the empty string when there is none. |
| Facade.GetAll | internal/resources/handlers.go:629 | The definition of `Values[key]`: every value of the key, or none when the key is absent. |
| Facade.ParamGuardsFollowPolicy | internal/resources/handlers.go:36-537 | Each handler's written parameter check passes exactly when the 400 policy accepts. For GeoCode and tiles the policy rejects only when all values are empty. For every other handler it rejects when any value is empty. |
| Facade.RadiusOrDefault | internal/resources/handlers.go:539-542 | The definition of the default radius: a given radius is kept, and a missing one becomes "500", so the radius sent is never empty. |
| Facade.Decide | internal/resources/handlers.go:31-56 | The handler answers 400 exactly when the policy rejects the parameters. Its text is the handler's own 400 message. It answers 401 exactly when they pass, the handler checks the token, and `Authorization` is empty; the text is the handler's 401 message. Otherwise it forwards its verb, the upstream URL, a fresh request id and the header's token. |
| Facade.DecideOrder | internal/resources/handlers.go:35-45 | The parameter check comes before the authorization check. |
| Facade.UpstreamFailure | internal/resources/handlers.go:394-397 | The definition of the 500 reply to a failed upstream call: status 500, with either the handler's fixed text or the error's own text. |
| Facade.DirectionsBadRequestFirst | internal/resources/handlers.go:36-39 | A missing origin or destination is answered 400 whatever the headers hold. |
| Facade.GeoCodeAllEmptyRule | internal/resources/handlers.go:107-117 | GeoCode answers 400 exactly when address, bounds and language are all empty. |
| Facade.PbfFileAllEmptyRule | internal/resources/handlers.go:196-206 | The tile handler answers 400 exactly when dataset_name, z, x and y are all empty. |
| Facade.NoTokenCheckForwardsEmpty | internal/resources/handlers.go:239-260 | Distance matrix and array-of-data forward an empty token instead of answering 401. |
| Facade.MapStyleOnlyAuth | internal/resources/handlers.go:343-349 | Map style answers by itself exactly when `Authorization` is empty, and then with 401 "Missing OAuth token". |
| Facade.NearestRoadsUpstreamUrl | internal/resources/handlers.go:539-555 | The nearest-roads handler sends the points and the given radius, or "500" when none is given. |
| Facade.NearestRoadsDefaultRadius | internal/resources/handlers.go:531-555 | With no radius given, the upstream URL carries `radius=500`. |
| Facade.DistanceMatrixDiffersFromLibrary | internal/resources/handlers.go:239-260 | Without credentials the facade forwards a distance-matrix request, while the library rejects it with "Invalid OAuth token". |
| Recorder.ResponseRecorder.constructor | internal/resources/handlers.go:61-62 | A fresh writer has status 200, no headers, no body and no status written yet. |
| Recorder.ResponseRecorder.SetHeader | internal/resources/handlers.go:61 | Only the named header changes. |
| Recorder.ResponseRecorder.WriteHeader | internal/resources/handlers.go:62 | Only the first status written takes effect. |
| Recorder.ResponseRecorder.Write | internal/resources/handlers.go:690 | A body write with no status written implies 200, and the data is appended. It is used only once a status or a content type is set. |
| Recorder.ResponseRecorder.Error | internal/resources/handlers.go:37 | `http.Error` drops Content-Length and sets the plain-text type and `nosniff`. It writes the status, then the message and a newline. |
| FacadeImages.ForwardHeaders | internal/resources/handlers.go:650-669 | The headers sent are X-Request-Id (the caller's, or a fresh one), then Authorization, then the caller's X-Correlation-Id, only when one is given. |
| FacadeImages.CenterHandlerPlan | internal/resources/handlers.go:575-669 | The handler refuses exactly when a check fails, with the first failing check's status and text; authorization is checked last. Otherwise the request is the rendered template plus the optional query, with the forwarded headers. |
| FacadeImages.BoundedHandlerPlan | internal/resources/handlers.go:697-800 | The same for the bounded handler. |
| FacadeImages.AutoHandlerPlan | internal/resources/handlers.go:827-871 | The auto handler refuses exactly when a check fails, always with 400. It never checks authorization and sends no headers. |
| FacadeImages.FetchedImageOutcome | internal/resources/handlers.go:657-694 | The image is served exactly on an upstream 200, as `image/<format>`. Another status is echoed with "Failed to fetch image". Transport failures are answered 500 with their own texts. |
| FacadeImages.AutoImageOutcome | internal/resources/handlers.go:871-903 | The image is served exactly on an upstream 200. Another status is echoed with "Error: " and the status line. Transport failures are answered 500 with their own texts. |
| FacadeImages.ImageAuthCheckedLast | internal/resources/handlers.go:585-626 | While a parameter check fails, the reply does not depend on the headers. |
| FacadeImages.BoundedMissingToken | internal/resources/handlers.go:749-755 | A fully valid bounded request without `Authorization` is refused with 401 "Missing OAuth token". |
| FacadeImages.CenterZoomReportedFirst | internal/resources/handlers.go:603-619 | An invalid zoom level is reported before an invalid width or height. |
| Serving.WriteOutcome | internal/resources/handlers.go:680-694 | A failure writes its status and line. An image writes 200, its content type and its body. |
| Serving.WriteUpstreamResult | internal/resources/handlers.go:55-65 | A successful upstream call writes 200, `application/json` and the encoded body. A failed one writes the handler's 500 line. |
| Serving.ServeJson | internal/resources/handlers.go:31-66 | A whole JSON handler: 400 exactly as the policy says, with the handler's 400 line; 401 with the handler's 401 line; otherwise the forwarded call's JSON with 200, or the 500 line. |
| Serving.ServeCenterImage | internal/resources/handlers.go:575-695 | A whole center handler. It refuses exactly when a check fails, writing the first failed check's status and line. Otherwise it fetches the template URL plus the optional query, with the forwarded headers. An upstream failure writes its status and line ("Failed to fetch image" for a non-200 status); an upstream 200 writes status 200, `image/<format>` and the image bytes. |
| Serving.ServeBoundedImage | internal/resources/handlers.go:697-825 | The same for the bounded handler. |
| Serving.ServeAutoImage | internal/resources/handlers.go:827-904 | The same for the auto handler. Its refusals are the first failed check's, always 400. It fetches with no headers, and a non-200 status is written with "Error: " and the status line. |
| Serving.BoundedWithoutToken | internal/resources/handlers.go:749-755 | A valid bounded request without `Authorization`, served into a new recorder, ends with 401 and the body "Missing OAuth token\n". |

## Left out

- Token acquisition (`GetAccessToken`, `GetTokenHandler`) and the session constructor: these are network calls with credentials. The session is modelled as its token and request id.
- HTTP transport: sending, the status line, and reading the body are parameters (`send`, `fetch`, `Transport`).
- JSON decoding of provider responses and JSON encoding of the facade's replies: a reply is its encoded text. An encoding failure after the 200 is already written is not modelled.
- Serving.ServeCenterImage, Serving.ServeBoundedImage, Serving.ServeAutoImage: a failure while copying or reading the image body (the "Failed to write image data", "Failed to read response body" and "Failed to write response body" branches) is not modelled. These are I/O errors on streams.
- `strconv.ParseFloat`, `strconv.Atoi`, the `%f`/`%d` renderings, `url.QueryEscape`, `url.PathEscape` and `url.Values.Encode` are uninterpreted functions in `Codec`. Their results are not specified, including the key ordering that `Encode` applies.
- Fresh UUIDs (`uuid.New`) are parameters of the members that use them.
- The library's package-level URL templates are not part of this model. They are taken to be the same literals as `internal/app/endpoints.go`.
- The facade's URL templates (`app.DirectionsURL` and the rest) are taken to be the same literals as `internal/app/endpoints.go`. `LoadConfig` (`internal/app/app.go:54-70`), which `main.go:13` calls before serving, overwrites each of them from an environment variable. So the exact URLs stated for the facade (`Facade.Decide`, `Facade.NearestRoadsUpstreamUrl`, the image handlers' request URLs) hold only when the environment holds those literals.
- `app.PbfFileURL` has no literal definition; it is read only from the environment. It is a four-directive parameter of `Facade.Decide`.
- Canned mock bodies (`mock_response.go`) are opaque distinct values. The mock does not decode them into `responseObj`.
- Mock.MockStruct.SendOlaMapRequest: when no fragment matches, the value left in `MockBody` is not stated. `mock.go:76` assigns `nil` to this `string` field, which Go rejects, so the source gives no value to model. This model leaves the field untouched.
- MockRouting.OwnBodyWithoutEarlierKey: that an operation other than directions gets its own body is proved only under the hypothesis that no earlier fragment occurs in its URL. Argument text could contain such a fragment.
- Header-key canonicalisation (`textproto.CanonicalMIMEHeaderKey`) is not modelled. Header keys are compared as given.
- Recorder.ResponseRecorder.Write: the recorder's guess of a content type from the first bytes, made when neither a status nor a content type was set, is not modelled. The write is required to come after one of the two, as every write in these handlers does.
- Recorder.ResponseRecorder.WriteHeader: status codes are not checked for validity. Headers set after the status is written are not separated from those sent with it.
- Concurrency, the HTTP router (`main.go`) and configuration loading (`app.go`) are not modelled.

