/** What the three static-map-image operations share, in the library and in
    the HTTP facade alike: the optional `marker`/`path` query suffix, the
    request they send directly (they do not go through the dispatcher), and
    how a transport outcome becomes their result. */
module Images {
  import opened Text
  import opened Encoding

  /** A GET request for an image: its URL and the headers added, in order. */
  datatype ImageRequest = ImageRequest(url: string, headers: seq<(string, string)>)

  /** What happened to a request sent over HTTP: `http.NewRequest` refused
      the URL, `client.Do` failed, or a response came back. */
  datatype Transport<+R> = Unbuildable | Unreachable | Delivered(response: R)

  /** The query parameters, in the order they are added to the `url.Values`. */
  function ImageQuery(markers: seq<string>, path: string): (params: seq<(string, string)>)
    ensures ("marker", Join(markers, ",")) in params <==> |markers| > 0
    ensures ("path", path) in params <==> path != ""
    ensures params == [] <==> |markers| == 0 && path == ""
    ensures forall i :: 0 <= i < |params| ==> params[i].0 == "marker" || params[i].0 == "path"
    ensures |params| == (if |markers| > 0 then 1 else 0) + (if path != "" then 1 else 0)
    ensures |markers| > 0 ==> params[0] == ("marker", Join(markers, ","))
    ensures path != "" ==> params[|params| - 1] == ("path", path)
  {
    (if |markers| > 0 then [("marker", Join(markers, ","))] else [])
      + (if path != "" then [("path", path)] else [])
  }

  /** The URL with `?` and the encoded parameters appended, when there are any. */
  function WithImageQuery(base: string, markers: seq<string>, path: string, c: Codec): (url: string)
    ensures url == base <==> |markers| == 0 && path == ""
    ensures url != base ==> url == base + "?" + c.encodeQuery(ImageQuery(markers, path))
  {
    var params := ImageQuery(markers, path);
    if params == [] then base else base + "?" + c.encodeQuery(params)
  }

  /** The query construction as the handlers perform it: add into an empty
      `url.Values`, then append to the URL when something was added. */
  method AddImageQuery(apiUrl: string, markers: seq<string>, path: string, c: Codec) returns (url: string)
    ensures url == WithImageQuery(apiUrl, markers, path, c)
  {
    var queryParams: seq<(string, string)> := [];
    if |markers| > 0 {
      queryParams := queryParams + [("marker", Join(markers, ","))];
    }
    if path != "" {
      queryParams := queryParams + [("path", path)];
    }
    assert queryParams == ImageQuery(markers, path);
    url := apiUrl;
    if |queryParams| > 0 {
      url := url + "?" + c.encodeQuery(queryParams);
    }
  }
}
