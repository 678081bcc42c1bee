/** The test double for the dispatcher (mock.go): it answers by looking for
    fixed path fragments in the URL, in a fixed order, and records the status
    and canned body of the first one found. */
module Mock {
  import opened Text

  const MockDirectionsURL := "routing/v1/directions"
  const MockDistanceMatrixURL := "routing/v1/distanceMatrix"
  const MockAutoCompleteURL := "places/v1/autocomplete"
  const MockGecodeURL := "places/v1/geocode"
  const MockReverseGecodeURL := "places/v1/reverse-geocode"
  const MockArrayOfDataURL := "tiles/vector/v1/data"
  const MockPlaceDetailURL := "places/v1/details"
  const MockNearBySearchURL := "places/v1/nearbysearch"
  const MockTextSearchURL := "places/v1/textsearch"
  const MockSnapToRoadURL := "routing/v1/snapToRoad"
  const MockNearestRoadURL := "routing/v1/nearestRoads"
  /** Declared beside the others but never looked for. */
  const MockStaticMapImageURL := "static/auto"
  const MockMapStyleURL := "tiles/vector/v1/styles.json"
  const MockStyleDetailsURL := "style.json"

  /** The canned response bodies (mock_response.go), as opaque values. */
  datatype CannedResponse =
    | DirectionResponse | DistanceMatrixResponse | GeoCodeResponse | ReverseGeocodeResponse
    | SnapToRoadResponse | NearestRoadResponse | ArrayOfDataResponse | AutoCompleteResponse
    | PlaceDetailResponse | NearBySearchResponses | TextSearchResponse | MapStyleResponse
    | StyleDetailResponse

  /** The value of `MockBody`: still the empty string it starts as, or a canned body. */
  datatype Body = NoBody | Canned(response: CannedResponse)

  const InvalidRequest := "Invalid request"

  /** The fragments looked for, in the order the cases are tried. */
  const RoutedKeys: seq<string> := [
    MockDirectionsURL, MockDistanceMatrixURL, MockGecodeURL, MockReverseGecodeURL,
    MockSnapToRoadURL, MockNearestRoadURL, MockArrayOfDataURL, MockAutoCompleteURL,
    MockPlaceDetailURL, MockNearBySearchURL, MockTextSearchURL, MockMapStyleURL,
    MockStyleDetailsURL]

  /** The body each case records, position by position with `RoutedKeys`. */
  const RoutedBodies: seq<CannedResponse> := [
    DirectionResponse, DistanceMatrixResponse, GeoCodeResponse, ReverseGeocodeResponse,
    SnapToRoadResponse, NearestRoadResponse, ArrayOfDataResponse, AutoCompleteResponse,
    PlaceDetailResponse, NearBySearchResponses, TextSearchResponse, MapStyleResponse,
    StyleDetailResponse]

  /** The position of the first key at or after `from` contained in `url`, if any. */
  function FirstMatchFrom(url: string, keys: seq<string>, from: nat): (r: Option<nat>)
    requires from <= |keys|
    ensures r.Some? ==> from <= r.value < |keys| && Contains(url, keys[r.value])
    ensures r.Some? ==> forall j :: from <= j < r.value ==> !Contains(url, keys[j])
    ensures r.None? <==> forall j :: from <= j < |keys| ==> !Contains(url, keys[j])
    decreases |keys| - from
  {
    if from == |keys| then None
    else if Contains(url, keys[from]) then Some(from)
    else FirstMatchFrom(url, keys, from + 1)
  }

  /** The position of the first key contained in `url`, if any. */
  function FirstMatch(url: string, keys: seq<string>): (r: Option<nat>)
    ensures r.Some? ==> r.value < |keys| && Contains(url, keys[r.value])
    ensures r.Some? ==> forall j :: 0 <= j < r.value ==> !Contains(url, keys[j])
    ensures r.None? <==> forall j :: 0 <= j < |keys| ==> !Contains(url, keys[j])
  {
    FirstMatchFrom(url, keys, 0)
  }

  /** The first contained key wins, whatever later keys the URL also holds. */
  lemma FirstMatchIs(url: string, keys: seq<string>, i: nat)
    requires i < |keys| && Contains(url, keys[i])
    requires forall j :: 0 <= j < i ==> !Contains(url, keys[j])
    ensures FirstMatch(url, keys) == Some(i)
  {
    var r := FirstMatch(url, keys);
    assert !(r.value < i);
  }

  /** The routed keys are tried one after another, as the cases of a switch. */
  lemma RoutedInOrder(url: string)
    ensures FirstMatchFrom(url, RoutedKeys, 0) ==
      if Contains(url, MockDirectionsURL) then Some(0) else FirstMatchFrom(url, RoutedKeys, 1)
    ensures FirstMatchFrom(url, RoutedKeys, 1) ==
      if Contains(url, MockDistanceMatrixURL) then Some(1) else FirstMatchFrom(url, RoutedKeys, 2)
    ensures FirstMatchFrom(url, RoutedKeys, 2) ==
      if Contains(url, MockGecodeURL) then Some(2) else FirstMatchFrom(url, RoutedKeys, 3)
    ensures FirstMatchFrom(url, RoutedKeys, 3) ==
      if Contains(url, MockReverseGecodeURL) then Some(3) else FirstMatchFrom(url, RoutedKeys, 4)
    ensures FirstMatchFrom(url, RoutedKeys, 4) ==
      if Contains(url, MockSnapToRoadURL) then Some(4) else FirstMatchFrom(url, RoutedKeys, 5)
    ensures FirstMatchFrom(url, RoutedKeys, 5) ==
      if Contains(url, MockNearestRoadURL) then Some(5) else FirstMatchFrom(url, RoutedKeys, 6)
    ensures FirstMatchFrom(url, RoutedKeys, 6) ==
      if Contains(url, MockArrayOfDataURL) then Some(6) else FirstMatchFrom(url, RoutedKeys, 7)
    ensures FirstMatchFrom(url, RoutedKeys, 7) ==
      if Contains(url, MockAutoCompleteURL) then Some(7) else FirstMatchFrom(url, RoutedKeys, 8)
    ensures FirstMatchFrom(url, RoutedKeys, 8) ==
      if Contains(url, MockPlaceDetailURL) then Some(8) else FirstMatchFrom(url, RoutedKeys, 9)
    ensures FirstMatchFrom(url, RoutedKeys, 9) ==
      if Contains(url, MockNearBySearchURL) then Some(9) else FirstMatchFrom(url, RoutedKeys, 10)
    ensures FirstMatchFrom(url, RoutedKeys, 10) ==
      if Contains(url, MockTextSearchURL) then Some(10) else FirstMatchFrom(url, RoutedKeys, 11)
    ensures FirstMatchFrom(url, RoutedKeys, 11) ==
      if Contains(url, MockMapStyleURL) then Some(11) else FirstMatchFrom(url, RoutedKeys, 12)
    ensures FirstMatchFrom(url, RoutedKeys, 12) ==
      if Contains(url, MockStyleDetailsURL) then Some(12) else None
  {
  }

  /** A mock dispatcher; its two fields are the only state it keeps. */
  class MockStruct {
    var mockBody: Body
    var statusCode: int

    /** `&MockStruct{}`: the zero value. */
    constructor()
      ensures mockBody == NoBody && statusCode == 0
    {
      mockBody := NoBody;
      statusCode := 0;
    }

    /** Records the outcome for `url`; the method, request id and token are
        ignored. The body recorded when nothing matches is left unstated. */
    method SendOlaMapRequest(verb: string, url: string, requestId: string, oauthToken: string)
      returns (err: Option<string>)
      modifies this
      ensures FirstMatch(url, RoutedKeys).Some? ==>
        err == None && statusCode == 200 &&
        mockBody == Canned(RoutedBodies[FirstMatch(url, RoutedKeys).value])
      ensures FirstMatch(url, RoutedKeys).None? ==>
        err == Some(InvalidRequest) && statusCode == 400
    {
      RoutedInOrder(url);
      if Contains(url, MockDirectionsURL) {
        statusCode := 200;
        mockBody := Canned(DirectionResponse);
      } else if Contains(url, MockDistanceMatrixURL) {
        statusCode := 200;
        mockBody := Canned(DistanceMatrixResponse);
      } else if Contains(url, MockGecodeURL) {
        statusCode := 200;
        mockBody := Canned(GeoCodeResponse);
      } else if Contains(url, MockReverseGecodeURL) {
        statusCode := 200;
        mockBody := Canned(ReverseGeocodeResponse);
      } else if Contains(url, MockSnapToRoadURL) {
        statusCode := 200;
        mockBody := Canned(SnapToRoadResponse);
      } else if Contains(url, MockNearestRoadURL) {
        statusCode := 200;
        mockBody := Canned(NearestRoadResponse);
      } else if Contains(url, MockArrayOfDataURL) {
        statusCode := 200;
        mockBody := Canned(ArrayOfDataResponse);
      } else if Contains(url, MockAutoCompleteURL) {
        statusCode := 200;
        mockBody := Canned(AutoCompleteResponse);
      } else if Contains(url, MockPlaceDetailURL) {
        statusCode := 200;
        mockBody := Canned(PlaceDetailResponse);
      } else if Contains(url, MockNearBySearchURL) {
        statusCode := 200;
        mockBody := Canned(NearBySearchResponses);
      } else if Contains(url, MockTextSearchURL) {
        statusCode := 200;
        mockBody := Canned(TextSearchResponse);
      } else if Contains(url, MockMapStyleURL) {
        statusCode := 200;
        mockBody := Canned(MapStyleResponse);
      } else if Contains(url, MockStyleDetailsURL) {
        statusCode := 200;
        mockBody := Canned(StyleDetailResponse);
      } else {
        statusCode := 400;
        return Some(InvalidRequest);
      }
      return None;
    }
  }

  /** A URL holding the directions fragment always gets the directions body,
      whatever other fragments it holds. */
  lemma DirectionsAlwaysWins(url: string)
    requires Contains(url, MockDirectionsURL)
    ensures FirstMatch(url, RoutedKeys) == Some(0)
    ensures RoutedBodies[0] == DirectionResponse
  {
    FirstMatchIs(url, RoutedKeys, 0);
  }

  /** The static-image fragment is not among the routed keys, and the bare
      fragment itself contains none of them: it gets the 400 answer. */
  lemma StaticImageUnrouted()
    ensures MockStaticMapImageURL !in RoutedKeys
    ensures FirstMatch(MockStaticMapImageURL, RoutedKeys) == None
  {
    var s := MockStaticMapImageURL;
    forall j | 0 <= j < |RoutedKeys|
      ensures !Contains(s, RoutedKeys[j])
    {
      var k := RoutedKeys[j];
      if j == 12 {
        assert s[2] != k[2];
        assert !HasPrefix(s, k);
        assert s[1..][0] != k[0];
        assert !HasPrefix(s[1..], k);
        LongerNotContained(s[2..], k);
        assert s[1..][1..] == s[2..];
      } else {
        LongerNotContained(s, k);
      }
    }
  }
}
