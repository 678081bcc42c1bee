/** The URL each library operation sends, spelled out: the template with
    every directive replaced by its (escaped, where the code escapes it)
    argument. */
module Urls {
  import opened Text
  import opened Encoding
  import opened Endpoints
  import opened Library

  lemma DirectionsUrl(origin: string, destination: string, c: Codec)
    ensures EndpointUrl(GetDirections(origin, destination), c) ==
      Host + DirectionsPath + "?origin=" + origin + "&destination=" + destination
  {
    SprintfTwo(Host + DirectionsPath + "?origin=", "&destination=", "", origin, destination);
  }

  lemma AutoCompleteUrl(input: string, c: Codec)
    ensures EndpointUrl(PlaceAutoComplete(input), c) == Host + AutoCompletePath + "?input=" + input
  {
    SprintfOne(Host + AutoCompletePath + "?input=", "", input);
  }

  lemma GeoCodeUrl(address: string, bounds: string, language: string, c: Codec)
    ensures EndpointUrl(GeoCode(address, bounds, language), c) ==
      Host + GeoCodePath + "?address=" + address + "&bounds=" + bounds + "&language=" + language
  {
    var lead := Host + GeoCodePath + "?address=";
    SprintfPeel(lead, "&bounds=", ["&language=", ""], address, [bounds, language]);
    SprintfTwo(lead + address + "&bounds=", "&language=", "", bounds, language);
  }

  lemma ReverseGeocodeUrl(latlng: string, c: Codec)
    ensures EndpointUrl(ReverseGeocode(latlng), c) ==
      Host + ReverseGeocodePath + "?latlng=" + c.queryEscape(latlng)
  {
    SprintfOne(Host + ReverseGeocodePath + "?latlng=", "", c.queryEscape(latlng));
  }

  lemma DistanceMatrixUrl(origins: string, destinations: string, c: Codec)
    ensures EndpointUrl(GetDistanceMatrix(origins, destinations), c) ==
      Host + DistanceMatrixPath + "?origins=" + c.queryEscape(origins)
        + "&destinations=" + c.queryEscape(destinations)
  {
    SprintfTwo(Host + DistanceMatrixPath + "?origins=", "&destinations=", "",
               c.queryEscape(origins), c.queryEscape(destinations));
  }

  lemma ArrayOfDataUrl(datasetName: string, c: Codec)
    ensures EndpointUrl(ArrayOfData(datasetName), c) ==
      Host + ArrayOfDataPath + "/" + c.queryEscape(datasetName) + ".json"
  {
    SprintfOne(Host + ArrayOfDataPath + "/", ".json", c.queryEscape(datasetName));
  }

  lemma StyleDetailsUrl(styleName: string, c: Codec)
    ensures EndpointUrl(GetStyleDetails(styleName), c) ==
      Host + StylesPath + "/" + c.queryEscape(styleName) + "/" + StyleFile
  {
    SprintfOne(Host + StylesPath + "/", "/" + StyleFile, c.queryEscape(styleName));
  }

  lemma PlaceDetailUrl(placeId: string, c: Codec)
    ensures EndpointUrl(GetPlaceDetail(placeId), c) == Host + PlaceDetailPath + "?place_id=" + placeId
  {
    SprintfOne(Host + PlaceDetailPath + "?place_id=", "", placeId);
  }

  lemma NearBySearchUrl(n: NearBySearch, c: Codec)
    ensures EndpointUrl(GetNearBySearch(n), c) ==
      Host + NearBySearchPath + "?layers=" + n.layers + "&location=" + n.location + "&types=" + n.types
        + "&radius=" + n.radius + "&strictbounds=" + n.strictbounds + "&withCentroid=" + n.withCentroid
        + "&limit=" + n.limit
  {
    var l0 := Host + NearBySearchPath + "?layers=";
    var r1 := ["&types=", "&radius=", "&strictbounds=", "&withCentroid=", "&limit=", ""];
    var a1 := [n.types, n.radius, n.strictbounds, n.withCentroid, n.limit];
    calc {
      EndpointUrl(GetNearBySearch(n), c);
      { assert [n.layers, n.location] + a1 ==
          [n.layers, n.location, n.types, n.radius, n.strictbounds, n.withCentroid, n.limit]; }
      Sprintf(NearBySearchURL, [n.layers, n.location] + a1);
      { assert NearBySearchURL == Format(l0, ["&location="] + r1);
        assert [n.layers, n.location] + a1 == [n.layers] + ([n.location] + a1);
        SprintfPeel(l0, "&location=", r1, n.layers, [n.location] + a1); }
      Sprintf(Format(l0 + n.layers + "&location=", r1), [n.location] + a1);
      { NearBySearchTail(l0 + n.layers + "&location=", n); }
      l0 + n.layers + "&location=" + n.location + "&types=" + n.types + "&radius=" + n.radius
        + "&strictbounds=" + n.strictbounds + "&withCentroid=" + n.withCentroid + "&limit=" + n.limit;
    }
  }

  /** The nearby-search template after its first directive. */
  lemma NearBySearchTail(lead: string, n: NearBySearch)
    ensures Sprintf(Format(lead, ["&types=", "&radius=", "&strictbounds=", "&withCentroid=", "&limit=", ""]),
                    [n.location, n.types, n.radius, n.strictbounds, n.withCentroid, n.limit]) ==
      lead + n.location + "&types=" + n.types + "&radius=" + n.radius
        + "&strictbounds=" + n.strictbounds + "&withCentroid=" + n.withCentroid + "&limit=" + n.limit
  {
    var l1 := lead + n.location + "&types=";
    SprintfPeel(lead, "&types=", ["&radius=", "&strictbounds=", "&withCentroid=", "&limit=", ""],
                n.location, [n.types, n.radius, n.strictbounds, n.withCentroid, n.limit]);
    var l2 := l1 + n.types + "&radius=";
    SprintfPeel(l1, "&radius=", ["&strictbounds=", "&withCentroid=", "&limit=", ""],
                n.types, [n.radius, n.strictbounds, n.withCentroid, n.limit]);
    var l3 := l2 + n.radius + "&strictbounds=";
    SprintfPeel(l2, "&strictbounds=", ["&withCentroid=", "&limit=", ""],
                n.radius, [n.strictbounds, n.withCentroid, n.limit]);
    SprintfPeel(l3, "&withCentroid=", ["&limit=", ""], n.strictbounds, [n.withCentroid, n.limit]);
    SprintfTwo(l3 + n.strictbounds + "&withCentroid=", "&limit=", "", n.withCentroid, n.limit);
  }

  lemma TextSearchUrl(t: TextSearch, c: Codec)
    ensures EndpointUrl(GetTextSearch(t), c) ==
      Host + TextSearchPath + "?input=" + c.queryEscape(t.input) + "&location=" + t.location
        + "&radius=" + t.radius + "&types=" + t.types + "&size=" + t.size
  {
    var l0 := Host + TextSearchPath + "?input=";
    SprintfPeel(l0, "&location=", ["&radius=", "&types=", "&size=", ""],
                c.queryEscape(t.input), [t.location, t.radius, t.types, t.size]);
    var l1 := l0 + c.queryEscape(t.input) + "&location=";
    SprintfPeel(l1, "&radius=", ["&types=", "&size=", ""], t.location, [t.radius, t.types, t.size]);
    var l2 := l1 + t.location + "&radius=";
    SprintfPeel(l2, "&types=", ["&size=", ""], t.radius, [t.types, t.size]);
    SprintfTwo(l2 + t.radius + "&types=", "&size=", "", t.types, t.size);
  }

  lemma SnapToRoadUrl(points: string, enhancePath: string, c: Codec)
    ensures EndpointUrl(GetSnapToRoad(points, enhancePath), c) ==
      Host + SnapToRoadPath + "?" + c.encodeQuery([("points", points), ("enhancePath", enhancePath)])
  {
    SprintfOne(Host + SnapToRoadPath + "?", "", c.encodeQuery([("points", points), ("enhancePath", enhancePath)]));
  }

  lemma NearestRoadsUrl(points: string, radius: string, c: Codec)
    ensures EndpointUrl(GetNearestRoads(points, radius), c) ==
      Host + NearestRoadsPath + "?points=" + points + "&radius=" + radius
  {
    SprintfTwo(Host + NearestRoadsPath + "?points=", "&radius=", "", points, radius);
  }
}
