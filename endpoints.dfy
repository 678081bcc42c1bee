/** The provider's URL templates (internal/app/endpoints.go). Each template is
    split at its directives; the comment above each shows where they stand.
    The path segments are named so that the mock dispatcher's routing keys can
    be found inside the URLs built from them. */
module Endpoints {
  import opened Text

  const Host := "https://api.olamaps.io/"

  const DirectionsPath := "routing/v1/directions"
  const DistanceMatrixPath := "routing/v1/distanceMatrix"
  const AutoCompletePath := "places/v1/autocomplete"
  const GeoCodePath := "places/v1/geocode"
  const ReverseGeocodePath := "places/v1/reverse-geocode"
  const ArrayOfDataPath := "tiles/vector/v1/data"
  const StylesPath := "tiles/vector/v1/styles"
  const StyleFile := "style.json"
  const MapStylePath := "tiles/vector/v1/styles.json"
  const PlaceDetailPath := "places/v1/details"
  const NearBySearchPath := "places/v1/nearbysearch"
  const TextSearchPath := "places/v1/textsearch"
  const SnapToRoadPath := "routing/v1/snapToRoad"
  const NearestRoadsPath := "routing/v1/nearestRoads"
  const StaticImagePath := "tiles/v1/styles"

  // routing/v1/directions?origin=%s&destination=%s
  const DirectionsURL := Format(Host + DirectionsPath + "?origin=", ["&destination=", ""])
  // places/v1/autocomplete?input=%s
  const PlaceAutoCompleteURL := Format(Host + AutoCompletePath + "?input=", [""])
  // places/v1/geocode?address=%s&bounds=%s&language=%s
  const GeoCodeURL := Format(Host + GeoCodePath + "?address=", ["&bounds=", "&language=", ""])
  // places/v1/reverse-geocode?latlng=%s
  const ReverseGeocodeURL := Format(Host + ReverseGeocodePath + "?latlng=", [""])
  // routing/v1/distanceMatrix?origins=%s&destinations=%s
  const DistanceMatrixURL := Format(Host + DistanceMatrixPath + "?origins=", ["&destinations=", ""])
  // tiles/vector/v1/data/%s.json
  const ArrayOfDataURL := Format(Host + ArrayOfDataPath + "/", [".json"])
  // tiles/vector/v1/styles/%s/style.json
  const StyleDetailsURL := Format(Host + StylesPath + "/", ["/" + StyleFile])
  // tiles/vector/v1/styles.json (no directive)
  const MapStyleURL := Host + MapStylePath
  // places/v1/details?place_id=%v
  const PlaceDetailURL := Format(Host + PlaceDetailPath + "?place_id=", [""])
  // places/v1/nearbysearch?layers=%s&location=%s&types=%s&radius=%s&strictbounds=%s&withCentroid=%s&limit=%s
  const NearBySearchURL := Format(Host + NearBySearchPath + "?layers=",
    ["&location=", "&types=", "&radius=", "&strictbounds=", "&withCentroid=", "&limit=", ""])
  // places/v1/textsearch?input=%s&location=%s&radius=%s&types=%s&size=%s
  const TextSearchURL := Format(Host + TextSearchPath + "?input=", ["&location=", "&radius=", "&types=", "&size=", ""])
  // routing/v1/snapToRoad?%s
  const SnapToRoadURL := Format(Host + SnapToRoadPath + "?", [""])
  // routing/v1/nearestRoads?points=%s&radius=%s
  const NearestRoadsURL := Format(Host + NearestRoadsPath + "?points=", ["&radius=", ""])
  // tiles/v1/styles/%s/static/%f,%f,%d/%dx%d.%s
  const StaticMapImageCenterURL := Format(Host + StaticImagePath + "/", ["/static/", ",", ",", "/", "x", ".", ""])
  // tiles/v1/styles/%s/static/%f,%f,%f,%f/%dx%d.%s
  const StaticMapImageBoundedURL := Format(Host + StaticImagePath + "/", ["/static/", ",", ",", ",", "/", "x", ".", ""])
  // tiles/v1/styles/%s/static/auto/%dx%d.%s
  const StaticMapImageURL := Format(Host + StaticImagePath + "/", ["/static/auto/", "x", ".", ""])
}
