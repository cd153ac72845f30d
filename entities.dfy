/** The values the Story API and the pages exchange. Coordinates are reals; JavaScript's
    `NaN` and float rounding are not modelled. */
module Entities {
  import opened Wrappers

  /** A `File` chosen in (or captured into) a form's photo input. */
  datatype Photo = Photo(name: string, size: nat, mimeType: string)

  /** A point on the map (Leaflet's `LatLng`). */
  datatype LatLng = LatLng(lat: real, lng: real)

  /** One element of the API's `listStory`; `lat`/`lon` are `null` for stories without a place. */
  datatype Story = Story(
    id: string, name: string, description: string, photoUrl: string, createdAt: string,
    lat: Option<real>, lon: Option<real>)

  /** The `loginResult` object of a successful login response. */
  datatype LoginResult = LoginResult(userId: string, name: string, token: string)

  /** A coordinate is truthy in JavaScript when present and not zero. */
  predicate TruthyCoord(x: Option<real>) {
    x.Some? && x.value != 0.0
  }
}
