/** The folium objects the map helpers create and attach to a map. Their
    internals belong to folium and are not modelled: an element is recorded
    with the keyword arguments it was built from. */
module Elements {
  import opened Py

  /** A Leaflet corner, `[lat, lng]`. Coordinates are opaque values. */
  datatype LatLng = LatLng(lat: Value, lng: Value)

  /** A Leaflet bounds, `[[south, west], [north, east]]`. */
  datatype Bounds = Bounds(southWest: LatLng, northEast: LatLng)

  /** A child attached to a map, tagged by its kind. */
  datatype Child =
    | LayersControl(position: Value)
    | FullscreenControl(position: Value)
    | SearchControl(position: Value, options: Kwargs)
    | DrawControl(options: Kwargs)
    | TileLayer(options: Kwargs)
    | FitBounds(bounds: Bounds)
}
