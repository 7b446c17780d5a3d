/** The bounding box a collection run covers. Coordinates are exact reals
    here; the crawler's floating-point rounding is not modelled. */
module Geo {

  datatype BBox = BBox(latMin: real, latMax: real, lngMin: real, lngMax: real)
}
