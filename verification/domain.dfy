/**
 The inputs of the recommendation engine: the soil and crop enumerations and
 one soil reading.
 */
module Domain {

  /** The soil types the input form offers, by their internal identifiers. */
  datatype Soil = Loamy | Sandy | Clayey | Silt | Peat

  /** The crop types the input form offers, by their internal identifiers. */
  datatype Crop = Rice | Maize | Wheat | Millet | Cotton | Pulses | Vegetables

  /** The internal English identifier of a crop, as interpolated into reason text. */
  function CropName(c: Crop): (name: string)
    ensures |name| > 0
  {
    match c
    case Rice => "Rice"
    case Maize => "Maize"
    case Wheat => "Wheat"
    case Millet => "Millet"
    case Cotton => "Cotton"
    case Pulses => "Pulses"
    case Vegetables => "Vegetables"
  }

  /** Different crops have different names, so a crop note identifies its crop. */
  lemma CropNamesDistinct(c: Crop, d: Crop)
    ensures CropName(c) == CropName(d) ==> c == d
  {
  }

  /**
   The measurements the engine consults: nitrogen, phosphorous and potassium
   concentrations and soil moisture. They are only ever compared, so `real`
   covers the integers and the finite floating-point values a caller may
   pass; a NaN, which compares false against everything, is not modelled.
   */
  datatype Reading = Reading(n: real, p: real, k: real, m: real)
}
