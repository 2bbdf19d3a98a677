/** The static records the map displays: trails (routes) and attractions
    (points of interest), each with a bilingual name. Colours, URLs, difficulty
    and time labels and icons are presentation only and are not kept. */
module Records {

  /** The two UI languages, `"zh"` and `"en"`. */
  datatype Language = Zh | En

  datatype Name = Name(zh: string, en: string)

  /** `name[language]`. */
  function NameIn(n: Name, lang: Language): string
  {
    match lang
    case Zh => n.zh
    case En => n.en
  }

  /** A geographic coordinate in degrees. */
  datatype LatLng = LatLng(lat: real, lng: real)

  datatype Trail = Trail(id: int, name: Name, familyFriendly: bool, coordinates: seq<LatLng>)

  /** `onTrail` is the id of the trail the attraction is listed under. */
  datatype Attraction = Attraction(id: int, name: Name, position: LatLng, familyFriendly: bool, onTrail: int)
}
