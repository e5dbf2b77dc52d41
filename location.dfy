/** The dashboard's city search (script.js `searchLocation`): the trimmed query,
    lower-cased, is looked up in a small table of mock coordinates.
    Coordinates are whole numbers of 1e-4 degrees. */
module Location {
  import opened Wrappers
  import opened Text

  datatype Coord = Coord(lat: int, lng: int)

  /** `currentLocation`: its coordinates (absent when the object spread copied
      none) and its city label. */
  datatype Place = Place(coords: Option<Coord>, city: string)

  /** The location the dashboard starts from. */
  const NewYork := Place(Some(Coord(407128, -740060)), "New York")

  /** The own keys of `mockCoords`. */
  const MockKeys := ["london", "paris", "tokyo", "sydney"]

  /** The members of `Object.prototype` whose names are all lower case, so that
      a lower-cased query can name them: `mockCoords[key]` finds them too. */
  const InheritedKeys := ["constructor", "__proto__"]

  /** `mockCoords`'s own entries. */
  function OwnEntry(key: string): (r: Option<Coord>)
    ensures r.Some? <==> key in MockKeys
  {
    if key == "london" then Some(Coord(515074, -1278))
    else if key == "paris" then Some(Coord(488566, 23522))
    else if key == "tokyo" then Some(Coord(356762, 1396503))
    else if key == "sydney" then Some(Coord(-338688, 1512093))
    else None
  }

  /** What `mockCoords[key]` evaluates to: an own entry, an inherited member
      (a function or an object, truthy and without own coordinates), or
      `undefined`. */
  datatype Property = Own(coord: Coord) | Inherited | Undefined

  function PropertyAsWritten(key: string): (p: Property)
    ensures p.Own? <==> key in MockKeys
    ensures p.Inherited? <==> key in InheritedKeys
  {
    match OwnEntry(key)
    case Some(c) => Own(c)
    case None => if key in InheritedKeys then Inherited else Undefined
  }

  /** `searchLocation` as written: nothing for an empty query or an unknown
      key; otherwise the spread of `mockCoords[key]` with the trimmed query as
      the city. An inherited member spreads no coordinates. */
  function SearchAsWritten(query: string): (r: Option<Place>)
    ensures r.Some? ==> r.value.city == Trim(query) && Trim(query) != ""
  {
    var q := Trim(query);
    if q == "" then None
    else match PropertyAsWritten(ToLower(q))
      case Own(c) => Some(Place(Some(c), q))
      case Inherited => Some(Place(None, q))
      case Undefined => None
  }

  /** `searchLocation` with the lookup restricted to `mockCoords`'s own keys, as
      the "Try: London, Paris, Tokyo, or Sydney" alert evidently intends: a new
      location always has coordinates, and it comes from the table. */
  function SearchCity(query: string): (r: Option<Place>)
    ensures r.Some? <==> ToLower(Trim(query)) in MockKeys
    ensures r.Some? ==> r.value.coords.Some? && r.value.city == Trim(query)
    ensures r.Some? ==> r.value.coords == OwnEntry(ToLower(Trim(query)))
  {
    var q := Trim(query);
    match OwnEntry(ToLower(q))
    case Some(c) => Some(Place(Some(c), q))
    case None => None
  }

  /** The two lookups agree on every query that does not name an inherited
      member. */
  lemma SearchAgreesOffInheritedKeys(query: string)
    requires ToLower(Trim(query)) !in InheritedKeys
    ensures SearchAsWritten(query) == SearchCity(query)
  {
    if Trim(query) == "" {
      assert ToLower(Trim(query)) == "";
    }
  }

  /** Case does not matter: queries that agree once trimmed and lower-cased
      find the same coordinates. */
  lemma SearchIgnoresCase(a: string, b: string)
    requires ToLower(Trim(a)) == ToLower(Trim(b))
    ensures SearchCity(a).Some? <==> SearchCity(b).Some?
    ensures SearchCity(a).Some? ==> SearchCity(a).value.coords == SearchCity(b).value.coords
  {
  }

  /** As written, "Constructor" is found and moves the dashboard to a location
      without coordinates; the corrected search does not find it. */
  lemma ConstructorHasNoCoordinates()
    ensures SearchAsWritten("Constructor") == Some(Place(None, "Constructor"))
    ensures SearchCity("Constructor") == None
  {
    var q := "Constructor";
    TrimKeeps(q);
    assert ToLower(q) == "constructor";
    assert ToLower(q) in InheritedKeys;
  }
}
