/** Address search against the GSI (Geospatial Information Authority of Japan) service:
    a free-text address goes out, the first hit's position and title come back. */
module GsiApi {
  import opened Wrappers
  import opened AppType

  const AddressSearchUrl: string := "https://msearch.gsi.go.jp/address-search/AddressSearch"

  /** One hit of the JSON reply: `geometry.coordinates` and `properties.title`.
      The coordinates are a GeoJSON position, longitude first (section 3.1.1 of RFC 7946). */
  datatype Feature = Feature(coordinates: seq<Coord>, title: string)

  datatype GsiError =
    | RequestFailed     // the HTTP call or the JSON decoding raised
    | NoHit             // `res_json[0]` on an empty list
    | ShortCoordinates  // `coordinates[1]` on a position with fewer than two numbers

  /** The HTTP GET: query parameters in, decoded JSON hit list out, `None` when it raises. */
  type SearchService = (string, map<string, string>) -> Option<seq<Feature>>

  /** The query parameters sent: the address itself, as parameter `q`, and nothing else. */
  function SearchParams(address: string): (q: map<string, string>)
    ensures q.Keys == {"q"} && q["q"] == address
  {
    map["q" := address]
  }

  /** Reads the first hit, swapping GeoJSON's (longitude, latitude) into (latitude, longitude). */
  function AddressFromHits(hits: seq<Feature>): (r: Result<Address, GsiError>)
    ensures r.Ok? <==> |hits| >= 1 && |hits[0].coordinates| >= 2
    ensures r.Ok? ==> r.value.point.latitude == hits[0].coordinates[1]
    ensures r.Ok? ==> r.value.point.longitude == hits[0].coordinates[0]
    ensures r.Ok? ==> r.value.address == hits[0].title
    ensures r == Err(NoHit) <==> |hits| == 0
  {
    if |hits| == 0 then Err(NoHit)
    else if |hits[0].coordinates| < 2 then Err(ShortCoordinates)
    else
      var position := hits[0].coordinates;
      Ok(NewAddress(position[1], position[0], hits[0].title))
  }

  /** Only the first hit matters: whatever follows it is ignored. */
  lemma OnlyFirstHitUsed(first: Feature, rest1: seq<Feature>, rest2: seq<Feature>)
    ensures AddressFromHits([first] + rest1) == AddressFromHits([first] + rest2)
  {
  }

  /** `address_search(address)` */
  function AddressSearch(address: string, search: SearchService): (r: Result<Address, GsiError>)
    ensures search(AddressSearchUrl, SearchParams(address)).None? ==> r == Err(RequestFailed)
    ensures search(AddressSearchUrl, SearchParams(address)).Some? ==>
              r == AddressFromHits(search(AddressSearchUrl, SearchParams(address)).value)
  {
    match search(AddressSearchUrl, SearchParams(address))
    case None => Err(RequestFailed)
    case Some(hits) => AddressFromHits(hits)
  }
}
