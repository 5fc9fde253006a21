/** The listing record the scraper stores and the later stages read back
    (one dictionary, later one DataFrame row). Missing numeric fields hold
    the sentinel -1. */
module Listings {
  import opened Wrappers

  datatype Listing = Listing(
    pid: int,
    head: string,
    lon: real,
    lat: real,
    price: real,
    nbr: int,
    phone: int,
    link: string,
    post: string,
    hasPost: int)

  /** `[pid, head, lon, lat, price, nbr]` as `_extract_listing_info` returns it. */
  datatype ListingInfo = ListingInfo(pid: int, head: string, lon: real, lat: real, price: real, nbr: int)

  /** Price, bedroom count and both coordinates are all present. */
  predicate HasPriceAndLocation(l: Listing) {
    l.price != -1.0 && l.nbr != -1 && l.lat != -1.0 && l.lon != -1.0
  }

  /** `price / (1. * nbr)`; a zero bedroom count gives an infinite price per room (`None`). */
  function NPrice(price: real, nbr: int): (r: Option<real>)
    ensures r.None? <==> nbr == 0
    ensures r.Some? ==> r.value * nbr as real == price
  {
    if nbr == 0 then None else Some(price / nbr as real)
  }
}
