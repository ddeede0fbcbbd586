/** The visit entity as the visit handlers see it: what was visited, the (already
    anonymised) remote address, and the location once one has been resolved. */
module Visits {
  import opened Wrappers

  /** The loopback address the visit tracker treats as carrying no location. */
  const Localhost: string := "127.0.0.1"

  /** What a visit hit: a real short URL, or one of the three orphan kinds. */
  datatype VisitType = ValidShortUrl | BasePath | InvalidShortUrl | RegularNotFound

  /** A geolocation result; coordinates are left out. */
  datatype Location = Location(countryCode: string, countryName: string, regionName: string,
                               city: string, timezone: string)

  /** The location meaning "looked up, nothing applies". */
  const EmptyLocation: Location := Location("", "", "", "", "")

  /** `location` is None until the visit has been located. */
  datatype Visit = Visit(id: string, visitType: VisitType, remoteAddr: Option<string>,
                         location: Option<Location>)

  /** A visit that is not bound to any short URL. */
  predicate IsOrphan(v: Visit) {
    v.visitType != ValidShortUrl
  }

  /** A visit whose own address is worth looking up: present, not empty, not loopback. */
  predicate IsLocatable(v: Visit) {
    v.remoteAddr.Some? && v.remoteAddr.value != "" && v.remoteAddr.value != Localhost
  }
}
