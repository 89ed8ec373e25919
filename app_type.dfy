/** The record types shared by the Lambda functions. They are built once by their
    constructors and never mutated afterwards, so they are values here. */
module AppType {

  /** A latitude or longitude. The code only copies coordinates from one record to
      another and never computes with them, so their floating-point nature plays no role. */
  type Coord = real

  datatype Point = Point(latitude: Coord, longitude: Coord)

  datatype Address = Address(point: Point, address: string)

  datatype Present = Present(presentId: int, presentName: string, address: Address)

  datatype Facility = Facility(facilityId: int, facilityName: string, address: Address)

  /** `Point(latitude, longitude)` */
  function NewPoint(latitude: Coord, longitude: Coord): (p: Point)
    ensures p.latitude == latitude && p.longitude == longitude
  {
    Point(latitude, longitude)
  }

  /** `Address(latitude, longitude, address)`: the point is built from the same pair. */
  function NewAddress(latitude: Coord, longitude: Coord, address: string): (a: Address)
    ensures a.point.latitude == latitude && a.point.longitude == longitude
    ensures a.address == address
  {
    Address(NewPoint(latitude, longitude), address)
  }

  /** `Present(present_id, present_name, latitude, longitude, address)` */
  function NewPresent(presentId: int, presentName: string, latitude: Coord, longitude: Coord,
                      address: string): (p: Present)
    ensures p.presentId == presentId && p.presentName == presentName
    ensures p.address.point == Point(latitude, longitude) && p.address.address == address
  {
    Present(presentId, presentName, NewAddress(latitude, longitude, address))
  }

  /** `Facility(facility_id, facility_name, latitude, longitude, address)` */
  function NewFacility(facilityId: int, facilityName: string, latitude: Coord, longitude: Coord,
                       address: string): (f: Facility)
    ensures f.facilityId == facilityId && f.facilityName == facilityName
    ensures f.address.point == Point(latitude, longitude) && f.address.address == address
  {
    Facility(facilityId, facilityName, NewAddress(latitude, longitude, address))
  }

  /** An open database connection pool (`app_aurora.Aurora`), shared by both functions;
      its inside is not modelled. */
  datatype DbHandle = DbHandle(id: nat)
}
