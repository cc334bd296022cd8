/** Identifiers, enumerations, table rows and error classes shared by every module. */
module Domain {

  datatype Option<+T> = None | Some(value: T)

  type UserId = nat
  type RideId = nat
  type RequestId = nat
  // Milliseconds on the server clock.
  type Time = nat
  const SEVEN_DAYS: Time := 7 * 24 * 60 * 60 * 1000

  // Decimal(10, 2) amounts, counted in hundredths.
  type Cents = nat

  datatype Role = Passenger | Rider | Admin | SuperAdmin

  datatype RideType = Offer | Request

  datatype RideStatus = Searching | Matched | InProgress | Completed | Cancelled | Expired

  // Lapsed is the schema's EXPIRED; no code ever assigns it.
  datatype RequestStatus = Pending | Accepted | Declined | Lapsed

  datatype GenderPref = Any | MaleOnly | FemaleOnly

  datatype Place = Place(lat: real, lng: real)

  datatype Ride = Ride(
    creatorId: UserId,
    riderId: Option<UserId>,
    passengerId: Option<UserId>,
    kind: RideType,
    status: RideStatus,
    origin: Place,
    dest: Place,
    fare: Cents,
    seatsAvailable: nat,
    genderPref: GenderPref,
    scheduledAt: Time,
    startedAt: Option<Time>,
    completedAt: Option<Time>,
    cancelledAt: Option<Time>,
    riderConfirmed: bool,
    passengerConfirmed: bool)

  datatype RideRequest = RideRequest(
    rideId: RideId,
    passengerId: UserId,
    status: RequestStatus,
    expiresAt: Time)

  // The exception a call ends with. Duplicate is the ConflictException of the
  // "already requested" and "already rated" checks; UniqueViolation and
  // RecordMissing are the database's own P2002 and P2025.
  datatype Error =
    | NotFound
    | Forbidden
    | BadRequest
    | Unauthorized
    | Conflict
    | Duplicate
    | UniqueViolation
    | RecordMissing

  datatype Reply = Done | Failed(error: Error)

  function Min(a: int, b: int): int {
    if a < b then a else b
  }
}
