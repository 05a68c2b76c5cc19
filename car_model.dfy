/** The cars table: its status enumeration and its record. */
module CarModel {
  import opened Wrappers
  import opened Timestamps
  import opened Columns

  datatype CarStatus = Available | Rented | Maintenance

  /** The varchar(20) value stored for each status. */
  function EncodeCarStatus(s: CarStatus): (t: string)
    ensures 0 < |t| <= StatusWidth
  {
    match s
    case Available => "available"
    case Rented => "rented"
    case Maintenance => "maintenance"
  }

  function DecodeCarStatus(t: string): (r: Option<CarStatus>)
    ensures r.Some? ==> EncodeCarStatus(r.value) == t
    ensures r.None? ==> forall s :: EncodeCarStatus(s) != t
  {
    if t == "available" then Some(Available)
    else if t == "rented" then Some(Rented)
    else if t == "maintenance" then Some(Maintenance)
    else None
  }

  lemma DecodeEncodeCarStatus(s: CarStatus)
    ensures DecodeCarStatus(EncodeCarStatus(s)) == Some(s)
  {
  }

  lemma CarEncodingsDistinct(s: CarStatus, u: CarStatus)
    requires s != u
    ensures EncodeCarStatus(s) != EncodeCarStatus(u)
  {
    DecodeEncodeCarStatus(s);
    DecodeEncodeCarStatus(u);
  }

  /** Every status fits the varchar(20) column unchanged. */
  lemma CarStatusFitsColumn(s: CarStatus)
    ensures FitVarchar(EncodeCarStatus(s), StatusWidth) == Some(EncodeCarStatus(s))
  {
  }

  /** The column default, `default:'available'`. */
  function DefaultCarStatus(): (s: CarStatus)
    ensures EncodeCarStatus(s) == "available"
  {
    Available
  }

  /**
   * One row; `id` is the primary key of the embedded gorm.Model.  The status
   * column is a plain string: nothing on the create path restricts it to the
   * enumeration.
   */
  datatype Car = Car(
    id: nat,
    make: string,
    model: string,
    year: int,
    color: string,
    licensePlate: string,
    pricePerDay: real,
    status: string,
    mileage: int,
    lastService: Time,
    nextService: Time,
    imageUrl: string,
    description: string,
    seats: int,
    doors: int,
    transmission: string,
    fuelType: string,
    features: string)

  function CarId(c: Car): nat { c.id }

  /** The `unique` constraint on license_plate. */
  ghost predicate PlatesUnique(cars: seq<Car>)
  {
    forall i, j :: 0 <= i < j < |cars| ==> cars[i].licensePlate != cars[j].licensePlate
  }

  /** Every stored status fits the varchar(20) column. */
  ghost predicate StatusesFit(cars: seq<Car>)
  {
    forall i :: 0 <= i < |cars| ==> |cars[i].status| <= StatusWidth
  }
}
