/**
 * The car catalogue of the cars service: listing, looking up and creating
 * cars, and overwriting a car's status.  The table is the field `cars` of a
 * CarStore, kept in insertion order, and `nextId` is its id sequence.
 */
module CarHandler {
  import opened Wrappers
  import opened Errors
  import opened Timestamps
  import opened Tables
  import opened Decimal
  import opened Columns
  import opened CarModel

  /** The decoded JSON body of a create request. */
  datatype CreateCarRequest = CreateCarRequest(
    make: string,
    model: string,
    year: int,
    color: string,
    licensePlate: string,
    pricePerDay: real,
    status: string,
    mileage: int,
    seats: int,
    doors: int,
    transmission: string,
    fuelType: string,
    imageUrl: string,
    description: string)

  /** `binding:"required"` on make, model, year, license plate and daily price: a zero value fails. */
  predicate Bound(req: CreateCarRequest)
  {
    req.make != "" && req.model != "" && req.year != 0 && req.licensePlate != "" && req.pricePerDay != 0.0
  }

  /** The `oneof=available rented maintenance` whitelist of a status update. */
  function TargetCarStatus(t: string): (r: Option<CarStatus>)
    ensures r.Some? <==> t == "available" || t == "rented" || t == "maintenance"
    ensures r.Some? ==> EncodeCarStatus(r.value) == t
  {
    DecodeCarStatus(t)
  }

  /**
   * The row `Create` inserts under id `id`: every request field as given, the
   * service dates and features at their zero values, and an empty status
   * replaced by the column default.
   */
  function NewCar(id: nat, req: CreateCarRequest): (c: Car)
    ensures c.id == id && c.licensePlate == req.licensePlate
    ensures c.status == if req.status == "" then EncodeCarStatus(DefaultCarStatus()) else req.status
  {
    Car(id, req.make, req.model, req.year, req.color, req.licensePlate, req.pricePerDay,
        if req.status == "" then EncodeCarStatus(DefaultCarStatus()) else req.status,
        req.mileage, ZeroTime, ZeroTime, req.imageUrl, req.description,
        req.seats, req.doors, req.transmission, req.fuelType, "")
  }

  /** An empty status is stored as "available"; any other string is stored unchecked. */
  lemma NewCarStatus(id: nat, req: CreateCarRequest)
    ensures req.status == "" ==> DecodeCarStatus(NewCar(id, req).status) == Some(Available)
    ensures req.status != "" ==> NewCar(id, req).status == req.status
  {
  }

  predicate PlateTaken(cars: seq<Car>, plate: string)
  {
    exists i :: 0 <= i < |cars| && cars[i].licensePlate == plate
  }

  lemma AppendPlate(cars: seq<Car>, c: Car)
    requires PlatesUnique(cars) && !PlateTaken(cars, c.licensePlate)
    ensures PlatesUnique(cars + [c])
  {
    var s := cars + [c];
    forall i, j | 0 <= i < j < |s| ensures s[i].licensePlate != s[j].licensePlate {
      assert s[i] == cars[i];
      if j < |cars| { assert s[j] == cars[j]; }
    }
  }

  /** `car.Status = ...` then `Save`: row `i` with its status overwritten. */
  function WithStatus(cars: seq<Car>, i: nat, status: string): (r: seq<Car>)
    requires i < |cars|
    ensures |r| == |cars|
  {
    cars[i := cars[i].(status := status)]
  }

  /** Only the status of the updated row changes, so the table invariants and all lookups are kept. */
  lemma WithStatusKeeps(cars: seq<Car>, i: nat, status: string, k: int)
    requires i < |cars|
    ensures var r := WithStatus(cars, i, status);
            IndexOf(r, CarId, k) == IndexOf(cars, CarId, k) &&
            (IdsIncreasing(cars, CarId) ==> IdsIncreasing(r, CarId)) &&
            (PlatesUnique(cars) ==> PlatesUnique(r)) &&
            (StatusesFit(cars) && |status| <= StatusWidth ==> StatusesFit(r))
  {
    var r := WithStatus(cars, i, status);
    IndexOfSameIds(cars, r, CarId, k);
  }

  /** Applying the same status update to its own result changes nothing. */
  lemma WithStatusIdempotent(cars: seq<Car>, k: int, status: string)
    requires IndexOf(cars, CarId, k).Some?
    ensures var i := IndexOf(cars, CarId, k).value;
            var r := WithStatus(cars, i, status);
            IndexOf(r, CarId, k) == Some(i) && WithStatus(r, i, status) == r
  {
    WithStatusKeeps(cars, IndexOf(cars, CarId, k).value, status, k);
  }

  class CarStore {
    var cars: seq<Car>
    var nextId: nat

    ghost predicate Valid()
      reads this
    {
      nextId >= 1 &&
      IdsIncreasing(cars, CarId) &&
      IdsBelow(cars, CarId, nextId) &&
      PlatesUnique(cars) &&
      StatusesFit(cars)
    }

    constructor ()
      ensures Valid() && cars == [] && nextId == 1
    {
      cars := [];
      nextId := 1;
    }

    /** GET /api/cars. */
    method GetCars() returns (r: seq<Car>)
      requires Valid()
      ensures r == cars
    {
      r := cars;
    }

    /**
     * GET /api/cars/:id.  gorm adds no condition for an empty id, so that
     * query finds the car with the lowest id.
     */
    method GetCar(id: string) returns (r: Result<Car, Error>)
      requires Valid()
      ensures id == "" ==> (r.Success? <==> |cars| > 0)
      ensures id == "" && r.Success? ==>
                r.value in cars && forall i :: 0 <= i < |cars| ==> r.value.id <= cars[i].id
      ensures id == "" && r.Failure? ==> r.error == NotFound
      ensures id != "" && Atoi(id).None? ==> r == Failure(InternalError)
      ensures Atoi(id).Some? ==>
                (r.Success? <==> exists i :: 0 <= i < |cars| && cars[i].id == Atoi(id).value)
      ensures Atoi(id).Some? && r.Success? ==> r.value in cars && r.value.id == Atoi(id).value
      ensures Atoi(id).Some? && r.Failure? ==> r.error == NotFound
    {
      if id == "" {
        r := if cars == [] then Failure(NotFound) else Success(cars[0]);
        return;
      }
      match Atoi(id)
      case None => r := Failure(InternalError);
      case Some(k) =>
        match IndexOf(cars, CarId, k)
        case None => r := Failure(NotFound);
        case Some(i) => r := Success(cars[i]);
    }

    /**
     * POST /api/cars.  The answer is the row as built; the stored row holds
     * the status as the varchar(20) column keeps it.
     */
    method CreateCar(req: CreateCarRequest) returns (r: Result<Car, Error>)
      requires Valid()
      modifies this
      ensures Valid()
      ensures !Bound(req) ==> r == Failure(BadRequest) && cars == old(cars) && nextId == old(nextId)
      ensures (Bound(req) && FitVarchar(NewCar(old(nextId), req).status, StatusWidth).None?) ==>
                r == Failure(InternalError) && cars == old(cars) && nextId == old(nextId)
      ensures (Bound(req) && FitVarchar(NewCar(old(nextId), req).status, StatusWidth).Some? &&
               PlateTaken(old(cars), req.licensePlate)) ==>
                r == Failure(InternalError) && cars == old(cars) && nextId == old(nextId) + 1
      ensures (Bound(req) && !PlateTaken(old(cars), req.licensePlate) &&
               FitVarchar(NewCar(old(nextId), req).status, StatusWidth).Some?) ==>
                r == Success(NewCar(old(nextId), req)) &&
                cars == old(cars) + [r.value.(status := FitVarchar(r.value.status, StatusWidth).value)] &&
                nextId == old(nextId) + 1
    {
      if !Bound(req) { return Failure(BadRequest); }
      var car := NewCar(nextId, req);
      // An over-long status is refused while the INSERT is planned, before
      // the id default runs.
      var status;
      match FitVarchar(car.status, StatusWidth) {
        case None => return Failure(InternalError);
        case Some(s) => status := s;
      }
      // The id default draws from the sequence before the unique index on
      // the plate is checked.
      nextId := nextId + 1;
      if PlateTaken(cars, req.licensePlate) { return Failure(InternalError); }
      var stored := car.(status := status);
      AppendFresh(cars, CarId, stored.id, stored);
      AppendPlate(cars, stored);
      cars := cars + [stored];
      r := Success(car);
    }

    /** PUT /api/cars/:id/status with body status `status`. */
    method UpdateCarStatus(id: string, status: string) returns (r: Result<Car, Error>)
      requires Valid()
      modifies this
      ensures Valid() && nextId == old(nextId)
      ensures Atoi(id).None? ==> r == Failure(BadRequest)
      ensures Atoi(id).Some? && TargetCarStatus(status).None? ==> r == Failure(BadRequest)
      ensures (Atoi(id).Some? && TargetCarStatus(status).Some? &&
               IndexOf(old(cars), CarId, Atoi(id).value).None?) ==> r == Failure(NotFound)
      ensures (Atoi(id).Some? && TargetCarStatus(status).Some? &&
               IndexOf(old(cars), CarId, Atoi(id).value).Some?) ==> r.Success?
      ensures r.Failure? ==> cars == old(cars)
      ensures r.Success? ==>
                Atoi(id).Some? && TargetCarStatus(status).Some? &&
                IndexOf(old(cars), CarId, Atoi(id).value).Some? &&
                var i := IndexOf(old(cars), CarId, Atoi(id).value).value;
                cars == WithStatus(old(cars), i, status) && r.value == cars[i]
    {
      var k;
      match Atoi(id) {
        case None => return Failure(BadRequest);
        case Some(n) => k := n;
      }
      if TargetCarStatus(status).None? { return Failure(BadRequest); }
      var i;
      match IndexOf(cars, CarId, k) {
        case None => return Failure(NotFound);
        case Some(j) => i := j;
      }
      WithStatusKeeps(cars, i, status, k);
      CarStatusFitsColumn(TargetCarStatus(status).value);
      cars := WithStatus(cars, i, status);
      r := Success(cars[i]);
    }
  }

  // ---------------------------------------------------------------- clients of the contracts

  /** An empty status is stored as available, and a second car with the same plate is refused. */
  method CreateScenario(req: CreateCarRequest)
    requires Bound(req) && req.status == ""
  {
    var store := new CarStore();
    var first := store.CreateCar(req);
    assert first.Success? && first.value.status == "available" && first.value.id == 1;
    assert store.cars[0].licensePlate == req.licensePlate;
    var copy := store.CreateCar(req.(model := "Corolla"));
    assert copy == Failure(InternalError) && store.cars == [first.value] && store.nextId == 3;
  }

  /** A status longer than the column is refused; trailing spaces past it are cut off in the stored row. */
  method LongStatusScenario(req: CreateCarRequest)
    requires Bound(req)
  {
    var store := new CarStore();
    var long := store.CreateCar(req.(status := "awaiting-insurance-review"));
    assert "awaiting-insurance-review"[20] != ' ';
    assert long == Failure(InternalError) && store.cars == [] && store.nextId == 1;
    var padded := "maintenance" + seq(12, _ => ' ');
    var cut := store.CreateCar(req.(status := padded));
    assert cut.Success? && cut.value.status == padded;
    assert padded[..20] == "maintenance" + seq(9, _ => ' ');
    assert store.cars[0].status == "maintenance" + seq(9, _ => ' ');
  }

  /** A status update with a non-numeric id or an unlisted status is a bad request. */
  method BadUpdateScenario(store: CarStore)
    requires store.Valid()
    modifies store
  {
    assert Atoi("x") == None;
    var badId := store.UpdateCarStatus("x", "rented");
    assert badId == Failure(BadRequest);
    AtoiShow(1);
    var badStatus := store.UpdateCarStatus(Show(1), "sold");
    assert badStatus == Failure(BadRequest);
  }

  /** A status update for an unknown id is not found. */
  method MissingUpdateScenario(store: CarStore)
    requires store.Valid() && |store.cars| == 1 && store.cars[0].id == 1
    modifies store
  {
    AtoiShow(3);
    var missing := store.UpdateCarStatus(Show(3), "rented");
    assert missing == Failure(NotFound);
  }

  /** A successful status update is what a later lookup of that id returns. */
  method UpdateScenario(store: CarStore)
    requires store.Valid() && |store.cars| == 1 && store.cars[0].id == 1
    modifies store
  {
    AtoiShow(1);
    var rented := store.UpdateCarStatus(Show(1), "rented");
    assert rented.Success? && rented.value.status == "rented";
    var found := store.GetCar(Show(1));
    assert found.Success? && found.value == rented.value;
  }

  /** An empty id adds no condition: the lookup answers the car with the lowest id. */
  method EmptyIdScenario(store: CarStore)
    requires store.Valid() && |store.cars| == 2 && store.cars[0].id == 1 && store.cars[1].id == 4
  {
    var first := store.GetCar("");
    assert first == Success(store.cars[0]);
  }
}
