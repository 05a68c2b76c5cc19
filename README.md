# Car rental booking engine and car catalogue, in Dafny

This project models two HTTP handlers of a car-rental system written in Go
with gin and gorm over Postgres, and proves properties of the model.

- The **bookings service** keeps a table of bookings. A create request is
  checked against the clock and against the *confirmed* bookings of the same
  car. It is priced at a fixed 50 per day, with a one-day minimum, and stored
  as `pending`. A status update overwrites the status of one booking with
  `confirmed`, `cancelled` or `completed`; it does not check the transition.
  A listing returns the bookings of one user.
- The **cars service** keeps a catalogue of cars with unique license plates.
  It lists them, looks one up, creates one, and overwrites a car's status with
  `available`, `rented` or `maintenance`.

Each table is a class (`BookingHandler.BookingStore`,
`CarHandler.CarStore`). It holds the rows as a `seq` in insertion order and a
next-id counter that stands for the table's id sequence. The handlers are
methods on that class. Error answers are the datatype `Errors.Error`
(`BadRequest`, `ValidationError`, `Conflict`, `NotFound`, `InternalError`),
not status codes. Each class has an invariant `Valid()`, which every method
keeps:

- ids strictly increase in table order and lie below the counter, so every id
  is unique and every new id is fresh;
- every stored booking has `startDate <= endDate`;
- the user and car ids of every stored booking fit the `bigint` columns;
- license plates are pairwise distinct;
- every stored car status fits its `varchar(20)` column.

The availability query, the pricing arithmetic and the user filter are pure
functions, and the lemmas are stated about them.

Modelling choices:

- A timestamp is an `int` of whole seconds counted from Go's zero `time.Time`.
  So the zero value that `binding:"required"` rejects is `0`. The clock
  (`time.Now()`) is the parameter `now` of `CreateBooking`.
- `time.Time.Sub` returns an int64 count of nanoseconds and saturates when the
  difference does not fit. `BookingHandler.Sub` models that explicitly, so
  costs stop growing after about 292 years.
- The cost is an exact `real`. The code rounds nothing, and neither does
  the model.
- The code answers both binding failures and date failures with status 400.
  The model calls the first `BadRequest` and the second `ValidationError`.
- Path parameters stay strings.
  - `UpdateCarStatus` parses its id with `strconv.Atoi`; `Decimal.Atoi`
    models it, including the sign and the int64 range.
  - gorm's `First(&row, s)` treats a string `s` as a primary key exactly when
    `strconv.Atoi` accepts it. So `GetCar` and `UpdateBookingStatus` use
    `Decimal.Atoi` too.
  - `GetUserBookings` hands its string to Postgres, which casts it to the
    integer column.
- Postgres draws an id from the sequence before it checks the unique index
  on the license plate. So a `CreateCar` refused for a duplicate plate still
  advances `nextId`, and ids may have gaps.
- Both status columns are `varchar(20)` (`Columns.FitVarchar`). `CreateCar`
  stores its status string unchecked. A status longer than 20 characters makes
  Postgres refuse the insert, and the handler answers 500. If everything past
  the 20th character is spaces, Postgres instead cuts the value to 20
  characters. The stored row then differs from the answered one, which keeps
  the full string. The over-long value is refused while the insert is
  planned, before the id default runs, so that refusal leaves `nextId` as it
  was.

Behaviours of the code a reader might not expect, which the model keeps:

- there is no transition table, so `cancelled` → `confirmed` succeeds;
- the availability test is the three-clause SQL condition. It amounts to
  closed-interval overlap, so windows that only touch conflict;
- a start equal to `now` and an end equal to the start are accepted;
- the cost is not rounded to two decimals;
- only confirmed bookings block a new one.

## Model

| member | source | states |
|---|---|---|
| Tables.IndexOf | services/bookings-service/handlers/booking.go:120-128 | the lookup behind `First(&row, id)`: the position of the first row with that id, or none exactly when no row has that id |
| Tables.IndexOfSameIds | services/bookings-service/handlers/booking.go:121 | tables with the same ids at the same positions answer every lookup alike |
| Tables.IndexOfOnly | services/bookings-service/models/booking.go:19 | with increasing ids, no other row carries the id that the lookup found |
| Tables.AppendFresh | services/bookings-service/handlers/booking.go:83 | appending a row whose id is the counter keeps the ids increasing, and keeps them below the incremented counter |
| Columns.FitVarchar | services/cars-service/models/car.go:26 | storing in a `varchar(n)` column: values of at most `n` characters are kept, and a longer value is refused exactly when a character past the `n`-th is not a space. Otherwise it is cut to exactly its first `n` characters, and only spaces are dropped |
| Decimal.Atoi | services/cars-service/handlers/car.go:100-104 | `strconv.Atoi`: accepts only an optional sign followed by one or more digits, and only values within int64 |
| Decimal.Show | services/cars-service/handlers/car.go:100 | the decimal numeral of an id is a non-empty string of digits |
| Decimal.NumeralValueShow | services/cars-service/handlers/car.go:100 | reading back the numeral of `n` gives `n` |
| Decimal.AtoiShow | services/cars-service/handlers/car.go:100 | every id that fits in int64, written in decimal, parses back to itself |
| Decimal.AtoiRejects | services/cars-service/handlers/car.go:100-104 | a string with any character other than a digit or a leading sign is not an id |
| BookingModel.EncodeStatus | services/bookings-service/models/booking.go:11-16 | each status is stored as a non-empty string that fits the varchar(20) column |
| BookingModel.StatusFitsColumn | services/bookings-service/models/booking.go:24 | every status string is stored in the varchar(20) column unchanged |
| BookingModel.DefaultStatus | services/bookings-service/models/booking.go:24 | the column default is the status stored as "pending" |
| BookingModel.DecodeStatus | services/bookings-service/models/booking.go:9-16 | decoding succeeds exactly on the four stored strings, and then encodes back to the input |
| BookingModel.DecodeEncode | services/bookings-service/models/booking.go:11-16 | round trip: decoding the encoding of a status returns that status |
| BookingModel.EncodingsDistinct | services/bookings-service/models/booking.go:11-16 | the four status strings are pairwise distinct |
| BookingHandler.Bound | services/bookings-service/handlers/booking.go:21-26 | `binding:"required"`: user id, car id, start and end must each differ from their zero value |
| BookingHandler.TargetStatus | services/bookings-service/handlers/booking.go:28-30 | the update whitelist accepts exactly "confirmed", "cancelled" and "completed"; the result is never pending and encodes back to the input |
| BookingHandler.SqlOverlap | services/bookings-service/handlers/booking.go:53 | the three interval disjuncts of the availability query, comparing a stored window [S, E] with a requested [s, e], inclusive at both ends |
| BookingHandler.Blocks | services/bookings-service/handlers/booking.go:53-54 | a row counts against a request when it has the same car id and status confirmed and satisfies `SqlOverlap` |
| BookingHandler.SqlOverlapIsOverlap | services/bookings-service/handlers/booking.go:53 | for ordered windows, the three SQL disjuncts hold exactly when `s <= E && S <= e` (closed-interval overlap) |
| BookingHandler.SqlOverlapSymmetric | services/bookings-service/handlers/booking.go:53 | for ordered windows, the SQL overlap condition is symmetric |
| BookingHandler.TouchingWindowsConflict | services/bookings-service/handlers/booking.go:53 | a window that starts at the instant another ends overlaps it, either way round |
| BookingHandler.OnlyConfirmedBlocks | services/bookings-service/handlers/booking.go:52-54 | a booking of another car, or one that is pending, cancelled or completed, never blocks |
| BookingHandler.CountConflicts | services/bookings-service/handlers/booking.go:52-58 | the count of blocking rows is at most the number of rows |
| BookingHandler.CountConflictsPositive | services/bookings-service/handlers/booking.go:52-63 | the count is positive exactly when some row is a confirmed booking of the car inside the SQL window |
| BookingHandler.AvailableIffNoConfirmedOverlap | services/bookings-service/handlers/booking.go:52-63 | with ordered stored windows and an ordered request, the count is zero exactly when no confirmed booking of that car overlaps the request |
| BookingHandler.UnconfirmedNeverBlocks | services/bookings-service/handlers/booking.go:79 | adding a booking that is not confirmed changes no availability count |
| BookingHandler.Sub | services/bookings-service/handlers/booking.go:68 | `time.Time.Sub` in nanoseconds: exact when it fits in int64, MaxInt64 above that range and MinInt64 below it, and never positive for a non-positive difference |
| BookingHandler.Days | services/bookings-service/handlers/booking.go:68 | `Hours() / 24`: never positive for a non-positive difference, and exactly the difference in seconds over 86400 while it fits in a Duration |
| BookingHandler.TotalCost | services/bookings-service/handlers/booking.go:67-72 | the cost is at least 50 and at least 50 times the days; it is exactly 50 for 24 hours or less, and exactly 50 times the days from one day up to the saturation bound |
| BookingHandler.TotalCostMonotone | services/bookings-service/handlers/booking.go:67-72 | the cost does not decrease as the duration grows |
| BookingHandler.ThreeDaysCost150 | services/bookings-service/handlers/booking.go:67-72 | a 72-hour booking costs 150 |
| BookingHandler.TotalCostSaturates | services/bookings-service/handlers/booking.go:68 | once the duration saturates, the cost is 50 times the saturated number of days |
| BookingHandler.UserBookings | services/bookings-service/handlers/booking.go:98-99 | the listing has no more rows than the table |
| BookingHandler.UserBookingsMembers | services/bookings-service/handlers/booking.go:99 | a booking is listed exactly when it is in the table and has that user id |
| BookingHandler.UserBookingsInOrder | services/bookings-service/handlers/booking.go:99 | the listing keeps table order: with increasing ids in the table, the listed ids increase too |
| BookingHandler.Relabel | services/bookings-service/handlers/booking.go:130 | the saved row differs from the loaded one at most in its status; the status is the new one when the id matches, and any other row is returned as it is |
| BookingHandler.SetStatus | services/bookings-service/handlers/booking.go:130-132 | the saved table has as many rows as before |
| BookingHandler.SetStatusAt | services/bookings-service/handlers/booking.go:130-132 | row by row, only the row with that id changes, and only its status, whatever its previous status was |
| BookingHandler.SetStatusIdempotent | services/bookings-service/handlers/booking.go:130-132 | applying the same status update twice gives the same table as applying it once |
| BookingHandler.SetStatusKeepsLookup | services/bookings-service/handlers/booking.go:121-132 | after a status update, every id lookup finds the same row as before |
| BookingHandler.KeysFitBigint | services/bookings-service/models/booking.go:20-21 | the `uint` user and car ids of every stored booking lie within the `bigint` range of their columns |
| BookingHandler.BookingStore.constructor | services/bookings-service/models/booking.go:18-26 | an empty bookings table whose id sequence starts at 1 |
| BookingHandler.BookingStore.CreateBooking | services/bookings-service/handlers/booking.go:32-89 | checks in source order: a missing field is a bad request; a start before `now`, or an end before the start, is a validation error; a positive conflict count is a conflict. A user or car id above MaxInt64 cannot be sent to the `bigint` columns, so the insert fails with an internal error. (For such a car id the count fails too, and its ignored error leaves it at 0.) It succeeds exactly when all of these pass. A failure leaves the table and the counter unchanged. A success appends exactly one booking: fresh id, the request's user, car and dates, status pending, cost `TotalCost`. It keeps `Valid()`, including `startDate <= endDate` and ids within the bigint range |
| BookingHandler.BookingStore.GetUserBookings | services/bookings-service/handlers/booking.go:91-104 | an empty user id is a bad request; a non-integer one is an internal error; otherwise the result is exactly `UserBookings` of the table. It reads the table and changes nothing |
| BookingHandler.BookingStore.UpdateBookingStatus | services/bookings-service/handlers/booking.go:107-137 | an empty id or a status outside the whitelist is a bad request; a non-integer id is an internal error; an unknown id is not found. A failure leaves the table unchanged. A found row always succeeds: its status is overwritten with no transition check, the table becomes `SetStatus` of the old table, and the updated booking is returned |
| CarModel.EncodeCarStatus | services/cars-service/models/car.go:12-16 | each car status is stored as a non-empty string that fits the varchar(20) column |
| CarModel.CarStatusFitsColumn | services/cars-service/models/car.go:26 | every car status string is stored in the varchar(20) column unchanged |
| CarModel.DefaultCarStatus | services/cars-service/models/car.go:26 | the column default is the status stored as "available" |
| CarModel.PlatesUnique | services/cars-service/models/car.go:24 | the `unique` constraint: no two cars share a license plate |
| CarModel.StatusesFit | services/cars-service/models/car.go:26 | every stored status is at most 20 characters, the column's width |
| CarModel.DecodeCarStatus | services/cars-service/models/car.go:10-16 | decoding succeeds exactly on the three stored strings, and then encodes back to the input |
| CarModel.DecodeEncodeCarStatus | services/cars-service/models/car.go:12-16 | round trip: decoding the encoding of a car status returns that status |
| CarModel.CarEncodingsDistinct | services/cars-service/models/car.go:12-16 | the three car status strings are pairwise distinct |
| CarHandler.Bound | services/cars-service/handlers/car.go:20-35 | `binding:"required"`: make, model, year, license plate and daily price must each differ from their zero value |
| CarHandler.TargetCarStatus | services/cars-service/handlers/car.go:37-39 | the update whitelist accepts exactly "available", "rented" and "maintenance", and encodes back to the input |
| CarHandler.NewCar | services/cars-service/handlers/car.go:74-89 | the row as built and answered has the given id and plate; an empty status becomes the column default "available", and any other status string is kept as given |
| CarHandler.NewCarStatus | services/cars-service/models/car.go:26 | an empty requested status is stored as `available`; any other status is stored unvalidated |
| CarHandler.AppendPlate | services/cars-service/models/car.go:24 | appending a car whose plate is not taken keeps plates unique |
| CarHandler.WithStatus | services/cars-service/handlers/car.go:122-124 | the saved table has as many rows as before |
| CarHandler.WithStatusKeeps | services/cars-service/handlers/car.go:122-124 | overwriting one car's status keeps every id lookup, increasing ids and unique plates. With a new status of at most 20 characters, every stored status still fits its column |
| CarHandler.WithStatusIdempotent | services/cars-service/handlers/car.go:112-124 | after an update the same id finds the same row, and repeating the update changes nothing |
| CarHandler.CarStore.constructor | services/cars-service/models/car.go:18-38 | an empty cars table whose id sequence starts at 1 |
| CarHandler.CarStore.GetCars | services/cars-service/handlers/car.go:41-49 | returns every car in table order and changes nothing |
| CarHandler.CarStore.GetCar | services/cars-service/handlers/car.go:51-65 | an empty id, for which gorm adds no condition, gives the car with the lowest id, or not found on an empty table; any other non-integer id is an internal error; an integer id succeeds exactly when some car has it, returning that car, and is otherwise not found; nothing changes |
| CarHandler.CarStore.CreateCar | services/cars-service/handlers/car.go:67-97 | a missing required field is a bad request, with nothing changed. A status the varchar(20) column refuses is an internal error with nothing changed. A taken plate is an internal error: no row is added, but the id sequence advances. Otherwise the answer is `NewCar` under a fresh id. Exactly that car is appended, with its status as the column keeps it. Unique plates, increasing ids and fitting statuses are kept |
| CarHandler.CarStore.UpdateCarStatus | services/cars-service/handlers/car.go:99-130 | a non-integer id is a bad request whatever the body; so is a status outside the whitelist. An unknown id is not found. A failure leaves the table unchanged. A found car always succeeds: only its status changes, from any previous value, and every other car is unchanged |

## Left out

- Process wiring (`main.go` of each service), the API gateway, database connection, migration and seeding (`database.go`), and the users model: plumbing and I/O with no logic to verify. The seeded booking costs do not follow the pricing rule and are not modelled.
- JSON decoding: malformed JSON, time strings that do not parse as RFC 3339, and numbers outside the Go field's range are not modelled. The model starts from the decoded request and checks only `binding:"required"` and `oneof`.
- CarHandler.CarStore.CreateCar: refuses an over-long status without advancing the id sequence, as Postgres does when it plans the insert for the given value. Under a generic prepared-statement plan the value is checked only at execution, after the id default has run, and the sequence then advances; the model does not capture that case.
- BookingHandler.Bound: a timestamp's time zone is not modelled. `binding:"required"` rejects only Go's zero `time.Time`, which has no location. The zero instant written with an offset (`"0001-01-01T00:00:00+00:00"`) passes binding, and the code then answers it by its date checks. The model counts it as a binding failure, `BadRequest`, not a `ValidationError`.
- Database failures that the table's own rules do not predict are not modelled: a lost connection, or a failed insert, select or save. Modelled refusals are the duplicate plate and the over-long status in `CreateCar`, a user or car id beyond the `bigint` range in `CreateBooking`, and the failed reading of a non-integer id in `GetUserBookings`, `GetCar` and `UpdateBookingStatus`.
- BookingHandler.CountConflicts: the error of the availability count (booking.go:52-58) is never read. If the count fails, `existingBookings` stays 0, and the booking is inserted without any availability check. The model's count cannot fail, so this path is not captured.
- UpdateBookingStatus, GetCar: gorm passes a non-empty id string that `strconv.Atoi` rejects as a raw SQL condition (an empty one adds no condition at all, which `GetCar` models). The model answers `InternalError` there, and does not capture a string that happens to be a valid SQL condition, which would select rows.
- BookingHandler.BookingStore.GetUserBookings: Postgres casts the user id string itself. The model uses `strconv.Atoi`'s syntax, so forms that Postgres alone accepts (for example surrounding spaces) are modelled as `InternalError`.
- Row order: SQL without `ORDER BY` promises no order. The model returns rows in insertion order.
- The `created_at`, `updated_at` and `deleted_at` columns of `gorm.Model`: no core operation reads them or deletes a row.
- Time precision: seconds instead of Go's nanoseconds and Postgres's microseconds.
- float64 arithmetic: the cost and the daily price are exact reals.
- Concurrency: the gap between the availability check (booking.go:52) and the insert (booking.go:83) is not modelled; operations run one after another.
- A status transition table, and a global "confirmed bookings never overlap" invariant: the code enforces neither (two pending bookings for one window can both be confirmed), so neither is claimed.
