/**
 * The booking engine of the bookings service: creating a booking against the
 * availability of its car, overwriting a booking's status, and listing the
 * bookings of one user.  The database table is the field `bookings` of a
 * BookingStore, kept in insertion order, and `nextId` is its id sequence.
 */
module BookingHandler {
  import opened Wrappers
  import opened Errors
  import opened Tables
  import opened Decimal
  import opened Timestamps
  import opened BookingModel

  /** The decoded JSON body of a create request. */
  datatype CreateBookingRequest = CreateBookingRequest(userId: nat, carId: nat, startDate: Time, endDate: Time)

  /** `binding:"required"` on every field: a zero value is a binding failure. */
  predicate Bound(req: CreateBookingRequest)
  {
    req.userId != 0 && req.carId != 0 && req.startDate != ZeroTime && req.endDate != ZeroTime
  }

  /** The `oneof=confirmed cancelled completed` whitelist of a status update. */
  function TargetStatus(t: string): (r: Option<BookingStatus>)
    ensures r.Some? <==> t == "confirmed" || t == "cancelled" || t == "completed"
    ensures r.Some? ==> r.value != Pending && EncodeStatus(r.value) == t
  {
    match DecodeStatus(t)
    case Some(s) => if s == Pending then None else Some(s)
    case None => None
  }

  // ---------------------------------------------------------------- availability

  /** The interval part of the availability query, for a stored window [S, E] and a requested one [s, e]. */
  predicate SqlOverlap(S: Time, E: Time, s: Time, e: Time)
  {
    (S <= s && E >= s) || (S <= e && E >= e) || (S >= s && E <= e)
  }

  /** Closed intervals that share at least one instant. */
  predicate Overlaps(s1: Time, e1: Time, s2: Time, e2: Time)
  {
    s1 <= e2 && s2 <= e1
  }

  /** A row the availability query counts against a request for `carId` over [s, e]. */
  predicate Blocks(b: Booking, carId: nat, s: Time, e: Time)
  {
    b.carId == carId && b.status == Confirmed && SqlOverlap(b.startDate, b.endDate, s, e)
  }

  /** For a well-formed stored window, the three SQL disjuncts are exactly closed-interval overlap. */
  lemma SqlOverlapIsOverlap(S: Time, E: Time, s: Time, e: Time)
    requires S <= E && s <= e
    ensures SqlOverlap(S, E, s, e) <==> Overlaps(s, e, S, E)
  {
  }

  lemma SqlOverlapSymmetric(S: Time, E: Time, s: Time, e: Time)
    requires S <= E && s <= e
    ensures SqlOverlap(S, E, s, e) <==> SqlOverlap(s, e, S, E)
  {
    SqlOverlapIsOverlap(S, E, s, e);
    SqlOverlapIsOverlap(s, e, S, E);
  }

  /** A window that starts at the instant another one ends conflicts with it. */
  lemma TouchingWindowsConflict(S: Time, E: Time, e: Time)
    requires S <= E <= e
    ensures SqlOverlap(S, E, E, e) && SqlOverlap(E, e, S, E)
  {
  }

  lemma OnlyConfirmedBlocks(b: Booking, carId: nat, s: Time, e: Time)
    requires b.status != Confirmed || b.carId != carId
    ensures !Blocks(b, carId, s, e)
  {
  }

  /** `Count(&existingBookings)` of the availability query. */
  function CountConflicts(rows: seq<Booking>, carId: nat, s: Time, e: Time): (n: nat)
    ensures n <= |rows|
  {
    if rows == [] then 0
    else CountConflicts(rows[..|rows| - 1], carId, s, e) + (if Blocks(rows[|rows| - 1], carId, s, e) then 1 else 0)
  }

  lemma {:induction false} CountConflictsPositive(rows: seq<Booking>, carId: nat, s: Time, e: Time)
    ensures CountConflicts(rows, carId, s, e) > 0 <==> exists i :: 0 <= i < |rows| && Blocks(rows[i], carId, s, e)
  {
    if rows != [] {
      var front := rows[..|rows| - 1];
      CountConflictsPositive(front, carId, s, e);
      if exists i :: 0 <= i < |rows| && Blocks(rows[i], carId, s, e) {
        var i :| 0 <= i < |rows| && Blocks(rows[i], carId, s, e);
        if i < |front| { assert front[i] == rows[i]; }
      }
      if exists i :: 0 <= i < |front| && Blocks(front[i], carId, s, e) {
        var i :| 0 <= i < |front| && Blocks(front[i], carId, s, e);
        assert rows[i] == front[i];
      }
    }
  }

  /** Every stored window is ordered. */
  ghost predicate DatesOrdered(rows: seq<Booking>)
  {
    forall i :: 0 <= i < |rows| ==> rows[i].startDate <= rows[i].endDate
  }

  /**
   * The `uint` user and car ids of every stored booking fit the `bigint`
   * columns gorm gives them.
   */
  ghost predicate KeysFitBigint(rows: seq<Booking>)
  {
    forall i :: 0 <= i < |rows| ==> rows[i].userId <= MaxInt64 && rows[i].carId <= MaxInt64
  }

  /**
   * The availability query finds nothing exactly when no confirmed booking of
   * the car shares an instant with the requested window.
   */
  lemma AvailableIffNoConfirmedOverlap(rows: seq<Booking>, carId: nat, s: Time, e: Time)
    requires DatesOrdered(rows) && s <= e
    ensures CountConflicts(rows, carId, s, e) == 0 <==>
            forall i :: 0 <= i < |rows| && rows[i].carId == carId && rows[i].status == Confirmed ==>
              !Overlaps(s, e, rows[i].startDate, rows[i].endDate)
  {
    CountConflictsPositive(rows, carId, s, e);
    forall i | 0 <= i < |rows|
      ensures Blocks(rows[i], carId, s, e) <==>
              rows[i].carId == carId && rows[i].status == Confirmed && Overlaps(s, e, rows[i].startDate, rows[i].endDate)
    {
      SqlOverlapIsOverlap(rows[i].startDate, rows[i].endDate, s, e);
    }
  }

  /** Adding a booking that is not confirmed changes no later availability answer. */
  lemma UnconfirmedNeverBlocks(rows: seq<Booking>, b: Booking, carId: nat, s: Time, e: Time)
    requires b.status != Confirmed
    ensures CountConflicts(rows + [b], carId, s, e) == CountConflicts(rows, carId, s, e)
  {
    assert (rows + [b])[..|rows|] == rows;
  }

  // ---------------------------------------------------------------- pricing

  /** The hard-coded daily rate. */
  const PricePerDay: real := 50.0

  const NanosPerSecond: int := 1_000_000_000
  const SecondsPerDay: int := 86_400

  /** time.Time.Sub: the difference in nanoseconds, saturated to the int64 range of time.Duration. */
  function Sub(t: Time, u: Time): (d: int)
    ensures MinInt64 <= d <= MaxInt64
    ensures MinInt64 <= (t - u) * NanosPerSecond <= MaxInt64 ==> d == (t - u) * NanosPerSecond
    ensures t - u <= 0 ==> d <= 0
    ensures (t - u) * NanosPerSecond > MaxInt64 ==> d == MaxInt64
    ensures (t - u) * NanosPerSecond < MinInt64 ==> d == MinInt64
  {
    var d := (t - u) * NanosPerSecond;
    if d > MaxInt64 then MaxInt64 else if d < MinInt64 then MinInt64 else d
  }

  /** `Sub(...).Hours() / 24`, in exact arithmetic. */
  function Days(s: Time, e: Time): (d: real)
    ensures e - s <= 0 ==> d <= 0.0
    ensures MinInt64 <= (e - s) * NanosPerSecond <= MaxInt64 ==> d == (e - s) as real / SecondsPerDay as real
  {
    (Sub(e, s) as real / 3_600_000_000_000.0) / 24.0
  }

  /** The cost of a booking from `s` to `e`: the daily rate times the days, with a one-day minimum. */
  function TotalCost(s: Time, e: Time): (c: real)
    ensures c >= PricePerDay
    ensures c >= PricePerDay * Days(s, e)
    ensures e - s <= SecondsPerDay ==> c == PricePerDay
    ensures SecondsPerDay <= e - s <= MaxInt64 / NanosPerSecond ==> c == PricePerDay * ((e - s) as real / SecondsPerDay as real)
  {
    var duration := Days(s, e);
    var duration := if duration < 1.0 then 1.0 else duration;
    PricePerDay * duration
  }

  lemma TotalCostMonotone(s1: Time, e1: Time, s2: Time, e2: Time)
    requires e1 - s1 <= e2 - s2
    ensures TotalCost(s1, e1) <= TotalCost(s2, e2)
  {
    assert Sub(e1, s1) <= Sub(e2, s2);
  }

  lemma ThreeDaysCost150(s: Time)
    ensures TotalCost(s, s + 72 * 3600) == 150.0
  {
  }

  /** Longer than about 292 years, the saturated duration caps the cost. */
  lemma TotalCostSaturates(s: Time, e: Time)
    requires (e - s) * NanosPerSecond >= MaxInt64
    ensures TotalCost(s, e) == PricePerDay * (MaxInt64 as real / 86_400_000_000_000.0)
  {
  }

  // ---------------------------------------------------------------- listing

  /** `Where("user_id = ?", uid).Find(&bookings)`, in table order. */
  function UserBookings(rows: seq<Booking>, uid: int): (r: seq<Booking>)
    ensures |r| <= |rows|
  {
    if rows == [] then []
    else (if rows[0].userId == uid then [rows[0]] else []) + UserBookings(rows[1..], uid)
  }

  lemma {:induction false} UserBookingsMembers(rows: seq<Booking>, uid: int, b: Booking)
    ensures b in UserBookings(rows, uid) <==> b in rows && b.userId == uid
  {
    if rows != [] {
      UserBookingsMembers(rows[1..], uid, b);
      assert rows == [rows[0]] + rows[1..];
    }
  }

  /** The listing keeps the table's order: with increasing ids, so are the listed ones. */
  lemma {:induction false} UserBookingsInOrder(rows: seq<Booking>, uid: int)
    requires IdsIncreasing(rows, BookingId)
    ensures IdsIncreasing(UserBookings(rows, uid), BookingId)
  {
    if rows != [] {
      var rest := UserBookings(rows[1..], uid);
      UserBookingsInOrder(rows[1..], uid);
      if rows[0].userId == uid {
        var r := [rows[0]] + rest;
        forall j | 0 < j < |r| ensures rows[0].id < r[j].id {
          assert r[j] == rest[j - 1];
          UserBookingsMembers(rows[1..], uid, rest[j - 1]);
          var k :| 0 <= k < |rows[1..]| && rows[1..][k] == rest[j - 1];
          assert rows[k + 1] == rest[j - 1];
        }
      }
    }
  }

  // ---------------------------------------------------------------- status update

  /** The row as saved: only its status may differ, and it is `st` when the row has id `k`. */
  function Relabel(b: Booking, k: int, st: BookingStatus): (r: Booking)
    ensures r.(status := b.status) == b
    ensures b.id == k ==> r.status == st
    ensures b.id != k ==> r == b
  {
    if b.id == k then b.(status := st) else b
  }

  /** `Save` after `booking.Status = ...`: the row with id `k` takes status `st`. */
  function SetStatus(rows: seq<Booking>, k: int, st: BookingStatus): (r: seq<Booking>)
    ensures |r| == |rows|
  {
    if rows == [] then [] else [Relabel(rows[0], k, st)] + SetStatus(rows[1..], k, st)
  }

  /** Row by row, only the status of the row with id `k` is overwritten, whatever it was. */
  lemma {:induction false} SetStatusAt(rows: seq<Booking>, k: int, st: BookingStatus, i: nat)
    requires i < |rows|
    ensures SetStatus(rows, k, st)[i] == Relabel(rows[i], k, st)
  {
    if i > 0 { SetStatusAt(rows[1..], k, st, i - 1); }
  }

  lemma {:induction false} SetStatusIdempotent(rows: seq<Booking>, k: int, st: BookingStatus)
    ensures SetStatus(SetStatus(rows, k, st), k, st) == SetStatus(rows, k, st)
  {
    if rows != [] {
      SetStatusIdempotent(rows[1..], k, st);
      assert SetStatus(rows, k, st)[1..] == SetStatus(rows[1..], k, st);
    }
  }

  /** A status update keeps every id, so every later lookup finds the same row. */
  lemma SetStatusKeepsLookup(rows: seq<Booking>, k: int, st: BookingStatus, k': int)
    ensures IndexOf(SetStatus(rows, k, st), BookingId, k') == IndexOf(rows, BookingId, k')
  {
    var r := SetStatus(rows, k, st);
    forall i | 0 <= i < |rows| ensures r[i].id == rows[i].id { SetStatusAt(rows, k, st, i); }
    IndexOfSameIds(rows, r, BookingId, k');
  }

  // ---------------------------------------------------------------- the table

  class BookingStore {
    var bookings: seq<Booking>
    var nextId: nat

    ghost predicate Valid()
      reads this
    {
      nextId >= 1 &&
      IdsIncreasing(bookings, BookingId) &&
      IdsBelow(bookings, BookingId, nextId) &&
      DatesOrdered(bookings) &&
      KeysFitBigint(bookings)
    }

    constructor ()
      ensures Valid() && bookings == [] && nextId == 1
    {
      bookings := [];
      nextId := 1;
    }

    /** POST /api/bookings, with the clock reading `now`. */
    method CreateBooking(req: CreateBookingRequest, now: Time) returns (r: Result<Booking, Error>)
      requires Valid()
      modifies this
      ensures Valid()
      ensures !Bound(req) ==> r == Failure(BadRequest)
      ensures Bound(req) && req.startDate < now ==> r == Failure(ValidationError)
      ensures Bound(req) && now <= req.startDate && req.endDate < req.startDate ==> r == Failure(ValidationError)
      ensures (Bound(req) && now <= req.startDate <= req.endDate &&
               CountConflicts(old(bookings), req.carId, req.startDate, req.endDate) > 0) ==> r == Failure(Conflict)
      ensures (Bound(req) && now <= req.startDate <= req.endDate &&
               CountConflicts(old(bookings), req.carId, req.startDate, req.endDate) == 0 &&
               (req.userId > MaxInt64 || req.carId > MaxInt64)) ==> r == Failure(InternalError)
      ensures r.Success? <==> Bound(req) && now <= req.startDate <= req.endDate &&
                              CountConflicts(old(bookings), req.carId, req.startDate, req.endDate) == 0 &&
                              req.userId <= MaxInt64 && req.carId <= MaxInt64
      ensures r.Failure? ==> bookings == old(bookings) && nextId == old(nextId)
      ensures r.Success? ==>
                r.value == Booking(old(nextId), req.userId, req.carId, req.startDate, req.endDate,
                                   Pending, TotalCost(req.startDate, req.endDate)) &&
                bookings == old(bookings) + [r.value] && nextId == old(nextId) + 1
    {
      if !Bound(req) { return Failure(BadRequest); }
      if req.startDate < now { return Failure(ValidationError); }
      if req.endDate < req.startDate { return Failure(ValidationError); }
      // A car id above the bigint range cannot be sent with the count, whose
      // error is never read: the count then stays 0.
      var existing := if req.carId > MaxInt64 then 0
                      else CountConflicts(bookings, req.carId, req.startDate, req.endDate);
      if req.carId > MaxInt64 {
        CountConflictsPositive(bookings, req.carId, req.startDate, req.endDate);
      }
      if existing > 0 { return Failure(Conflict); }
      // Nor can the insert send an id above that range.
      if req.userId > MaxInt64 || req.carId > MaxInt64 { return Failure(InternalError); }
      var booking := Booking(nextId, req.userId, req.carId, req.startDate, req.endDate,
                             Pending, TotalCost(req.startDate, req.endDate));
      AppendFresh(bookings, BookingId, nextId, booking);
      bookings := bookings + [booking];
      nextId := nextId + 1;
      r := Success(booking);
    }

    /** GET /api/bookings/user/:userId. */
    method GetUserBookings(userId: string) returns (r: Result<seq<Booking>, Error>)
      requires Valid()
      ensures userId == "" ==> r == Failure(BadRequest)
      ensures userId != "" && Atoi(userId).None? ==> r == Failure(InternalError)
      ensures userId != "" && Atoi(userId).Some? ==> r == Success(UserBookings(bookings, Atoi(userId).value))
    {
      if userId == "" { return Failure(BadRequest); }
      match Atoi(userId)
      case None => r := Failure(InternalError);
      case Some(uid) => r := Success(UserBookings(bookings, uid));
    }

    /** PUT /api/bookings/:id/status with body status `status`. */
    method UpdateBookingStatus(id: string, status: string) returns (r: Result<Booking, Error>)
      requires Valid()
      modifies this
      ensures Valid() && nextId == old(nextId)
      ensures id == "" ==> r == Failure(BadRequest)
      ensures id != "" && TargetStatus(status).None? ==> r == Failure(BadRequest)
      ensures id != "" && TargetStatus(status).Some? && Atoi(id).None? ==> r == Failure(InternalError)
      ensures (id != "" && TargetStatus(status).Some? && Atoi(id).Some? &&
               IndexOf(old(bookings), BookingId, Atoi(id).value).None?) ==> r == Failure(NotFound)
      ensures (id != "" && TargetStatus(status).Some? && Atoi(id).Some? &&
               IndexOf(old(bookings), BookingId, Atoi(id).value).Some?) ==> r.Success?
      ensures r.Failure? ==> bookings == old(bookings)
      ensures r.Success? ==>
                id != "" && TargetStatus(status).Some? && Atoi(id).Some? &&
                var k, st := Atoi(id).value, TargetStatus(status).value;
                IndexOf(old(bookings), BookingId, k).Some? &&
                r.value == old(bookings)[IndexOf(old(bookings), BookingId, k).value].(status := st) &&
                bookings == SetStatus(old(bookings), k, st)
    {
      if id == "" { return Failure(BadRequest); }
      var st;
      match TargetStatus(status) {
        case None => return Failure(BadRequest);
        case Some(s) => st := s;
      }
      var k;
      match Atoi(id) {
        case None => return Failure(InternalError);
        case Some(n) => k := n;
      }
      var i;
      match IndexOf(bookings, BookingId, k) {
        case None => return Failure(NotFound);
        case Some(j) => i := j;
      }
      var booking := bookings[i].(status := st);
      ghost var before := bookings;
      bookings := bookings[i := booking];
      forall j | 0 <= j < |before| ensures bookings[j] == SetStatus(before, k, st)[j] {
        SetStatusAt(before, k, st, j);
        if j != i { IndexOfOnly(before, BookingId, k, j); }
      }
      r := Success(booking);
    }
  }

  // ---------------------------------------------------------------- clients of the contracts

  /** A three-day booking starting in the future is stored as pending at a cost of 150. */
  method PricingScenario(now: Time)
    requires now > 1
  {
    var store := new BookingStore();
    var start := now + SecondsPerDay;
    var r := store.CreateBooking(CreateBookingRequest(7, 1, start, start + 72 * 3600), now);
    ThreeDaysCost150(start);
    assert r == Success(Booking(1, 7, 1, start, start + 72 * 3600, Pending, 150.0));
    var past := store.CreateBooking(CreateBookingRequest(7, 2, now - 1, now + 1), now);
    assert past == Failure(ValidationError);
  }

  /** Once confirmed, a booking blocks an overlapping request for the same car. */
  method ConflictScenario(now: Time)
    requires now > 0
  {
    var store := new BookingStore();
    var start := now + SecondsPerDay;
    var first := store.CreateBooking(CreateBookingRequest(7, 1, start, start + 3 * SecondsPerDay), now);
    AtoiShow(1);
    var confirmed := store.UpdateBookingStatus(Show(1), "confirmed");
    SetStatusAt([first.value], 1, Confirmed, 0);
    assert store.bookings == [first.value.(status := Confirmed)];
    assert store.bookings[..0] == [];
    var second := store.CreateBooking(CreateBookingRequest(8, 1, start + SecondsPerDay, start + 2 * SecondsPerDay), now);
    assert second == Failure(Conflict);
  }

  /** No transition check: a cancelled booking can be confirmed again. */
  method ReconfirmScenario(now: Time)
    requires now > 0
  {
    var store := new BookingStore();
    var start := now + SecondsPerDay;
    var first := store.CreateBooking(CreateBookingRequest(7, 1, start, start + SecondsPerDay), now);
    AtoiShow(1);
    var cancelled := store.UpdateBookingStatus(Show(1), "cancelled");
    assert cancelled.Success?;
    SetStatusKeepsLookup([first.value], 1, Cancelled, 1);
    var again := store.UpdateBookingStatus(Show(1), "confirmed");
    assert again.Success? && again.value.status == Confirmed;
  }

  /** An id with no row is not found, and an empty id is a bad request. */
  method NotFoundScenario()
  {
    var store := new BookingStore();
    AtoiShow(999);
    var missing := store.UpdateBookingStatus(Show(999), "completed");
    assert missing == Failure(NotFound);
    var empty := store.UpdateBookingStatus("", "completed");
    assert empty == Failure(BadRequest);
  }

  /** A car id beyond the bigint range is refused by the insert, and nothing is stored. */
  method WideIdScenario(now: Time)
    requires now > 0
  {
    var store := new BookingStore();
    var start := now + SecondsPerDay;
    var wide := store.CreateBooking(CreateBookingRequest(7, MaxInt64 + 1, start, start), now);
    assert wide == Failure(InternalError) && store.bookings == [] && store.nextId == 1;
  }
}
