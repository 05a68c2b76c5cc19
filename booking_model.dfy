/** The bookings table: its status enumeration and its record. */
module BookingModel {
  import opened Wrappers
  import opened Timestamps
  import opened Columns

  datatype BookingStatus = Pending | Confirmed | Cancelled | Completed

  /** The varchar(20) value stored for each status. */
  function EncodeStatus(s: BookingStatus): (t: string)
    ensures 0 < |t| <= StatusWidth
  {
    match s
    case Pending => "pending"
    case Confirmed => "confirmed"
    case Cancelled => "cancelled"
    case Completed => "completed"
  }

  function DecodeStatus(t: string): (r: Option<BookingStatus>)
    ensures r.Some? ==> EncodeStatus(r.value) == t
    ensures r.None? ==> forall s :: EncodeStatus(s) != t
  {
    if t == "pending" then Some(Pending)
    else if t == "confirmed" then Some(Confirmed)
    else if t == "cancelled" then Some(Cancelled)
    else if t == "completed" then Some(Completed)
    else None
  }

  lemma DecodeEncode(s: BookingStatus)
    ensures DecodeStatus(EncodeStatus(s)) == Some(s)
  {
  }

  lemma EncodingsDistinct(s: BookingStatus, u: BookingStatus)
    requires s != u
    ensures EncodeStatus(s) != EncodeStatus(u)
  {
    DecodeEncode(s);
    DecodeEncode(u);
  }

  /** Every status fits the varchar(20) column unchanged. */
  lemma StatusFitsColumn(s: BookingStatus)
    ensures FitVarchar(EncodeStatus(s), StatusWidth) == Some(EncodeStatus(s))
  {
  }

  /** The column default, `default:'pending'`. */
  function DefaultStatus(): (s: BookingStatus)
    ensures EncodeStatus(s) == "pending"
  {
    Pending
  }

  /** One row; `id` is the primary key of the embedded gorm.Model. */
  datatype Booking = Booking(
    id: nat,
    userId: nat,
    carId: nat,
    startDate: Time,
    endDate: Time,
    status: BookingStatus,
    totalCost: real)

  function BookingId(b: Booking): nat { b.id }
}
