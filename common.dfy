/** Failure-carrying results shared by both services. */
module Wrappers {
  datatype Option<+T> = None | Some(value: T)

  datatype Result<+R, +E> = Success(value: R) | Failure(error: E)
}

/** The error answers of the two HTTP handlers, as kinds instead of status codes. */
module Errors {
  /**
   * BadRequest       -- 400 from request binding or a path-parameter check
   * ValidationError  -- 400 from the booking date checks
   * Conflict         -- 409, the car is already booked
   * NotFound         -- 404, no row with that id
   * InternalError    -- 500, the database refused the statement
   */
  datatype Error = BadRequest | ValidationError | Conflict | NotFound | InternalError
}

/**
 * A timestamp (Go's time.Time), in whole seconds counted from Go's zero time
 * (January 1, year 1, UTC), so the zero value of a time field is 0.
 */
module Timestamps {
  type Time = int

  const ZeroTime: Time := 0
}

/** Storing a string in a Postgres `character varying(n)` column. */
module Columns {
  import opened Wrappers

  /** The width of the `type:varchar(20)` status columns of both tables. */
  const StatusWidth: nat := 20

  /**
   * A value of at most `n` characters is stored as it is.  A longer one is
   * refused, unless every character past the `n`-th is a space; then it is
   * silently cut to `n` characters.
   */
  function FitVarchar(s: string, n: nat): (r: Option<string>)
    ensures |s| <= n ==> r == Some(s)
    ensures r.Some? ==> |r.value| <= n && r.value <= s
    ensures |s| > n && r.Some? ==> r.value == s[..n]
    ensures r.Some? ==> forall i :: |r.value| <= i < |s| ==> s[i] == ' '
    ensures r.None? <==> exists i :: n <= i < |s| && s[i] != ' '
  {
    if |s| <= n then Some(s)
    else if forall i :: n <= i < |s| ==> s[i] == ' ' then Some(s[..n])
    else None
  }
}
