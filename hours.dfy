/** The trainer context's hour aggregate as the handlers see it, and the hour repository's
    read and update-by-function accessors. */
module Hours {
  import opened Errors

  /** An hour slot; `time` is the slot's start, in whole hours. */
  datatype Hour = Hour(time: int, available: bool, hasTrainingScheduled: bool)

  /** The state a domain method leaves an hour in, with the error it returned. A method
      that fails may already have changed the hour it was called on. */
  datatype HourChange = HourChange(hour: Hour, err: Option<Error>)

  /** Hours keyed by their time. A slot never stored is built by `newHour`, which may
      refuse the time. */
  class HourRepository {
    var hours: map<int, Hour>
    const newHour: int -> Result<Hour>

    constructor (newHour: int -> Result<Hour>)
      ensures hours == map[] && this.newHour == newHour
    {
      hours := map[];
      this.newHour := newHour;
    }

    /** The current hour at `hourTime`. */
    function GetHour(hourTime: int): Result<Hour>
      reads this
    {
      if hourTime in hours then Ok(hours[hourTime]) else newHour(hourTime)
    }

    /** What an update of `hourTime` by `updateFn` stores, or why it fails. */
    function UpdateResult(hourTime: int, updateFn: Hour -> Result<Hour>): Result<Hour>
      reads this
    {
      match GetHour(hourTime)
      case Err(e) => Err(e)
      case Ok(h) => updateFn(h)
    }

    /** Fetches the hour, applies `updateFn` and stores its result under the same time.
        A failure anywhere is returned and nothing is stored; no other hour changes. */
    method UpdateHour(hourTime: int, updateFn: Hour -> Result<Hour>) returns (err: Option<Error>)
      modifies this
      ensures var r := old(UpdateResult(hourTime, updateFn));
        && err == ErrorOf(r)
        && hours == (if r.Ok? then old(hours)[hourTime := r.value] else old(hours))
      // read after write: the stored hour is what reads see, and every other read is as before
      ensures err.None? ==> GetHour(hourTime) == old(UpdateResult(hourTime, updateFn))
      ensures forall t :: t != hourTime ==> GetHour(t) == old(GetHour(t))
    {
      var current := GetHour(hourTime);
      if current.Err? {
        return Some(current.error);
      }
      var updated := updateFn(current.value);
      if updated.Err? {
        return Some(updated.error);
      }
      hours := hours[hourTime := updated.value];
      err := None;
    }
  }
}
