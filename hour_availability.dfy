/** The trainer context's HourAvailability query: whether one hour can be booked. */
module HourAvailabilityQuery {
  import opened Errors
  import opened Hours

  datatype HourAvailability = HourAvailability(hour: int)

  /** The query's `(bool, error)` answer. */
  datatype Availability = Availability(available: bool, err: Option<Error>)

  class HourAvailabilityHandler {
    const hourRepo: HourRepository

    /** An absent repository is a wiring mistake that stops the program. */
    constructor (hourRepo: HourRepository?)
      requires hourRepo != null
      ensures this.hourRepo == hourRepo
    {
      this.hourRepo := hourRepo;
    }

    /** Reads the hour and reports the hour's own availability; a failed read reports
        `false` with the read's error. Being a function, it cannot change the store. */
    function Handle(query: HourAvailability, isAvailable: Hour -> bool): (a: Availability)
      reads hourRepo
      ensures a.err == ErrorOf(hourRepo.GetHour(query.hour))
      ensures a.available <==> hourRepo.GetHour(query.hour).Ok? && isAvailable(hourRepo.GetHour(query.hour).value)
    {
      match hourRepo.GetHour(query.hour)
      case Err(e) => Availability(false, Some(e))
      case Ok(h) => Availability(isAvailable(h), None)
    }
  }
}
