/** The trainer context's HTTP adapter: turning the available-hours read model into the
    response body, and the role gate and choice of response around the hour commands. */
module TrainerHttp {
  import opened Errors

  /** One hour of the available-hours read model. */
  datatype QueryHour = QueryHour(available: bool, hasTrainingScheduled: bool, hour: int)
  /** One day of the available-hours read model. */
  datatype QueryDate = QueryDate(date: int, hasFreeHours: bool, hours: seq<QueryHour>)

  /** The API's calendar-date wrapper around a time. */
  datatype ApiDate = ApiDate(time: int)
  /** One hour of the response body. */
  datatype Hour = Hour(available: bool, hasTrainingScheduled: bool, hour: int)
  /** One day of the response body. */
  datatype Date = Date(date: ApiDate, hasFreeHours: bool, hours: seq<Hour>)

  function HourToResponse(h: QueryHour): Hour
  {
    Hour(h.available, h.hasTrainingScheduled, h.hour)
  }

  /** The response hours of one day: one per read-model hour, in the same order. */
  function HoursToResponse(hs: seq<QueryHour>): (r: seq<Hour>)
    ensures |r| == |hs|
    ensures forall j :: 0 <= j < |hs| ==> r[j] == HourToResponse(hs[j])
  {
    if |hs| == 0 then [] else HoursToResponse(hs[..|hs| - 1]) + [HourToResponse(hs[|hs| - 1])]
  }

  function DateToResponse(d: QueryDate): Date
  {
    Date(ApiDate(d.date), d.hasFreeHours, HoursToResponse(d.hours))
  }

  /** The response days: one per read-model day, in the same order. */
  function DatesToResponse(ds: seq<QueryDate>): (r: seq<Date>)
    ensures |r| == |ds|
    ensures forall i :: 0 <= i < |ds| ==> r[i] == DateToResponse(ds[i])
  {
    if |ds| == 0 then [] else DatesToResponse(ds[..|ds| - 1]) + [DateToResponse(ds[|ds| - 1])]
  }

  /** Builds the response body with two nested loops that append as they go. Each day keeps
      its date and free-hours flag, and each hour its three fields, in the input order. */
  method DateModelsToResponse(models: seq<QueryDate>) returns (dates: seq<Date>)
    ensures dates == DatesToResponse(models)
    ensures |dates| == |models|
    ensures forall i :: 0 <= i < |models| ==>
      && dates[i].date.time == models[i].date
      && dates[i].hasFreeHours == models[i].hasFreeHours
      && |dates[i].hours| == |models[i].hours|
    ensures forall i, j :: 0 <= i < |models| && 0 <= j < |models[i].hours| ==>
      && dates[i].hours[j].available == models[i].hours[j].available
      && dates[i].hours[j].hasTrainingScheduled == models[i].hours[j].hasTrainingScheduled
      && dates[i].hours[j].hour == models[i].hours[j].hour
  {
    dates := [];
    for i := 0 to |models|
      invariant dates == DatesToResponse(models[..i])
    {
      var d := models[i];
      var hours: seq<Hour> := [];
      for j := 0 to |d.hours|
        invariant hours == HoursToResponse(d.hours[..j])
      {
        var h := d.hours[j];
        assert d.hours[..j + 1][..j] == d.hours[..j];
        hours := hours + [Hour(h.available, h.hasTrainingScheduled, h.hour)];
      }
      assert d.hours[..|d.hours|] == d.hours;
      assert models[..i + 1][..i] == models[..i];
      dates := dates + [Date(ApiDate(d.date), d.hasFreeHours, hours)];
    }
    assert models[..|models|] == models;
  }

  /** Reading the read model back out of a response body. */
  function DatesFromResponse(dates: seq<Date>): (r: seq<QueryDate>)
    ensures |r| == |dates|
    ensures forall i :: 0 <= i < |dates| ==>
      r[i] == QueryDate(dates[i].date.time, dates[i].hasFreeHours, HoursFromResponse(dates[i].hours))
  {
    if |dates| == 0 then []
    else
      var d := dates[|dates| - 1];
      DatesFromResponse(dates[..|dates| - 1]) + [QueryDate(d.date.time, d.hasFreeHours, HoursFromResponse(d.hours))]
  }

  function HoursFromResponse(hours: seq<Hour>): (r: seq<QueryHour>)
    ensures |r| == |hours|
    ensures forall j :: 0 <= j < |hours| ==>
      r[j] == QueryHour(hours[j].available, hours[j].hasTrainingScheduled, hours[j].hour)
  {
    if |hours| == 0 then []
    else
      var h := hours[|hours| - 1];
      HoursFromResponse(hours[..|hours| - 1]) + [QueryHour(h.available, h.hasTrainingScheduled, h.hour)]
  }

  /** The response hours determine the read-model hours. */
  lemma {:induction false} HoursRoundTrip(hs: seq<QueryHour>)
    ensures HoursFromResponse(HoursToResponse(hs)) == hs
  {
  }

  /** The response body loses nothing: the read model can be read back from it exactly. */
  lemma {:induction false} ResponseRoundTrip(models: seq<QueryDate>)
    ensures DatesFromResponse(DatesToResponse(models)) == models
  {
    var back := DatesFromResponse(DatesToResponse(models));
    forall i | 0 <= i < |models| ensures back[i] == models[i] {
      assert DatesToResponse(models)[i] == DateToResponse(models[i]);
      HoursRoundTrip(models[i].hours);
    }
  }

  /** The authenticated user the request carries; the role is a plain string. */
  datatype AuthUser = AuthUser(uuid: string, role: string)

  /** The decoded request body of the hour commands. */
  datatype HourUpdate = HourUpdate(hours: seq<int>)

  /** The two commands the hour endpoints issue. */
  datatype HourCommand = MakeHoursAvailable(hours: seq<int>) | MakeHoursUnavailable(hours: seq<int>)

  /** The responses the adapter writes. */
  datatype Response =
    | NoContent
    | Unauthorised(slug: string)
    | ErrorResponse(err: Error)
    | DatesResponse(dates: seq<Date>)

  /** One request to an hour endpoint: the command it issued, if any, and the response. */
  datatype Exchange = Exchange(issued: Option<HourCommand>, response: Response)

  const TrainerRole: string := "trainer"
  const InvalidRole: string := "invalid-role"

  /** The shared shape of both hour endpoints: read the user, refuse every role but the
      trainer's, decode the body, issue `command` built from the decoded hours through
      `handle`, and answer 204 or the command's error. */
  function HourUpdateEndpoint(
    user: Result<AuthUser>, body: Result<HourUpdate>,
    command: seq<int> -> HourCommand, handle: HourCommand -> Option<Error>): Exchange
  {
    match user
    case Err(e) => Exchange(None, ErrorResponse(e))
    case Ok(u) =>
      if u.role != TrainerRole then Exchange(None, Unauthorised(InvalidRole))
      else match body
        case Err(e) => Exchange(None, ErrorResponse(e))
        case Ok(update) =>
          var cmd := command(update.hours);
          match handle(cmd)
          case Some(e) => Exchange(Some(cmd), ErrorResponse(e))
          case None => Exchange(Some(cmd), NoContent)
  }

  /** MakeHourAvailable: only a trainer's request with a readable body reaches the command. */
  function MakeHourAvailable(user: Result<AuthUser>, body: Result<HourUpdate>, handle: HourCommand -> Option<Error>)
    : (x: Exchange)
    ensures x.issued.Some? <==> user.Ok? && user.value.role == TrainerRole && body.Ok?
    ensures x.issued.Some? ==> x.issued.value == MakeHoursAvailable(body.value.hours)
    ensures user.Err? ==> x == Exchange(None, ErrorResponse(user.error))
    ensures user.Ok? && user.value.role != TrainerRole ==> x == Exchange(None, Unauthorised(InvalidRole))
    ensures user.Ok? && user.value.role == TrainerRole && body.Err? ==> x == Exchange(None, ErrorResponse(body.error))
    ensures x.response == NoContent <==> x.issued.Some? && handle(x.issued.value).None?
    ensures x.issued.Some? && handle(x.issued.value).Some? ==> x.response == ErrorResponse(handle(x.issued.value).value)
  {
    HourUpdateEndpoint(user, body, (hs: seq<int>) => MakeHoursAvailable(hs), handle)
  }

  /** MakeHourUnavailable: the same gate in front of the other command. */
  function MakeHourUnavailable(user: Result<AuthUser>, body: Result<HourUpdate>, handle: HourCommand -> Option<Error>)
    : (x: Exchange)
    ensures x.issued.Some? <==> user.Ok? && user.value.role == TrainerRole && body.Ok?
    ensures x.issued.Some? ==> x.issued.value == MakeHoursUnavailable(body.value.hours)
    ensures user.Err? ==> x == Exchange(None, ErrorResponse(user.error))
    ensures user.Ok? && user.value.role != TrainerRole ==> x == Exchange(None, Unauthorised(InvalidRole))
    ensures user.Ok? && user.value.role == TrainerRole && body.Err? ==> x == Exchange(None, ErrorResponse(body.error))
    ensures x.response == NoContent <==> x.issued.Some? && handle(x.issued.value).None?
    ensures x.issued.Some? && handle(x.issued.value).Some? ==> x.response == ErrorResponse(handle(x.issued.value).value)
  {
    HourUpdateEndpoint(user, body, (hs: seq<int>) => MakeHoursUnavailable(hs), handle)
  }

  /** The query parameters of the available-hours endpoint and the query they become. */
  datatype GetTrainerAvailableHoursParams = GetTrainerAvailableHoursParams(dateFrom: int, dateTo: int)
  datatype AvailableHours = AvailableHours(from: int, to: int)

  /** Runs the available-hours query over the requested range; a failed query is answered
      with its error and renders no dates, otherwise the dates are rendered as built above. */
  method GetTrainerAvailableHours(
    params: GetTrainerAvailableHoursParams, availableHours: AvailableHours -> Result<seq<QueryDate>>)
    returns (resp: Response)
    ensures var answer := availableHours(AvailableHours(params.dateFrom, params.dateTo));
      && (answer.Err? ==> resp == ErrorResponse(answer.error))
      && (answer.Ok? ==> resp == DatesResponse(DatesToResponse(answer.value)))
  {
    var dateModels := availableHours(AvailableHours(params.dateFrom, params.dateTo));
    if dateModels.Err? {
      return ErrorResponse(dateModels.error);
    }
    var dates := DateModelsToResponse(dateModels.value);
    resp := DatesResponse(dates);
  }
}
