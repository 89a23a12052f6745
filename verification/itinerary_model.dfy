/** The records exchanged with the itinerary backend (src/app/services/itinerary.service.ts)
    and the pure response transforms applied to them. Dates are kept abstract: a date
    object is represented by its time value, and parsing a date string or printing a date
    as ISO-8601 is a function the caller supplies. */
module ItineraryModel {

  datatype Option<+T> = None | Some(value: T)

  /** A JavaScript Date: a time value, or the Invalid Date that `new Date` yields for a
      string it cannot parse (and for `undefined`, when the backend omits the field). */
  datatype Date = Date(millis: int) | InvalidDate

  /** The `Date | string` fields of an itinerary: a raw string (as the backend sends it)
      or a parsed date object. */
  datatype DateField = Text(text: string) | Moment(date: Date)

  /** `location`: a geometry type and its coordinates, stored as [longitude, latitude]. */
  datatype Location = Location(geometryType: string, coordinates: (int, int))

  datatype PointDetails = PointDetails(
    id: int,
    name: string,
    description: string,
    kind: string,          // the `type` field: PARK, RESTAURANT, MUSEUM, ...
    address: string,
    estimatedTime: string,
    difficulty: string,
    location: Location,
    createdAt: string,
    updatedAt: string)

  /** One stop of an itinerary. */
  datatype Point = Point(
    id: int,
    day: int,
    order: int,
    notes: Option<string>,
    details: PointDetails,
    pointOfInterest: int)

  /** An itinerary; `id`, `created_at` and `updated_at` exist only once persisted. */
  datatype Itinerary = Itinerary(
    id: Option<int>,
    title: string,
    description: string,
    days: int,
    points: seq<Point>,
    startDate: DateField,
    endDate: DateField,
    createdAt: Option<string>,
    updatedAt: Option<string>)

  /** The paginated body returned by the list endpoint. */
  datatype ItineraryResponse = ItineraryResponse(
    count: int,
    next: Option<string>,
    previous: Option<string>,
    results: seq<Itinerary>)

  /** `new Date(field)`: a string is parsed, a date object keeps its time value (an
      Invalid Date stays invalid). */
  function ToDate(f: DateField, parse: string -> Date): (d: Date)
    ensures f.Text? ==> d == parse(f.text)
    ensures f.Moment? ==> d == f.date
  {
    match f
    case Text(s) => parse(s)
    case Moment(d) => d
  }

  /** The per-itinerary response mapper of `getItineraryById` and `getAllItineraries`:
      every field is carried over except the two dates, which become date objects. */
  function ParseDates(it: Itinerary, parse: string -> Date): (r: Itinerary)
    ensures r.id == it.id && r.title == it.title && r.description == it.description
    ensures r.days == it.days && r.points == it.points
    ensures r.createdAt == it.createdAt && r.updatedAt == it.updatedAt
    ensures r.startDate.Moment? && r.endDate.Moment?
    ensures it.startDate.Text? ==> r.startDate.date == parse(it.startDate.text)
    ensures it.endDate.Text? ==> r.endDate.date == parse(it.endDate.text)
    ensures it.startDate.Moment? ==> r.startDate == it.startDate
    ensures it.endDate.Moment? ==> r.endDate == it.endDate
  {
    it.(startDate := Moment(ToDate(it.startDate, parse)),
        endDate := Moment(ToDate(it.endDate, parse)))
  }

  /** Mapping an already mapped itinerary changes nothing more. */
  lemma ParseDatesIdempotent(it: Itinerary, parse: string -> Date)
    ensures ParseDates(ParseDates(it, parse), parse) == ParseDates(it, parse)
  {
  }

  /** The list mapper of `getAllItineraries`: `response.results.map(...)`. */
  function MapListResponse(response: ItineraryResponse, parse: string -> Date): (r: seq<Itinerary>)
    ensures |r| == |response.results|
    ensures forall i :: 0 <= i < |r| ==> r[i] == ParseDates(response.results[i], parse)
  {
    seq(|response.results|, i requires 0 <= i < |response.results| => ParseDates(response.results[i], parse))
  }

  /** The list mapper keeps the points of every itinerary, in result order. */
  lemma MapListKeepsPoints(response: ItineraryResponse, parse: string -> Date, i: int)
    requires 0 <= i < |response.results|
    ensures |MapListResponse(response, parse)| == |response.results|
    ensures MapListResponse(response, parse)[i].points == response.results[i].points
    ensures MapListResponse(response, parse)[i].id == response.results[i].id
  {
  }

  /** The body `saveItinerary` posts: the itinerary without `id`, `created_at` and
      `updated_at`, its dates as strings. */
  datatype SavePayload = SavePayload(
    title: string,
    description: string,
    days: int,
    points: seq<Point>,
    startDate: string,
    endDate: string)

  /** `value instanceof Date ? value.toISOString() : value`: a valid date object is
      printed with `toISOString`, a string passes through, and `toISOString` throws a
      `RangeError` on an Invalid Date, which is `None` here. */
  function DateText(f: DateField, toIso: Date -> string): (s: Option<string>)
    ensures f.Text? ==> s == Some(f.text)
    ensures f.Moment? && f.date.Date? ==> s == Some(toIso(f.date))
    ensures s.None? <==> f == Moment(InvalidDate)
  {
    match f
    case Text(t) => Some(t)
    case Moment(d) => if d.InvalidDate? then None else Some(toIso(d))
  }

  /** The body `saveItinerary` builds, or `None` when printing one of the dates throws. */
  function ToPayload(it: Itinerary, toIso: Date -> string): (p: Option<SavePayload>)
    ensures p.None? <==> it.startDate == Moment(InvalidDate) || it.endDate == Moment(InvalidDate)
    ensures p.Some? ==> p.value.title == it.title && p.value.description == it.description
    ensures p.Some? ==> p.value.days == it.days && p.value.points == it.points
    ensures p.Some? ==> Some(p.value.startDate) == DateText(it.startDate, toIso)
                        && Some(p.value.endDate) == DateText(it.endDate, toIso)
  {
    var start := DateText(it.startDate, toIso);
    var end := DateText(it.endDate, toIso);
    if start.None? || end.None? then None
    else Some(SavePayload(it.title, it.description, it.days, it.points, start.value, end.value))
  }

  /** What the backend returns for a saved payload: the same body with the metadata it
      assigns; its dates are strings again. */
  function Persisted(p: SavePayload, id: int, createdAt: string, updatedAt: string): (it: Itinerary)
    ensures it.id == Some(id) && it.createdAt == Some(createdAt) && it.updatedAt == Some(updatedAt)
    ensures it.points == p.points && it.startDate == Text(p.startDate) && it.endDate == Text(p.endDate)
  {
    Itinerary(Some(id), p.title, p.description, p.days, p.points,
              Text(p.startDate), Text(p.endDate), Some(createdAt), Some(updatedAt))
  }

  /** Saving an itinerary and reading it back through the response mapper gives back the
      itinerary as the response mapper returns it (its string dates parsed), up to the
      metadata the backend assigns, provided that parsing undoes `toISOString` on its two
      dates and neither is the Invalid Date (for which no payload is built). An itinerary
      whose dates are already date objects, as one loaded from the backend, comes back
      exactly, up to that metadata. */
  lemma SaveLoadRoundTrip(it: Itinerary, toIso: Date -> string, parse: string -> Date,
                          id: int, createdAt: string, updatedAt: string)
    requires it.startDate.Moment? ==> parse(toIso(it.startDate.date)) == it.startDate.date
    requires it.endDate.Moment? ==> parse(toIso(it.endDate.date)) == it.endDate.date
    ensures ToPayload(it, toIso).Some? ==>
            ParseDates(Persisted(ToPayload(it, toIso).value, id, createdAt, updatedAt), parse)
            == ParseDates(it, parse).(id := Some(id), createdAt := Some(createdAt), updatedAt := Some(updatedAt))
    ensures it.startDate.Moment? && it.endDate.Moment? && ToPayload(it, toIso).Some? ==>
            ParseDates(Persisted(ToPayload(it, toIso).value, id, createdAt, updatedAt), parse)
            == it.(id := Some(id), createdAt := Some(createdAt), updatedAt := Some(updatedAt))
  {
  }
}
