/** The records the dashboard receives from the events API. */
module Events {

  datatype Option<T> = None | Some(value: T)

  /** `new Date(event.startTime)`: either a valid instant, in milliseconds
      on the local timeline, or an Invalid Date (NaN), which every
      comparison rejects. */
  datatype Instant = At(ms: int) | InvalidDate

  /** `EventListItem`: one row of the event list. */
  datatype EventListItem = EventListItem(
    eventId: int,
    title: string,
    startTime: Instant,
    status: string,
    maxSeats: nat,
    bannerUrl: Option<string>,
    location: Option<string>,
    description: Option<string>)

  /** `EventDetail`: the full record of one event, fetched when it is
      selected. */
  datatype EventDetail = EventDetail(
    item: EventListItem,
    endTime: Option<Instant>,
    fullDescription: Option<string>)

  /** The status an event must have to be listed. */
  const OpenStatus: string := "OPEN"

  /** The JSON shapes a list response body can take. Array elements are
      taken as event records, as the source does without checking them. */
  datatype Json =
    | JNull
    | JScalar
    | JArray(items: seq<EventListItem>)
    | JObject(fields: map<string, Json>)
}
