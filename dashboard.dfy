/** The state of the `Dashboard` component: the event list with its
    loading flag and error, and the event-detail modal with its four
    fields. Each handler is one sequential step; the await inside a fetch
    splits it into a step that starts the request and a step that handles
    the response. */
module DashboardPage {
  import opened Events
  import opened Fetching
  import opened Categorizer

  datatype ListState = ListState(events: Json, loading: bool, error: Option<ErrorMessage>)

  datatype ModalState = ModalState(
    isDetailOpen: bool,
    selectedEvent: Option<EventDetail>,
    loadingDetail: bool,
    detailError: Option<ErrorMessage>)

  /** `useState` initial values. */
  const InitialList: ListState := ListState(JArray([]), true, None)
  const InitialModal: ModalState := ModalState(false, None, false, None)

  // ---------------------------------------------------------------------
  // The list fetch

  /** `fetchEvents` up to its await: without a token it reports that the
      user is not logged in and stops loading; otherwise it starts loading
      and clears the error. The events are not touched. */
  function BeginFetchEvents(s: ListState, token: Option<string>): (r: ListState)
    ensures r.events == s.events
    ensures !HasToken(token) ==> !r.loading && r.error == Some(NotLoggedIn)
    ensures HasToken(token) ==> r.loading && r.error.None?
  {
    if !HasToken(token) then s.(error := Some(NotLoggedIn), loading := false)
    else s.(loading := true, error := None)
  }

  /** `fetchEvents` after its await. Loading always stops; the events are
      replaced only by fetched data or, on a 404, by the empty list; an
      error leaves the previous events in place. */
  function ResolveFetchEvents(s: ListState, response: HttpResult<Json>): (r: ListState)
    ensures !r.loading
    ensures r.events != s.events ==> ListOutcome(response).Data? || ListOutcome(response) == NotAvailable
    ensures ListOutcome(response).Failed? ==> r.error == Some(ListOutcome(response).message) && r.events == s.events
    ensures ListOutcome(response).Data? ==> r.events == JArray(ListOutcome(response).value) && r.error == s.error
    ensures ListOutcome(response) == NotAvailable ==> r.events == JArray([]) && r.error == Some(NotAvailableYet)
  {
    match ListOutcome(response)
    case Data(eventsArray) => s.(events := JArray(eventsArray), loading := false)
    case NotAvailable => s.(error := Some(NotAvailableYet), events := JArray([]), loading := false)
    case Failed(message) => s.(error := Some(message), loading := false)
  }

  /** A complete list fetch with a token: whatever the response, loading
      has stopped; fetched data is shown with no error; a 404 shows the
      empty list with the not-available message; any other failure shows
      its message over the previous events. */
  lemma FetchEventsWithToken(s: ListState, token: Option<string>, response: HttpResult<Json>)
    requires HasToken(token)
    ensures var r := ResolveFetchEvents(BeginFetchEvents(s, token), response);
      && !r.loading
      && (ListOutcome(response).Data? ==> r.events == JArray(ListOutcome(response).value) && r.error.None?)
      && (ListOutcome(response) == NotAvailable ==> r.events == JArray([]) && r.error == Some(NotAvailableYet))
      && (ListOutcome(response).Failed? ==> r.events == s.events && r.error == Some(ListOutcome(response).message))
  {
  }

  /** The status policy of the list fetch as a whole: no token gives the
      not-logged-in error with no request; 401 the invalid-token error;
      404 the empty list with the not-available message; any other
      non-ok status `HTTP <status>`. Loading is off afterwards in each case. */
  lemma ListStatusPolicy(s: ListState, token: Option<string>, status: int, body: Option<Json>)
    ensures !HasToken(token) ==>
      BeginFetchEvents(s, token) == s.(loading := false, error := Some(NotLoggedIn))
    ensures HasToken(token) && status == 401 ==>
      ResolveFetchEvents(BeginFetchEvents(s, token), Response(status, body))
      == s.(loading := false, error := Some(InvalidToken))
    ensures HasToken(token) && status == 404 ==>
      ResolveFetchEvents(BeginFetchEvents(s, token), Response(status, body))
      == ListState(JArray([]), false, Some(NotAvailableYet))
    ensures HasToken(token) && !IsOk(status) && status != 401 && status != 404 ==>
      ResolveFetchEvents(BeginFetchEvents(s, token), Response(status, body))
      == s.(loading := false, error := Some(HttpStatus(status)))
  {
  }

  /** One handler run on the list state. */
  datatype ListStep = Begin(token: Option<string>) | Resolve(response: HttpResult<Json>)

  function RunList(s: ListState, steps: seq<ListStep>): ListState
  {
    if steps == [] then s
    else
      var s' := RunList(s, steps[..|steps| - 1]);
      match steps[|steps| - 1]
      case Begin(token) => BeginFetchEvents(s', token)
      case Resolve(response) => ResolveFetchEvents(s', response)
  }

  /** The events state always holds an array, so the `Array.isArray`
      guard before `categorizeEvents` never replaces it by `[]`. */
  lemma {:induction false} EventsStayAnArray(steps: seq<ListStep>)
    ensures RunList(InitialList, steps).events.JArray?
    ensures AsEventList(RunList(InitialList, steps).events) == RunList(InitialList, steps).events.items
  {
    if steps != [] {
      EventsStayAnArray(steps[..|steps| - 1]);
    }
  }

  // ---------------------------------------------------------------------
  // The detail modal

  /** `openEventDetail` up to its await: without a token nothing changes;
      otherwise the modal opens, the selection and the error are cleared
      and loading starts. */
  function OpenDetail(s: ModalState, token: Option<string>): (r: ModalState)
    ensures !HasToken(token) ==> r == s
    ensures HasToken(token) ==>
      r.isDetailOpen && r.selectedEvent.None? && r.loadingDetail && r.detailError.None?
  {
    if !HasToken(token) then s
    else ModalState(true, None, true, None)
  }

  /** `openEventDetail` after its await. Loading always stops; only
      success sets the selected event (to `null` for a `null` body) and
      keeps the error as it is; a 404 clears the selection. */
  function ResolveDetail(s: ModalState, response: HttpResult<DetailBody>): (r: ModalState)
    ensures !r.loadingDetail && r.isDetailOpen == s.isDetailOpen
    ensures r.selectedEvent.Some? && r.selectedEvent != s.selectedEvent ==> DetailOutcome(response).Data?
    ensures DetailOutcome(response).Data? ==>
      r.selectedEvent == DetailOutcome(response).value && r.detailError == s.detailError
    ensures DetailOutcome(response) == NotAvailable ==>
      r.selectedEvent.None? && r.detailError == Some(NotAvailableYet)
    ensures DetailOutcome(response).Failed? ==>
      r.detailError == Some(DetailOutcome(response).message) && r.selectedEvent == s.selectedEvent
  {
    match DetailOutcome(response)
    case Data(data) => s.(selectedEvent := data, loadingDetail := false)
    case NotAvailable => s.(detailError := Some(NotAvailableYet), selectedEvent := None, loadingDetail := false)
    case Failed(message) => s.(detailError := Some(message), loadingDetail := false)
  }

  /** `closeModal`: closes and clears the selection and the error, and
      leaves the loading flag as it is. */
  function CloseModal(s: ModalState): (r: ModalState)
    ensures !r.isDetailOpen && r.selectedEvent.None? && r.detailError.None?
    ensures r.loadingDetail == s.loadingDetail
  {
    s.(isDetailOpen := false, selectedEvent := None, detailError := None)
  }

  /** The phases of the modal. */
  datatype Phase = Closed | Opening | OpenWithData | OpenWithError | OpenEmpty

  function PhaseOf(s: ModalState): Phase
  {
    if !s.isDetailOpen then Closed
    else if s.loadingDetail then Opening
    else if s.selectedEvent.Some? && s.detailError.None? then OpenWithData
    else if s.selectedEvent.None? && s.detailError.Some? then OpenWithError
    else OpenEmpty
  }

  /** Opening and then handling the response of that request always ends
      with the modal open and not loading: with a selected event exactly on
      success with an event body, with an error message exactly when the
      fetch did not succeed, and with neither after a `null` body. */
  lemma OpenThenResolve(s: ModalState, token: Option<string>, response: HttpResult<DetailBody>)
    requires HasToken(token)
    ensures PhaseOf(OpenDetail(s, token)) == Opening
    ensures var r := ResolveDetail(OpenDetail(s, token), response);
      && r.isDetailOpen && !r.loadingDetail
      && (r.selectedEvent.Some? <==> DetailOutcome(response).Data? && DetailOutcome(response).value.Some?)
      && (r.detailError.Some? <==> !DetailOutcome(response).Data?)
      && PhaseOf(r) == (if !DetailOutcome(response).Data? then OpenWithError
                        else if DetailOutcome(response).value.Some? then OpenWithData
                        else OpenEmpty)
  {
  }

  /** The detail status policy: 401 the invalid-token error, 404 the
      not-available message, any other non-ok status `HTTP <status>`;
      in each case the selection stays empty and loading is off. */
  lemma DetailStatusPolicy(s: ModalState, token: Option<string>, status: int, body: Option<DetailBody>)
    requires HasToken(token) && !IsOk(status)
    ensures ResolveDetail(OpenDetail(s, token), Response(status, body)) == ModalState(true, None, false,
      Some(if status == 401 then InvalidToken else if status == 404 then NotAvailableYet else HttpStatus(status)))
  {
  }

  /** Closing works from every phase, and closing twice is closing once. */
  lemma CloseFromAnyPhase(s: ModalState)
    ensures PhaseOf(CloseModal(s)) == Closed
    ensures CloseModal(CloseModal(s)) == CloseModal(s)
  {
  }

  /** A response that arrives after the modal was closed still lands: the
      request is not cancelled, so a closed modal can hold a selection. */
  lemma LateResponseAfterClose(s: ModalState, token: Option<string>, detail: EventDetail)
    requires HasToken(token)
    ensures var r := ResolveDetail(CloseModal(OpenDetail(s, token)), Response(200, Some(Some(detail))));
      !r.isDetailOpen && r.selectedEvent == Some(detail) && !r.loadingDetail
  {
  }

  // ---------------------------------------------------------------------
  // The component

  /** The component's seven state slices, updated in place by its handlers. */
  class Dashboard {
    var events: Json
    var loading: bool
    var error: Option<ErrorMessage>
    var isDetailOpen: bool
    var selectedEvent: Option<EventDetail>
    var loadingDetail: bool
    var detailError: Option<ErrorMessage>

    function ListView(): ListState
      reads this
    {
      ListState(events, loading, error)
    }

    function ModalView(): ModalState
      reads this
    {
      ModalState(isDetailOpen, selectedEvent, loadingDetail, detailError)
    }

    constructor ()
      ensures ListView() == InitialList && ModalView() == InitialModal
    {
      events := JArray([]);
      loading := true;
      error := None;
      isDetailOpen := false;
      selectedEvent := None;
      loadingDetail := false;
      detailError := None;
    }

    /** `fetchEvents` up to the await; `requested` tells whether the
        request to the events endpoint is sent. */
    method FetchEvents(token: Option<string>) returns (requested: bool)
      modifies this
      ensures requested == HasToken(token)
      ensures ListView() == BeginFetchEvents(old(ListView()), token)
      ensures ModalView() == old(ModalView())
    {
      if !HasToken(token) {
        error := Some(NotLoggedIn);
        loading := false;
        return false;
      }
      loading := true;
      error := None;
      requested := true;
    }

    /** `fetchEvents` after the await: the status checks, the JSON body,
        its normalisation, the `catch` and the `finally`. */
    method FetchEventsResolved(response: HttpResult<Json>)
      modifies this
      ensures ListView() == ResolveFetchEvents(old(ListView()), response)
      ensures ModalView() == old(ModalView())
    {
      match response {
        case NetworkFailure =>
          error := Some(Thrown(NetworkError));
        case Response(status, body) =>
          if !IsOk(status) {
            if status == 401 {
              error := Some(InvalidToken);
            } else if status == 404 {
              error := Some(NotAvailableYet);
              events := JArray([]);
              loading := false;
              return;
            } else {
              error := Some(HttpStatus(status));
            }
          } else if body.None? {
            error := Some(Thrown(MalformedJson));
          } else {
            var eventsArray := Normalise(body.value);
            if eventsArray.None? {
              error := Some(Thrown(NullBody));
            } else {
              events := JArray(eventsArray.value);
            }
          }
      }
      loading := false;
    }

    /** `openEventDetail(eventId)` up to the await; `requestedId` is the
        id whose detail is requested, if a request is sent. */
    method OpenEventDetail(token: Option<string>, eventId: int) returns (requestedId: Option<int>)
      modifies this
      ensures requestedId == if HasToken(token) then Some(eventId) else None
      ensures ModalView() == OpenDetail(old(ModalView()), token)
      ensures ListView() == old(ListView())
    {
      if !HasToken(token) {
        return None;
      }
      isDetailOpen := true;
      selectedEvent := None;
      loadingDetail := true;
      detailError := None;
      requestedId := Some(eventId);
    }

    /** `openEventDetail` after the await. */
    method OpenEventDetailResolved(response: HttpResult<DetailBody>)
      modifies this
      ensures ModalView() == ResolveDetail(old(ModalView()), response)
      ensures ListView() == old(ListView())
    {
      match response {
        case NetworkFailure =>
          detailError := Some(Thrown(NetworkError));
        case Response(status, body) =>
          if !IsOk(status) {
            if status == 401 {
              detailError := Some(InvalidToken);
            } else if status == 404 {
              detailError := Some(NotAvailableYet);
              selectedEvent := None;
              loadingDetail := false;
              return;
            } else {
              detailError := Some(HttpStatus(status));
            }
          } else if body.None? {
            detailError := Some(Thrown(MalformedJson));
          } else {
            selectedEvent := body.value;
          }
      }
      loadingDetail := false;
    }

    /** `closeModal`. */
    method Close()
      modifies this
      ensures ModalView() == CloseModal(old(ModalView()))
      ensures ListView() == old(ListView())
    {
      isDetailOpen := false;
      selectedEvent := None;
      detailError := None;
    }

    /** The render-time categorization of the events state at time `now`;
        a value that is not an array gives three empty buckets. */
    method Categorize(now: int) returns (c: Categorized)
      ensures c == Categorization(AsEventList(events), now)
      ensures !events.JArray? ==> c == Categorized([], [], [])
    {
      if !events.JArray? {
        NonArrayIsEmpty(events, now);
      }
      c := CategorizeEvents(AsEventList(events), now);
    }
  }
}
