/** The status-code policy of the two fetches of the dashboard, the list
    fetch `fetchEvents` and the detail fetch of `openEventDetail`, and the
    normalisation of the list response body. */
module Fetching {
  import opened Events

  /** What awaiting `fetch` gives: a rejection (network failure), or a
      response with its status and the result of `res.json()`, which is
      `None` when the body is not valid JSON. */
  datatype HttpResult<B> = NetworkFailure | Response(status: int, body: Option<B>)

  /** The exceptions the handlers catch besides the ones they throw. */
  datatype Failure =
    | NetworkError    // `fetch` rejected
    | MalformedJson   // `res.json()` rejected
    | NullBody        // reading `data.openEvents` of a JSON `null` throws a TypeError

  /** The message kept in the error state (the Vietnamese strings are not
      modelled verbatim). */
  datatype ErrorMessage =
    | NotLoggedIn            // no token: "not logged in"
    | InvalidToken           // 401: "token invalid or expired"
    | NotAvailableYet        // 404: "the event has not started or is closed"
    | HttpStatus(code: int)  // any other non-ok status: `HTTP ${res.status}`
    | Thrown(cause: Failure) // `err.message` of a caught exception

  /** How one fetch ends once its response is in: data, the soft 404
      state, or an error message. */
  datatype Outcome<T> = Data(value: T) | NotAvailable | Failed(message: ErrorMessage)

  /** `if (!token)`: a missing token or an empty string is falsy. */
  predicate HasToken(token: Option<string>)
  {
    token.Some? && token.value != ""
  }

  /** `res.ok`. */
  predicate IsOk(status: int)
  {
    200 <= status <= 299
  }

  /** `Array.isArray(fields[name]) ? fields[name] : []`; a missing field
      is `undefined`, which is not an array. */
  function ArrayField(fields: map<string, Json>, name: string): seq<EventListItem>
  {
    if name in fields && fields[name].JArray? then fields[name].items else []
  }

  /** The events of a list response body: an array is used as it is; an
      object gives its `openEvents` followed by its `closedEvents`; any
      other value has no such fields and gives nothing, except `null`,
      whose field access throws (`None`). */
  function Normalise(data: Json): (r: Option<seq<EventListItem>>)
    ensures r.None? <==> data.JNull?
    ensures data.JArray? ==> r == Some(data.items)
    ensures data.JScalar? ==> r == Some([])
    ensures data.JObject? ==>
      var open := ArrayField(data.fields, "openEvents");
      var closed := ArrayField(data.fields, "closedEvents");
      && r.Some? && |r.value| == |open| + |closed|
      && r.value[..|open|] == open && r.value[|open|..] == closed
  {
    match data
    case JArray(items) => Some(items)
    case JNull => None
    case JScalar => Some([])
    case JObject(fields) => Some(ArrayField(fields, "openEvents") + ArrayField(fields, "closedEvents"))
  }

  /** An `openEvents`/`closedEvents` response is merged open events first. */
  lemma NormaliseMergesOpenFirst(x: EventListItem, y: EventListItem)
    ensures Normalise(JObject(map["openEvents" := JArray([x]), "closedEvents" := JArray([y])])) == Some([x, y])
  {
    var fields := map["openEvents" := JArray([x]), "closedEvents" := JArray([y])];
    assert "openEvents"[0] != "closedEvents"[0];
    assert ArrayField(fields, "openEvents") == [x];
    assert ArrayField(fields, "closedEvents") == [y];
    assert [x] + [y] == [x, y];
  }

  /** A response object with only one usable field gives exactly that
      field's items; one with neither gives nothing. */
  lemma NormaliseOneSided(fields: map<string, Json>)
    ensures var open := "openEvents" in fields && fields["openEvents"].JArray?;
      var closed := "closedEvents" in fields && fields["closedEvents"].JArray?;
      && (!open && closed ==> Normalise(JObject(fields)) == Some(fields["closedEvents"].items))
      && (open && !closed ==> Normalise(JObject(fields)) == Some(fields["openEvents"].items))
      && (!open && !closed ==> Normalise(JObject(fields)) == Some([]))
  {
    var r := Normalise(JObject(fields));
    assert r == Some(ArrayField(fields, "openEvents") + ArrayField(fields, "closedEvents"));
    assert ArrayField(fields, "openEvents") == [] ==> r == Some(ArrayField(fields, "closedEvents"));
    assert ArrayField(fields, "closedEvents") == [] ==> r == Some(ArrayField(fields, "openEvents")) by {
      var open := ArrayField(fields, "openEvents");
      assert open + [] == open;
    }
  }

  /** The list fetch once its response is in (the branches after the
      await: status checks, `res.json()`, normalisation, `catch`). */
  function ListOutcome(response: HttpResult<Json>): (r: Outcome<seq<EventListItem>>)
    ensures r == NotAvailable <==> response.Response? && response.status == 404
    ensures r == Failed(InvalidToken) <==> response.Response? && response.status == 401
    ensures r.Data? <==>
      response.Response? && IsOk(response.status) && response.body.Some? && !response.body.value.JNull?
    ensures r.Data? ==> Normalise(response.body.value) == Some(r.value)
    ensures response.Response? && !IsOk(response.status) && response.status != 401 && response.status != 404
      ==> r == Failed(HttpStatus(response.status))
  {
    match response
    case NetworkFailure => Failed(Thrown(NetworkError))
    case Response(status, body) =>
      if !IsOk(status) then
        if status == 401 then Failed(InvalidToken)
        else if status == 404 then NotAvailable
        else Failed(HttpStatus(status))
      else
        match body
        case None => Failed(Thrown(MalformedJson))
        case Some(data) =>
          match Normalise(data)
          case None => Failed(Thrown(NullBody))
          case Some(eventsArray) => Data(eventsArray)
  }

  /** The parsed body of a detail response: JSON `null` (`None`) or an
      event detail. `const data: EventDetail = await res.json()` is only a
      type annotation, so a `null` body reaches `setSelectedEvent` as it is. */
  type DetailBody = Option<EventDetail>

  /** The detail fetch once its response is in. */
  function DetailOutcome(response: HttpResult<DetailBody>): (r: Outcome<DetailBody>)
    ensures r == NotAvailable <==> response.Response? && response.status == 404
    ensures r == Failed(InvalidToken) <==> response.Response? && response.status == 401
    ensures r.Data? <==> response.Response? && IsOk(response.status) && response.body.Some?
    ensures r.Data? ==> response.body == Some(r.value)
    ensures response.Response? && !IsOk(response.status) && response.status != 401 && response.status != 404
      ==> r == Failed(HttpStatus(response.status))
  {
    match response
    case NetworkFailure => Failed(Thrown(NetworkError))
    case Response(status, body) =>
      if !IsOk(status) then
        if status == 401 then Failed(InvalidToken)
        else if status == 404 then NotAvailable
        else Failed(HttpStatus(status))
      else
        match body
        case None => Failed(Thrown(MalformedJson))
        case Some(data) => Data(data)
  }

  /** The outcome with its data forgotten. */
  function Kind<T>(o: Outcome<T>): Outcome<()>
  {
    match o
    case Data(_) => Data(())
    case NotAvailable => NotAvailable
    case Failed(m) => Failed(m)
  }

  /** The detail fetch mirrors the list fetch: for the same status code
      both end the same way (401, 404 and other codes alike), and so do a
      network failure and a body that is not JSON. */
  lemma DetailMirrorsList(status: int, listBody: Option<Json>, detailBody: Option<DetailBody>)
    requires !IsOk(status) || (listBody.None? && detailBody.None?)
    ensures Kind(ListOutcome(Response(status, listBody))) == Kind(DetailOutcome(Response(status, detailBody)))
    ensures Kind(ListOutcome(NetworkFailure)) == Kind(DetailOutcome(NetworkFailure))
  {
  }
}
