/** The live route of the server and `fetchMachineData` of the browser
    (client/js/api.js), with the mock branch switched off as in
    client/js/config.js. The network becomes a parameter: a request that
    fails, or a body that does not parse, is `None`. */
module Api {
  import opened Telemetry
  import opened Acquisition

  /** `{ error: "Not found" }`'s message. */
  const NOT_FOUND: JsString := [0x4E, 0x6F, 0x74, 0x20, 0x66, 0x6F, 0x75, 0x6E, 0x64]

  /** A parsed JSON body of the live route: the record, or the error object. */
  datatype Body = ReadingBody(reading: Reading) | ErrorBody(error: JsString)

  datatype Response = Response(status: int, body: Body)

  /** `GET /api/machines/:id/live`: 404 with the error object for an id the
      store does not hold, otherwise 200 with the record. */
  function LiveResponse(store: TelemetryStore, id: int): (r: Response)
    requires store.Valid()
    reads store
    ensures r.status == 404 <==> id !in store.Ids
    ensures r.status == 404 ==> r.body == ErrorBody(NOT_FOUND)
    ensures r.status != 404 ==> r.status == 200 && r.body.ReadingBody? && r.body.reading.id == id
  {
    match store.Live(id)
    case None => Response(404, ErrorBody(NOT_FOUND))
    case Some(reading) => Response(200, ReadingBody(reading))
  }

  /** `fetchMachineData(id)` as written: `res.json()` whatever the status,
      and null only when the request or the parse throws. */
  function FetchMachineData(res: Option<Response>): (r: Option<Body>)
  {
    match res
    case None => None
    case Some(response) => Some(response.body)
  }

  /** `if (!x)` on what `fetchMachineData` resolved: every object is truthy,
      only null is not. */
  predicate Truthy(fetched: Option<Body>)
  {
    fetched.Some?
  }

  /** The guard of `openMonitor` (and of `runMonitorLoop` and
      `openDashboardAlarm`) is meant to stop at an unknown machine, but the
      404 body of an unknown id passes it and carries no record: no lot, no
      standards. */
  lemma NotFoundPassesGuard(store: TelemetryStore, id: int)
    requires store.Valid() && id !in store.Ids
    ensures var fetched := FetchMachineData(Some(LiveResponse(store, id)));
            Truthy(fetched) && !fetched.value.ReadingBody?
  {
  }

  /** The fetch the guard needs: the record of a 200 response, and null for
      any other status as well as for a failed request. */
  function FetchChecked(res: Option<Response>): (r: Option<Reading>)
    ensures r.Some? ==> res.Some? && res.value.status == 200 && res.value.body == ReadingBody(r.value)
    ensures res.Some? && res.value.status == 200 && res.value.body.ReadingBody? ==> r.Some?
  {
    if res.Some? && res.value.status == 200 && res.value.body.ReadingBody? then Some(res.value.body.reading)
    else None
  }

  /** Against the live route the checked fetch is exactly the store's
      lookup: null precisely for an id that was never configured, and the
      machine's own record otherwise. */
  lemma CheckedFetchIsLookup(store: TelemetryStore, id: int)
    requires store.Valid()
    ensures FetchChecked(Some(LiveResponse(store, id))) == store.Live(id)
    ensures FetchChecked(Some(LiveResponse(store, id))).None? <==> id !in store.Ids
    ensures FetchChecked(None).None?
  {
  }
}
