/** The charging-data resource of the converged charging service (section
    6.1 of 3GPP TS 32.291): creation, update and release of a subscriber's
    charging data records, the HTTP status each outcome maps to, and the
    state effect of a recharge notification.
    `OpenCDR`, `UpdateCDR`, `CloseCDR` and `dumpCdrFile` are not part of
    this model: they are a `RecordBackend` whose calls may fail, and a
    record is its session id and the history of those calls on it. */
module ChargingLifecycle {
  import opened MachineInts
  import opened ChargingTypes
  import opened ReservationSpec
  import opened ChargingRecords
  import opened UeEngine

  const LOCATION_PATH: string := "/nchf-convergedcharging/v3/chargingdata/"
  const STATUS_CREATED: int := 201
  const STATUS_OK: int := 200
  const STATUS_NO_CONTENT: int := 204
  const STATUS_BAD_REQUEST: int := 400
  const STATUS_FORBIDDEN: int := 403

  /** The problem every failing step answers: status 400, no cause. */
  function BadRequest(): ProblemDetails
  {
    ProblemDetails(STATUS_BAD_REQUEST, "")
  }

  /** Whether each record operation succeeds. */
  datatype RecordBackend = RecordBackend(
    open: (ChargingDataRequest, string, bool) -> bool,
    update: (Cdr, ChargingDataRequest) -> bool,
    close: (Cdr, bool) -> bool,
    dump: (string, multiset<Cdr>) -> bool)

  /** The record operations an operation performs, in order. */
  datatype RecordCall =
    | OpenCall(sessionId: string, partial: bool)
    | UpdateCall(sessionId: string)
    | CloseCall(sessionId: string, partial: bool)
    | DumpCall(ueId: string, records: multiset<Cdr>)
    | SendCall(ueId: string)

  function OpenedRecord(sessionId: string, partial: bool): Cdr
  {
    Cdr(sessionId, [Opened(partial)])
  }

  function UpdatedRecord(c: Cdr, req: ChargingDataRequest): Cdr
  {
    c.(events := c.events + [Updated(req.invocationSequenceNumber)])
  }

  function ClosedRecord(c: Cdr, partial: bool): Cdr
  {
    c.(events := c.events + [Closed(partial)])
  }

  /** What an operation answers and leaves in the subscriber's record map. */
  datatype Outcome = Outcome(
    resp: Option<ChargingDataResponse>,
    problem: Option<ProblemDetails>,
    records: map<string, Cdr>,
    calls: seq<RecordCall>)

  function Failed(records: map<string, Cdr>, calls: seq<RecordCall>): Outcome
  {
    Outcome(None, Some(BadRequest()), records, calls)
  }

  // ---------------------------------------------------------------------
  // Creation
  // ---------------------------------------------------------------------

  /** The charging session id: empty for a one-time event, otherwise the
      subscriber id, the consumer's name and the local record sequence
      number in decimal. */
  function CreateSessionId(req: ChargingDataRequest, localSeq: nat): (id: string)
    ensures (id == "") == req.oneTimeEvent
    ensures !req.oneTimeEvent ==>
      var prefix := req.subscriberIdentifier + req.nfConsumerName;
      |prefix| < |id| && id[..|prefix|] == prefix && IsDecimal(id[|prefix|..])
      && ParseDecimal(id[|prefix|..]) == localSeq
  {
    if !req.oneTimeEvent then
      var prefix := req.subscriberIdentifier + req.nfConsumerName;
      var digits := NatToString(localSeq);
      ParseNatToString(localSeq);
      assert (prefix + digits)[|prefix|..] == digits;
      prefix + digits
    else ""
  }

  function LocationUri(url: string, sessionId: string): string
  {
    url + LOCATION_PATH + sessionId
  }

  /** Creation once the subscriber exists: open, update and store the
      record; a one-time event closes it at once; then the record transfer,
      whose failure is only logged. */
  function CreateRecords(records: map<string, Cdr>, backend: RecordBackend, req: ChargingDataRequest, sessionId: string): (o: Outcome)
    ensures o.resp.Some? <==> o.problem.None?
    ensures o.problem.Some? ==> o.problem == Some(BadRequest())
    ensures |o.calls| >= 1 && o.calls[0] == OpenCall(sessionId, false)
    ensures o.records.Keys <= records.Keys + {sessionId}
    ensures forall k :: k in records && k != sessionId ==> k in o.records && o.records[k] == records[k]
  {
    var created := OpenedRecord(sessionId, false);
    var updated := UpdatedRecord(created, req);
    var stored := records[sessionId := updated];
    if !backend.open(req, sessionId, false) then Failed(records, [OpenCall(sessionId, false)])
    else if !backend.update(created, req) then Failed(records, [OpenCall(sessionId, false), UpdateCall(sessionId)])
    else if !req.oneTimeEvent then
      Outcome(Some(ChargingDataResponse(req.invocationSequenceNumber, [])), None, stored,
              [OpenCall(sessionId, false), UpdateCall(sessionId), SendCall(req.subscriberIdentifier)])
    else if !backend.close(updated, false) then
      Failed(stored, [OpenCall(sessionId, false), UpdateCall(sessionId), CloseCall(sessionId, false)])
    else
      Outcome(Some(ChargingDataResponse(req.invocationSequenceNumber, [])), None, stored[sessionId := ClosedRecord(updated, false)],
              [OpenCall(sessionId, false), UpdateCall(sessionId), CloseCall(sessionId, false), SendCall(req.subscriberIdentifier)])
  }

  /** `ChargingDataCreate`. `ue` is what `NewCHFUe` returned (null when it
      failed), `url` the function's own URI and `localSeq` its local record
      sequence number. */
  method ChargingDataCreate(ue: Ue?, backend: RecordBackend, url: string, localSeq: nat, req: ChargingDataRequest)
    returns (resp: Option<ChargingDataResponse>, location: string, problem: Option<ProblemDetails>, calls: seq<RecordCall>)
    modifies ue
    ensures ue == null ==> resp.None? && location == "" && problem == Some(BadRequest()) && calls == []
    ensures ue != null ==>
      var sessionId := CreateSessionId(req, localSeq);
      var o := CreateRecords(old(ue.cdr), backend, req, sessionId);
      && resp == o.resp && problem == o.problem && ue.cdr == o.records && calls == o.calls
      && location == (if resp.Some? then LocationUri(url, sessionId) else "")
      && ue.notifyUri == req.notifyUri && ue.State() == old(ue.State())
  {
    if ue == null {
      return None, "", Some(BadRequest()), [];
    }
    ue.notifyUri := req.notifyUri;
    var sessionId := "";
    if !req.oneTimeEvent {
      sessionId := req.subscriberIdentifier + req.nfConsumerName + NatToString(localSeq);
    }
    calls := [OpenCall(sessionId, false)];
    if !backend.open(req, sessionId, false) {
      return None, "", Some(BadRequest()), calls;
    }
    var cdr := OpenedRecord(sessionId, false);
    calls := calls + [UpdateCall(sessionId)];
    if !backend.update(cdr, req) {
      return None, "", Some(BadRequest()), calls;
    }
    cdr := UpdatedRecord(cdr, req);
    ue.cdr := ue.cdr[sessionId := cdr];
    if req.oneTimeEvent {
      calls := calls + [CloseCall(sessionId, false)];
      if !backend.close(cdr, false) {
        return None, "", Some(BadRequest()), calls;
      }
      cdr := ClosedRecord(cdr, false);
      ue.cdr := ue.cdr[sessionId := cdr];
    }
    calls := calls + [SendCall(req.subscriberIdentifier)];
    location := LocationUri(url, sessionId);
    resp := Some(ChargingDataResponse(req.invocationSequenceNumber, []));
    problem := None;
  }

  // ---------------------------------------------------------------------
  // Update
  // ---------------------------------------------------------------------

  /** The final dump of every record, then the record transfer. */
  ghost function DumpAll(records: map<string, Cdr>, backend: RecordBackend, req: ChargingDataRequest,
                         infos: seq<MultipleUnitInformation>, calls: seq<RecordCall>): Outcome
  {
    var all := RecordValues(records);
    var dumped := calls + [DumpCall(req.subscriberIdentifier, all)];
    if !backend.dump(req.subscriberIdentifier, all) then Failed(records, dumped)
    else Outcome(Some(ChargingDataResponse(req.invocationSequenceNumber, infos)), None, records,
                 dumped + [SendCall(req.subscriberIdentifier)])
  }

  /** The record part of an update, after the reservation engine answered
      `infos` and the partial-record mark: update the session's record; when
      a partial record is due, close it (a failure is only logged), dump it
      and reopen it (a failure is only logged); then dump every record. */
  ghost function UpdateRecords(records: map<string, Cdr>, backend: RecordBackend, req: ChargingDataRequest, sessionId: string,
                               partialRecord: bool, infos: seq<MultipleUnitInformation>): (o: Outcome)
    requires sessionId in records
    ensures o.resp.Some? <==> o.problem.None?
    ensures o.problem.Some? ==> o.problem == Some(BadRequest())
    ensures |o.calls| >= 1 && o.calls[0] == UpdateCall(sessionId)
    ensures o.records.Keys == records.Keys
  {
    var ueId := req.subscriberIdentifier;
    var updated := UpdatedRecord(records[sessionId], req);
    if !backend.update(records[sessionId], req) then Failed(records, [UpdateCall(sessionId)])
    else if !partialRecord then DumpAll(records[sessionId := updated], backend, req, infos, [UpdateCall(sessionId)])
    else
      var closed := if backend.close(updated, true) then ClosedRecord(updated, true) else updated;
      var calls := [UpdateCall(sessionId), CloseCall(sessionId, true), DumpCall(ueId, multiset{closed})];
      if !backend.dump(ueId, multiset{closed}) then Failed(records[sessionId := closed], calls)
      else DumpAll(records[sessionId := closed], backend, req, infos, calls + [OpenCall(sessionId, true)])
  }

  /** `ChargingDataUpdate`. `ue` is what `ChfUeFindBySupi` returned (null
      when the subscriber is unknown). */
  method ChargingDataUpdate(ue: Ue?, peers: Peers, backend: RecordBackend, req: ChargingDataRequest, sessionId: string)
    returns (resp: Option<ChargingDataResponse>, problem: Option<ProblemDetails>, calls: seq<RecordCall>)
    requires ue != null ==> sessionId in ue.cdr
    modifies ue
    ensures ue == null ==> resp.None? && problem == Some(BadRequest()) && calls == []
    ensures ue != null ==>
      var res := ReservationOutcome(old(ue.State()), ue.Config(), peers, req);
      var o := UpdateRecords(old(ue.cdr), backend, req, sessionId, res.partial, res.infos);
      && ue.State() == res.st
      && resp == o.resp && problem == o.problem && ue.cdr == o.records && calls == o.calls
      && ue.notifyUri == old(ue.notifyUri)
  {
    if ue == null {
      return None, Some(BadRequest()), [];
    }
    var infos, partialRecord, _ := ue.SessionChargingReservation(peers, req);
    resp, problem, calls := UpdateSessionRecords(ue, backend, req, sessionId, partialRecord, infos);
  }

  /** The record part of `ChargingDataUpdate`. */
  method UpdateSessionRecords(ue: Ue, backend: RecordBackend, req: ChargingDataRequest, sessionId: string,
                              partialRecord: bool, infos: seq<MultipleUnitInformation>)
    returns (resp: Option<ChargingDataResponse>, problem: Option<ProblemDetails>, calls: seq<RecordCall>)
    requires sessionId in ue.cdr
    modifies ue`cdr
    ensures var o := UpdateRecords(old(ue.cdr), backend, req, sessionId, partialRecord, infos);
      resp == o.resp && problem == o.problem && ue.cdr == o.records && calls == o.calls
  {
    var ueId := req.subscriberIdentifier;
    ghost var records := ue.cdr;
    var cdr := ue.cdr[sessionId];
    calls := [UpdateCall(sessionId)];
    if !backend.update(cdr, req) {
      return None, Some(BadRequest()), calls;
    }
    cdr := UpdatedRecord(cdr, req);
    ue.cdr := ue.cdr[sessionId := cdr];
    if partialRecord {
      ghost var updated := cdr;
      calls := calls + [CloseCall(sessionId, true)];
      if backend.close(cdr, true) {
        cdr := ClosedRecord(cdr, true);
        ue.cdr := ue.cdr[sessionId := cdr];
      }
      assert ue.cdr == records[sessionId := cdr];
      calls := calls + [DumpCall(ueId, multiset{cdr})];
      if !backend.dump(ueId, multiset{cdr}) {
        return None, Some(BadRequest()), calls;
      }
      calls := calls + [OpenCall(sessionId, true)];
      assert UpdateRecords(records, backend, req, sessionId, partialRecord, infos)
          == DumpAll(records[sessionId := cdr], backend, req, infos, calls);
    } else {
      assert UpdateRecords(records, backend, req, sessionId, partialRecord, infos)
          == DumpAll(records[sessionId := cdr], backend, req, infos, calls);
    }
    resp, problem, calls := DumpAllRecords(ue, backend, req, infos, calls);
  }

  /** Dump every record of the subscriber, then the record transfer. */
  method DumpAllRecords(ue: Ue, backend: RecordBackend, req: ChargingDataRequest,
                        infos: seq<MultipleUnitInformation>, calls0: seq<RecordCall>)
    returns (resp: Option<ChargingDataResponse>, problem: Option<ProblemDetails>, calls: seq<RecordCall>)
    ensures var o := DumpAll(ue.cdr, backend, req, infos, calls0);
      resp == o.resp && problem == o.problem && calls == o.calls
  {
    var ueId := req.subscriberIdentifier;
    var records := ue.CollectRecords();
    calls := calls0 + [DumpCall(ueId, multiset(records))];
    if !backend.dump(ueId, multiset(records)) {
      return None, Some(BadRequest()), calls;
    }
    calls := calls + [SendCall(ueId)];
    resp := Some(ChargingDataResponse(req.invocationSequenceNumber, infos));
    problem := None;
  }

  // ---------------------------------------------------------------------
  // Release
  // ---------------------------------------------------------------------

  /** The record part of a release: update the session's record, close it
      for good and dump it. */
  function ReleaseRecords(records: map<string, Cdr>, backend: RecordBackend, req: ChargingDataRequest, sessionId: string): (o: Outcome)
    requires sessionId in records
    ensures o.resp.None?
    ensures o.problem.Some? ==> o.problem == Some(BadRequest())
    ensures |o.calls| >= 1 && o.calls[0] == UpdateCall(sessionId)
    ensures o.records.Keys == records.Keys
    ensures forall k :: k in records && k != sessionId ==> o.records[k] == records[k]
  {
    var updated := UpdatedRecord(records[sessionId], req);
    var closed := ClosedRecord(updated, false);
    var calls := [UpdateCall(sessionId), CloseCall(sessionId, false), DumpCall(req.subscriberIdentifier, multiset{closed})];
    if !backend.update(records[sessionId], req) then Failed(records, [UpdateCall(sessionId)])
    else if !backend.close(updated, false) then Failed(records[sessionId := updated], calls[..2])
    else if !backend.dump(req.subscriberIdentifier, multiset{closed}) then Failed(records[sessionId := closed], calls)
    else Outcome(None, None, records[sessionId := closed], calls)
  }

  /** `ChargingDataRelease`: the reservation engine runs (its answer is not
      used), then the record is updated, closed and dumped. */
  method ChargingDataRelease(ue: Ue?, peers: Peers, backend: RecordBackend, req: ChargingDataRequest, sessionId: string)
    returns (problem: Option<ProblemDetails>, calls: seq<RecordCall>)
    requires ue != null ==> sessionId in ue.cdr
    modifies ue
    ensures ue == null ==> problem == Some(BadRequest()) && calls == []
    ensures ue != null ==>
      var res := ReservationOutcome(old(ue.State()), ue.Config(), peers, req);
      var o := ReleaseRecords(old(ue.cdr), backend, req, sessionId);
      && ue.State() == res.st
      && problem == o.problem && ue.cdr == o.records && calls == o.calls
      && ue.notifyUri == old(ue.notifyUri)
  {
    if ue == null {
      return Some(BadRequest()), [];
    }
    var _, _, _ := ue.SessionChargingReservation(peers, req);
    problem, calls := ReleaseSessionRecords(ue, backend, req, sessionId);
  }

  /** The record part of `ChargingDataRelease`. */
  method ReleaseSessionRecords(ue: Ue, backend: RecordBackend, req: ChargingDataRequest, sessionId: string)
    returns (problem: Option<ProblemDetails>, calls: seq<RecordCall>)
    requires sessionId in ue.cdr
    modifies ue`cdr
    ensures var o := ReleaseRecords(old(ue.cdr), backend, req, sessionId);
      problem == o.problem && ue.cdr == o.records && calls == o.calls
  {
    var cdr := ue.cdr[sessionId];
    calls := [UpdateCall(sessionId)];
    if !backend.update(cdr, req) {
      return Some(BadRequest()), calls;
    }
    cdr := UpdatedRecord(cdr, req);
    ue.cdr := ue.cdr[sessionId := cdr];
    calls := calls + [CloseCall(sessionId, false)];
    if !backend.close(cdr, false) {
      return Some(BadRequest()), calls;
    }
    cdr := ClosedRecord(cdr, false);
    ue.cdr := ue.cdr[sessionId := cdr];
    calls := calls + [DumpCall(req.subscriberIdentifier, multiset{cdr})];
    if !backend.dump(req.subscriberIdentifier, multiset{cdr}) {
      return Some(BadRequest()), calls;
    }
    problem := None;
  }

  // ---------------------------------------------------------------------
  // Recharge notification
  // ---------------------------------------------------------------------

  /** `NotifyRecharge`, without the notification it sends: an unknown
      subscriber changes nothing; otherwise rg is back in RESERVE. */
  method NotifyRecharge(ue: Ue?, rg: Int32)
    modifies ue
    ensures ue != null ==> ue.State() == Recharge(old(ue.State()), rg) && ue.cdr == old(ue.cdr) && ue.notifyUri == old(ue.notifyUri)
  {
    if ue == null {
      return;
    }
    ue.ratingType := ue.ratingType[rg := Reserve];
  }

  // ---------------------------------------------------------------------
  // HTTP status mapping
  // ---------------------------------------------------------------------

  datatype Body = NoBody | ResponseBody(response: ChargingDataResponse) | ProblemBody(problem: ProblemDetails)

  datatype HandlerResponse = HandlerResponse(status: int, location: Option<string>, body: Body)

  function Unspecified(): HandlerResponse
  {
    HandlerResponse(STATUS_FORBIDDEN, None, ProblemBody(ProblemDetails(STATUS_FORBIDDEN, "UNSPECIFIED")))
  }

  /** A problem body always travels with its own status as the HTTP
      status; only a created resource has a body and a Location header. */
  function HandleChargingdataInitial(resp: Option<ChargingDataResponse>, location: string, problem: Option<ProblemDetails>): (h: HandlerResponse)
    ensures h.body.ProblemBody? ==> h.status == h.body.problem.status
    ensures h.body.ResponseBody? <==> resp.Some?
    ensures h.location.Some? <==> resp.Some?
    ensures resp.Some? ==> h.status == STATUS_CREATED && h.location == Some(location)
    ensures resp.None? && problem.Some? ==> h.body == ProblemBody(problem.value)
  {
    if resp.Some? then HandlerResponse(STATUS_CREATED, Some(location), ResponseBody(resp.value))
    else if problem.Some? then HandlerResponse(problem.value.status, None, ProblemBody(problem.value))
    else Unspecified()
  }

  function HandleChargingdataUpdate(resp: Option<ChargingDataResponse>, problem: Option<ProblemDetails>): (h: HandlerResponse)
    ensures h.body.ProblemBody? ==> h.status == h.body.problem.status
    ensures h.body.ResponseBody? <==> resp.Some?
    ensures h.location.None?
    ensures resp.Some? ==> h.status == STATUS_OK
    ensures resp.None? && problem.Some? ==> h.body == ProblemBody(problem.value)
  {
    if resp.Some? then HandlerResponse(STATUS_OK, None, ResponseBody(resp.value))
    else if problem.Some? then HandlerResponse(problem.value.status, None, ProblemBody(problem.value))
    else Unspecified()
  }

  function HandleChargingdataRelease(problem: Option<ProblemDetails>): (h: HandlerResponse)
    ensures h.body.ProblemBody? ==> h.status == h.body.problem.status
    ensures h.body.NoBody? <==> problem.None?
    ensures h.location.None?
    ensures problem.None? ==> h.status == STATUS_NO_CONTENT
    ensures problem.Some? ==> h.body == ProblemBody(problem.value)
  {
    if problem.None? then HandlerResponse(STATUS_NO_CONTENT, None, NoBody)
    else HandlerResponse(problem.value.status, None, ProblemBody(problem.value))
  }
}
