/** Properties of the charging-data record lifecycle and of the HTTP
    answers it produces. */
module LifecycleProperties {
  import opened MachineInts
  import opened ChargingTypes
  import opened ChargingRecords
  import opened ChargingLifecycle

  /** A one-time event uses the empty session id and any other creation a
      non-empty one; two creations for the same subscriber and consumer at
      different local sequence numbers get different session ids. */
  lemma CreateSessionIdDistinct(req: ChargingDataRequest, a: nat, b: nat)
    ensures (CreateSessionId(req, a) == "") == req.oneTimeEvent
    ensures !req.oneTimeEvent && CreateSessionId(req, a) == CreateSessionId(req, b) ==> a == b
  {
    var prefix := req.subscriberIdentifier + req.nfConsumerName;
    if !req.oneTimeEvent {
      assert |CreateSessionId(req, a)| == |prefix| + |NatToString(a)|;
      if CreateSessionId(req, a) == CreateSessionId(req, b) {
        assert NatToString(a) == CreateSessionId(req, a)[|prefix|..];
        assert NatToString(b) == CreateSessionId(req, b)[|prefix|..];
        NatToStringInjective(a, b);
      }
    }
  }

  /** Creation succeeds exactly when opening, updating and (for a one-time
      event) closing the record succeed; the stored record has been opened
      and updated once, and closed exactly for a one-time event; no other
      session's record changes; every failure is a 400. */
  lemma CreateOutcome(records: map<string, Cdr>, backend: RecordBackend, req: ChargingDataRequest, sessionId: string)
    ensures var o := CreateRecords(records, backend, req, sessionId);
      var created := OpenedRecord(sessionId, false);
      && (o.resp.Some? <==> backend.open(req, sessionId, false) && backend.update(created, req)
                            && (req.oneTimeEvent ==> backend.close(UpdatedRecord(created, req), false)))
      && (o.resp.Some? <==> o.problem.None?)
      && (o.problem.Some? ==> o.problem.value.status == STATUS_BAD_REQUEST)
      && (o.resp.Some? ==> o.resp.value == ChargingDataResponse(req.invocationSequenceNumber, []))
      && (o.resp.Some? ==>
            sessionId in o.records
            && o.records[sessionId].events == [Opened(false), Updated(req.invocationSequenceNumber)] + (if req.oneTimeEvent then [Closed(false)] else []))
      && (CloseCall(sessionId, false) in o.calls <==>
            req.oneTimeEvent && backend.open(req, sessionId, false) && backend.update(created, req))
      && (forall k :: k in records && k != sessionId ==> k in o.records && o.records[k] == records[k])
  {
  }

  /** What dumping every record adds to a call trace: the dump of all
      records, then (only when the dump succeeded) the response is sent. */
  lemma DumpAllShape(records: map<string, Cdr>, backend: RecordBackend, req: ChargingDataRequest,
                     infos: seq<MultipleUnitInformation>, calls: seq<RecordCall>)
    ensures var d := DumpAll(records, backend, req, infos, calls);
      var dump := DumpCall(req.subscriberIdentifier, RecordValues(records));
      && d.records == records
      && (d.resp.Some? <==> d.problem.None?)
      && (d.problem.Some? ==> d.problem.value.status == STATUS_BAD_REQUEST)
      && (d.resp.Some? ==> d.resp.value == ChargingDataResponse(req.invocationSequenceNumber, infos))
      && d.calls == calls + [dump] + (if d.resp.Some? then [SendCall(req.subscriberIdentifier)] else [])
      && (forall c :: c in d.calls && !c.DumpCall? && !c.SendCall? ==> c in calls)
      && (forall c :: c in calls ==> c in d.calls)
      && (d.resp.Some? ==> dump in d.calls)
  {
    var d := DumpAll(records, backend, req, infos, calls);
    var dump := DumpCall(req.subscriberIdentifier, RecordValues(records));
    assert d.calls == calls + [dump] + (if d.resp.Some? then [SendCall(req.subscriberIdentifier)] else []);
    assert d.calls[..|calls|] == calls;
    assert d.calls[|calls|] == dump;
  }

  /** The update's calls: the record is closed as a partial record exactly
      when the partial-record mark is set and the update succeeded, and
      reopened exactly when, in addition, the closed record was dumped; it
      is never closed for good. */
  lemma UpdateCalls(records: map<string, Cdr>, backend: RecordBackend, req: ChargingDataRequest, sessionId: string,
                    partialRecord: bool, infos: seq<MultipleUnitInformation>)
    requires sessionId in records
    ensures var o := UpdateRecords(records, backend, req, sessionId, partialRecord, infos);
      var updated := UpdatedRecord(records[sessionId], req);
      var closed := if backend.close(updated, true) then ClosedRecord(updated, true) else updated;
      && (CloseCall(sessionId, true) in o.calls <==> partialRecord && backend.update(records[sessionId], req))
      && (OpenCall(sessionId, true) in o.calls <==>
            partialRecord && backend.update(records[sessionId], req) && backend.dump(req.subscriberIdentifier, multiset{closed}))
      && CloseCall(sessionId, false) !in o.calls
  {
    var ueId := req.subscriberIdentifier;
    var o := UpdateRecords(records, backend, req, sessionId, partialRecord, infos);
    var updated := UpdatedRecord(records[sessionId], req);
    if !backend.update(records[sessionId], req) {
      assert o.calls == [UpdateCall(sessionId)];
    } else if !partialRecord {
      DumpAllShape(records[sessionId := updated], backend, req, infos, [UpdateCall(sessionId)]);
    } else {
      var closed := if backend.close(updated, true) then ClosedRecord(updated, true) else updated;
      var calls := [UpdateCall(sessionId), CloseCall(sessionId, true), DumpCall(ueId, multiset{closed})];
      if backend.dump(ueId, multiset{closed}) {
        DumpAllShape(records[sessionId := closed], backend, req, infos, calls + [OpenCall(sessionId, true)]);
      }
    }
  }

  /** What the update stores: every other session's record is kept; the
      session's own record gains `Updated` when `UpdateCDR` succeeds and then
      `Closed(true)` when a partial record is due and `CloseCDR` succeeds,
      and is unchanged when the update fails. */
  lemma UpdateStores(records: map<string, Cdr>, backend: RecordBackend, req: ChargingDataRequest, sessionId: string,
                     partialRecord: bool, infos: seq<MultipleUnitInformation>)
    requires sessionId in records
    ensures var o := UpdateRecords(records, backend, req, sessionId, partialRecord, infos);
      var c := records[sessionId];
      var updatedOk := backend.update(c, req);
      && sessionId in o.records
      && (forall k :: k in records && k != sessionId ==> o.records[k] == records[k])
      && o.records[sessionId].sessionId == c.sessionId
      && o.records[sessionId].events
         == c.events
            + (if updatedOk then [Updated(req.invocationSequenceNumber)] else [])
            + (if updatedOk && partialRecord && backend.close(UpdatedRecord(c, req), true) then [Closed(true)] else [])
  {
    var o := UpdateRecords(records, backend, req, sessionId, partialRecord, infos);
    var updated := UpdatedRecord(records[sessionId], req);
    if !backend.update(records[sessionId], req) {
      assert o.records == records;
    } else if !partialRecord {
      assert o.records == records[sessionId := updated];
    } else {
      var closed := if backend.close(updated, true) then ClosedRecord(updated, true) else updated;
      assert o.records == records[sessionId := closed];
    }
  }

  /** The update's answer: it succeeds exactly when no problem is reported,
      every problem is a 400, and a success carries the engine's entries
      after every record was dumped. */
  lemma UpdateOutcome(records: map<string, Cdr>, backend: RecordBackend, req: ChargingDataRequest, sessionId: string,
                      partialRecord: bool, infos: seq<MultipleUnitInformation>)
    requires sessionId in records
    ensures var o := UpdateRecords(records, backend, req, sessionId, partialRecord, infos);
      && (o.resp.Some? <==> o.problem.None?)
      && (o.problem.Some? ==> o.problem.value.status == STATUS_BAD_REQUEST)
      && (o.resp.Some? ==>
            && o.resp.value == ChargingDataResponse(req.invocationSequenceNumber, infos)
            && DumpCall(req.subscriberIdentifier, RecordValues(o.records)) in o.calls)
  {
    var ueId := req.subscriberIdentifier;
    var updated := UpdatedRecord(records[sessionId], req);
    if backend.update(records[sessionId], req) {
      if !partialRecord {
        DumpAllShape(records[sessionId := updated], backend, req, infos, [UpdateCall(sessionId)]);
      } else {
        var closed := if backend.close(updated, true) then ClosedRecord(updated, true) else updated;
        var calls := [UpdateCall(sessionId), CloseCall(sessionId, true), DumpCall(ueId, multiset{closed})];
        if backend.dump(ueId, multiset{closed}) {
          DumpAllShape(records[sessionId := closed], backend, req, infos, calls + [OpenCall(sessionId, true)]);
        }
      }
    }
  }

  /** The release always closes the record for good: on success the record
      has been updated and closed non-partially; it is never closed as a
      partial record; every failure is a 400. */
  lemma ReleaseOutcome(records: map<string, Cdr>, backend: RecordBackend, req: ChargingDataRequest, sessionId: string)
    requires sessionId in records
    ensures var o := ReleaseRecords(records, backend, req, sessionId);
      var updated := UpdatedRecord(records[sessionId], req);
      && o.resp.None?
      && (o.problem.None? <==> backend.update(records[sessionId], req) && backend.close(updated, false)
                               && backend.dump(req.subscriberIdentifier, multiset{ClosedRecord(updated, false)}))
      && (o.problem.Some? ==> o.problem.value.status == STATUS_BAD_REQUEST)
      && (o.problem.None? ==>
            o.records[sessionId].events == records[sessionId].events + [Updated(req.invocationSequenceNumber), Closed(false)])
      && CloseCall(sessionId, true) !in o.calls
      && (backend.update(records[sessionId], req) <==> CloseCall(sessionId, false) in o.calls)
  {
    var o := ReleaseRecords(records, backend, req, sessionId);
    var updated := UpdatedRecord(records[sessionId], req);
    var closed := ClosedRecord(updated, false);
    var calls := [UpdateCall(sessionId), CloseCall(sessionId, false), DumpCall(req.subscriberIdentifier, multiset{closed})];
    if !backend.update(records[sessionId], req) {
      assert o.calls == [UpdateCall(sessionId)];
    } else if !backend.close(updated, false) {
      assert o.calls == calls[..2] == [UpdateCall(sessionId), CloseCall(sessionId, false)];
    } else {
      assert o.calls == calls;
      assert closed.events == records[sessionId].events + [Updated(req.invocationSequenceNumber), Closed(false)];
    }
  }

  /** The answers of the three handlers to what the lifecycle returns:
      201 with a Location header, 200 or 204 on success, the problem's 400
      otherwise; the 403 "UNSPECIFIED" answer never arises from them. */
  lemma LifecycleStatuses(records: map<string, Cdr>, backend: RecordBackend, req: ChargingDataRequest, sessionId: string,
                          url: string, partialRecord: bool, infos: seq<MultipleUnitInformation>)
    ensures var o := CreateRecords(records, backend, req, sessionId);
      var h := HandleChargingdataInitial(o.resp, if o.resp.Some? then LocationUri(url, sessionId) else "", o.problem);
      && h.status == (if o.resp.Some? then STATUS_CREATED else STATUS_BAD_REQUEST)
      && (h.location.Some? <==> o.resp.Some?)
      && (o.resp.Some? ==> h.location == Some(url + "/nchf-convergedcharging/v3/chargingdata/" + sessionId))
      && h != Unspecified()
    ensures sessionId in records ==>
      var o := UpdateRecords(records, backend, req, sessionId, partialRecord, infos);
      var h := HandleChargingdataUpdate(o.resp, o.problem);
      h.status == (if o.resp.Some? then STATUS_OK else STATUS_BAD_REQUEST) && h != Unspecified()
    ensures sessionId in records ==>
      var o := ReleaseRecords(records, backend, req, sessionId);
      var h := HandleChargingdataRelease(o.problem);
      h.status == (if o.problem.None? then STATUS_NO_CONTENT else STATUS_BAD_REQUEST) && h.body.NoBody? == o.problem.None?
  {
    if sessionId in records {
      UpdateOutcome(records, backend, req, sessionId, partialRecord, infos);
      ReleaseOutcome(records, backend, req, sessionId);
    }
    CreateOutcome(records, backend, req, sessionId);
  }

  /** With neither a response nor a problem, the creation and update
      handlers answer 403 with cause "UNSPECIFIED"; a problem is answered
      with its own status and no Location header. */
  lemma HandlerFallbacks(location: string, problem: ProblemDetails)
    ensures HandleChargingdataInitial(None, location, None).status == STATUS_FORBIDDEN
    ensures HandleChargingdataInitial(None, location, None).body == ProblemBody(ProblemDetails(STATUS_FORBIDDEN, "UNSPECIFIED"))
    ensures HandleChargingdataUpdate(None, None) == HandleChargingdataInitial(None, location, None)
    ensures HandleChargingdataInitial(None, location, Some(problem)) == HandlerResponse(problem.status, None, ProblemBody(problem))
    ensures HandleChargingdataUpdate(None, Some(problem)) == HandleChargingdataRelease(Some(problem))
  {
  }
}
