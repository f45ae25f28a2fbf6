/** The subscriber object of the charging function and the quota engine
    `sessionChargingReservation` as it runs on it: a loop over the request's
    usage reports that updates the subscriber's per-rating-group maps in
    place. Every method is proved to leave the maps, and to return the
    response entries, the partial mark and the account requests it sent,
    exactly as the pure definition in ReservationSpec says, so the
    properties proved there hold of the imperative engine. */
module UeEngine {
  import opened MachineInts
  import opened ChargingTypes
  import opened ReservationSpec
  import opened ChargingRecords

  class Ue {
    var ratingGroups: seq<Int32>
    var ratingType: map<Int32, SubType>
    var reservedQuota: map<Int32, Int64>
    var unitCost: map<Int32, UInt32>
    var acctRequestNum: map<Int32, nat>
    var notifyUri: string
    var cdr: map<string, Cdr>

    const volumeLimit: Int32
    const volumeLimitPdu: Int32
    const quotaValidityTime: Int32
    /** `int32(float32(g) * VolumeThresholdRate)`. */
    const volumeThreshold: UInt32 -> Int32

    /** A subscriber as `NewCHFUe` creates it: no rating group, no record. */
    constructor (volumeLimit: Int32, volumeLimitPdu: Int32, quotaValidityTime: Int32, volumeThreshold: UInt32 -> Int32)
      ensures State() == UeState([], map[], map[], map[], map[])
      ensures Config() == UeConfig(volumeLimit, volumeLimitPdu, quotaValidityTime, volumeThreshold)
      ensures notifyUri == [] && cdr == map[]
    {
      ratingGroups := [];
      ratingType := map[];
      reservedQuota := map[];
      unitCost := map[];
      acctRequestNum := map[];
      notifyUri := [];
      cdr := map[];
      this.volumeLimit := volumeLimit;
      this.volumeLimitPdu := volumeLimitPdu;
      this.quotaValidityTime := quotaValidityTime;
      this.volumeThreshold := volumeThreshold;
    }

    /** The per-rating-group maps, as a value. */
    function State(): UeState
      reads this
    {
      UeState(ratingGroups, ratingType, reservedQuota, unitCost, acctRequestNum)
    }

    function Config(): UeConfig
    {
      UeConfig(volumeLimit, volumeLimitPdu, quotaValidityTime, volumeThreshold)
    }

    /** The whole engine: each usage report in turn; a report whose peer
        call fails contributes no entry, and the ones after it still run. */
    method SessionChargingReservation(peers: Peers, req: ChargingDataRequest)
      returns (infos: seq<MultipleUnitInformation>, partial: bool, sent: seq<DebitRequest>)
      modifies this`ratingGroups, this`ratingType, this`reservedQuota, this`unitCost, this`acctRequestNum
      ensures Reservation(State(), infos, partial, sent) == ReservationOutcome(old(State()), Config(), peers, req)
    {
      infos := [];
      partial := false;
      sent := [];
      var i := 0;
      while i < |req.multipleUnitUsage|
        invariant i <= |req.multipleUnitUsage|
        invariant Reservation(State(), infos, partial, sent) == ChargeGroups(old(State()), Config(), peers, req, i)
      {
        infos, partial, sent := ChargeNext(peers, req, i, old(State()), infos, partial, sent);
        i := i + 1;
      }
    }

    /** One iteration of the engine's loop: report i is charged, its
        entry, if any, appended to the response and its account requests to
        those sent. */
    method ChargeNext(peers: Peers, req: ChargingDataRequest, i: nat, ghost st0: UeState,
                      infosIn: seq<MultipleUnitInformation>, partialIn: bool, sentIn: seq<DebitRequest>)
      returns (infos: seq<MultipleUnitInformation>, partial: bool, sent: seq<DebitRequest>)
      requires i < |req.multipleUnitUsage|
      requires Reservation(State(), infosIn, partialIn, sentIn) == ChargeGroups(st0, Config(), peers, req, i)
      modifies this`ratingGroups, this`ratingType, this`reservedQuota, this`unitCost, this`acctRequestNum
      ensures Reservation(State(), infos, partial, sent) == ChargeGroups(st0, Config(), peers, req, i + 1)
    {
      var info, requests;
      info, partial, requests := ChargeUsage(peers, req.triggers, i, req.multipleUnitUsage[i], partialIn);
      infos := infosIn;
      if info.Some? {
        infos := infos + [info.value];
      }
      sent := sentIn + requests;
      ChargeGroupsNext(st0, Config(), peers, req, i);
      assert infos == infosIn + Entries(info);
    }

    /** One pass of the loop: register the group, scan its containers, then
        charge it in its mode; the counter goes up when the pass completes. */
    method ChargeUsage(peers: Peers, reqTriggers: seq<Trigger>, idx: nat, u: MultipleUnitUsage, partialIn: bool)
      returns (info: Option<MultipleUnitInformation>, partial: bool, sent: seq<DebitRequest>)
      modifies this`ratingGroups, this`ratingType, this`reservedQuota, this`unitCost, this`acctRequestNum
      ensures var r := ChargeGroup(old(State()), Config(), peers, reqTriggers, idx, u, partialIn);
        State() == r.st && info == r.info && partial == r.partial && sent == r.debits
    {
      var rg := u.ratingGroup;
      RegisterGroup(rg);
      var triggers, threshold, creditControl, totalUsedUnit;
      triggers, threshold, creditControl, totalUsedUnit, partial := ScanUsedUnits(u.usedUnitContainers, reqTriggers, rg, partialIn);
      ghost var scan := ScanUsage(old(State()), u, reqTriggers, partialIn);
      assert State() == ScannedState(old(State()), rg, scan);
      if !creditControl {
        return None, partial, [];
      }
      info, sent := ChargeInModeUsage(peers, idx, u, totalUsedUnit, MultipleUnitInformation(u.upfId, rg, NoFinalUnitAction, triggers, threshold, None, 0), partial);
    }

    /** `FindRatingGroup` and, for a new group, its registration in RESERVE. */
    method RegisterGroup(rg: Int32)
      modifies this`ratingGroups, this`ratingType
      ensures State() == Register(old(State()), rg)
    {
      if rg !in ratingGroups {
        ratingGroups := ratingGroups + [rg];
        ratingType := ratingType[rg := Reserve];
      }
    }

    /** The switch on the group's mode, then the group's request counter
        goes up when the pass was not cut short. */
    method ChargeInModeUsage(peers: Peers, idx: nat, u: MultipleUnitUsage, totalUsedUnit: UInt32,
                             entry: MultipleUnitInformation, ghost partial: bool)
      returns (info: Option<MultipleUnitInformation>, sent: seq<DebitRequest>)
      modifies this`ratingType, this`reservedQuota, this`unitCost, this`acctRequestNum
      ensures var r := ChargeInMode(old(State()), Config(), peers, idx, u, totalUsedUnit, entry, partial);
        State() == r.st && info == r.info && sent == r.debits
    {
      var rg := u.ratingGroup;
      ghost var r := ChargeInMode(State(), Config(), peers, idx, u, totalUsedUnit, entry, partial);
      match ModeOf(State(), rg) {
        case Reserve =>
          assert r == ReserveCharge(State(), Config(), peers, idx, u, totalUsedUnit, entry, partial);
          info, sent := ReserveUsage(peers, idx, u, totalUsedUnit, entry, partial);
        case Debit =>
          assert r == DebitCharge(State(), peers, rg, totalUsedUnit, entry, partial);
          info, sent := DebitUsage(peers, rg, totalUsedUnit, entry, partial);
        case Unset =>
          assert r == Completed(State(), rg, entry, partial, []);
          info, sent := Some(entry), [];
      }
      assert info == r.info && sent == r.debits && r.st == (if info.Some? then CountRequest(State(), rg) else State());
      if info.Some? {
        acctRequestNum := acctRequestNum[rg := CounterOf(State(), rg) + 1];
      }
    }

    /** The loop over one report's used-unit containers. */
    method ScanUsedUnits(cs: seq<UsedUnitContainer>, reqTriggers: seq<Trigger>, rg: Int32, partialIn: bool)
      returns (triggers: seq<Trigger>, threshold: Int32, creditControl: bool, totalUsedUnit: UInt32, partial: bool)
      modifies this`ratingType
      ensures ContainerScan(triggers, threshold, creditControl, totalUsedUnit, ratingType, partial)
           == ScanContainers(cs, reqTriggers, rg, InitialScan(old(ratingType), partialIn))
    {
      triggers, threshold, creditControl, totalUsedUnit, partial := [], 0, false, 0, partialIn;
      var i := 0;
      while i < |cs|
        invariant i <= |cs|
        invariant ContainerScan(triggers, threshold, creditControl, totalUsedUnit, ratingType, partial)
               == ScanContainers(cs[..i], reqTriggers, rg, InitialScan(old(ratingType), partialIn))
      {
        assert cs[..i + 1][..i] == cs[..i];
        match cs[i].indicator {
          case OfflineCharging =>
            triggers := triggers + [ImmediateTrigger(QuotaThreshold)];
            threshold := OFFLINE_VOLUME_THRESHOLD;
          case OnlineCharging =>
            creditControl := true;
            partial := ScanRequestTriggers(reqTriggers, rg, partial);
            totalUsedUnit := ToUInt32(totalUsedUnit + ToUInt32(cs[i].totalVolume));
          case QuotaManagementSuspended =>
          case NoIndicator =>
        }
        i := i + 1;
      }
      assert cs[..i] == cs;
    }

    /** The loop over the request's triggers for one online container. */
    method ScanRequestTriggers(ts: seq<Trigger>, rg: Int32, partialIn: bool) returns (partial: bool)
      modifies this`ratingType
      ensures (ratingType, partial) == ScanTriggers(ts, rg, old(ratingType), partialIn)
    {
      partial := partialIn;
      var j := 0;
      while j < |ts|
        invariant j <= |ts|
        invariant (ratingType, partial) == ScanTriggers(ts[..j], rg, old(ratingType), partialIn)
      {
        assert ts[..j + 1][..j] == ts[..j];
        partial := true;
        if ts[j].triggerType == Final {
          ratingType := ratingType[rg := Debit];
          partial := false;
        }
        j := j + 1;
      }
      assert ts[..j] == ts;
    }

    /** RESERVE mode: price the consumed units, take them off the reservation,
        ask for a refill when it is exhausted, then grant. `None` is a pass
        that ended early; on `Some` the caller counts the request. */
    method ReserveUsage(peers: Peers, idx: nat, u: MultipleUnitUsage, totalUsedUnit: UInt32,
                        entry: MultipleUnitInformation, ghost partial: bool)
      returns (info: Option<MultipleUnitInformation>, sent: seq<DebitRequest>)
      modifies this`ratingType, this`reservedQuota, this`unitCost
      ensures var r := ReserveCharge(old(State()), Config(), peers, idx, u, totalUsedUnit, entry, partial);
        info == r.info && sent == r.debits && r.st == (if info.Some? then CountRequest(State(), u.ratingGroup) else State())
    {
      var rg := u.ratingGroup;
      ghost var st0 := State();
      var cost := GetUnitCost(peers.rating, rg, true);
      PriceUsage(rg, totalUsedUnit, cost);
      var requestedQuota := MulUInt32(ToUInt32(u.requestedVolume), cost);
      ghost var st1 := State();
      assert requestedQuota == RequestedQuota(u, cost);
      if !(reservedQuota[rg] > 0) {
        var refill := RefillRequest(CounterOf(State(), rg), rg, ToUInt64(-(reservedQuota[rg] as int) + requestedQuota));
        assert ReserveCharge(st0, Config(), peers, idx, u, totalUsedUnit, entry, partial)
            == RequestRefill(st1, Config(), peers, idx, u, requestedQuota, refill, entry, partial);
        info, sent := RefillUsage(peers, idx, u, requestedQuota, refill, entry, partial);
      } else {
        assert ReserveCharge(st0, Config(), peers, idx, u, totalUsedUnit, entry, partial)
            == GrantUnits(st1, Config(), peers, idx, u, requestedQuota, entry, partial, []);
        info := GrantUsage(peers, idx, u, requestedQuota, entry, partial, []);
        sent := [];
      }
    }

    /** The quoted unit cost becomes the group's, then the used quota is
        taken off the reservation. */
    method PriceUsage(rg: Int32, totalUsedUnit: UInt32, cost: UInt32)
      modifies this`reservedQuota, this`unitCost
      ensures State() == Priced(old(State()), rg, totalUsedUnit, cost)
    {
      unitCost := unitCost[rg := cost];
      var usedQuota := MulUInt32(totalUsedUnit, unitCost[rg]);
      reservedQuota := reservedQuota[rg := ToInt64(ReservedOf(State(), rg) - usedQuota)];
    }

    /** RESERVE mode, exhausted reservation: the refill request; the granted
        octets go onto the reservation and a TERMINATE answer puts the group
        in DEBIT before the grant. */
    method RefillUsage(peers: Peers, idx: nat, u: MultipleUnitUsage, requestedQuota: UInt32, refill: DebitRequest,
                       entry: MultipleUnitInformation, ghost partial: bool)
      returns (info: Option<MultipleUnitInformation>, sent: seq<DebitRequest>)
      modifies this`ratingType, this`reservedQuota, this`unitCost
      ensures var r := RequestRefill(old(State()), Config(), peers, idx, u, requestedQuota, refill, entry, partial);
        info == r.info && sent == r.debits && r.st == (if info.Some? then CountRequest(State(), u.ratingGroup) else State())
    {
      var rg := u.ratingGroup;
      sent := [refill];
      var answer := peers.account(refill);
      if answer.None? {
        return None, sent;
      }
      reservedQuota := reservedQuota[rg := ToInt64(ReservedOf(State(), rg) + ToInt64(answer.value.grantedOctets))];
      var unitInfo := entry;
      if answer.value.finalUnitAction == Some(TerminateAction) {
        unitInfo := unitInfo.(finalUnitAction := Terminate);
        ratingType := ratingType[rg := Debit];
      }
      assert State() == Refilled(old(State()), rg, answer.value);
      info := GrantUsage(peers, idx, u, requestedQuota, unitInfo, partial, [refill]);
    }

    /** RESERVE mode, second half: the allowance query, the grant and the
        entry's triggers. */
    method GrantUsage(peers: Peers, idx: nat, u: MultipleUnitUsage, requestedQuota: UInt32,
                      entry: MultipleUnitInformation, ghost partial: bool, ghost debits: seq<DebitRequest>)
      returns (info: Option<MultipleUnitInformation>)
      modifies this`unitCost
      ensures var r := GrantUnits(old(State()), Config(), peers, idx, u, requestedQuota, entry, partial, debits);
        info == r.info && r.st == (if info.Some? then CountRequest(State(), u.ratingGroup) else State())
    {
      var rg := u.ratingGroup;
      var allowance := peers.rating(AllowanceQuery(rg, requestedQuota));
      if allowance.None? {
        return None;
      }
      unitCost := unitCost[rg := GetUnitCost(peers.requote, rg, true)];
      var grantedUnit := Min(allowance.value.allowedUnits, ToUInt32(u.requestedVolume));
      var unitInfo := entry;
      ghost var added: seq<Trigger> := [];
      if ModeOf(State(), rg) == Reserve {
        unitInfo := unitInfo.(triggers := unitInfo.triggers + [ImmediateTrigger(QuotaThreshold)],
                              volumeQuotaThreshold := volumeThreshold(grantedUnit));
        added := [ImmediateTrigger(QuotaThreshold)];
      }
      unitInfo := unitInfo.(triggers := unitInfo.triggers + [ImmediateTrigger(QuotaExhausted)]);
      added := added + [ImmediateTrigger(QuotaExhausted)];
      assert unitInfo.triggers == entry.triggers + added;
      var g := ToInt32(grantedUnit);
      unitInfo := unitInfo.(grantedUnit := Some(GrantedUnit(g, g, g)));
      ghost var piece: seq<Trigger> := [];
      if volumeLimit != 0 {
        unitInfo := unitInfo.(triggers := unitInfo.triggers + [Trigger(VolumeLimit, DeferredReport, volumeLimit)]);
        piece := [Trigger(VolumeLimit, DeferredReport, volumeLimit)];
      }
      assert unitInfo.triggers == entry.triggers + (added + piece);
      added := added + piece;
      piece := [];
      if volumeLimitPdu != 0 && idx == 0 {
        unitInfo := unitInfo.(triggers := unitInfo.triggers + [Trigger(VolumeLimit, ImmediateReport, volumeLimitPdu)]);
        piece := [Trigger(VolumeLimit, ImmediateReport, volumeLimitPdu)];
      }
      assert unitInfo.triggers == entry.triggers + (added + piece);
      added := added + piece;
      piece := [];
      if quotaValidityTime != 0 {
        unitInfo := unitInfo.(triggers := unitInfo.triggers + [ImmediateTrigger(ValidityTime)], validityTime := quotaValidityTime);
        piece := [ImmediateTrigger(ValidityTime)];
      }
      assert unitInfo.triggers == entry.triggers + (added + piece);
      added := added + piece;
      assert added == GrantTriggers(ModeOf(State(), rg) == Reserve, Config(), idx);
      info := Some(unitInfo);
    }

    /** DEBIT mode: the final price, then a refund of what was reserved in
        excess (back to RESERVE) or a debit of what was consumed beyond it;
        a successful account call clears the reservation. */
    method DebitUsage(peers: Peers, rg: Int32, totalUsedUnit: UInt32, entry: MultipleUnitInformation, ghost partial: bool)
      returns (info: Option<MultipleUnitInformation>, sent: seq<DebitRequest>)
      modifies this`ratingType, this`reservedQuota
      ensures var r := DebitCharge(old(State()), peers, rg, totalUsedUnit, entry, partial);
        info == r.info && sent == r.debits && r.st == (if info.Some? then CountRequest(State(), rg) else State())
    {
      var pricing := peers.rating(PriceQuery(rg, totalUsedUnit));
      if pricing.None? {
        return None, [];
      }
      var price := pricing.value.price;
      var request;
      if price < ReservedOf(State(), rg) {
        var reservedRemained := ReservedOf(State(), rg) - price;
        request := DebitRequest(ToUInt32(CounterOf(State(), rg)), NoRequestType, RefundAccount, ToUInt32(rg), Some(reservedRemained), None);
        ratingType := ratingType[rg := Reserve];
      } else {
        var extraConsumed := ToInt64(price - ReservedOf(State(), rg));
        request := DebitRequest(ToUInt32(CounterOf(State(), rg)), TerminationRequest, DirectDebiting, ToUInt32(rg), None, Some(ToUInt64(extraConsumed)));
      }
      sent := [request];
      if peers.account(request).None? {
        return None, sent;
      }
      reservedQuota := reservedQuota[rg := 0];
      info := Some(entry.(triggers := entry.triggers + [ImmediateTrigger(QuotaExhausted)], grantedUnit := Some(GrantedUnit(0, 0, 0))));
    }

    /** Every record of the subscriber, gathered by ranging over the record
        map: the order is whatever the map gives. */
    method CollectRecords() returns (records: seq<Cdr>)
      ensures multiset(records) == RecordValues(cdr)
    {
      records := [];
      var rest := cdr;
      while rest != map[]
        invariant multiset(records) + RecordValues(rest) == RecordValues(cdr)
        decreases |rest|
      {
        var k :| k in rest;
        RecordValuesRemove(rest, k);
        records := records + [rest[k]];
        assert rest.Keys - {k} < rest.Keys;
        rest := rest - {k};
      }
    }
  }
}
