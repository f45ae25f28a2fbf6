/** What the reservation engine promises, proved of its definition in
    ReservationSpec: per rating group (registration, counter, trigger scan,
    RESERVE arithmetic, grant and trigger list, DEBIT settlement, peer
    failures) and over a whole request. */
module ReservationProperties {
  import opened MachineInts
  import opened ChargingTypes
  import opened ReservationSpec

  predicate NoDuplicates(s: seq<Int32>)
  {
    forall i, j :: 0 <= i < j < |s| ==> s[i] != s[j]
  }

  /** The subscriber invariant: each rating group is registered once and
      every registered group is in RESERVE or DEBIT. */
  predicate RegistryConsistent(st: UeState)
  {
    && NoDuplicates(st.ratingGroups)
    && forall i :: 0 <= i < |st.ratingGroups| ==> ModeOf(st, st.ratingGroups[i]) != Unset
  }

  /** What any tail of a pass (after the container scan) does to the state:
      the registry is untouched, only rg's entries change, rg's mode stays
      RESERVE or DEBIT, and an entry for rg is produced exactly when rg's
      counter goes up. */
  ghost predicate OnlyGroupChanges(st: UeState, rg: Int32, upfId: string, r: StepResult)
  {
    && r.st.ratingGroups == st.ratingGroups
    && (ModeOf(st, rg) != Unset ==> ModeOf(r.st, rg) != Unset)
    && (r.info.Some? ==> CounterOf(r.st, rg) == CounterOf(st, rg) + 1 && r.info.value.ratingGroup == rg && r.info.value.upfId == upfId)
    && (r.info.None? ==> CounterOf(r.st, rg) == CounterOf(st, rg))
    && (forall g :: g != rg ==>
          && ModeOf(r.st, g) == ModeOf(st, g)
          && ReservedOf(r.st, g) == ReservedOf(st, g)
          && CostOf(r.st, g) == CostOf(st, g)
          && CounterOf(r.st, g) == CounterOf(st, g))
  }

  /** st1 differs from st only in rg's reservation, cost and mode, the
      mode staying RESERVE or DEBIT. */
  ghost predicate SameOutside(st: UeState, st1: UeState, rg: Int32)
  {
    && st1.ratingGroups == st.ratingGroups
    && st1.acctRequestNum == st.acctRequestNum
    && (ModeOf(st, rg) != Unset ==> ModeOf(st1, rg) != Unset)
    && (forall g :: g != rg ==>
          && ModeOf(st1, g) == ModeOf(st, g)
          && ReservedOf(st1, g) == ReservedOf(st, g)
          && CostOf(st1, g) == CostOf(st, g))
  }

  lemma SameOutsideThen(st: UeState, st1: UeState, rg: Int32, upfId: string, r: StepResult)
    requires SameOutside(st, st1, rg)
    requires OnlyGroupChanges(st1, rg, upfId, r)
    ensures OnlyGroupChanges(st, rg, upfId, r)
  {
  }

  lemma GrantUnitsShape(st: UeState, cfg: UeConfig, peers: Peers, idx: nat, u: MultipleUnitUsage,
                        requestedQuota: UInt32, info: MultipleUnitInformation, partial: bool, debits: seq<DebitRequest>)
    requires info.ratingGroup == u.ratingGroup
    ensures var r := GrantUnits(st, cfg, peers, idx, u, requestedQuota, info, partial, debits);
      OnlyGroupChanges(st, u.ratingGroup, info.upfId, r) && r.partial == partial
  {
  }

  lemma RequestRefillShape(st: UeState, cfg: UeConfig, peers: Peers, idx: nat, u: MultipleUnitUsage,
                           requestedQuota: UInt32, refill: DebitRequest, info: MultipleUnitInformation, partial: bool)
    requires info.ratingGroup == u.ratingGroup
    ensures var r := RequestRefill(st, cfg, peers, idx, u, requestedQuota, refill, info, partial);
      OnlyGroupChanges(st, u.ratingGroup, info.upfId, r) && r.partial == partial
  {
    var rg := u.ratingGroup;
    if peers.account(refill).Some? {
      var answer := peers.account(refill).value;
      var st1 := Refilled(st, rg, answer);
      var info1 := RefillEntry(info, answer);
      assert SameOutside(st, st1, rg);
      GrantUnitsShape(st1, cfg, peers, idx, u, requestedQuota, info1, partial, [refill]);
      SameOutsideThen(st, st1, rg, info.upfId, GrantUnits(st1, cfg, peers, idx, u, requestedQuota, info1, partial, [refill]));
    }
  }

  lemma ReserveChargeShape(st: UeState, cfg: UeConfig, peers: Peers, idx: nat, u: MultipleUnitUsage,
                           totalUsedUnit: UInt32, info: MultipleUnitInformation, partial: bool)
    requires info.ratingGroup == u.ratingGroup
    ensures var r := ReserveCharge(st, cfg, peers, idx, u, totalUsedUnit, info, partial);
      OnlyGroupChanges(st, u.ratingGroup, info.upfId, r) && r.partial == partial
  {
    var rg := u.ratingGroup;
    var cost := GetUnitCost(peers.rating, rg, true);
    var requested := RequestedQuota(u, cost);
    var remaining := RemainingQuota(st, rg, totalUsedUnit, cost);
    var st1 := st.(unitCost := st.unitCost[rg := cost], reservedQuota := st.reservedQuota[rg := remaining]);
    assert SameOutside(st, st1, rg);
    if remaining > 0 {
      assert ReserveCharge(st, cfg, peers, idx, u, totalUsedUnit, info, partial) == GrantUnits(st1, cfg, peers, idx, u, requested, info, partial, []);
      GrantUnitsShape(st1, cfg, peers, idx, u, requested, info, partial, []);
      SameOutsideThen(st, st1, rg, info.upfId, GrantUnits(st1, cfg, peers, idx, u, requested, info, partial, []));
    } else {
      var refill := RefillRequest(CounterOf(st, rg), rg, RefillOctets(remaining, requested));
      assert ReserveCharge(st, cfg, peers, idx, u, totalUsedUnit, info, partial) == RequestRefill(st1, cfg, peers, idx, u, requested, refill, info, partial);
      RequestRefillShape(st1, cfg, peers, idx, u, requested, refill, info, partial);
      SameOutsideThen(st, st1, rg, info.upfId, RequestRefill(st1, cfg, peers, idx, u, requested, refill, info, partial));
    }
  }

  lemma DebitChargeShape(st: UeState, peers: Peers, rg: Int32, totalUsedUnit: UInt32,
                         info: MultipleUnitInformation, partial: bool)
    requires info.ratingGroup == rg
    ensures var r := DebitCharge(st, peers, rg, totalUsedUnit, info, partial);
      OnlyGroupChanges(st, rg, info.upfId, r) && r.partial == partial
  {
    match peers.rating(PriceQuery(rg, totalUsedUnit))
    case None =>
    case Some(pricing) =>
      var reserved := ReservedOf(st, rg);
      if pricing.price < reserved {
        var refund := DebitRequest(ToUInt32(CounterOf(st, rg)), NoRequestType, RefundAccount, ToUInt32(rg), Some(reserved - pricing.price), None);
        var st1 := st.(ratingType := st.ratingType[rg := Reserve]);
        assert DebitCharge(st, peers, rg, totalUsedUnit, info, partial) == Settle(st1, peers, rg, refund, info, partial);
        SettleShape(st1, peers, rg, refund, info, partial);
        SameOutsideThen(st, st1, rg, info.upfId, Settle(st1, peers, rg, refund, info, partial));
      } else {
        var debit := DebitRequest(ToUInt32(CounterOf(st, rg)), TerminationRequest, DirectDebiting, ToUInt32(rg), None, Some(ToUInt64(ToInt64(pricing.price - reserved))));
        assert DebitCharge(st, peers, rg, totalUsedUnit, info, partial) == Settle(st, peers, rg, debit, info, partial);
        SettleShape(st, peers, rg, debit, info, partial);
      }
  }

  lemma SettleShape(st: UeState, peers: Peers, rg: Int32, request: DebitRequest, info: MultipleUnitInformation, partial: bool)
    requires info.ratingGroup == rg
    ensures var r := Settle(st, peers, rg, request, info, partial);
      OnlyGroupChanges(st, rg, info.upfId, r) && r.partial == partial
  {
  }

  /** The scan of the containers touches at most rg's rating type, and only
      to put it in DEBIT. */
  lemma ScannedStateFrame(st: UeState, u: MultipleUnitUsage, ts: seq<Trigger>, partial: bool)
    ensures var rg := u.ratingGroup;
      var scan := ScanUsage(st, u, ts, partial);
      var st1 := ScannedState(st, rg, scan);
      && st1.ratingGroups == Register(st, rg).ratingGroups
      && st1.reservedQuota == st.reservedQuota && st1.unitCost == st.unitCost && st1.acctRequestNum == st.acctRequestNum
      && (forall g :: g != rg ==> ModeOf(st1, g) == ModeOf(st, g))
      && ModeOf(st1, rg) == (if HasOnline(u.usedUnitContainers) && HasFinal(ts) then Debit else ModeOf(Register(st, rg), rg))
      && scan.partial == (if HasOnline(u.usedUnitContainers) && ts != [] then ts[|ts| - 1].triggerType != Final else partial)
      && scan.creditControl == HasOnline(u.usedUnitContainers)
  {
    var rg := u.ratingGroup;
    var s0 := InitialScan(Register(st, rg).ratingType, partial);
    ScanContainersMode(u.usedUnitContainers, ts, rg, s0);
    ScanContainersAccumulates(u.usedUnitContainers, ts, rg, s0);
  }

  /** Everything after the container scan keeps to rg's own entries. */
  lemma ChargeGroupTail(st: UeState, cfg: UeConfig, peers: Peers, ts: seq<Trigger>,
                        idx: nat, u: MultipleUnitUsage, partial: bool)
    ensures var scan := ScanUsage(st, u, ts, partial);
      var r := ChargeGroup(st, cfg, peers, ts, idx, u, partial);
      && OnlyGroupChanges(ScannedState(st, u.ratingGroup, scan), u.ratingGroup, u.upfId, r)
      && r.partial == scan.partial
      && (!scan.creditControl ==> r.info.None? && r.debits == [])
  {
    var rg := u.ratingGroup;
    var scan := ScanUsage(st, u, ts, partial);
    var st1 := ScannedState(st, rg, scan);
    if scan.creditControl {
      var info := MultipleUnitInformation(u.upfId, rg, NoFinalUnitAction, scan.triggers, scan.volumeQuotaThreshold, None, 0);
      match ModeOf(st1, rg)
      case Reserve => ReserveChargeShape(st1, cfg, peers, idx, u, scan.totalUsedUnit, info, scan.partial);
      case Debit => DebitChargeShape(st1, peers, rg, scan.totalUsedUnit, info, scan.partial);
      case Unset =>
    }
  }

  /** Registration and counter: the group ends up registered (appended when
      new); only its own entries change; a group with no online container
      yields no entry, no counter step and no account request; otherwise an
      entry is appended exactly when its counter goes up by one; and the
      subscriber invariant is kept. */
  lemma ChargeGroupRegistersAndCounts(st: UeState, cfg: UeConfig, peers: Peers, ts: seq<Trigger>,
                                      idx: nat, u: MultipleUnitUsage, partial: bool)
    ensures var r := ChargeGroup(st, cfg, peers, ts, idx, u, partial);
      var rg := u.ratingGroup;
      && r.st.ratingGroups == (if rg in st.ratingGroups then st.ratingGroups else st.ratingGroups + [rg])
      && (rg !in st.ratingGroups && !HasOnline(u.usedUnitContainers) ==> ModeOf(r.st, rg) == Reserve)
      && (!HasOnline(u.usedUnitContainers) ==> r.info.None? && r.debits == [])
      && (r.info.Some? <==> CounterOf(r.st, rg) == CounterOf(st, rg) + 1)
      && (r.info.None? ==> CounterOf(r.st, rg) == CounterOf(st, rg))
      && (r.info.Some? ==> r.info.value.ratingGroup == rg && r.info.value.upfId == u.upfId)
      && (forall g :: g != rg ==>
            && ModeOf(r.st, g) == ModeOf(st, g)
            && ReservedOf(r.st, g) == ReservedOf(st, g)
            && CostOf(r.st, g) == CostOf(st, g)
            && CounterOf(r.st, g) == CounterOf(st, g))
      && (RegistryConsistent(st) ==> RegistryConsistent(r.st))
  {
    var rg := u.ratingGroup;
    var scan := ScanUsage(st, u, ts, partial);
    var st1 := ScannedState(st, rg, scan);
    ScannedStateFrame(st, u, ts, partial);
    var r := ChargeGroup(st, cfg, peers, ts, idx, u, partial);
    ChargeGroupTail(st, cfg, peers, ts, idx, u, partial);
    if RegistryConsistent(st) {
      assert ModeOf(st1, rg) != Unset by {
        if rg in st.ratingGroups {
          var k :| 0 <= k < |st.ratingGroups| && st.ratingGroups[k] == rg;
        }
      }
      forall i | 0 <= i < |r.st.ratingGroups|
        ensures ModeOf(r.st, r.st.ratingGroups[i]) != Unset
      {
        if i < |st.ratingGroups| {
          var g := st.ratingGroups[i];
          if g != rg {
            assert ModeOf(r.st, g) == ModeOf(st, g);
          }
        }
      }
    }
  }

  /** The partial-record mark after one group: it is recomputed from the
      request's triggers when the group has an online container (false
      exactly when the last trigger is FINAL) and is passed through
      otherwise. A FINAL trigger on an online group sends it down the DEBIT
      path, so it never asks for a reservation refill. */
  lemma ChargeGroupTriggerScan(st: UeState, cfg: UeConfig, peers: Peers, ts: seq<Trigger>,
                               idx: nat, u: MultipleUnitUsage, partial: bool)
    ensures var r := ChargeGroup(st, cfg, peers, ts, idx, u, partial);
      && r.partial == (if HasOnline(u.usedUnitContainers) && ts != [] then ts[|ts| - 1].triggerType != Final else partial)
      && (HasOnline(u.usedUnitContainers) && HasFinal(ts) ==>
            ModeOf(ScannedState(st, u.ratingGroup, ScanUsage(st, u, ts, partial)), u.ratingGroup) == Debit
            && forall d :: d in r.debits ==> d.requestType != UpdateRequest)
  {
    var rg := u.ratingGroup;
    var scan := ScanUsage(st, u, ts, partial);
    var st1 := ScannedState(st, rg, scan);
    ScannedStateFrame(st, u, ts, partial);
    ChargeGroupTail(st, cfg, peers, ts, idx, u, partial);
  }

  // ---------------------------------------------------------------------
  // RESERVE mode
  // ---------------------------------------------------------------------

  /** The grant: without an allowance answer the pass ends with the state as
      it was; otherwise the entry keeps the triggers gathered so far, followed
      by the grant's own (`GrantTriggers`, with QUOTA_THRESHOLD exactly when
      the group is still in RESERVE), grants `GrantedUnits` units in all three
      volumes, and only rg's unit cost and counter change. */
  lemma GrantUnitsOutcome(st: UeState, cfg: UeConfig, peers: Peers, idx: nat, u: MultipleUnitUsage,
                          requestedQuota: UInt32, info: MultipleUnitInformation, partial: bool,
                          debits: seq<DebitRequest>)
    ensures var rg := u.ratingGroup;
      var r := GrantUnits(st, cfg, peers, idx, u, requestedQuota, info, partial, debits);
      && r.debits == debits && r.partial == partial
      && (peers.rating(AllowanceQuery(rg, requestedQuota)).None? ==> r == Skipped(st, partial, debits))
      && (peers.rating(AllowanceQuery(rg, requestedQuota)).Some? ==>
            var allowed := peers.rating(AllowanceQuery(rg, requestedQuota)).value.allowedUnits;
            var reserve := ModeOf(st, rg) == Reserve;
            var g := ToInt32(GrantedUnits(allowed, u.requestedVolume));
            && r.info == Some(info.(triggers := info.triggers + GrantTriggers(reserve, cfg, idx),
                                    volumeQuotaThreshold := if reserve then cfg.volumeThreshold(GrantedUnits(allowed, u.requestedVolume)) else info.volumeQuotaThreshold,
                                    grantedUnit := Some(GrantedUnit(g, g, g)),
                                    validityTime := if cfg.quotaValidityTime != 0 then cfg.quotaValidityTime else info.validityTime))
            && r.st == st.(unitCost := st.unitCost[rg := GetUnitCost(peers.requote, rg, true)],
                           acctRequestNum := st.acctRequestNum[rg := CounterOf(st, rg) + 1]))
  {
  }

  /** What the grant leaves alone: rg's reservation and mode, the debits so
      far, the entry's final-unit action; the entry's triggers are the ones
      gathered so far followed by `GrantTriggers`. */
  lemma GrantUnitsFrame(st: UeState, cfg: UeConfig, peers: Peers, idx: nat, u: MultipleUnitUsage,
                        requestedQuota: UInt32, info: MultipleUnitInformation, partial: bool,
                        debits: seq<DebitRequest>)
    ensures var rg := u.ratingGroup;
      var r := GrantUnits(st, cfg, peers, idx, u, requestedQuota, info, partial, debits);
      && ReservedOf(r.st, rg) == ReservedOf(st, rg) && ModeOf(r.st, rg) == ModeOf(st, rg) && r.debits == debits
      && (r.info.None? ==> r.st == st)
      && (r.info.Some? ==>
            && r.info.value.finalUnitAction == info.finalUnitAction
            && r.info.value.triggers == info.triggers + GrantTriggers(ModeOf(st, rg) == Reserve, cfg, idx))
  {
  }

  /** The refill: a failed account call ends the pass with the state as it
      was; otherwise the granted octets, as `int64`, are added to the
      reservation (`ToInt64OfSum`: that wraps once), and a TERMINATE final-unit action puts the group in
      DEBIT and marks the entry TERMINATE, so the grant appends no
      QUOTA_THRESHOLD. */
  lemma {:induction false} RequestRefillOutcome(st: UeState, cfg: UeConfig, peers: Peers, idx: nat, u: MultipleUnitUsage,
                                                requestedQuota: UInt32, refill: DebitRequest, info: MultipleUnitInformation, partial: bool)
    ensures var rg := u.ratingGroup;
      var r := RequestRefill(st, cfg, peers, idx, u, requestedQuota, refill, info, partial);
      && r.debits == [refill]
      && (peers.account(refill).None? ==> r == Skipped(st, partial, [refill]))
      && (peers.account(refill).Some? ==>
            var answer := peers.account(refill).value;
            var terminate := answer.finalUnitAction == Some(TerminateAction);
            && ReservedOf(r.st, rg) == ToInt64(ReservedOf(st, rg) + ToInt64(answer.grantedOctets))
            && ModeOf(r.st, rg) == (if terminate then Debit else ModeOf(st, rg))
            && (r.info.Some? ==>
                  && r.info.value.finalUnitAction == (if terminate then Terminate else info.finalUnitAction)
                  && (terminate ==> ImmediateTrigger(QuotaThreshold) !in r.info.value.triggers[|info.triggers|..])))
  {
    var rg := u.ratingGroup;
    if peers.account(refill).Some? {
      var answer := peers.account(refill).value;
      var st1 := Refilled(st, rg, answer);
      var info1 := RefillEntry(info, answer);
      GrantUnitsFrame(st1, cfg, peers, idx, u, requestedQuota, info1, partial, [refill]);
      var r := GrantUnits(st1, cfg, peers, idx, u, requestedQuota, info1, partial, [refill]);
      if r.info.Some? {
        assert r.info.value.triggers[|info.triggers|..] == GrantTriggers(ModeOf(st1, rg) == Reserve, cfg, idx);
      }
    }
  }

  lemma RequestRefillCost(st: UeState, cfg: UeConfig, peers: Peers, idx: nat, u: MultipleUnitUsage,
                          requestedQuota: UInt32, refill: DebitRequest, info: MultipleUnitInformation, partial: bool)
    ensures var r := RequestRefill(st, cfg, peers, idx, u, requestedQuota, refill, info, partial);
      CostOf(r.st, u.ratingGroup) == (if r.info.Some? then GetUnitCost(peers.requote, u.ratingGroup, true) else CostOf(st, u.ratingGroup))
  {
  }

  /** RESERVE mode: the consumed units are priced at the unit cost just
      quoted and taken off the reservation; a refill of the deficit plus the
      requested quota is asked for exactly when what remains is not
      positive; the mode moves only on a TERMINATE answer. The group keeps
      the quoted cost when the pass ends early, and the second tariff
      answer's cost when it completes. */
  lemma ReserveChargeQuota(st: UeState, cfg: UeConfig, peers: Peers, idx: nat, u: MultipleUnitUsage,
                           totalUsedUnit: UInt32, info: MultipleUnitInformation, partial: bool)
    ensures var rg := u.ratingGroup;
      var cost := GetUnitCost(peers.rating, rg, true);
      var remaining := RemainingQuota(st, rg, totalUsedUnit, cost);
      var refill := RefillRequest(CounterOf(st, rg), rg, RefillOctets(remaining, RequestedQuota(u, cost)));
      var r := ReserveCharge(st, cfg, peers, idx, u, totalUsedUnit, info, partial);
      && CostOf(r.st, rg) == (if r.info.Some? then GetUnitCost(peers.requote, rg, true) else cost)
      && (remaining > 0 ==> r.debits == [] && ReservedOf(r.st, rg) == remaining && ModeOf(r.st, rg) == ModeOf(st, rg))
      && (remaining <= 0 ==> r.debits == [refill])
      && (remaining <= 0 && peers.account(refill).None? ==>
            r.info.None? && ReservedOf(r.st, rg) == remaining && ModeOf(r.st, rg) == ModeOf(st, rg))
      && (remaining <= 0 && peers.account(refill).Some? ==>
            var answer := peers.account(refill).value;
            && ReservedOf(r.st, rg) == ToInt64(remaining + ToInt64(answer.grantedOctets))
            && ModeOf(r.st, rg) == (if answer.finalUnitAction == Some(TerminateAction) then Debit else ModeOf(st, rg)))
  {
    var rg := u.ratingGroup;
    var cost := GetUnitCost(peers.rating, rg, true);
    var remaining := RemainingQuota(st, rg, totalUsedUnit, cost);
    if remaining > 0 {
      ReserveChargeCovered(st, cfg, peers, idx, u, totalUsedUnit, info, partial);
    } else {
      ReserveChargeRefill(st, cfg, peers, idx, u, totalUsedUnit, info, partial);
    }
  }

  lemma ReserveChargeCovered(st: UeState, cfg: UeConfig, peers: Peers, idx: nat, u: MultipleUnitUsage,
                             totalUsedUnit: UInt32, info: MultipleUnitInformation, partial: bool)
    requires RemainingQuota(st, u.ratingGroup, totalUsedUnit, GetUnitCost(peers.rating, u.ratingGroup, true)) > 0
    ensures var rg := u.ratingGroup;
      var cost := GetUnitCost(peers.rating, rg, true);
      var r := ReserveCharge(st, cfg, peers, idx, u, totalUsedUnit, info, partial);
      && CostOf(r.st, rg) == (if r.info.Some? then GetUnitCost(peers.requote, rg, true) else cost)
      && r.debits == []
      && ReservedOf(r.st, rg) == RemainingQuota(st, rg, totalUsedUnit, cost) && ModeOf(r.st, rg) == ModeOf(st, rg)
  {
    var rg := u.ratingGroup;
    var cost := GetUnitCost(peers.rating, rg, true);
    var requested := RequestedQuota(u, cost);
    var st1 := st.(unitCost := st.unitCost[rg := cost], reservedQuota := st.reservedQuota[rg := RemainingQuota(st, rg, totalUsedUnit, cost)]);
    assert ReserveCharge(st, cfg, peers, idx, u, totalUsedUnit, info, partial) == GrantUnits(st1, cfg, peers, idx, u, requested, info, partial, []);
    GrantUnitsFrame(st1, cfg, peers, idx, u, requested, info, partial, []);
    GrantUnitsOutcome(st1, cfg, peers, idx, u, requested, info, partial, []);
  }

  lemma ReserveChargeRefill(st: UeState, cfg: UeConfig, peers: Peers, idx: nat, u: MultipleUnitUsage,
                            totalUsedUnit: UInt32, info: MultipleUnitInformation, partial: bool)
    requires RemainingQuota(st, u.ratingGroup, totalUsedUnit, GetUnitCost(peers.rating, u.ratingGroup, true)) <= 0
    ensures var rg := u.ratingGroup;
      var cost := GetUnitCost(peers.rating, rg, true);
      var remaining := RemainingQuota(st, rg, totalUsedUnit, cost);
      var refill := RefillRequest(CounterOf(st, rg), rg, RefillOctets(remaining, RequestedQuota(u, cost)));
      var r := ReserveCharge(st, cfg, peers, idx, u, totalUsedUnit, info, partial);
      && CostOf(r.st, rg) == (if r.info.Some? then GetUnitCost(peers.requote, rg, true) else cost)
      && r.debits == [refill]
      && (peers.account(refill).None? ==>
            r.info.None? && ReservedOf(r.st, rg) == remaining && ModeOf(r.st, rg) == ModeOf(st, rg))
      && (peers.account(refill).Some? ==>
            var answer := peers.account(refill).value;
            && ReservedOf(r.st, rg) == ToInt64(remaining + ToInt64(answer.grantedOctets))
            && ModeOf(r.st, rg) == (if answer.finalUnitAction == Some(TerminateAction) then Debit else ModeOf(st, rg)))
  {
    var rg := u.ratingGroup;
    var cost := GetUnitCost(peers.rating, rg, true);
    var requested := RequestedQuota(u, cost);
    var remaining := RemainingQuota(st, rg, totalUsedUnit, cost);
    var st1 := st.(unitCost := st.unitCost[rg := cost], reservedQuota := st.reservedQuota[rg := remaining]);
    var refill := RefillRequest(CounterOf(st, rg), rg, RefillOctets(remaining, requested));
    assert ReserveCharge(st, cfg, peers, idx, u, totalUsedUnit, info, partial) == RequestRefill(st1, cfg, peers, idx, u, requested, refill, info, partial);
    RequestRefillOutcome(st1, cfg, peers, idx, u, requested, refill, info, partial);
    RequestRefillCost(st1, cfg, peers, idx, u, requested, refill, info, partial);
  }

  /** When neither product overflows `uint32` and the reservation does not
      underflow `int64`, the RESERVE arithmetic is exact: with reservation
      R, used units N, unit cost C and requested volume Q, the reservation
      becomes R - N*C and the refill asks for -(R - N*C) + Q*C octets. */
  lemma ReserveArithmeticExact(st: UeState, rg: Int32, used: UInt32, cost: UInt32, u: MultipleUnitUsage)
    requires used * cost < TWO_32
    requires 0 <= u.requestedVolume && u.requestedVolume * cost < TWO_32
    requires ReservedOf(st, rg) - used * cost >= -TWO_63
    ensures RemainingQuota(st, rg, used, cost) == ReservedOf(st, rg) - used * cost
    ensures ReservedOf(st, rg) - used * cost <= 0 ==>
              RefillOctets(RemainingQuota(st, rg, used, cost), RequestedQuota(u, cost))
              == -(ReservedOf(st, rg) - used * cost) + u.requestedVolume * cost
  {
  }

  // ---------------------------------------------------------------------
  // DEBIT mode
  // ---------------------------------------------------------------------

  /** Settling with the account peer: a failed call ends the pass with the
      state as it was; a successful one zeroes the reservation, counts the
      request and yields an entry granting 0 units with QUOTA_EXHAUSTED
      appended. */
  lemma SettleOutcome(st: UeState, peers: Peers, rg: Int32, request: DebitRequest,
                      info: MultipleUnitInformation, partial: bool)
    ensures var r := Settle(st, peers, rg, request, info, partial);
      && r.debits == [request]
      && ModeOf(r.st, rg) == ModeOf(st, rg)
      && (peers.account(request).None? ==> r == Skipped(st, partial, [request]))
      && (peers.account(request).Some? ==>
            && ReservedOf(r.st, rg) == 0
            && r.info == Some(info.(triggers := info.triggers + [ImmediateTrigger(QuotaExhausted)],
                                    grantedUnit := Some(GrantedUnit(0, 0, 0))))
            && CounterOf(r.st, rg) == CounterOf(st, rg) + 1)
  {
  }

  /** DEBIT settlement: without a price the pass ends with nothing changed.
      With price P below the reservation R the account is refunded R - P and
      the group goes back to RESERVE (even when the refund then fails);
      otherwise P - R is debited with a TERMINATION request and the mode stays.
      A successful account call zeroes the reservation and yields an entry
      granting 0 units with a QUOTA_EXHAUSTED trigger appended; a failed one
      leaves the reservation and yields no entry. */
  lemma {:induction false} DebitSettlement(st: UeState, peers: Peers, rg: Int32, totalUsedUnit: UInt32,
                                           info: MultipleUnitInformation, partial: bool)
    ensures var r := DebitCharge(st, peers, rg, totalUsedUnit, info, partial);
      && (peers.rating(PriceQuery(rg, totalUsedUnit)).None? ==> r == Skipped(st, partial, []))
      && (peers.rating(PriceQuery(rg, totalUsedUnit)).Some? ==>
            var price := peers.rating(PriceQuery(rg, totalUsedUnit)).value.price;
            var reserved := ReservedOf(st, rg);
            && |r.debits| == 1
            && var d := r.debits[0];
            && d.ccRequestNumber == ToUInt32(CounterOf(st, rg)) && d.ratingGroup == ToUInt32(rg)
            && (price < reserved ==>
                  && d.action == RefundAccount && d.requestType == NoRequestType
                  && d.requestedOctets == Some(reserved - price) && d.usedOctets.None?
                  && ModeOf(r.st, rg) == Reserve)
            && (price >= reserved ==>
                  && d.action == DirectDebiting && d.requestType == TerminationRequest
                  && d.requestedOctets.None? && d.usedOctets == Some(ToUInt64(ToInt64(price - reserved)))
                  && (price - reserved < TWO_63 ==> d.usedOctets == Some(price - reserved))
                  && ModeOf(r.st, rg) == ModeOf(st, rg))
            && (peers.account(d).Some? ==>
                  && ReservedOf(r.st, rg) == 0
                  && r.info == Some(info.(triggers := info.triggers + [ImmediateTrigger(QuotaExhausted)],
                                          grantedUnit := Some(GrantedUnit(0, 0, 0))))
                  && CounterOf(r.st, rg) == CounterOf(st, rg) + 1)
            && (peers.account(d).None? ==>
                  r.info.None? && ReservedOf(r.st, rg) == reserved && CounterOf(r.st, rg) == CounterOf(st, rg)))
  {
    match peers.rating(PriceQuery(rg, totalUsedUnit))
    case None =>
    case Some(pricing) =>
      var reserved := ReservedOf(st, rg);
      if pricing.price < reserved {
        var refund := DebitRequest(ToUInt32(CounterOf(st, rg)), NoRequestType, RefundAccount, ToUInt32(rg), Some(reserved - pricing.price), None);
        var st1 := st.(ratingType := st.ratingType[rg := Reserve]);
        assert DebitCharge(st, peers, rg, totalUsedUnit, info, partial) == Settle(st1, peers, rg, refund, info, partial);
        SettleOutcome(st1, peers, rg, refund, info, partial);
      } else {
        var debit := DebitRequest(ToUInt32(CounterOf(st, rg)), TerminationRequest, DirectDebiting, ToUInt32(rg), None, Some(ToUInt64(ToInt64(pricing.price - reserved))));
        assert DebitCharge(st, peers, rg, totalUsedUnit, info, partial) == Settle(st, peers, rg, debit, info, partial);
        SettleOutcome(st, peers, rg, debit, info, partial);
      }
  }

  // ---------------------------------------------------------------------
  // Mode transitions
  // ---------------------------------------------------------------------

  /** How one usage report moves its group between RESERVE and DEBIT: a
      registered group leaves DEBIT only through a refund request (the revert
      is kept even when the refund fails), and enters DEBIT only through a
      FINAL trigger on an online container or a TERMINATE answer to a refill. */
  lemma ChargeGroupModeTransitions(st: UeState, cfg: UeConfig, peers: Peers, ts: seq<Trigger>,
                                   idx: nat, u: MultipleUnitUsage, partial: bool)
    ensures var r := ChargeGroup(st, cfg, peers, ts, idx, u, partial);
      var rg := u.ratingGroup;
      && (rg in st.ratingGroups && ModeOf(st, rg) == Debit && ModeOf(r.st, rg) != Debit ==>
            |r.debits| == 1 && r.debits[0].action == RefundAccount)
      && (ModeOf(st, rg) != Debit && ModeOf(r.st, rg) == Debit ==>
            || (HasOnline(u.usedUnitContainers) && HasFinal(ts))
            || (&& |r.debits| == 1 && r.debits[0].requestType == UpdateRequest
                && peers.account(r.debits[0]).Some?
                && peers.account(r.debits[0]).value.finalUnitAction == Some(TerminateAction)))
  {
    var rg := u.ratingGroup;
    var scan := ScanUsage(st, u, ts, partial);
    var st1 := ScannedState(st, rg, scan);
    ScannedStateFrame(st, u, ts, partial);
    if scan.creditControl {
      var info := MultipleUnitInformation(u.upfId, rg, NoFinalUnitAction, scan.triggers, scan.volumeQuotaThreshold, None, 0);
      match ModeOf(st1, rg)
      case Reserve =>
        assert ChargeGroup(st, cfg, peers, ts, idx, u, partial) == ReserveCharge(st1, cfg, peers, idx, u, scan.totalUsedUnit, info, scan.partial);
        ReserveChargeQuota(st1, cfg, peers, idx, u, scan.totalUsedUnit, info, scan.partial);
      case Debit =>
        assert ChargeGroup(st, cfg, peers, ts, idx, u, partial) == DebitCharge(st1, peers, rg, scan.totalUsedUnit, info, scan.partial);
        DebitSettlement(st1, peers, rg, scan.totalUsedUnit, info, scan.partial);
      case Unset =>
    }
  }
}
