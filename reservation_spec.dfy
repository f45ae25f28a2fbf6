/** The service-usage-with-reservation method of section 6.2.2.3.1 of
    3GPP TS 32.296, as the charging function runs it for one request:
    a pure definition of what `sessionChargingReservation` does to one
    subscriber's state, which rating and account requests it sends, and what
    it answers, together with the properties proved about it.
    `Ue.SessionChargingReservation` (ue_engine.dfy) is proved to compute it. */
module ReservationSpec {
  import opened MachineInts
  import opened ChargingTypes

  const OFFLINE_VOLUME_THRESHOLD: Int32 := 30000000

  // ---------------------------------------------------------------------
  // Unit cost
  // ---------------------------------------------------------------------

  /** The unit cost a rating answer quotes: mantissa times 10^exponent,
      each factor and the product taken as `uint32`. */
  function UnitCostOf(a: RatingAnswer): UInt32
  {
    ToUInt32(ToUInt32(a.valueDigits) * Pow10Truncated(a.exponent))
  }

  /** A negative exponent makes the unit cost 0; otherwise it is the exact
      product whenever that fits in `uint32`. */
  lemma UnitCostExact(a: RatingAnswer)
    ensures a.exponent < 0 ==> UnitCostOf(a) == 0
    ensures 0 <= a.valueDigits && 0 <= a.exponent && a.valueDigits * Pow10(a.exponent) < TWO_32 ==>
              UnitCostOf(a) == a.valueDigits * Pow10(a.exponent)
  {
    if 0 <= a.valueDigits && 0 <= a.exponent && a.valueDigits * Pow10(a.exponent) < TWO_32 {
      MulAtLeast(a.valueDigits, Pow10(a.exponent));
    }
  }

  lemma MulAtLeast(x: nat, y: nat)
    requires y >= 1
    ensures x <= x * y
  {
  }

  /** The tariff query `getUnitCost` sends for rating group rg. */
  function TariffQuery(rg: Int32): RatingRequest
  {
    RatingRequest(ToUInt32(rg), Reserve, 0, 0)
  }

  /** `getUnitCost`: 1 when there is no service-usage request or the rating
      peer fails, otherwise the unit cost the tariff answer quotes. */
  function GetUnitCost(rating: RatingRequest -> Option<RatingAnswer>, rg: Int32, requestPresent: bool): (cost: UInt32)
    ensures !requestPresent || rating(TariffQuery(rg)).None? ==> cost == 1
    ensures requestPresent && rating(TariffQuery(rg)).Some? ==> cost == UnitCostOf(rating(TariffQuery(rg)).value)
  {
    if !requestPresent then 1
    else
      match rating(TariffQuery(rg))
      case None => 1
      case Some(a) => UnitCostOf(a)
  }

  // ---------------------------------------------------------------------
  // Trigger scan and used-unit containers
  // ---------------------------------------------------------------------

  /** One pass of the trigger loop for rating group rg: every trigger marks
      the record partial; FINAL instead clears the mark and switches rg to
      DEBIT. The VOLUME_LIMIT/IMMEDIATE, change-count and
      management-intervention cases of the source do nothing. */
  function ScanTrigger(t: Trigger, rg: Int32, rt: map<Int32, SubType>, partial: bool): (map<Int32, SubType>, bool)
  {
    if t.triggerType == Final then (rt[rg := Debit], false) else (rt, true)
  }

  /** The trigger loop over the request's triggers, in order. */
  function ScanTriggers(ts: seq<Trigger>, rg: Int32, rt: map<Int32, SubType>, partial: bool): (map<Int32, SubType>, bool)
    decreases |ts|
  {
    if ts == [] then (rt, partial)
    else
      var before := ScanTriggers(ts[..|ts| - 1], rg, rt, partial);
      ScanTrigger(ts[|ts| - 1], rg, before.0, before.1)
  }

  predicate HasFinal(ts: seq<Trigger>)
  {
    exists i :: 0 <= i < |ts| && ts[i].triggerType == Final
  }

  /** After a trigger scan the partial mark says whether the last trigger was
      something other than FINAL, and rg is in DEBIT exactly when some
      trigger was FINAL (or it was before). */
  lemma {:induction false} ScanTriggersEffect(ts: seq<Trigger>, rg: Int32, rt: map<Int32, SubType>, partial: bool)
    ensures ScanTriggers(ts, rg, rt, partial).1 == (if ts == [] then partial else ts[|ts| - 1].triggerType != Final)
    ensures ScanTriggers(ts, rg, rt, partial).0 == (if HasFinal(ts) then rt[rg := Debit] else rt)
    decreases |ts|
  {
    if ts != [] {
      var init := ts[..|ts| - 1];
      ScanTriggersEffect(init, rg, rt, partial);
      if ts[|ts| - 1].triggerType == Final {
        assert HasFinal(ts);
      } else if HasFinal(ts) {
        var i :| 0 <= i < |ts| && ts[i].triggerType == Final;
        assert init[i].triggerType == Final;
      }
    }
  }

  /** What the container loop accumulates for one rating group: the entry's
      triggers and volume threshold so far, whether online charging was
      seen, the consumed units, the rating types and the partial mark. */
  datatype ContainerScan = ContainerScan(
    triggers: seq<Trigger>,
    volumeQuotaThreshold: Int32,
    creditControl: bool,
    totalUsedUnit: UInt32,
    ratingType: map<Int32, SubType>,
    partial: bool)

  function ScanContainer(s: ContainerScan, c: UsedUnitContainer, reqTriggers: seq<Trigger>, rg: Int32): ContainerScan
  {
    match c.indicator
    case OfflineCharging =>
      s.(triggers := s.triggers + [ImmediateTrigger(QuotaThreshold)], volumeQuotaThreshold := OFFLINE_VOLUME_THRESHOLD)
    case OnlineCharging =>
      var scanned := ScanTriggers(reqTriggers, rg, s.ratingType, s.partial);
      s.(creditControl := true, ratingType := scanned.0, partial := scanned.1,
         totalUsedUnit := ToUInt32(s.totalUsedUnit + ToUInt32(c.totalVolume)))
    case QuotaManagementSuspended => s  // reported as unsupported, nothing else
    case NoIndicator => s
  }

  function ScanContainers(cs: seq<UsedUnitContainer>, reqTriggers: seq<Trigger>, rg: Int32, s0: ContainerScan): ContainerScan
    decreases |cs|
  {
    if cs == [] then s0
    else ScanContainer(ScanContainers(cs[..|cs| - 1], reqTriggers, rg, s0), cs[|cs| - 1], reqTriggers, rg)
  }

  predicate HasOnline(cs: seq<UsedUnitContainer>)
  {
    exists i :: 0 <= i < |cs| && cs[i].indicator == OnlineCharging
  }

  predicate HasOffline(cs: seq<UsedUnitContainer>)
  {
    exists i :: 0 <= i < |cs| && cs[i].indicator == OfflineCharging
  }

  function CountOffline(cs: seq<UsedUnitContainer>): nat
    decreases |cs|
  {
    if cs == [] then 0
    else CountOffline(cs[..|cs| - 1]) + (if cs[|cs| - 1].indicator == OfflineCharging then 1 else 0)
  }

  /** Sum of the online containers' volumes, each as `uint32`. */
  function OnlineVolume(cs: seq<UsedUnitContainer>): nat
    decreases |cs|
  {
    if cs == [] then 0
    else OnlineVolume(cs[..|cs| - 1]) + (if cs[|cs| - 1].indicator == OnlineCharging then ToUInt32(cs[|cs| - 1].totalVolume) else 0)
  }

  lemma LastSplitsExists(cs: seq<UsedUnitContainer>)
    requires cs != []
    ensures HasOnline(cs) == (HasOnline(cs[..|cs| - 1]) || cs[|cs| - 1].indicator == OnlineCharging)
    ensures HasOffline(cs) == (HasOffline(cs[..|cs| - 1]) || cs[|cs| - 1].indicator == OfflineCharging)
  {
    var init := cs[..|cs| - 1];
    if HasOnline(cs) && cs[|cs| - 1].indicator != OnlineCharging {
      var i :| 0 <= i < |cs| && cs[i].indicator == OnlineCharging;
      assert init[i].indicator == OnlineCharging;
    }
    if HasOnline(init) {
      var i :| 0 <= i < |init| && init[i].indicator == OnlineCharging;
      assert cs[i].indicator == OnlineCharging;
    }
    if HasOffline(cs) && cs[|cs| - 1].indicator != OfflineCharging {
      var i :| 0 <= i < |cs| && cs[i].indicator == OfflineCharging;
      assert init[i].indicator == OfflineCharging;
    }
    if HasOffline(init) {
      var i :| 0 <= i < |init| && init[i].indicator == OfflineCharging;
      assert cs[i].indicator == OfflineCharging;
    }
  }

  /** Offline containers each add one QUOTA_THRESHOLD/IMMEDIATE trigger and
      set the volume threshold to 30000000; credit control is required
      exactly when an online container was seen; the consumed units are the
      `uint32` sum of the online volumes. */
  lemma {:induction false} ScanContainersAccumulates(cs: seq<UsedUnitContainer>, reqTriggers: seq<Trigger>, rg: Int32, s0: ContainerScan)
    ensures var r := ScanContainers(cs, reqTriggers, rg, s0);
      && r.creditControl == (s0.creditControl || HasOnline(cs))
      && |r.triggers| == |s0.triggers| + CountOffline(cs)
      && r.triggers[..|s0.triggers|] == s0.triggers
      && (forall i :: |s0.triggers| <= i < |r.triggers| ==> r.triggers[i] == ImmediateTrigger(QuotaThreshold))
      && r.volumeQuotaThreshold == (if HasOffline(cs) then OFFLINE_VOLUME_THRESHOLD else s0.volumeQuotaThreshold)
      && r.totalUsedUnit == ToUInt32(s0.totalUsedUnit + OnlineVolume(cs))
    decreases |cs|
  {
    if cs != [] {
      var init := cs[..|cs| - 1];
      var c := cs[|cs| - 1];
      ScanContainersAccumulates(init, reqTriggers, rg, s0);
      LastSplitsExists(cs);
      var prev := ScanContainers(init, reqTriggers, rg, s0);
      if c.indicator == OnlineCharging {
        ToUInt32OfSum(s0.totalUsedUnit + OnlineVolume(init), ToUInt32(c.totalVolume));
      }
    } else {
      assert s0.totalUsedUnit + OnlineVolume(cs) == s0.totalUsedUnit;
    }
  }

  /** After the container loop, the partial mark and rg's mode reflect the
      trigger scan exactly when some container was online. */
  lemma {:induction false} ScanContainersMode(cs: seq<UsedUnitContainer>, reqTriggers: seq<Trigger>, rg: Int32, s0: ContainerScan)
    ensures var r := ScanContainers(cs, reqTriggers, rg, s0);
      && r.partial == (if HasOnline(cs) && reqTriggers != [] then reqTriggers[|reqTriggers| - 1].triggerType != Final else s0.partial)
      && r.ratingType == (if HasOnline(cs) && HasFinal(reqTriggers) then s0.ratingType[rg := Debit] else s0.ratingType)
    decreases |cs|
  {
    if cs != [] {
      var init := cs[..|cs| - 1];
      var c := cs[|cs| - 1];
      ScanContainersMode(init, reqTriggers, rg, s0);
      LastSplitsExists(cs);
      var prev := ScanContainers(init, reqTriggers, rg, s0);
      if c.indicator == OnlineCharging {
        ScanTriggersEffect(reqTriggers, rg, prev.ratingType, prev.partial);
      }
    }
  }

  // ---------------------------------------------------------------------
  // One rating group
  // ---------------------------------------------------------------------

  /** The outcome of one pass of the loop over usage reports: the new state,
      the entry appended to the response (none when the pass ended early),
      the partial mark, and the account-debit requests sent. */
  datatype StepResult = StepResult(
    st: UeState,
    info: Option<MultipleUnitInformation>,
    partial: bool,
    debits: seq<DebitRequest>)

  /** A rating group seen for the first time is appended and put in RESERVE. */
  function Register(st: UeState, rg: Int32): UeState
  {
    if rg in st.ratingGroups then st
    else st.(ratingGroups := st.ratingGroups + [rg], ratingType := st.ratingType[rg := Reserve])
  }

  function InitialScan(rt: map<Int32, SubType>, partial: bool): ContainerScan
  {
    ContainerScan([], 0, false, 0, rt, partial)
  }

  function ScanUsage(st: UeState, u: MultipleUnitUsage, reqTriggers: seq<Trigger>, partial: bool): ContainerScan
  {
    ScanContainers(u.usedUnitContainers, reqTriggers, u.ratingGroup, InitialScan(Register(st, u.ratingGroup).ratingType, partial))
  }

  /** The state once the group is registered and its containers scanned. */
  function ScannedState(st: UeState, rg: Int32, scan: ContainerScan): UeState
  {
    Register(st, rg).(ratingType := scan.ratingType)
  }

  /** The group's account request counter goes up by one. */
  function CountRequest(st: UeState, rg: Int32): UeState
  {
    st.(acctRequestNum := st.acctRequestNum[rg := CounterOf(st, rg) + 1])
  }

  /** The end of a completed pass: the entry is appended and the group's
      request counter goes up by one. */
  function Completed(st: UeState, rg: Int32, info: MultipleUnitInformation, partial: bool, debits: seq<DebitRequest>): StepResult
  {
    StepResult(CountRequest(st, rg), Some(info), partial, debits)
  }

  /** A pass that ends early (`continue`): what it changed so far stays. */
  function Skipped(st: UeState, partial: bool, debits: seq<DebitRequest>): StepResult
  {
    StepResult(st, None, partial, debits)
  }

  function RefillRequest(counter: nat, rg: Int32, octets: UInt64): DebitRequest
  {
    DebitRequest(ToUInt32(counter), UpdateRequest, DirectDebiting, ToUInt32(rg), Some(octets), None)
  }

  function AllowanceQuery(rg: Int32, requestedQuota: UInt32): RatingRequest
  {
    RatingRequest(ToUInt32(rg), Reserve, requestedQuota, 0)
  }

  function PriceQuery(rg: Int32, consumed: UInt32): RatingRequest
  {
    RatingRequest(ToUInt32(rg), Debit, 0, consumed)
  }

  /** The process of one usage report: registration, container scan, then
      the RESERVE or DEBIT path when online charging is required. */
  function ChargeGroup(st: UeState, cfg: UeConfig, peers: Peers, reqTriggers: seq<Trigger>,
                       idx: nat, u: MultipleUnitUsage, partial: bool): (r: StepResult)
  {
    var rg := u.ratingGroup;
    var scan := ScanUsage(st, u, reqTriggers, partial);
    var st1 := ScannedState(st, rg, scan);
    if !scan.creditControl then Skipped(st1, scan.partial, [])
    else
      var info := MultipleUnitInformation(u.upfId, rg, NoFinalUnitAction, scan.triggers, scan.volumeQuotaThreshold, None, 0);
      ChargeInMode(st1, cfg, peers, idx, u, scan.totalUsedUnit, info, scan.partial)
  }

  /** A pass sends at most one account request, for its report's rating
      group, and its entry, if any, answers for that group and that UPF.
      Stated apart from `ChargeGroup` so that the loop over the reports does
      not carry it at every step. */
  lemma ChargeGroupSends(st: UeState, cfg: UeConfig, peers: Peers, reqTriggers: seq<Trigger>,
                         idx: nat, u: MultipleUnitUsage, partial: bool)
    ensures var r := ChargeGroup(st, cfg, peers, reqTriggers, idx, u, partial);
      && |r.debits| <= 1
      && (forall d :: d in r.debits ==> d.ratingGroup == ToUInt32(u.ratingGroup))
      && (r.info.Some? ==> r.info.value.ratingGroup == u.ratingGroup && r.info.value.upfId == u.upfId)
  {
  }

  /** The switch on the group's mode; a mode that was never set matches no
      case, and the pass completes without a peer call. */
  function ChargeInMode(st: UeState, cfg: UeConfig, peers: Peers, idx: nat, u: MultipleUnitUsage,
                        totalUsedUnit: UInt32, info: MultipleUnitInformation, partial: bool): (r: StepResult)
    ensures |r.debits| <= 1
    ensures forall d :: d in r.debits ==> d.ratingGroup == ToUInt32(u.ratingGroup)
    ensures r.info.Some? ==> r.info.value.ratingGroup == info.ratingGroup && r.info.value.upfId == info.upfId
  {
    match ModeOf(st, u.ratingGroup)
    case Reserve => ReserveCharge(st, cfg, peers, idx, u, totalUsedUnit, info, partial)
    case Debit => DebitCharge(st, peers, u.ratingGroup, totalUsedUnit, info, partial)
    case Unset => Completed(st, u.ratingGroup, info, partial, [])
  }

  /** The reservation left once totalUsedUnit units at the given cost are
      taken off: the product is taken as `uint32`, the difference as `int64`. */
  function RemainingQuota(st: UeState, rg: Int32, totalUsedUnit: UInt32, cost: UInt32): Int64
  {
    ToInt64(ReservedOf(st, rg) - MulUInt32(totalUsedUnit, cost))
  }

  /** The quota the report asks for, priced at the given cost, as `uint32`. */
  function RequestedQuota(u: MultipleUnitUsage, cost: UInt32): UInt32
  {
    MulUInt32(ToUInt32(u.requestedVolume), cost)
  }

  /** The refill asked for: the deficit plus the requested quota, as `uint64`. */
  function RefillOctets(remaining: Int64, requestedQuota: UInt32): UInt64
  {
    ToUInt64(-(remaining as int) + requestedQuota)
  }

  /** The state once the consumed units are priced: the group's unit cost
      is recorded and the units are taken off its reservation. */
  function Priced(st: UeState, rg: Int32, totalUsedUnit: UInt32, cost: UInt32): UeState
  {
    st.(unitCost := st.unitCost[rg := cost], reservedQuota := st.reservedQuota[rg := RemainingQuota(st, rg, totalUsedUnit, cost)])
  }

  /** RESERVE mode: price the consumed units, take them off the reservation
      and, when it is exhausted, ask the account peer for a refill. */
  function ReserveCharge(st: UeState, cfg: UeConfig, peers: Peers, idx: nat, u: MultipleUnitUsage,
                         totalUsedUnit: UInt32, info: MultipleUnitInformation, partial: bool): (r: StepResult)
    ensures |r.debits| <= 1 && r.partial == partial
    ensures forall d :: d in r.debits ==>
      d.ratingGroup == ToUInt32(u.ratingGroup) && d.requestType == UpdateRequest && d.action == DirectDebiting
    ensures r.info.Some? ==> r.info.value.ratingGroup == info.ratingGroup && r.info.value.upfId == info.upfId
  {
    var rg := u.ratingGroup;
    var cost := GetUnitCost(peers.rating, rg, true);
    var requestedQuota := RequestedQuota(u, cost);
    var remaining := RemainingQuota(st, rg, totalUsedUnit, cost);
    var st1 := Priced(st, rg, totalUsedUnit, cost);
    if remaining > 0 then GrantUnits(st1, cfg, peers, idx, u, requestedQuota, info, partial, [])
    else RequestRefill(st1, cfg, peers, idx, u, requestedQuota, RefillRequest(CounterOf(st, rg), rg, RefillOctets(remaining, requestedQuota)), info, partial)
  }

  /** RESERVE mode, exhausted reservation: the account peer grants octets
      that are added to the reservation; a TERMINATE final-unit action puts
      the group in DEBIT and marks the entry. */
  function RequestRefill(st: UeState, cfg: UeConfig, peers: Peers, idx: nat, u: MultipleUnitUsage,
                         requestedQuota: UInt32, refill: DebitRequest, info: MultipleUnitInformation, partial: bool): (r: StepResult)
    ensures r.debits == [refill] && r.partial == partial
    ensures r.info.Some? ==> peers.account(refill).Some?
    ensures r.info.Some? ==> r.info.value.ratingGroup == info.ratingGroup && r.info.value.upfId == info.upfId
  {
    match peers.account(refill)
    case None => Skipped(st, partial, [refill])
    case Some(answer) =>
      GrantUnits(Refilled(st, u.ratingGroup, answer), cfg, peers, idx, u, requestedQuota, RefillEntry(info, answer), partial, [refill])
  }

  /** The state after a refill answer: the granted octets, as `int64`, added
      to rg's reservation, and rg in DEBIT on a TERMINATE final-unit action. */
  function Refilled(st: UeState, rg: Int32, answer: DebitAnswer): UeState
  {
    var reserved := ToInt64(ReservedOf(st, rg) + ToInt64(answer.grantedOctets));
    if answer.finalUnitAction == Some(TerminateAction) then
      st.(reservedQuota := st.reservedQuota[rg := reserved], ratingType := st.ratingType[rg := Debit])
    else
      st.(reservedQuota := st.reservedQuota[rg := reserved])
  }

  /** The entry after a refill answer: marked TERMINATE on a TERMINATE
      final-unit action. */
  function RefillEntry(info: MultipleUnitInformation, answer: DebitAnswer): MultipleUnitInformation
  {
    if answer.finalUnitAction == Some(TerminateAction) then info.(finalUnitAction := Terminate) else info
  }

  /** RESERVE mode, second half: ask the rating peer how many units may be
      granted and compose the entry's triggers. */
  function GrantUnits(st: UeState, cfg: UeConfig, peers: Peers, idx: nat, u: MultipleUnitUsage,
                      requestedQuota: UInt32, info: MultipleUnitInformation, partial: bool,
                      debits: seq<DebitRequest>): (r: StepResult)
    ensures r.debits == debits && r.partial == partial
    ensures r.info.Some? <==> peers.rating(AllowanceQuery(u.ratingGroup, requestedQuota)).Some?
    ensures r.info.Some? ==> r.info.value.ratingGroup == info.ratingGroup && r.info.value.upfId == info.upfId
  {
    var rg := u.ratingGroup;
    match peers.rating(AllowanceQuery(rg, requestedQuota))
    case None => Skipped(st, partial, debits)
    case Some(allowance) =>
      var st1 := st.(unitCost := st.unitCost[rg := GetUnitCost(peers.requote, rg, true)]);
      var granted := GrantedUnits(allowance.allowedUnits, u.requestedVolume);
      var stillReserve := ModeOf(st1, rg) == Reserve;
      var g := ToInt32(granted);
      Completed(st1, rg,
                info.(triggers := info.triggers + GrantTriggers(stillReserve, cfg, idx),
                      volumeQuotaThreshold := if stillReserve then cfg.volumeThreshold(granted) else info.volumeQuotaThreshold,
                      grantedUnit := Some(GrantedUnit(g, g, g)),
                      validityTime := if cfg.quotaValidityTime != 0 then cfg.quotaValidityTime else info.validityTime),
                partial, debits)
  }

  /** The units granted: the smaller of what the rating peer allows and what
      was requested (as `uint32`), hence never more than either. */
  function GrantedUnits(allowed: UInt32, requestedVolume: Int32): (n: UInt32)
    ensures n <= allowed && n <= ToUInt32(requestedVolume)
    ensures n == allowed || n == ToUInt32(requestedVolume)
  {
    Min(allowed, ToUInt32(requestedVolume))
  }

  /** The triggers a RESERVE grant appends to the entry, in order. */
  function GrantTriggers(reserve: bool, cfg: UeConfig, idx: nat): seq<Trigger>
  {
    (if reserve then [ImmediateTrigger(QuotaThreshold)] else [])
    + [ImmediateTrigger(QuotaExhausted)]
    + (if cfg.volumeLimit != 0 then [Trigger(VolumeLimit, DeferredReport, cfg.volumeLimit)] else [])
    + (if cfg.volumeLimitPdu != 0 && idx == 0 then [Trigger(VolumeLimit, ImmediateReport, cfg.volumeLimitPdu)] else [])
    + (if cfg.quotaValidityTime != 0 then [ImmediateTrigger(ValidityTime)] else [])
  }

  /** The grant's triggers: QUOTA_THRESHOLD exactly when the group is still
      in RESERVE, QUOTA_EXHAUSTED always, the deferred VOLUME_LIMIT exactly
      when a volume limit is configured, the immediate PDU-session
      VOLUME_LIMIT exactly when one is configured and this is the first usage
      report, VALIDITY_TIME exactly when a validity time is configured, and
      nothing else. */
  lemma GrantTriggersContents(reserve: bool, cfg: UeConfig, idx: nat)
    ensures var ts := GrantTriggers(reserve, cfg, idx);
      && (ImmediateTrigger(QuotaThreshold) in ts <==> reserve)
      && ImmediateTrigger(QuotaExhausted) in ts
      && (Trigger(VolumeLimit, DeferredReport, cfg.volumeLimit) in ts <==> cfg.volumeLimit != 0)
      && (Trigger(VolumeLimit, ImmediateReport, cfg.volumeLimitPdu) in ts <==> cfg.volumeLimitPdu != 0 && idx == 0)
      && (ImmediateTrigger(ValidityTime) in ts <==> cfg.quotaValidityTime != 0)
      && (forall t :: t in ts ==> t.triggerType in {QuotaThreshold, QuotaExhausted, VolumeLimit, ValidityTime})
  {
    var qt := if reserve then [ImmediateTrigger(QuotaThreshold)] else [];
    var qe := [ImmediateTrigger(QuotaExhausted)];
    var vl := if cfg.volumeLimit != 0 then [Trigger(VolumeLimit, DeferredReport, cfg.volumeLimit)] else [];
    var pdu := if cfg.volumeLimitPdu != 0 && idx == 0 then [Trigger(VolumeLimit, ImmediateReport, cfg.volumeLimitPdu)] else [];
    var vt := if cfg.quotaValidityTime != 0 then [ImmediateTrigger(ValidityTime)] else [];
    var ts := qt + qe + vl + pdu + vt;
    assert ts == GrantTriggers(reserve, cfg, idx);
    forall t | t in ts
      ensures t in qt || t in qe || t in vl || t in pdu || t in vt
    {
    }
  }

  /** DEBIT mode: ask the rating peer for the final price and settle the
      difference with the reservation. */
  function DebitCharge(st: UeState, peers: Peers, rg: Int32, totalUsedUnit: UInt32,
                       info: MultipleUnitInformation, partial: bool): (r: StepResult)
    ensures |r.debits| <= 1 && r.partial == partial
    ensures forall d :: d in r.debits ==> d.ratingGroup == ToUInt32(rg) && d.requestType != UpdateRequest
    ensures r.info.Some? ==> r.info.value.ratingGroup == info.ratingGroup && r.info.value.upfId == info.upfId
    ensures r.info.Some? ==> r.info.value.grantedUnit == Some(GrantedUnit(0, 0, 0))
  {
    match peers.rating(PriceQuery(rg, totalUsedUnit))
    case None => Skipped(st, partial, [])
    case Some(pricing) =>
      var reserved := ReservedOf(st, rg);
      var price := pricing.price;
      if price < reserved then
        var refund := DebitRequest(ToUInt32(CounterOf(st, rg)), NoRequestType, RefundAccount, ToUInt32(rg), Some(reserved - price), None);
        Settle(st.(ratingType := st.ratingType[rg := Reserve]), peers, rg, refund, info, partial)
      else
        var extra := ToInt64(price - reserved);
        var debit := DebitRequest(ToUInt32(CounterOf(st, rg)), TerminationRequest, DirectDebiting, ToUInt32(rg), None, Some(ToUInt64(extra)));
        Settle(st, peers, rg, debit, info, partial)
  }

  /** The settlement request sent to the account peer; only its answer
      decides whether the pass completes. */
  function Settle(st: UeState, peers: Peers, rg: Int32, request: DebitRequest,
                  info: MultipleUnitInformation, partial: bool): (r: StepResult)
    ensures r.debits == [request] && r.partial == partial
    ensures r.info.Some? <==> peers.account(request).Some?
    ensures r.info.Some? ==> r.info.value.ratingGroup == info.ratingGroup && r.info.value.upfId == info.upfId
  {
    match peers.account(request)
    case None => Skipped(st, partial, [request])
    case Some(_) =>
      Completed(st.(reservedQuota := st.reservedQuota[rg := 0]), rg,
                info.(triggers := info.triggers + [ImmediateTrigger(QuotaExhausted)], grantedUnit := Some(GrantedUnit(0, 0, 0))),
                partial, [request])
  }

  // ---------------------------------------------------------------------
  // The whole request
  // ---------------------------------------------------------------------

  /** What the loop over usage reports leaves: the state, the response
      entries, the partial mark and every account request sent, in order. */
  datatype Reservation = Reservation(st: UeState, infos: seq<MultipleUnitInformation>, partial: bool,
                                     debits: seq<DebitRequest>)

  function Entries(info: Option<MultipleUnitInformation>): seq<MultipleUnitInformation>
  {
    if info.Some? then [info.value] else []
  }

  /** One pass of the loop over usage reports, as a function of the state,
      the report's index, the report and the partial mark so far. */
  type GroupStep = (UeState, nat, MultipleUnitUsage, bool) -> StepResult

  function ChargeStep(cfg: UeConfig, peers: Peers, reqTriggers: seq<Trigger>): GroupStep
  {
    (st: UeState, idx: nat, u: MultipleUnitUsage, partial: bool) => ChargeGroup(st, cfg, peers, reqTriggers, idx, u, partial)
  }

  /** The loop over the first n reports, in order, each pass starting from
      the state and partial mark the previous one left and appending its
      entry, if any, to the response and its account requests to those
      sent. */
  function RunReports(st: UeState, usages: seq<MultipleUnitUsage>, step: GroupStep, n: nat): Reservation
    requires n <= |usages|
  {
    if n == 0 then Reservation(st, [], false, [])
    else
      var prev := RunReports(st, usages, step, n - 1);
      var r := step(prev.st, n - 1, usages[n - 1], prev.partial);
      Reservation(r.st, prev.infos + Entries(r.info), r.partial, prev.debits + r.debits)
  }

  /** The loop one report further: what the pass over report i leaves,
      appended to what the first i reports left. */
  lemma ChargeGroupsNext(st: UeState, cfg: UeConfig, peers: Peers, req: ChargingDataRequest, i: nat)
    requires i < |req.multipleUnitUsage|
    ensures var prev := ChargeGroups(st, cfg, peers, req, i);
      var r := ChargeGroup(prev.st, cfg, peers, req.triggers, i, req.multipleUnitUsage[i], prev.partial);
      ChargeGroups(st, cfg, peers, req, i + 1) == Reservation(r.st, prev.infos + Entries(r.info), r.partial, prev.debits + r.debits)
  {
    var prev := ChargeGroups(st, cfg, peers, req, i);
    assert ChargeStep(cfg, peers, req.triggers)(prev.st, i, req.multipleUnitUsage[i], prev.partial)
        == ChargeGroup(prev.st, cfg, peers, req.triggers, i, req.multipleUnitUsage[i], prev.partial);
  }

  /** The first n usage reports of the request, in order. */
  function ChargeGroups(st: UeState, cfg: UeConfig, peers: Peers, req: ChargingDataRequest, n: nat): Reservation
    requires n <= |req.multipleUnitUsage|
  {
    RunReports(st, req.multipleUnitUsage, ChargeStep(cfg, peers, req.triggers), n)
  }

  /** A pass sends at most one account request, for its report's rating group. */
  ghost predicate SendsForReport(step: GroupStep)
  {
    forall s: UeState, i: nat, u: MultipleUnitUsage, p: bool ::
      && |step(s, i, u, p).debits| <= 1
      && forall d :: d in step(s, i, u, p).debits ==> d.ratingGroup == ToUInt32(u.ratingGroup)
  }

  /** Over the first n reports, at most one account request is sent per
      report, each for the rating group of one of those reports. */
  lemma {:induction false} RunReportsSent(st: UeState, usages: seq<MultipleUnitUsage>, step: GroupStep, n: nat)
    requires n <= |usages|
    requires SendsForReport(step)
    ensures var debits := RunReports(st, usages, step, n).debits;
      && |debits| <= n
      && forall d :: d in debits ==> exists k :: 0 <= k < n && d.ratingGroup == ToUInt32(usages[k].ratingGroup)
  {
    if n > 0 {
      RunReportsSent(st, usages, step, n - 1);
      var prev := RunReports(st, usages, step, n - 1);
      var r := step(prev.st, n - 1, usages[n - 1], prev.partial);
      forall d | d in prev.debits + r.debits
        ensures exists k :: 0 <= k < n && d.ratingGroup == ToUInt32(usages[k].ratingGroup)
      {
        if d in r.debits {
          assert d.ratingGroup == ToUInt32(usages[n - 1].ratingGroup);
        }
      }
    }
  }

  /** The reservation engine's pass sends at most one account request, for
      its report's rating group. */
  lemma ChargeStepSends(cfg: UeConfig, peers: Peers, reqTriggers: seq<Trigger>)
    ensures SendsForReport(ChargeStep(cfg, peers, reqTriggers))
  {
    var step := ChargeStep(cfg, peers, reqTriggers);
    forall s: UeState, i: nat, u: MultipleUnitUsage, p: bool
      ensures |step(s, i, u, p).debits| <= 1
      ensures forall d :: d in step(s, i, u, p).debits ==> d.ratingGroup == ToUInt32(u.ratingGroup)
    {
      assert step(s, i, u, p) == ChargeGroup(s, cfg, peers, reqTriggers, i, u, p);
      ChargeGroupSends(s, cfg, peers, reqTriggers, i, u, p);
    }
  }

  /** The whole request: every usage report in order. At most one account
      request is sent per report, each for a reported rating group. */
  function ReservationOutcome(st: UeState, cfg: UeConfig, peers: Peers, req: ChargingDataRequest): (r: Reservation)
    ensures |r.debits| <= |req.multipleUnitUsage|
    ensures forall d :: d in r.debits ==>
      exists k :: 0 <= k < |req.multipleUnitUsage| && d.ratingGroup == ToUInt32(req.multipleUnitUsage[k].ratingGroup)
  {
    ChargeStepSends(cfg, peers, req.triggers);
    RunReportsSent(st, req.multipleUnitUsage, ChargeStep(cfg, peers, req.triggers), |req.multipleUnitUsage|);
    ChargeGroups(st, cfg, peers, req, |req.multipleUnitUsage|)
  }

  /** The recharge notification's effect: rg back to RESERVE, every other
      group's mode and every other map as they were. */
  function Recharge(st: UeState, rg: Int32): (r: UeState)
    ensures ModeOf(r, rg) == Reserve
    ensures forall g :: g != rg ==> ModeOf(r, g) == ModeOf(st, g)
    ensures r.ratingGroups == st.ratingGroups && r.reservedQuota == st.reservedQuota
    ensures r.unitCost == st.unitCost && r.acctRequestNum == st.acctRequestNum
  {
    st.(ratingType := st.ratingType[rg := Reserve])
  }
}
