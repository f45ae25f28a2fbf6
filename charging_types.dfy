/** The values the charging function exchanges: the converged-charging request
    and response elements, the requests and answers of the rating and account
    peers, and a snapshot of one subscriber's per-rating-group state.
    Every enumeration lists the Go zero value first (`NoIndicator`, `Unset`,
    ...), because a field or map entry that was never written reads as it. */
module ChargingTypes {
  import opened MachineInts

  datatype Option<T> = None | Some(value: T)

  /** Request-Sub-Type of a rating group (section 6.2.2 of 3GPP TS 32.296):
      `Unset` is what a missing `RatingType` entry reads as. */
  datatype SubType = Unset | Reserve | Debit

  datatype TriggerType =
    | NoTriggerType
    | QuotaThreshold
    | QuotaExhausted
    | VolumeLimit
    | ValidityTime
    | Final
    | MaxNumberOfChangesInChargingConditions
    | ManagementIntervention
    | OtherTriggerType

  datatype TriggerCategory = NoCategory | ImmediateReport | DeferredReport

  datatype Trigger = Trigger(triggerType: TriggerType, category: TriggerCategory, volumeLimit: Int32)

  function ImmediateTrigger(t: TriggerType): Trigger
  {
    Trigger(t, ImmediateReport, 0)
  }

  datatype QuotaManagementIndicator =
    | NoIndicator
    | OfflineCharging
    | OnlineCharging
    | QuotaManagementSuspended

  datatype UsedUnitContainer = UsedUnitContainer(indicator: QuotaManagementIndicator, totalVolume: Int32)

  /** One rating group's usage report in a request. */
  datatype MultipleUnitUsage = MultipleUnitUsage(
    ratingGroup: Int32,
    upfId: string,
    usedUnitContainers: seq<UsedUnitContainer>,
    requestedVolume: Int32)

  datatype ChargingDataRequest = ChargingDataRequest(
    subscriberIdentifier: string,
    nfConsumerName: string,
    oneTimeEvent: bool,
    notifyUri: string,
    invocationSequenceNumber: UInt32,
    triggers: seq<Trigger>,
    multipleUnitUsage: seq<MultipleUnitUsage>)

  datatype FinalUnitAction = NoFinalUnitAction | Terminate

  datatype GrantedUnit = GrantedUnit(totalVolume: Int32, downlinkVolume: Int32, uplinkVolume: Int32)

  /** One rating group's entry in the response. */
  datatype MultipleUnitInformation = MultipleUnitInformation(
    upfId: string,
    ratingGroup: Int32,
    finalUnitAction: FinalUnitAction,
    triggers: seq<Trigger>,
    volumeQuotaThreshold: Int32,
    grantedUnit: Option<GrantedUnit>,
    validityTime: Int32)

  datatype ChargingDataResponse = ChargingDataResponse(
    invocationSequenceNumber: UInt32,
    multipleUnitInformation: seq<MultipleUnitInformation>)

  datatype ProblemDetails = ProblemDetails(status: int, cause: string)

  /** Service-usage request to the rating peer (only the service-rating part
      carries logic). */
  datatype RatingRequest = RatingRequest(
    serviceIdentifier: UInt32,
    requestSubType: SubType,
    monetaryQuota: UInt32,
    consumedUnits: UInt32)

  /** The parts of a rating answer the engine reads: the unit cost
      (mantissa and power-of-ten exponent), the allowed units and the price. */
  datatype RatingAnswer = RatingAnswer(
    valueDigits: Int64,
    exponent: Exponent,
    allowedUnits: UInt32,
    price: UInt32)

  datatype CcRequestType = NoRequestType | UpdateRequest | TerminationRequest

  datatype RequestedAction = NoRequestedAction | DirectDebiting | RefundAccount

  /** Account-debit request to the account peer. */
  datatype DebitRequest = DebitRequest(
    ccRequestNumber: UInt32,
    requestType: CcRequestType,
    action: RequestedAction,
    ratingGroup: UInt32,
    requestedOctets: Option<UInt64>,
    usedOctets: Option<UInt64>)

  datatype AccountFinalUnitAction = TerminateAction | RedirectAction | RestrictAccessAction

  datatype DebitAnswer = DebitAnswer(grantedOctets: UInt64, finalUnitAction: Option<AccountFinalUnitAction>)

  /** The peers as oracles: `None` is a failed call. A RESERVE pass asks the
      rating peer for the tariff twice with the same request; the second
      answer, which may differ from the first or fail, is `requote`'s. */
  datatype Peers = Peers(
    rating: RatingRequest -> Option<RatingAnswer>,
    requote: RatingRequest -> Option<RatingAnswer>,
    account: DebitRequest -> Option<DebitAnswer>)

  /** What happened to a charging data record, in order. The record's own
      fields are filled by `OpenCDR`, `UpdateCDR` and `CloseCDR`, whose code
      is not part of this model; a record is modelled by its session id and
      the history of those operations. */
  datatype CdrEvent = Opened(partial: bool) | Updated(invocationSequenceNumber: UInt32) | Closed(partial: bool)

  datatype Cdr = Cdr(sessionId: string, events: seq<CdrEvent>)

  /** The per-rating-group maps of one subscriber, as the engine reads and writes them. */
  datatype UeState = UeState(
    ratingGroups: seq<Int32>,
    ratingType: map<Int32, SubType>,
    reservedQuota: map<Int32, Int64>,
    unitCost: map<Int32, UInt32>,
    acctRequestNum: map<Int32, nat>)

  /** The subscriber's policy values; `volumeThreshold(g)` stands for
      `int32(float32(g) * VolumeThresholdRate)`. */
  datatype UeConfig = UeConfig(
    volumeLimit: Int32,
    volumeLimitPdu: Int32,
    quotaValidityTime: Int32,
    volumeThreshold: UInt32 -> Int32)

  // Reads of the per-group maps: a missing key reads as Go's zero value.

  function ModeOf(st: UeState, rg: Int32): SubType
  {
    if rg in st.ratingType then st.ratingType[rg] else Unset
  }

  function ReservedOf(st: UeState, rg: Int32): Int64
  {
    if rg in st.reservedQuota then st.reservedQuota[rg] else 0
  }

  function CostOf(st: UeState, rg: Int32): UInt32
  {
    if rg in st.unitCost then st.unitCost[rg] else 0
  }

  function CounterOf(st: UeState, rg: Int32): nat
  {
    if rg in st.acctRequestNum then st.acctRequestNum[rg] else 0
  }
}
