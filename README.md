# Converged charging: quota engine and charging-data lifecycle

This project models the online-charging core of a 5G Converged Charging
Function (CHF), the processor of the converged charging service in
`internal/sbi/processor/converged_charging.go`, and proves properties of
that model.

- **The quota reservation engine** is `sessionChargingReservation`. For one
  charging-data request, it does the following for each usage report:
  - registers the report's rating group;
  - scans its used-unit containers and the request's triggers;
  - prices and takes the consumed units off the group's reservation (RESERVE
    mode), asking the account peer for a refill when the reservation is
    exhausted;
  - or settles the final price against the reservation (DEBIT mode);
  - answers with the granted units and the triggers the session
    management function must arm.
- **The subscriber** (`ChfUe`) is a class `Ue` whose per-rating-group maps
  the engine updates in place. Each engine method is proved to match a pure
  definition of its own in `ReservationSpec`. `Ue.SessionChargingReservation`
  matches `ReservationOutcome`, `Ue.ChargeUsage` matches `ChargeGroup`,
  `Ue.ReserveUsage` matches `ReserveCharge`, and so on. Each match covers
  the maps the method leaves, the response entries, the partial-record mark
  and the account requests it sends, in order. Every property proved about
  those definitions therefore holds of the imperative engine.
- **The charging-data resource**:
  - `ChargingDataCreate`, `ChargingDataUpdate` and `ChargingDataRelease`
    give the order of the record operations, which failures become a 400,
    and what is stored in the subscriber's record map.
  - `HandleChargingdataInitial`, `HandleChargingdataUpdate` and
    `HandleChargingdataRelease` map each outcome to an HTTP status.
  - For `NotifyRecharge`, only the state effect is modelled.
- **Helpers**: `min` and `getUnitCost`.

Go's fixed-width arithmetic is written out. A product of two `uint32` wraps
modulo 2^32, and the `int64`/`uint64` conversions keep the low bits in two's
complement (module `MachineInts`). The rating peer and the account peer are
functions from request to optional answer; `None` is a failed call. A
RESERVE pass asks the rating peer for the tariff twice with the same
request (lines 542 and 594). The second answer is a separate function,
`requote`, so it may differ from the first or fail. The
record operations (`OpenCDR`, `UpdateCDR`, `CloseCDR`, `dumpCdrFile`,
`cgf.SendCDR`) form a `RecordBackend` whose calls may fail. Each operation
returns the trace of the calls it made. A record is its session id plus the
history of those calls on it.

Modules, in dependency order:
- `MachineInts`: integer widths, `min`, powers of ten, `strconv.Itoa`.
- `ChargingTypes`: the data model.
- `ReservationSpec`: the pure engine.
- `ReservationProperties`: per-group properties.
- `ReservationRequest`: whole-request properties.
- `ChargingRecords`: ranging over the record map.
- `UeEngine`: the `Ue` class and its imperative engine.
- `ChargingLifecycle`: create, update, release, notify and the handlers.
- `LifecycleProperties`: properties of the lifecycle.

Three behaviours of the code that one might not expect, which the model
follows:
- **Refund puts the group back in RESERVE.** A group leaves DEBIT not only
  through a recharge notification: the code also moves it back
  to RESERVE when a DEBIT settlement refunds the account
  (`converged_charging.go:688`). It does so before the refund is sent, so
  the move stays even when the refund fails.
- **The reservation is zeroed only on success.** After a DEBIT settlement
  the code zeroes the reservation only when the account call succeeds
  (line 708); a failed call leaves it as it was.
- **The last trigger decides the partial-record mark.** Every trigger sets
  the mark and FINAL clears it (lines 495-504), so a FINAL trigger followed
  by another trigger leaves the mark set.

## Model

| member | source | states |
|---|---|---|
| MachineInts.Min | internal/sbi/processor/converged_charging.go:25-30 | the result is at most each argument and equals one of them |
| MachineInts.MulUInt32 | internal/sbi/processor/converged_charging.go:544-545 | a `uint32` product equals the exact product when that fits in 32 bits |
| MachineInts.ToUInt32 | internal/sbi/processor/converged_charging.go:508 | `uint32(x)` is x itself when x is in range |
| MachineInts.ToInt32 | internal/sbi/processor/converged_charging.go:617-619 | `int32(x)` is x itself when x is in range |
| MachineInts.ToUInt64 | internal/sbi/processor/converged_charging.go:550 | `uint64(x)` is x itself when x is in range |
| MachineInts.ToInt64 | internal/sbi/processor/converged_charging.go:546 | `int64(x)` is x itself when x is in range |
| MachineInts.ToInt64OfSum | internal/sbi/processor/converged_charging.go:566 | adding `int64(b)` to an `int64` gives the `int64` of the exact sum, so the refill wraps once |
| MachineInts.ToUInt32OfSum | internal/sbi/processor/converged_charging.go:508 | accumulating the consumed units in a `uint32` gives the `uint32` of the exact total |
| MachineInts.Pow10Truncated | internal/sbi/processor/converged_charging.go:419 | `uint32(math.Pow10(e))` is 0 for a negative exponent and 10^e otherwise |
| MachineInts.NatToString | internal/sbi/processor/converged_charging.go:195 | `strconv.Itoa` of a non-negative number is a string of decimal digits |
| MachineInts.ParseNatToString | internal/sbi/processor/converged_charging.go:195 | the decimal rendering reads back as the same number |
| MachineInts.NatToStringInjective | internal/sbi/processor/converged_charging.go:195 | distinct numbers have distinct renderings |
| ReservationSpec.GetUnitCost | internal/sbi/processor/converged_charging.go:399-420 | the cost is 1 when there is no service-usage request or the rating peer fails, and otherwise the quoted mantissa times 10^exponent in `uint32` |
| ReservationSpec.UnitCostExact | internal/sbi/processor/converged_charging.go:418-419 | a negative exponent gives cost 0; otherwise the cost is the exact product whenever it fits in `uint32` |
| ReservationSpec.ScanTriggersEffect | internal/sbi/processor/converged_charging.go:493-506 | after the trigger loop, the partial mark is "the last trigger is not FINAL" (unchanged when there are no triggers), and the group moves to DEBIT when some trigger is FINAL and keeps its mode otherwise |
| ReservationSpec.ScanContainersAccumulates | internal/sbi/processor/converged_charging.go:478-512 | each offline container appends one QUOTA_THRESHOLD trigger and sets the threshold to 30000000; credit control is on exactly when some container is online; the consumed units are the `uint32` sum of the online volumes |
| ReservationSpec.ScanContainersMode | internal/sbi/processor/converged_charging.go:490-506 | the partial mark and the mode follow the trigger scan exactly when some container is online, and are unchanged otherwise |
| ReservationSpec.GrantedUnits | internal/sbi/processor/converged_charging.go:596 | the grant is the smaller of the allowed units and the requested volume as `uint32`, so it exceeds neither |
| ReservationSpec.GrantTriggersContents | internal/sbi/processor/converged_charging.go:598-654 | QUOTA_THRESHOLD is appended iff the group is still in RESERVE; QUOTA_EXHAUSTED always; the deferred VOLUME_LIMIT iff a volume limit is set; the PDU-session VOLUME_LIMIT iff one is set and this is the first report; VALIDITY_TIME iff a validity time is set; every trigger is of one of those four types |
| ReservationSpec.ChargeGroupsNext | internal/sbi/processor/converged_charging.go:461-725 | the loop over the first i+1 reports is the loop over the first i, then one pass over report i from the state and partial mark it left |
| ReservationSpec.ChargeGroupSends | internal/sbi/processor/converged_charging.go:461-725 | one pass sends at most one account request, for the report's rating group, and its entry, if any, carries the report's group and UPF |
| ReservationSpec.ChargeInMode | internal/sbi/processor/converged_charging.go:538-724 | the mode switch sends at most one account request, for the report's group, and keeps the entry's group and UPF |
| ReservationSpec.ReserveCharge | internal/sbi/processor/converged_charging.go:539-654 | the RESERVE path sends at most one request, an UPDATE request by direct debiting for the report's group, keeps the partial mark and keeps the entry's group and UPF |
| ReservationSpec.RequestRefill | internal/sbi/processor/converged_charging.go:549-579 | exactly the one refill request is sent and the partial mark is kept; the pass goes on only when the account peer answers it |
| ReservationSpec.GrantUnits | internal/sbi/processor/converged_charging.go:581-654 | the grant sends nothing further and keeps the partial mark; it yields an entry iff the rating peer answers the allowance query |
| ReservationSpec.DebitCharge | internal/sbi/processor/converged_charging.go:656-720 | the DEBIT path sends at most one request, for the report's group and never an UPDATE request; an entry it yields grants 0 units in all three volumes |
| ReservationSpec.Settle | internal/sbi/processor/converged_charging.go:703-720 | exactly the one settlement request is sent and the partial mark is kept; the pass yields an entry iff the account peer answers it |
| ReservationSpec.RunReportsSent | internal/sbi/processor/converged_charging.go:461-725 | over the first n reports of any loop whose passes each send at most one request for their own group, at most n requests are sent, each for the group of one of those reports |
| ReservationSpec.ReservationOutcome | internal/sbi/processor/converged_charging.go:423-728 | a request sends at most one account request per usage report, each for the rating group of some report |
| ReservationSpec.Recharge | internal/sbi/processor/converged_charging.go:32-53 | the group is back in RESERVE, every other group keeps its mode, and the registry, reservations, unit costs and counters are unchanged |
| ReservationProperties.ScannedStateFrame | internal/sbi/processor/converged_charging.go:466-512 | registration and the container scan change only the registry and the group's own mode; the mode becomes DEBIT exactly on an online container with a FINAL trigger; credit control is "some container is online" |
| ReservationProperties.ChargeGroupTail | internal/sbi/processor/converged_charging.go:513-724 | after the scan only the group's own entries change; without credit control there is no entry and no account request |
| ReservationProperties.GrantUnitsShape | internal/sbi/processor/converged_charging.go:581-654 | the grant touches only the group's own entries and keeps the partial mark |
| ReservationProperties.RequestRefillShape | internal/sbi/processor/converged_charging.go:549-579 | the refill touches only the group's own entries and keeps the partial mark |
| ReservationProperties.ReserveChargeShape | internal/sbi/processor/converged_charging.go:539-654 | the RESERVE path touches only the group's own entries and keeps the partial mark |
| ReservationProperties.DebitChargeShape | internal/sbi/processor/converged_charging.go:656-720 | the DEBIT path touches only the group's own entries and keeps the partial mark |
| ReservationProperties.SettleShape | internal/sbi/processor/converged_charging.go:703-720 | settling with the account touches only the group's own entries |
| ReservationProperties.ChargeGroupRegistersAndCounts | internal/sbi/processor/converged_charging.go:466-724 | the group is registered, appended when new; a new group without an online container stays in RESERVE; a group without an online container gives no entry and no account request; an entry is produced iff the group's counter goes up by one; the entry carries the report's group and UPF; other groups are unchanged; the registry invariant (no duplicates, every group in RESERVE or DEBIT) is kept |
| ReservationProperties.ChargeGroupTriggerScan | internal/sbi/processor/converged_charging.go:490-579 | the partial mark after a report is recomputed from the triggers iff the report has an online container; a FINAL trigger on an online report puts the group in DEBIT before charging, so no refill request is sent |
| ReservationProperties.GrantUnitsOutcome | internal/sbi/processor/converged_charging.go:581-654 | without an allowance answer the pass ends with the state as it was; otherwise the entry gets the grant's triggers, threshold, granted units in all three volumes and validity time, and only the group's unit cost and counter change |
| ReservationProperties.GrantUnitsFrame | internal/sbi/processor/converged_charging.go:581-654 | the grant leaves the group's reservation, mode, earlier debits and final-unit action alone; the entry's triggers are the earlier ones followed by `GrantTriggers` |
| ReservationProperties.RequestRefillOutcome | internal/sbi/processor/converged_charging.go:549-579 | exactly one refill request is sent; a failed call ends the pass with the state as it was; otherwise the granted octets are added as `int64`, and a TERMINATE answer puts the group in DEBIT, marks the entry TERMINATE and suppresses QUOTA_THRESHOLD |
| ReservationProperties.RequestRefillCost | internal/sbi/processor/converged_charging.go:588-594 | the group's unit cost is the second quote of the same tariff request when the pass completes (the allowance query answered), and it stays as it was before the refill otherwise |
| ReservationProperties.ReserveChargeQuota | internal/sbi/processor/converged_charging.go:539-579 | the consumed units are priced at the first quoted cost and taken off the reservation; a refill of the deficit plus the requested quota is requested iff the remainder is not positive; the mode changes only on a TERMINATE answer; the stored cost is the second quote when the pass completes (the allowance query answered), otherwise the first |
| ReservationProperties.ReserveChargeCovered | internal/sbi/processor/converged_charging.go:542-548 | with a positive remainder no account request is sent and the reservation is the remainder; the stored cost is the second quote when the pass completes (the allowance query answered), otherwise the first |
| ReservationProperties.ReserveChargeRefill | internal/sbi/processor/converged_charging.go:549-579 | with a non-positive remainder the refill is requested; the reservation is the remainder when the call fails and the remainder plus the granted octets otherwise; the stored cost is the second quote when the pass completes (the allowance query answered), otherwise the first |
| ReservationProperties.ReserveArithmeticExact | internal/sbi/processor/converged_charging.go:544-550 | with reservation R, used units N, unit cost C and requested volume Q, and no overflow, the reservation becomes R - N*C and, when that is not positive, the refill asks for -(R - N*C) + Q*C octets |
| ReservationProperties.SettleOutcome | internal/sbi/processor/converged_charging.go:703-720 | a failed account call ends the pass with the state as it was; a successful one zeroes the reservation, counts the request and grants 0 units with QUOTA_EXHAUSTED |
| ReservationProperties.DebitSettlement | internal/sbi/processor/converged_charging.go:656-720 | without a price nothing changes; price below the reservation gives a refund of the difference and a return to RESERVE; otherwise the excess is debited with a TERMINATION request and the mode stays; success zeroes the reservation, failure keeps it; the request carries the group's counter as `uint32` |
| ReservationProperties.ChargeGroupModeTransitions | internal/sbi/processor/converged_charging.go:496-707 | a registered group leaves DEBIT only in a pass that sends exactly one request, a refund; a group enters DEBIT only through a FINAL trigger on an online container or a TERMINATE answer to its one refill request |
| ReservationRequest.RegisterAllPrefix | internal/sbi/processor/converged_charging.go:467-470 | registration only appends: the registry before is a prefix of the registry after |
| ReservationRequest.RegisterAllMembers | internal/sbi/processor/converged_charging.go:467-470 | the registered groups are exactly those registered before plus those reported |
| ReservationRequest.ChargeStepKeepsBooks | internal/sbi/processor/converged_charging.go:461-725 | every pass of the loop keeps the counters, the registry, the registry invariant and the partial mark as the per-group lemmas say |
| ReservationRequest.RunCounters | internal/sbi/processor/converged_charging.go:722-724 | over any run of passes, each group's counter grows by the number of its response entries |
| ReservationRequest.RunPartial | internal/sbi/processor/converged_charging.go:490-506 | over any run of passes, the partial mark depends only on whether some report was online and on the last trigger |
| ReservationRequest.RunRegistry | internal/sbi/processor/converged_charging.go:467-470 | over any run of passes, the registry is the registration of every reported group in turn |
| ReservationRequest.RunConsistent | internal/sbi/processor/converged_charging.go:467-470 | over any run of passes, the registry invariant is kept |
| ReservationRequest.RunEntries | internal/sbi/processor/converged_charging.go:722 | there is at most one response entry per report, and each entry carries the group and UPF of some report |
| ReservationRequest.ReservationCounters | internal/sbi/processor/converged_charging.go:461-725 | after a request, each group's counter has grown by exactly its number of response entries |
| ReservationRequest.ReservationPartial | internal/sbi/processor/converged_charging.go:423-728 | the returned partial-record mark is true iff some report is online, the request has triggers and its last trigger is not FINAL |
| ReservationRequest.ReservationRegistry | internal/sbi/processor/converged_charging.go:461-470 | groups known before stay, in order; the registered groups are those known before plus those reported; the registry invariant is kept |
| ReservationRequest.ReservationEntries | internal/sbi/processor/converged_charging.go:461-476 | the response has at most one entry per report, each with the group and UPF of a report |
| ChargingRecords.RecordValuesRemove | internal/sbi/processor/converged_charging.go:298-300 | for any key, the collected records are that key's record plus the records collected from the rest of the map, so the result does not depend on the order the map is ranged over |
| ChargingRecords.RecordValuesComplete | internal/sbi/processor/converged_charging.go:298-300 | every record of the map is collected, once per key |
| UeEngine.Ue.SessionChargingReservation | internal/sbi/processor/converged_charging.go:423-728 | the in-place loop leaves the subscriber's maps, the response entries, the partial mark and the account requests sent exactly as `ReservationOutcome` defines them |
| UeEngine.Ue.ChargeNext | internal/sbi/processor/converged_charging.go:461-725 | one iteration takes the loop state for i reports, sent requests included, to the state for i+1 reports |
| UeEngine.Ue.ChargeUsage | internal/sbi/processor/converged_charging.go:461-725 | one pass changes the maps and yields the entry, the partial mark and the account requests sent as `ChargeGroup` defines |
| UeEngine.Ue.RegisterGroup | internal/sbi/processor/converged_charging.go:467-470 | a new group is appended to the registry and put in RESERVE; a known group leaves the state unchanged |
| UeEngine.Ue.ScanUsedUnits | internal/sbi/processor/converged_charging.go:478-512 | the container loop computes the triggers, threshold, credit-control flag, consumed units, modes and partial mark of `ScanContainers` |
| UeEngine.Ue.ScanRequestTriggers | internal/sbi/processor/converged_charging.go:493-506 | the trigger loop leaves the modes and partial mark of `ScanTriggers` |
| UeEngine.Ue.ChargeInModeUsage | internal/sbi/processor/converged_charging.go:538-724 | the mode switch and the counter step match `ChargeInMode` |
| UeEngine.Ue.ReserveUsage | internal/sbi/processor/converged_charging.go:539-579 | the RESERVE path matches `ReserveCharge`, account requests included |
| UeEngine.Ue.PriceUsage | internal/sbi/processor/converged_charging.go:542-546 | the quoted cost is stored and the used quota is taken off the reservation, as `Priced` defines |
| UeEngine.Ue.RefillUsage | internal/sbi/processor/converged_charging.go:549-579 | the refill matches `RequestRefill` and sends exactly its one refill request |
| UeEngine.Ue.GrantUsage | internal/sbi/processor/converged_charging.go:581-654 | the grant matches `GrantUnits`, with the triggers appended one by one |
| UeEngine.Ue.DebitUsage | internal/sbi/processor/converged_charging.go:656-720 | the DEBIT path matches `DebitCharge`; no request is sent when the price query fails, otherwise the one settlement request |
| UeEngine.Ue.CollectRecords | internal/sbi/processor/converged_charging.go:298-300 | the collected records are, as a multiset, exactly the records of the map |
| ChargingLifecycle.ChargingDataCreate | internal/sbi/processor/converged_charging.go:167-242 | a failed subscriber creation gives 400 with no call; otherwise the calls, the answer, the stored records and the Location URI are those of `CreateRecords`, the notify URI is stored and the per-group state is untouched |
| ChargingLifecycle.ChargingDataUpdate | internal/sbi/processor/converged_charging.go:244-318 | an unknown subscriber gives 400 with no call; otherwise the engine runs, then the record steps of `UpdateRecords` follow with the engine's entries and partial mark |
| ChargingLifecycle.UpdateSessionRecords | internal/sbi/processor/converged_charging.go:263-317 | the record part of the update matches `UpdateRecords` |
| ChargingLifecycle.DumpAllRecords | internal/sbi/processor/converged_charging.go:298-312 | every record is dumped, and only a successful dump answers with the engine's entries and transfers the records |
| ChargingLifecycle.ChargingDataRelease | internal/sbi/processor/converged_charging.go:321-366 | an unknown subscriber gives 400 with no call; otherwise the engine runs, its answer is dropped, then the record steps of `ReleaseRecords` follow |
| ChargingLifecycle.ReleaseSessionRecords | internal/sbi/processor/converged_charging.go:339-365 | the record part of the release matches `ReleaseRecords` |
| ChargingLifecycle.NotifyRecharge | internal/sbi/processor/converged_charging.go:32-53 | for a found subscriber the group is back in RESERVE and nothing else changes, neither the other groups nor the records nor the notify URI |
| ReservationRequest.RegisterIsRegistered | internal/sbi/processor/converged_charging.go:467-470 | the registry part of registration appends the group iff it is new, and registration changes nothing else but a new group's mode, set to RESERVE |
| UeEngine.Ue.constructor | internal/sbi/processor/converged_charging.go:179 | a new subscriber has an empty registry, empty per-group maps, no notify URI and no records, and the configured limits it is given |
| ChargingLifecycle.CreateSessionId | internal/sbi/processor/converged_charging.go:193-196 | the id is empty iff the event is one-time; otherwise it is the subscriber id and consumer name followed by the decimal digits of the local record sequence number, which read back as that number |
| ChargingLifecycle.CreateRecords | internal/sbi/processor/converged_charging.go:197-242 | creation answers iff no problem is reported; every problem is 400; the first call is the OPEN of the session's record; only that session's record may be added, every other record is kept |
| ChargingLifecycle.UpdateRecords | internal/sbi/processor/converged_charging.go:263-317 | the update answers iff no problem is reported; every problem is 400; the first call is the UPDATE of the session's record; the set of sessions with a record is unchanged |
| ChargingLifecycle.ReleaseRecords | internal/sbi/processor/converged_charging.go:339-365 | the release never answers a body; every problem is 400; the first call is the UPDATE of the session's record; the set of sessions is unchanged and every other session's record is kept |
| ChargingLifecycle.HandleChargingdataInitial | internal/sbi/processor/converged_charging.go:82-112 | a response gives 201 with the Location header and the response as body; otherwise a problem gives its own status with the problem as body; a Location header is sent iff there is a response |
| ChargingLifecycle.HandleChargingdataUpdate | internal/sbi/processor/converged_charging.go:114-143 | a response gives 200 with the response as body; otherwise a problem gives its own status with the problem as body; never a Location header |
| ChargingLifecycle.HandleChargingdataRelease | internal/sbi/processor/converged_charging.go:145-165 | no problem gives 204 with no body, and a problem gives its own status with the problem as body; never a Location header |
| LifecycleProperties.CreateSessionIdDistinct | internal/sbi/processor/converged_charging.go:193-196 | the session id is empty iff the event is one-time; otherwise different local sequence numbers give different ids |
| LifecycleProperties.CreateOutcome | internal/sbi/processor/converged_charging.go:197-242 | creation succeeds iff open, update and (for a one-time event) close succeed; the stored record was opened and updated, and closed iff one-time; CLOSE is called iff one-time and the earlier steps succeeded; other sessions' records are untouched; failures are 400 |
| LifecycleProperties.DumpAllShape | internal/sbi/processor/converged_charging.go:298-312 | the final dump adds one dump of all records and, only on success, the record transfer |
| LifecycleProperties.UpdateCalls | internal/sbi/processor/converged_charging.go:265-295 | the record is closed as partial iff the partial mark is set and the update succeeded; it is reopened iff additionally the closed record was dumped; it is never closed for good |
| LifecycleProperties.UpdateStores | internal/sbi/processor/converged_charging.go:266-295 | every other session's record is kept; the session's record gains an UPDATE event iff `UpdateCDR` succeeds, then a partial CLOSE event iff the partial mark is set and `CloseCDR` succeeds; it is unchanged when the update fails |
| LifecycleProperties.UpdateOutcome | internal/sbi/processor/converged_charging.go:265-317 | the update answers iff no problem is reported; every problem is 400; a success carries the engine's entries after all records were dumped |
| LifecycleProperties.ReleaseOutcome | internal/sbi/processor/converged_charging.go:339-365 | the release never answers a response body; it succeeds iff update, close and dump succeed; the record is then updated and closed for good; CLOSE is called iff the update succeeded, and never as a partial close; failures are 400 |
| LifecycleProperties.LifecycleStatuses | internal/sbi/processor/converged_charging.go:82-165 | creation maps to 201 with a Location header or to 400; update to 200 or 400; release to 204 with no body or to 400; creation and update never reach the 403 fallback |
| LifecycleProperties.HandlerFallbacks | internal/sbi/processor/converged_charging.go:82-165 | neither response nor problem gives 403 with cause UNSPECIFIED, for creation and update alike; a problem is answered with its own status, no Location header and the problem as body, by every handler |

## Left out

- Locking (`CULock`) is left out. Each operation is modelled as running alone on its subscriber.
- The charging notification `SendChargingNotification` sends is left out. It is I/O; `NotifyRecharge` keeps only its state effect.
- Subscriber lookup and creation (`ChfUeFindBySupi`, `NewCHFUe`) are not part of this model. Their result is the `ue: Ue?` parameter, with null for a failed lookup or creation.
- The internals of `OpenCDR`, `UpdateCDR`, `CloseCDR`, `dumpCdrFile` and `cgf.SendCDR` are not part of this model. They are the `RecordBackend` oracle.
  - Their effects on the subscriber and on the local record sequence number are not modelled.
  - A record changes only when its operation succeeds.
  - The record reopened after a partial close is not stored, because the source drops it.
- Timestamps, Diameter session ids, origin host and realm, and the subscriber-identity prefix parsing (lines 437-459, 519-536) are left out. They do not affect quota, mode or answers.
- Within one request the peers answer identical requests identically, except the second tariff query of a RESERVE pass, which is `requote`. Answers that change over time are not modelled otherwise.
- ChargingRecords.RecordValues carries no contract of its own; `RecordValuesComplete` and `RecordValuesRemove` state what it collects.
- ReservationSpec.GetUnitCost: exponents above 9 are excluded by the `Exponent` type. Go's conversion of a float above 2^32 to `uint32` is implementation-defined.
- The volume threshold, `int32(float32(g) * VolumeThresholdRate)`, is an uninterpreted function of the grant. It is a `Ue` constant because floating point is not modelled.
- `AcctRequestNum` is an unbounded `nat`. Its declared width is in a package that is not part of this model.
- The engine always passes a present service-usage request to `getUnitCost`, because the engine builds that request itself (line 529); the absent case is modelled only in `ReservationSpec.GetUnitCost` itself.
- A report without a requested unit (a nil `RequestedUnit`) is not modelled. The source dereferences it and would panic.
- Peer answers are always well-formed in the model: every field of `RatingAnswer` and `DebitAnswer` is present. The source dereferences the answers' nested pointers without nil checks. Examples are `ServiceRating.MonetaryTariff.RateElement.UnitCost` (lines 418-419) and `MultipleServicesCreditControl.GrantedServiceUnit` (line 566). An answer that lacks one of them would panic. Only `FinalUnitIndication` is checked for nil (line 569), and the model's `Option` for it covers that.
- The engine's own failed subscriber lookup (lines 431-435) is not modelled. Every caller has already found the subscriber, so that branch is not reachable from them.
- ChargingLifecycle.ChargingDataUpdate: requires the session's record to exist. The source would pass a nil record to `UpdateCDR`, whose behaviour is outside this model.
- ChargingLifecycle.ChargingDataRelease: requires the session's record to exist, for the same reason.
- `BuildOnlineChargingDataCreateResopone` (lines 368-381) is never called, so it is not modelled. In particular `ChargingDataCreate` does not run the reservation engine.
