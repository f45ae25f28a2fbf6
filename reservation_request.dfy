/** Properties of a whole request: the loop over usage reports processes
    every report in order, each group's counter goes up once per entry it
    contributes, the partial-record mark is decided by the request's last
    trigger, and the registry of rating groups stays consistent.
    They are proved of `RunReports` for any pass that keeps the books
    (`StepCounts`, `StepRegisters`, `StepFollowsTriggers`), and `ChargeStep`
    is shown to be one. */
module ReservationRequest {
  import opened MachineInts
  import opened ChargingTypes
  import opened ReservationSpec
  import opened ReservationProperties

  /** The number of response entries for rating group g. */
  function CountGroup(infos: seq<MultipleUnitInformation>, g: Int32): nat
    decreases |infos|
  {
    if infos == [] then 0
    else CountGroup(infos[..|infos| - 1], g) + (if infos[|infos| - 1].ratingGroup == g then 1 else 0)
  }

  /** Some report among usages has an online container. */
  predicate AnyOnline(usages: seq<MultipleUnitUsage>)
    decreases |usages|
  {
    usages != [] && (AnyOnline(usages[..|usages| - 1]) || HasOnline(usages[|usages| - 1].usedUnitContainers))
  }

  /** The rating groups of a sequence of reports. */
  function Reported(usages: seq<MultipleUnitUsage>): set<Int32>
    decreases |usages|
  {
    if usages == [] then {} else Reported(usages[..|usages| - 1]) + {usages[|usages| - 1].ratingGroup}
  }

  /** The registry after rg was looked up and, when new, appended: the
      registry part of `Register`, on the group list alone, so that the
      request-wide lemmas below need not carry a whole `UeState`. */
  function Registered(groups: seq<Int32>, rg: Int32): seq<Int32>
  {
    if rg in groups then groups else groups + [rg]
  }

  /** `Registered` is what `Register` does to the registry, and `Register`
      changes nothing else but the new group's mode. */
  lemma RegisterIsRegistered(st: UeState, rg: Int32)
    ensures Register(st, rg).ratingGroups == Registered(st.ratingGroups, rg)
    ensures Register(st, rg) == st.(ratingGroups := Registered(st.ratingGroups, rg),
                                    ratingType := if rg in st.ratingGroups then st.ratingType else st.ratingType[rg := Reserve])
  {
  }

  /** The registry after `FindRatingGroup` and the registration of the
      first n reports' groups in turn: a new group is appended. */
  function RegisterAll(groups: seq<Int32>, usages: seq<MultipleUnitUsage>, n: nat): seq<Int32>
    requires n <= |usages|
    decreases n
  {
    if n == 0 then groups else Registered(RegisterAll(groups, usages, n - 1), usages[n - 1].ratingGroup)
  }

  /** Registration only appends: the registry before is a prefix of the
      registry after. */
  lemma {:induction false} RegisterAllPrefix(groups: seq<Int32>, usages: seq<MultipleUnitUsage>, n: nat)
    requires n <= |usages|
    ensures var after := RegisterAll(groups, usages, n);
      |groups| <= |after| && after[..|groups|] == groups
    decreases n
  {
    if n > 0 {
      var before := RegisterAll(groups, usages, n - 1);
      RegisterAllPrefix(groups, usages, n - 1);
      var rg := usages[n - 1].ratingGroup;
      if rg !in before {
        assert (before + [rg])[..|groups|] == before[..|groups|];
      }
    }
  }

  /** The registered groups are exactly the ones registered before and the
      reported ones. */
  lemma {:induction false} RegisterAllMembers(groups: seq<Int32>, usages: seq<MultipleUnitUsage>, n: nat)
    requires n <= |usages|
    ensures forall g :: g in RegisterAll(groups, usages, n) <==> g in groups || g in Reported(usages[..n])
    decreases n
  {
    if n > 0 {
      RegisterAllMembers(groups, usages, n - 1);
      assert usages[..n][..n - 1] == usages[..n - 1];
    }
  }

  lemma {:induction false} CountGroupAppend(infos: seq<MultipleUnitInformation>, e: MultipleUnitInformation, g: Int32)
    ensures CountGroup(infos + [e], g) == CountGroup(infos, g) + (if e.ratingGroup == g then 1 else 0)
  {
    assert (infos + [e])[..|infos|] == infos;
  }

  /** What one pass over report u does to the counters: an entry for the
      report's group and UPF comes out exactly when the group's counter goes
      up by one, and other groups' counters stay. */
  ghost predicate CountsEntries(st: UeState, u: MultipleUnitUsage, r: StepResult)
  {
    var rg := u.ratingGroup;
    && (r.info.Some? ==> CounterOf(r.st, rg) == CounterOf(st, rg) + 1 && r.info.value.ratingGroup == rg && r.info.value.upfId == u.upfId)
    && (r.info.None? ==> CounterOf(r.st, rg) == CounterOf(st, rg))
    && (forall g :: g != rg ==> CounterOf(r.st, g) == CounterOf(st, g))
  }

  /** What one pass over report u does to the registry: the report's group
      is registered, appended when new. */
  ghost predicate RegistersGroup(st: UeState, u: MultipleUnitUsage, r: StepResult)
  {
    r.st.ratingGroups == Registered(st.ratingGroups, u.ratingGroup)
  }

  /** What one pass over report u does to the partial mark: it follows the
      trigger scan when the report has an online container. */
  predicate FollowsTriggers(u: MultipleUnitUsage, ts: seq<Trigger>, partial: bool, r: StepResult)
  {
    r.partial == (if HasOnline(u.usedUnitContainers) && ts != [] then ts[|ts| - 1].triggerType != Final else partial)
  }

  ghost predicate StepCounts(step: GroupStep)
  {
    forall st, idx, u, partial :: CountsEntries(st, u, step(st, idx, u, partial))
  }

  ghost predicate StepRegisters(step: GroupStep)
  {
    forall st, idx, u, partial :: RegistersGroup(st, u, step(st, idx, u, partial))
  }

  ghost predicate StepKeepsConsistent(step: GroupStep)
  {
    forall st, idx, u, partial :: RegistryConsistent(st) ==> RegistryConsistent(step(st, idx, u, partial).st)
  }

  ghost predicate StepFollowsTriggers(step: GroupStep, ts: seq<Trigger>)
  {
    forall st, idx, u, partial :: FollowsTriggers(u, ts, partial, step(st, idx, u, partial))
  }

  /** The charging pass keeps the counters, the registry and the partial
      mark as each predicate says. */
  lemma ChargeStepKeepsBooks(cfg: UeConfig, peers: Peers, ts: seq<Trigger>)
    ensures StepCounts(ChargeStep(cfg, peers, ts))
    ensures StepRegisters(ChargeStep(cfg, peers, ts))
    ensures StepKeepsConsistent(ChargeStep(cfg, peers, ts))
    ensures StepFollowsTriggers(ChargeStep(cfg, peers, ts), ts)
  {
    forall st, idx, u, partial
      ensures CountsEntries(st, u, ChargeStep(cfg, peers, ts)(st, idx, u, partial))
      ensures RegistersGroup(st, u, ChargeStep(cfg, peers, ts)(st, idx, u, partial))
      ensures RegistryConsistent(st) ==> RegistryConsistent(ChargeStep(cfg, peers, ts)(st, idx, u, partial).st)
      ensures FollowsTriggers(u, ts, partial, ChargeStep(cfg, peers, ts)(st, idx, u, partial))
    {
      ChargeGroupRegistersAndCounts(st, cfg, peers, ts, idx, u, partial);
      ChargeGroupTriggerScan(st, cfg, peers, ts, idx, u, partial);
    }
  }

  // ---------------------------------------------------------------------
  // Any pass that keeps the books
  // ---------------------------------------------------------------------

  lemma {:induction false} RunCounters(st: UeState, usages: seq<MultipleUnitUsage>, step: GroupStep, n: nat)
    requires n <= |usages|
    requires StepCounts(step)
    ensures var res := RunReports(st, usages, step, n);
      forall g :: CounterOf(res.st, g) == CounterOf(st, g) + CountGroup(res.infos, g)
    decreases n
  {
    if n > 0 {
      var prev := RunReports(st, usages, step, n - 1);
      var r := step(prev.st, n - 1, usages[n - 1], prev.partial);
      var infos := prev.infos + Entries(r.info);
      RunCounters(st, usages, step, n - 1);
      assert CountsEntries(prev.st, usages[n - 1], r);
      forall g
        ensures CounterOf(r.st, g) == CounterOf(st, g) + CountGroup(infos, g)
      {
        if r.info.Some? {
          CountGroupAppend(prev.infos, r.info.value, g);
        } else {
          assert infos == prev.infos;
        }
      }
    }
  }

  lemma {:induction false} RunPartial(st: UeState, usages: seq<MultipleUnitUsage>, step: GroupStep, ts: seq<Trigger>, n: nat)
    requires n <= |usages|
    requires StepFollowsTriggers(step, ts)
    ensures RunReports(st, usages, step, n).partial == (AnyOnline(usages[..n]) && ts != [] && ts[|ts| - 1].triggerType != Final)
    decreases n
  {
    if n > 0 {
      var prev := RunReports(st, usages, step, n - 1);
      RunPartial(st, usages, step, ts, n - 1);
      assert FollowsTriggers(usages[n - 1], ts, prev.partial, step(prev.st, n - 1, usages[n - 1], prev.partial));
      assert usages[..n][..n - 1] == usages[..n - 1];
    }
  }

  lemma {:induction false} RunRegistry(st: UeState, usages: seq<MultipleUnitUsage>, step: GroupStep, n: nat)
    requires n <= |usages|
    requires StepRegisters(step)
    ensures RunReports(st, usages, step, n).st.ratingGroups == RegisterAll(st.ratingGroups, usages, n)
    decreases n
  {
    if n == 0 {
      assert RunReports(st, usages, step, 0).st == st;
    } else {
      var prev := RunReports(st, usages, step, n - 1);
      var u := usages[n - 1];
      var r := step(prev.st, n - 1, u, prev.partial);
      RunRegistry(st, usages, step, n - 1);
      assert RegistersGroup(prev.st, u, r);
      assert RunReports(st, usages, step, n).st == r.st;
    }
  }

  lemma {:induction false} RunConsistent(st: UeState, usages: seq<MultipleUnitUsage>, step: GroupStep, n: nat)
    requires n <= |usages|
    requires StepKeepsConsistent(step)
    requires RegistryConsistent(st)
    ensures RegistryConsistent(RunReports(st, usages, step, n).st)
    decreases n
  {
    if n > 0 {
      var prev := RunReports(st, usages, step, n - 1);
      RunConsistent(st, usages, step, n - 1);
      assert RegistryConsistent(step(prev.st, n - 1, usages[n - 1], prev.partial).st);
    }
  }

  lemma {:induction false} RunEntries(st: UeState, usages: seq<MultipleUnitUsage>, step: GroupStep, n: nat)
    requires n <= |usages|
    requires StepCounts(step)
    ensures var infos := RunReports(st, usages, step, n).infos;
      && |infos| <= n
      && forall i :: 0 <= i < |infos| ==>
           exists k :: 0 <= k < n && infos[i].ratingGroup == usages[k].ratingGroup && infos[i].upfId == usages[k].upfId
    decreases n
  {
    if n > 0 {
      var prev := RunReports(st, usages, step, n - 1);
      RunEntries(st, usages, step, n - 1);
      assert CountsEntries(prev.st, usages[n - 1], step(prev.st, n - 1, usages[n - 1], prev.partial));
    }
  }

  // ---------------------------------------------------------------------
  // The charging loop
  // ---------------------------------------------------------------------

  /** Every group's request counter goes up by exactly the number of entries
      the request produced for it. */
  lemma ReservationCounters(st: UeState, cfg: UeConfig, peers: Peers, req: ChargingDataRequest)
    ensures var res := ReservationOutcome(st, cfg, peers, req);
      forall g :: CounterOf(res.st, g) == CounterOf(st, g) + CountGroup(res.infos, g)
  {
    ChargeStepKeepsBooks(cfg, peers, req.triggers);
    RunCounters(st, req.multipleUnitUsage, ChargeStep(cfg, peers, req.triggers), |req.multipleUnitUsage|);
  }

  /** The partial-record mark returned for the request: false when no report
      had an online container or the request carries no triggers, and
      otherwise true exactly when its last trigger is not FINAL. */
  lemma ReservationPartial(st: UeState, cfg: UeConfig, peers: Peers, req: ChargingDataRequest)
    ensures var ts := req.triggers;
      ReservationOutcome(st, cfg, peers, req).partial
        == (AnyOnline(req.multipleUnitUsage) && ts != [] && ts[|ts| - 1].triggerType != Final)
  {
    ChargeStepKeepsBooks(cfg, peers, req.triggers);
    RunPartial(st, req.multipleUnitUsage, ChargeStep(cfg, peers, req.triggers), req.triggers, |req.multipleUnitUsage|);
    assert req.multipleUnitUsage[..|req.multipleUnitUsage|] == req.multipleUnitUsage;
  }

  /** The registry after the request: the groups known before stay, in the
      same order, the registered groups are exactly those known before and
      those reported, and the subscriber invariant is kept. */
  lemma ReservationRegistry(st: UeState, cfg: UeConfig, peers: Peers, req: ChargingDataRequest)
    ensures var res := ReservationOutcome(st, cfg, peers, req);
      var groups := res.st.ratingGroups;
      && |st.ratingGroups| <= |groups| && groups[..|st.ratingGroups|] == st.ratingGroups
      && (forall g :: g in groups <==> g in st.ratingGroups || g in Reported(req.multipleUnitUsage))
      && (RegistryConsistent(st) ==> RegistryConsistent(res.st))
  {
    ChargeStepKeepsBooks(cfg, peers, req.triggers);
    RunRegistry(st, req.multipleUnitUsage, ChargeStep(cfg, peers, req.triggers), |req.multipleUnitUsage|);
    RegisterAllPrefix(st.ratingGroups, req.multipleUnitUsage, |req.multipleUnitUsage|);
    RegisterAllMembers(st.ratingGroups, req.multipleUnitUsage, |req.multipleUnitUsage|);
    if RegistryConsistent(st) {
      RunConsistent(st, req.multipleUnitUsage, ChargeStep(cfg, peers, req.triggers), |req.multipleUnitUsage|);
    }
    assert req.multipleUnitUsage[..|req.multipleUnitUsage|] == req.multipleUnitUsage;
  }

  /** The response has at most one entry per report, and each entry belongs
      to a report of the request: its rating group and UPF are that
      report's. */
  lemma ReservationEntries(st: UeState, cfg: UeConfig, peers: Peers, req: ChargingDataRequest)
    ensures var infos := ReservationOutcome(st, cfg, peers, req).infos;
      && |infos| <= |req.multipleUnitUsage|
      && forall i :: 0 <= i < |infos| ==>
           exists k :: 0 <= k < |req.multipleUnitUsage| && infos[i].ratingGroup == req.multipleUnitUsage[k].ratingGroup
                                                        && infos[i].upfId == req.multipleUnitUsage[k].upfId
  {
    ChargeStepKeepsBooks(cfg, peers, req.triggers);
    RunEntries(st, req.multipleUnitUsage, ChargeStep(cfg, peers, req.triggers), |req.multipleUnitUsage|);
  }
}
