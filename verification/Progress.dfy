/** Plans, networks and tiers in fair and in honest clusters: what carries them on,
    and what holds them up for ever. */
module Progress {
  import opened Api
  import opened Gates
  import opened Supply

  // ---------------------------------------------------------------- plans

  function Puts(a: Action): Option<Obj> { if Blocked(a) then None else Written(a.call) }

  /** The objects that the first `k` actions write. */
  function PlannedUpTo(plan: seq<Action>, k: nat): set<Obj>
    requires k <= |plan|
  {
    if k == 0 then {}
    else PlannedUpTo(plan, k - 1) + (if Puts(plan[k - 1]).Some? then {Puts(plan[k - 1]).value} else {})
  }

  function Planned(plan: seq<Action>): set<Obj> { PlannedUpTo(plan, |plan|) }

  lemma {:induction false} PlannedHas(plan: seq<Action>, k: nat, j: nat)
    requires j < k <= |plan| && Puts(plan[j]).Some?
    ensures Puts(plan[j]).value in PlannedUpTo(plan, k)
  {
    if j < k - 1 { PlannedHas(plan, k - 1, j); }
  }

  lemma {:induction false} PlannedConcat(a: seq<Action>, b: seq<Action>, k: nat)
    requires k <= |b|
    ensures PlannedUpTo(a + b, |a| + k) == Planned(a) + PlannedUpTo(b, k)
  {
    if k == 0 {
      PlannedPrefix(a, b, |a|);
    } else {
      PlannedConcat(a, b, k - 1);
      assert (a + b)[|a| + k - 1] == b[k - 1];
    }
  }

  lemma {:induction false} PlannedPrefix(a: seq<Action>, b: seq<Action>, k: nat)
    requires k <= |a|
    ensures PlannedUpTo(a + b, k) == PlannedUpTo(a, k)
  {
    if k > 0 {
      PlannedPrefix(a, b, k - 1);
      assert (a + b)[k - 1] == a[k - 1];
    }
  }

  lemma {:induction false} PlannedGrows(plan: seq<Action>, j: nat, k: nat)
    requires j <= k <= |plan|
    ensures PlannedUpTo(plan, j) <= PlannedUpTo(plan, k)
  {
    if j < k { PlannedGrows(plan, j, k - 1); }
  }

  /** Action `i` finds what it takes in `given` and what the plan wrote before. */
  ghost predicate Backed(spec: Spec, plan: seq<Action>, i: nat, given: set<Obj>)
    requires i < |plan|
  {
    !Blocked(plan[i]) && Supplied(spec, given + PlannedUpTo(plan, i), plan[i].call)
  }

  ghost predicate Guarded(spec: Spec, plan: seq<Action>, given: set<Obj>) {
    forall i | 0 <= i < |plan| :: Backed(spec, plan, i, given)
  }

  lemma GuardedMore(spec: Spec, plan: seq<Action>, given: set<Obj>, more: set<Obj>)
    requires Guarded(spec, plan, given) && given <= more
    ensures Guarded(spec, plan, more)
  {
    forall i | 0 <= i < |plan| ensures Backed(spec, plan, i, more) {
      assert Backed(spec, plan, i, given);
      SuppliedMonotone(spec, given + PlannedUpTo(plan, i), more + PlannedUpTo(plan, i), plan[i].call);
    }
  }

  lemma GuardedConcat(spec: Spec, a: seq<Action>, b: seq<Action>, given: set<Obj>)
    requires Guarded(spec, a, given) && Guarded(spec, b, given + Planned(a))
    ensures Guarded(spec, a + b, given)
  {
    forall i | 0 <= i < |a + b| ensures Backed(spec, a + b, i, given) {
      if i < |a| {
        assert Backed(spec, a, i, given);
        PlannedPrefix(a, b, i);
      } else {
        assert Backed(spec, b, i - |a|, given + Planned(a));
        PlannedConcat(a, b, i - |a|);
        assert given + PlannedUpTo(a + b, i) == given + Planned(a) + PlannedUpTo(b, i - |a|);
      }
    }
  }

  /** A plan lands nothing but its objects, and those of the actions it got past. */
  lemma {:induction false} PlanLanded(o: Oracle, log: seq<Call>, plan: seq<Action>, k: nat)
    requires k <= |plan|
    ensures var r := PlanAfter(o, log, plan, k);
            && Landed(o, log) <= Landed(o, r.log) <= Landed(o, log) + PlannedUpTo(plan, k)
            && (r.answer == Yes ==> PlannedUpTo(plan, k) <= Landed(o, r.log))
  {
    if k > 0 {
      PlanLanded(o, log, plan, k - 1);
      var before := PlanAfter(o, log, plan, k - 1);
      if before.answer == Yes && !Blocked(plan[k - 1]) { LandedStep(o, before.log, plan[k - 1].call); }
    }
  }

  /** In a fair cluster a guarded plan comes to its end, or something that was given
      or that it brought about did not exist before. */
  lemma {:induction false} PlanProgress(spec: Spec, o: Oracle, existing: set<Obj>, given: set<Obj>, log: seq<Call>,
                                        plan: seq<Action>, k: nat)
    requires Fair(spec, o, existing) && Guarded(spec, plan, given) && k <= |plan|
    ensures var r := PlanAfter(o, log, plan, k); r.answer == Yes || !(given + Landed(o, r.log) <= existing)
  {
    if k > 0 {
      PlanProgress(spec, o, existing, given, log, plan, k - 1);
      PlanLanded(o, log, plan, k - 1);
      var before, after := PlanAfter(o, log, plan, k - 1), PlanAfter(o, log, plan, k);
      if before.answer == Yes && given + Landed(o, after.log) <= existing {
        assert Backed(spec, plan, k - 1, given);
        LandedStep(o, before.log, plan[k - 1].call);
        SuppliedMonotone(spec, given + PlannedUpTo(plan, k - 1), existing, plan[k - 1].call);
        assert o(before.log, plan[k - 1].call) == Yes;
      }
    }
  }

  /** Action `i` cannot succeed on `existing`. */
  ghost predicate Hopeless(spec: Spec, plan: seq<Action>, i: nat, existing: set<Obj>)
    requires i < |plan|
  {
    Blocked(plan[i]) || !Supplied(spec, existing, plan[i].call)
  }

  lemma HonestNo(spec: Spec, o: Oracle, existing: set<Obj>, bound: set<Obj>, log: seq<Call>, c: Call)
    requires Honest(spec, o, existing) && existing + Landed(o, log) <= bound && !Supplied(spec, bound, c)
    ensures o(log, c) != Yes
  {
    if Supplied(spec, existing + Landed(o, log), c) { SuppliedMonotone(spec, existing + Landed(o, log), bound, c); }
  }

  /** A plan whose action `i` fails comes to a halt there. */
  lemma PlanHalts(o: Oracle, log: seq<Call>, plan: seq<Action>, i: nat)
    requires i < |plan| && (Blocked(plan[i]) || o(PlanAfter(o, log, plan, i).log, plan[i].call) != Yes)
    ensures var r := RunPlan(o, log, plan);
            r.answer != Yes && Landed(o, log) <= Landed(o, r.log) <= Landed(o, log) + PlannedUpTo(plan, i)
  {
    PlanLanded(o, log, plan, i);
    var before := PlanAfter(o, log, plan, i);
    if before.answer == Yes && !Blocked(plan[i]) { LandedStep(o, before.log, plan[i].call); }
    PlanStuck(o, log, plan, i + 1, |plan|);
  }

  /** In an honest cluster a plan never gets past an action that cannot succeed on
      what it found and what it brings about before. */
  lemma PlanBarrier(spec: Spec, o: Oracle, existing: set<Obj>, bound: set<Obj>, log: seq<Call>, plan: seq<Action>,
      i: nat)
    requires Honest(spec, o, existing) && i < |plan|
    requires existing + Landed(o, log) + PlannedUpTo(plan, i) <= bound && Hopeless(spec, plan, i, bound)
    ensures var r := RunPlan(o, log, plan);
            r.answer != Yes && Landed(o, log) <= Landed(o, r.log) <= Landed(o, log) + PlannedUpTo(plan, i)
  {
    if !Blocked(plan[i]) {
      PlanLanded(o, log, plan, i);
      HonestNo(spec, o, existing, bound, PlanAfter(o, log, plan, i).log, plan[i].call);
    }
    PlanHalts(o, log, plan, i);
  }

  // ---------------------------------------------------------------- tiers

  function SlotPlanned(slot: Slot): set<Obj> { if slot.Some? then Planned(slot.value.plan) else {} }

  /** The objects of the first `k` slots. */
  function SlotObjects(slots: seq<Slot>, k: nat): set<Obj>
    requires k <= |slots|
  {
    if k == 0 then {} else SlotObjects(slots, k - 1) + SlotPlanned(slots[k - 1])
  }

  function TierObjects(prelude: seq<Action>, slots: seq<Slot>): set<Obj> {
    Planned(prelude) + SlotObjects(slots, |slots|)
  }

  lemma {:induction false} SlotObjectsHave(slots: seq<Slot>, k: nat, m: nat)
    requires k < m <= |slots|
    ensures SlotPlanned(slots[k]) <= SlotObjects(slots, m)
  {
    if k < m - 1 { SlotObjectsHave(slots, k, m - 1); }
  }

  /** Each gate is guarded by what is given and what the gates before it write. */
  ghost predicate GuardedSlots(spec: Spec, slots: seq<Slot>, given: set<Obj>) {
    forall i | 0 <= i < |slots| :: slots[i].Some? ==> Guarded(spec, slots[i].value.plan, given + SlotObjects(slots, i))
  }

  predicate ReadyUpTo(slots: seq<Slot>, k: nat, ready: set<Component>)
    requires k <= |slots|
  {
    forall i | 0 <= i < k :: slots[i].Some? ==> slots[i].value.name in ready
  }

  lemma NeedsMet(slots: seq<Slot>, k: nat, ready: set<Component>)
    requires WellFormed(slots) && k < |slots| && slots[k].Some? && ReadyUpTo(slots, k, ready)
    ensures slots[k].value.needs <= ready
  {
    forall d | d in slots[k].value.needs ensures d in ready {
      assert Expected(slots, d) && Rank(d) < k;
    }
  }

  lemma SlotLanded(o: Oracle, m: Net, slot: Slot)
    ensures var m' := RunSlot(o, m, slot);
            && Landed(o, m.log) <= Landed(o, m'.log) <= Landed(o, m.log) + SlotPlanned(slot)
            && (slot.Some? && slot.value.name in m'.ready && slot.value.name !in m.ready
                ==> SlotPlanned(slot) <= Landed(o, m'.log))
            && m.ready <= m'.ready && (forall c | c in m'.ready :: c in m.ready || (slot.Some? && c == slot.value.name))
  {
    if slot.Some? { PlanLanded(o, m.log, slot.value.plan, |slot.value.plan|); }
  }

  /** A network lands nothing but the objects of its gates, and all of a gate's when
      the gate ends up ready. */
  lemma {:induction false} NetLanded(o: Oracle, n: Net, slots: seq<Slot>, k: nat)
    requires WellFormed(slots) && k <= |slots| && n.ready == {}
    ensures var m := NetAfter(o, n, slots, k);
            && Landed(o, n.log) <= Landed(o, m.log) <= Landed(o, n.log) + SlotObjects(slots, k)
            && (forall c | c in m.ready :: Rank(c) < k)
            && (ReadyUpTo(slots, k, m.ready) ==> SlotObjects(slots, k) <= Landed(o, m.log))
  {
    if k > 0 {
      NetLanded(o, n, slots, k - 1);
      var m, m' := NetAfter(o, n, slots, k - 1), NetAfter(o, n, slots, k);
      SlotLanded(o, m, slots[k - 1]);
      assert m' == RunSlot(o, m, slots[k - 1]);
      if ReadyUpTo(slots, k, m'.ready) {
        forall i | 0 <= i < k - 1 && slots[i].Some? ensures slots[i].value.name in m.ready {
          assert slots[i].value.name in m'.ready;
        }
      }
    }
  }

  lemma NotWithin(a: set<Obj>, b: set<Obj>, c: set<Obj>)
    requires a <= b && !(a <= c)
    ensures !(b <= c)
  {
  }

  lemma SlotProgress(spec: Spec, o: Oracle, existing: set<Obj>, given: set<Obj>, m: Net, slot: Slot)
    requires Fair(spec, o, existing) && slot.Some? && Guarded(spec, slot.value.plan, given)
    requires !m.failed && slot.value.needs <= m.ready
    ensures var m' := RunSlot(o, m, slot);
            (!m'.failed && slot.value.name in m'.ready) || !(given + Landed(o, m'.log) <= existing)
  {
    PlanProgress(spec, o, existing, given, m.log, slot.value.plan, |slot.value.plan|);
  }

  /** Up to slot `k` all is ready, or something is new. */
  ghost predicate Carried(o: Oracle, m: Net, slots: seq<Slot>, k: nat, given: set<Obj>, existing: set<Obj>)
    requires k <= |slots|
  {
    (!m.failed && ReadyUpTo(slots, k, m.ready)) || !(given + Landed(o, m.log) <= existing)
  }

  lemma SlotCarries(spec: Spec, o: Oracle, existing: set<Obj>, given: set<Obj>, m: Net, slots: seq<Slot>, k: nat)
    requires Fair(spec, o, existing) && WellFormed(slots) && GuardedSlots(spec, slots, given) && k < |slots|
    requires Carried(o, m, slots, k, given, existing)
    requires ReadyUpTo(slots, k, m.ready) ==> SlotObjects(slots, k) <= Landed(o, m.log)
    ensures Carried(o, RunSlot(o, m, slots[k]), slots, k + 1, given, existing)
  {
    var m', slot := RunSlot(o, m, slots[k]), slots[k];
    SlotLanded(o, m, slot);
    if !m.failed && ReadyUpTo(slots, k, m.ready) {
      if slot.Some? {
        NeedsMet(slots, k, m.ready);
        SlotProgress(spec, o, existing, given + SlotObjects(slots, k), m, slot);
        assert given + SlotObjects(slots, k) + Landed(o, m'.log) == given + Landed(o, m'.log);
      }
    } else {
      NotWithin(given + Landed(o, m.log), given + Landed(o, m'.log), existing);
    }
  }

  lemma NetProgress(spec: Spec, o: Oracle, existing: set<Obj>, given: set<Obj>, n: Net, slots: seq<Slot>, k: nat)
    requires Fair(spec, o, existing) && WellFormed(slots) && GuardedSlots(spec, slots, given) && k <= |slots|
    requires !n.failed && n.ready == {}
    ensures Carried(o, NetAfter(o, n, slots, k), slots, k, given, existing)
  {
    for j := 0 to k
      invariant Carried(o, NetAfter(o, n, slots, j), slots, j, given, existing)
    {
      NetLanded(o, n, slots, j);
      SlotCarries(spec, o, existing, given, NetAfter(o, n, slots, j), slots, j);
    }
  }

  /** In a fair cluster a guarded tier ends ready, or something that was given or that
      it brought about did not exist before. */
  lemma TierProgress(spec: Spec, o: Oracle, existing: set<Obj>, given: set<Obj>, prelude: seq<Action>, slots: seq<Slot>)
    requires Fair(spec, o, existing) && WellFormed(slots)
    requires Guarded(spec, prelude, given) && GuardedSlots(spec, slots, given + Planned(prelude))
    ensures var t := RunTier(o, prelude, slots); t.status.ready || !(given + Landed(o, t.log) <= existing)
  {
    var p := RunPlan(o, [], prelude);
    PlanProgress(spec, o, existing, given, [], prelude, |prelude|);
    PlanLanded(o, [], prelude, |prelude|);
    NetProgress(spec, o, existing, given + Planned(prelude), START.(log := p.log), slots, |slots|);
    NetLanded(o, START.(log := p.log), slots, |slots|);
  }

  /** A tier lands only the objects of its plans, and all of them when it is ready. */
  lemma TierLanded(o: Oracle, prelude: seq<Action>, slots: seq<Slot>)
    requires WellFormed(slots)
    ensures var t := RunTier(o, prelude, slots);
            && Landed(o, t.log) <= TierObjects(prelude, slots)
            && (t.status.ready ==> Landed(o, t.log) == TierObjects(prelude, slots))
  {
    PlanLanded(o, [], prelude, |prelude|);
    NetLanded(o, START.(log := RunPlan(o, [], prelude).log), slots, |slots|);
  }

  // -------------------------------------------------------------- barriers

  /** A prelude that is held up for ever holds up its tier, and nothing beyond that
      action is ever written. */
  lemma PreludeBarrier(spec: Spec, o: Oracle, existing: set<Obj>, prelude: seq<Action>, slots: seq<Slot>, i: nat)
    requires Honest(spec, o, existing) && i < |prelude|
    requires Hopeless(spec, prelude, i, existing + PlannedUpTo(prelude, i))
    ensures var t := RunTier(o, prelude, slots); !t.status.ready && Landed(o, t.log) <= PlannedUpTo(prelude, i)
  {
    PlanBarrier(spec, o, existing, existing + PlannedUpTo(prelude, i), [], prelude, i);
  }

  /** A gate that is held up for ever, whatever else its tier brings about. */
  lemma SlotBarrier(spec: Spec, o: Oracle, existing: set<Obj>, prelude: seq<Action>, slots: seq<Slot>, k: nat, i: nat)
    requires Honest(spec, o, existing) && WellFormed(slots)
    requires k < |slots| && slots[k].Some? && i < |slots[k].value.plan|
    requires Hopeless(spec, slots[k].value.plan, i, existing + TierObjects(prelude, slots))
    ensures !RunTier(o, prelude, slots).status.ready
  {
    var n := START.(log := RunPlan(o, [], prelude).log);
    PlanLanded(o, [], prelude, |prelude|);
    NetLanded(o, n, slots, k);
    var m, plan := NetAfter(o, n, slots, k), slots[k].value.plan;
    SlotObjectsHave(slots, k, |slots|);
    SlotObjectsGrow(slots, k, |slots|);
    PlannedGrows(plan, i, |plan|);
    PlanBarrier(spec, o, existing, existing + TierObjects(prelude, slots), m.log, plan, i);
    NeverReady(o, n, slots, k, |slots|);
  }

  lemma {:induction false} SlotObjectsGrow(slots: seq<Slot>, k: nat, m: nat)
    requires k <= m <= |slots|
    ensures SlotObjects(slots, k) <= SlotObjects(slots, m)
  {
    if k < m { SlotObjectsGrow(slots, k, m - 1); }
  }

  /** A gate whose plan does not come to its end is not ready. */
  lemma {:induction false} NeverReady(o: Oracle, n: Net, slots: seq<Slot>, k: nat, m: nat)
    requires WellFormed(slots) && k < m <= |slots| && slots[k].Some? && n.ready == {}
    requires RunPlan(o, NetAfter(o, n, slots, k).log, slots[k].value.plan).answer != Yes
    ensures slots[k].value.name !in NetAfter(o, n, slots, m).ready
  {
    if m == k + 1 {
      NetLanded(o, n, slots, k);
    } else {
      NeverReady(o, n, slots, k, m - 1);
      assert slots[m - 1].Some? ==> slots[m - 1].value.name != slots[k].value.name;
    }
  }

  /** A gate that all later ones need, held up for ever: nothing beyond that action is
      ever written by its tier. */
  lemma GateBarrier(spec: Spec, o: Oracle, existing: set<Obj>, prelude: seq<Action>, slots: seq<Slot>, k: nat, i: nat)
    requires Honest(spec, o, existing) && WellFormed(slots)
    requires k < |slots| && slots[k].Some? && i < |slots[k].value.plan|
    requires forall m | k < m < |slots| && slots[m].Some? :: slots[k].value.name in slots[m].value.needs
    requires var before := Planned(prelude) + SlotObjects(slots, k) + PlannedUpTo(slots[k].value.plan, i);
             Hopeless(spec, slots[k].value.plan, i, existing + before)
    ensures var t := RunTier(o, prelude, slots);
            && !t.status.ready
            && Landed(o, t.log) <= Planned(prelude) + SlotObjects(slots, k) + PlannedUpTo(slots[k].value.plan, i)
  {
    var p := RunPlan(o, [], prelude);
    var n := START.(log := p.log);
    PlanLanded(o, [], prelude, |prelude|);
    NetLanded(o, n, slots, k);
    var m, plan := NetAfter(o, n, slots, k), slots[k].value.plan;
    var before := Planned(prelude) + SlotObjects(slots, k) + PlannedUpTo(plan, i);
    PlanBarrier(spec, o, existing, existing + before, m.log, plan, i);
    RestIdle(o, n, slots, k, |slots|);
  }

  /** Behind a gate that all later ones need and that is not ready, nothing happens. */
  lemma {:induction false} RestIdle(o: Oracle, n: Net, slots: seq<Slot>, k: nat, m: nat)
    requires WellFormed(slots) && k < m <= |slots| && slots[k].Some? && n.ready == {}
    requires RunPlan(o, NetAfter(o, n, slots, k).log, slots[k].value.plan).answer != Yes
    requires forall j | k < j < |slots| && slots[j].Some? :: slots[k].value.name in slots[j].value.needs
    ensures NetAfter(o, n, slots, m) == NetAfter(o, n, slots, k + 1)
    ensures slots[k].value.name !in NetAfter(o, n, slots, m).ready
  {
    NeverReady(o, n, slots, k, m);
    if m > k + 1 {
      RestIdle(o, n, slots, k, m - 1);
      NeverReady(o, n, slots, k, m - 1);
    }
  }
}
