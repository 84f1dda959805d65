/** Whole runs: reconcile passes interleaved with the steps of others, between
    passes and in the middle of them. */
module Runs {
  import opened Api
  import opened Gates
  import opened Conditions
  import opened Admission
  import opened Controller

  /** What one pass saw and which tiers it reconciled. */
  datatype Record = Record(fetched: Option<Stored>, detect: Answer, steps: seq<TierStep>)

  /** The cluster and its past: the spec at each generation of the present object,
      every pass so far, and the pass that wrote the present status. */
  datatype State = State(cluster: Cluster, history: map<int, Spec>, trace: seq<Record>, writer: Option<Record>)

  datatype Step = Others(e: EnvStep) | PassStep(inputs: Inputs, mid: seq<EnvStep>)

  const EMPTY := State(Cluster(None, 0), map[], [], None)

  predicate SameObject(a: Option<Stored>, b: Option<Stored>) { a.Some? && b.Some? && a.value.uid == b.value.uid }

  function Remember(h: map<int, Spec>, before: Option<Stored>, after: Option<Stored>): map<int, Spec> {
    if after.None? then map[]
    else (if SameObject(before, after) then h else map[])[after.value.generation := after.value.spec]
  }

  function ByOthers(s: State, e: EnvStep): State {
    var c := Env(s.cluster, e);
    State(c, Remember(s.history, s.cluster.obj, c.obj), s.trace,
        if SameObject(s.cluster.obj, c.obj) then s.writer else None)
  }

  function ByAllOthers(s: State, es: seq<EnvStep>): State {
    if es == [] then s else ByOthers(ByAllOthers(s, es[..|es| - 1]), es[|es| - 1])
  }

  /** `m` is the state the pass found when it wrote, `out` what it left. */
  function Concluded(m: State, out: Outcome, r: Record): State {
    State(out.cluster, Remember(m.history, m.cluster.obj, out.cluster.obj), m.trace + [r],
          if out.cluster.obj.None? then None else if out.wrote then Some(r) else m.writer)
  }

  function ByPass(s: State, inputs: Inputs, mid: seq<EnvStep>): State {
    var out := Pass(s.cluster, inputs, mid);
    Concluded(ByAllOthers(s, mid), out,
        Record(if inputs.fetchOk then s.cluster.obj else None, inputs.detect, out.steps))
  }

  function Next(s: State, step: Step): State {
    match step case Others(e) => ByOthers(s, e) case PassStep(inputs, mid) => ByPass(s, inputs, mid)
  }

  /** The states of a run, from the empty cluster on, and the steps between them. */
  datatype Run = Run(states: seq<State>, steps: seq<Step>)

  ghost predicate Linked(run: Run, i: nat)
    requires i + 1 < |run.states| == |run.steps| + 1
  {
    run.states[i + 1] == Next(run.states[i], run.steps[i])
  }

  ghost predicate IsRun(run: Run) {
    && |run.states| == |run.steps| + 1 && run.states[0] == EMPTY
    && forall i | 0 <= i < |run.steps| :: Linked(run, i)
  }

  /** Nobody but the operator takes its finalizer off while a pass is at work. */
  predicate Undisturbed(step: Step) { step.PassStep? ==> StripFinalizer !in step.mid }

  ghost predicate Orderly(run: Run) {
    IsRun(run) && forall i | 0 <= i < |run.steps| :: Undisturbed(run.steps[i])
  }

  /** Any steps whatever make up a run. */
  lemma {:induction false} EveryStepsRun(steps: seq<Step>) returns (run: Run)
    ensures IsRun(run) && run.steps == steps
  {
    if steps == [] {
      run := Run([EMPTY], []);
    } else {
      var n := |steps| - 1;
      var before := EveryStepsRun(steps[..n]);
      run := Run(before.states + [Next(before.states[n], steps[n])], steps);
      forall i | 0 <= i < |steps| ensures Linked(run, i) {
        if i < n { assert Linked(before, i); }
      }
    }
  }

  // ------------------------------------------------------- status bookkeeping

  /** Condition types are unique and each tier's condition is True exactly when
      its status is present and ready. */
  ghost predicate Booked(s: Status) {
    && UniqueTypes(s.conditions)
    && (IsConditionTrue(s.conditions, InfrastructureReady) <==> TierUp(s.infrastructure))
    && (IsConditionTrue(s.conditions, CoreReady) <==> TierUp(s.core))
    && (IsConditionTrue(s.conditions, RestReady) <==> TierUp(s.rest))
  }

  lemma SetFacts(cs: seq<Condition>, c: Condition)
    requires UniqueTypes(cs)
    ensures UniqueTypes(SetStatusCondition(cs, c))
    ensures forall t ::
              IsConditionTrue(SetStatusCondition(cs, c), t)
              <==> if t == c.ctype then c.status == True else IsConditionTrue(cs, t)
  {
    SetKeepsUnique(cs, c);
    forall t
      ensures IsConditionTrue(SetStatusCondition(cs, c), t)
              <==> if t == c.ctype then c.status == True else IsConditionTrue(cs, t)
    {
      FindAfterSet(cs, c, t);
    }
  }

  lemma WhenFacts(cond: bool, s: Status, t: ConditionType, generation: int)
    requires UniqueTypes(s.conditions) && forall u :: !IsConditionTrue(s.conditions, u)
    ensures UniqueTypes(When(cond, s, t, generation).conditions)
    ensures forall u :: !IsConditionTrue(When(cond, s, t, generation).conditions, u)
  {
    SetFacts(s.conditions, Condition(t, Unknown, generation));
  }

  /** Initialisation leaves no condition True. */
  lemma InitializedFacts(spec: Spec, generation: int)
    ensures var s := Initialized(spec, FRESH_STATUS, generation);
            && UniqueTypes(s.conditions) && (forall t :: !IsConditionTrue(s.conditions, t))
            && s == FRESH_STATUS.(phase := Pending, conditions := s.conditions)
  {
    var s0 := FRESH_STATUS;
    WhenFacts(true, s0, ReadyCondition, generation);
    var s1 := WithCondition(s0, ReadyCondition, Unknown, generation);
    WhenFacts(spec.infrastructure.Some?, s1, InfrastructureReady, generation);
    var s2 := When(spec.infrastructure.Some?, s1, InfrastructureReady, generation);
    WhenFacts(true, s2, CoreReady, generation);
    var s3 := WithCondition(s2, CoreReady, Unknown, generation);
    WhenFacts(RestEnabled(spec), s3, RestReady, generation);
    var s4 := When(RestEnabled(spec), s3, RestReady, generation);
    WhenFacts(spec.tls.Some?, s4, TLSReady, generation);
    var s5 := When(spec.tls.Some?, s4, TLSReady, generation);
    WhenFacts(IsSpiffeMode(spec), s5, SPIFFEAvailable, generation);
    var s6 := When(IsSpiffeMode(spec), s5, SPIFFEAvailable, generation);
    WhenFacts(IsCertManagerMode(spec), s6, CertManagerAvailable, generation);
    var s7 := When(IsCertManagerMode(spec), s6, CertManagerAvailable, generation);
    WhenFacts(spec.core.vault.Some?, s7, VaultReady, generation);
    var s8 := When(spec.core.vault.Some?, s7, VaultReady, generation);
    WhenFacts(Enabled(spec.core.rla), s8, RLAReady, generation);
    var s9 := When(Enabled(spec.core.rla), s8, RLAReady, generation);
    WhenFacts(Enabled(spec.core.psm), s9, PSMReady, generation);
  }

  /** What the conditions say of the TLS backend is what was detected. */
  ghost predicate TLSJudged(spec: Spec, t: Status, detect: Answer) {
    && (spec.tls.Some? ==>
          (IsConditionTrue(t.conditions, TLSReady)
           <==> detect == Yes && (IsSpiffeMode(spec) || IsCertManagerMode(spec))))
    && (IsSpiffeMode(spec) ==> (IsConditionTrue(t.conditions, SPIFFEAvailable) <==> detect == Yes))
    && (IsCertManagerMode(spec) ==> (IsConditionTrue(t.conditions, CertManagerAvailable) <==> detect == Yes))
  }

  lemma TLSCheckFacts(spec: Spec, s: Status, generation: int, detect: Answer)
    requires Booked(s)
    ensures var t := WithTLSCheck(spec, s, generation, detect);
            && Booked(t) && t == s.(conditions := t.conditions) && TLSJudged(spec, t, detect)
            && forall c | OfServices(c) :: IsConditionTrue(t.conditions, c) <==> IsConditionTrue(s.conditions, c)
  {
    if spec.tls.Some? {
      var probed := match spec.tls.value.mode
        case Spiffe => WithCondition(s, SPIFFEAvailable, Truth(detect == Yes), generation)
        case CertManager => WithCondition(s, CertManagerAvailable, Truth(detect == Yes), generation)
        case _ => s;
      SetFacts(s.conditions, Condition(SPIFFEAvailable, Truth(detect == Yes), generation));
      SetFacts(s.conditions, Condition(CertManagerAvailable, Truth(detect == Yes), generation));
      SetFacts(probed.conditions, Condition(TLSReady, Truth(BackendUp(spec, detect)), generation));
    }
  }

  predicate OfTiers(c: ConditionType) { c in {ReadyCondition, InfrastructureReady, CoreReady, RestReady} }

  /** The conditions of single services, set at initialisation and never again. */
  predicate OfServices(c: ConditionType) { c in {VaultReady, RLAReady, PSMReady} }

  /** A tier attempt keeps the books, the verdicts on TLS and services, and the generation. */
  ghost predicate Follow(s: Status, t: Status) {
    && Booked(t) && t.observedGeneration == s.observedGeneration
    && forall c | !OfTiers(c) :: IsConditionTrue(t.conditions, c) <==> IsConditionTrue(s.conditions, c)
  }

  lemma InfrastructureFacts(spec: Spec, generation: int, s: Status, o: Oracle)
    requires Booked(s)
    ensures var w := AfterInfrastructure(spec, generation, s, o);
            Follow(s, w.status) && w.status.core == s.core && w.status.rest == s.rest
  {
    if spec.infrastructure.Some? {
      var run := InfrastructureTier.Run(o, spec.infrastructure.value);
      SetFacts(s.conditions, Condition(InfrastructureReady, Truth(run.status.ready), generation));
    }
  }

  lemma CoreFacts(spec: Spec, generation: int, w: Work, o: Oracle)
    requires Booked(w.status)
    ensures var v := AfterCore(spec, generation, w, o);
            Follow(w.status, v.status) && v.status.rest == w.status.rest
                && v.status.infrastructure == w.status.infrastructure
  {
    var run := CoreTier.Run(o, spec);
    SetFacts(w.status.conditions, Condition(CoreReady, Truth(run.status.ready), generation));
  }

  lemma RestFacts(spec: Spec, generation: int, w: Work, o: Oracle)
    requires Booked(w.status)
    ensures var v := AfterRest(spec, generation, w, o);
            && Follow(w.status, v.status) && v.status.core == w.status.core
               && v.status.infrastructure == w.status.infrastructure
            && (!RestEnabled(spec) ==> v.status.rest == w.status.rest)
  {
    if RestEnabled(spec) {
      var run := RestTier.Run(o, spec);
      SetFacts(w.status.conditions, Condition(RestReady, Truth(run.status.ready), generation));
    }
  }

  /** A status is final when phase and Ready condition are the summary of the spec,
      the TLS verdict and the tier statuses. */
  ghost predicate Final(spec: Spec, s: Status) {
    && s.phase == Summary(spec, IsConditionTrue(s.conditions, TLSReady), s)
    && (IsConditionTrue(s.conditions, ReadyCondition) <==> s.phase == Ready)
  }

  lemma SummaryFacts(spec: Spec, s: Status, generation: int)
    requires Booked(s)
    ensures var t := WithSummary(spec, s, generation);
            Follow(s, t) && Final(spec, t) && t.infrastructure == s.infrastructure && t.core == s.core
                && t.rest == s.rest
  {
    var phase := Summary(spec, IsConditionTrue(s.conditions, TLSReady), s);
    SetFacts(s.conditions, Condition(ReadyCondition, Truth(phase == Ready), generation));
  }

  lemma TiersFacts(spec: Spec, generation: int, s: Status, inputs: Inputs)
    requires Booked(s)
    ensures var t := Tiers(spec, generation, s, inputs).status;
            Follow(s, t) && (!RestEnabled(spec) ==> t.rest == s.rest)
  {
    InfrastructureFacts(spec, generation, s, inputs.infra);
    var w := AfterInfrastructure(spec, generation, s, inputs.infra);
    CoreFacts(spec, generation, w, inputs.core);
    RestFacts(spec, generation, AfterCore(spec, generation, w, inputs.core), inputs.rest);
  }

  /** What follows a TLS check keeps its verdict and leaves the services alone. */
  lemma FollowJudged(d: Stored, detect: Answer, w: Status, t: Status)
    requires Booked(d.status)
    requires Follow(WithTLSCheck(d.spec, Observed(d), d.generation, detect), w) && Follow(w, t)
    ensures TLSJudged(d.spec, t, detect)
    ensures forall c | OfServices(c) :: IsConditionTrue(t.conditions, c) <==> IsConditionTrue(d.status.conditions, c)
    ensures t.observedGeneration == d.generation
  {
    TLSCheckFacts(d.spec, Observed(d), d.generation, detect);
  }

  /** Whatever phases the pass assigned on the way, what it computes is final. */
  lemma ComputedFacts(d: Stored, inputs: Inputs)
    requires Booked(d.status)
    ensures var t := Computed(d, inputs).status;
            && Booked(t) && Final(d.spec, t) && t.observedGeneration == d.generation
            && TLSJudged(d.spec, t, inputs.detect)
            && (forall c | OfServices(c) ::
                  IsConditionTrue(t.conditions, c) <==> IsConditionTrue(d.status.conditions, c))
            && (!RestEnabled(d.spec) ==> t.rest == d.status.rest)
  {
    var s := WithTLSCheck(d.spec, Observed(d), d.generation, inputs.detect);
    TLSCheckFacts(d.spec, Observed(d), d.generation, inputs.detect);
    var w := if BackendUp(d.spec, inputs.detect) then Tiers(d.spec, d.generation, s, inputs).status
             else s.(phase := Failed);
    TiersFacts(d.spec, d.generation, s, inputs);
    SummaryFacts(d.spec, w, d.generation);
    FollowJudged(d, inputs.detect, w, WithSummary(d.spec, w, d.generation));
  }

  // ------------------------------------------------------------ rollout order

  predicate UpStep(t: TierStep, tier: Tier) { t.tier == tier && t.run.status.ready && !t.run.err }

  predicate Reported(r: Record, tier: Tier, before: nat)
    requires before <= |r.steps|
  {
    exists j | 0 <= j < before :: UpStep(r.steps[j], tier)
  }

  /** An earlier pass over the same object saw the core tier ready. */
  predicate CoreSeen(trace: seq<Record>, before: nat, uid: nat)
    requires before <= |trace|
  {
    exists k | 0 <= k < before ::
      && trace[k].fetched.Some? && trace[k].fetched.value.uid == uid
      && Reported(trace[k], Core, |trace[k].steps|)
  }

  predicate MayAct(d: Stored, detect: Answer) {
    && d.finalizer && !d.deleting && d.status.phase != NoPhase
    && detect == Yes && (IsSpiffeMode(d.spec) || IsCertManagerMode(d.spec))
  }

  /** What the rollout order demands of step `i` of a pass, `coreSeen` telling
      whether an earlier pass saw the core tier ready. */
  predicate SafeStep(r: Record, i: nat, coreSeen: bool)
    requires i < |r.steps|
  {
    && r.fetched.Some? && MayAct(r.fetched.value, r.detect)
    && (r.steps[i].tier == Infrastructure ==> r.fetched.value.spec.infrastructure.Some?)
    && (r.steps[i].tier == Core ==>
          r.fetched.value.spec.infrastructure.None? || Reported(r, Infrastructure, i))
    && (r.steps[i].tier == Rest ==>
          RestEnabled(r.fetched.value.spec) && (Reported(r, Core, i) || coreSeen))
  }

  predicate SeenBefore(trace: seq<Record>, k: nat)
    requires k < |trace|
  {
    trace[k].fetched.Some? && CoreSeen(trace, k, trace[k].fetched.value.uid)
  }

  predicate SafePass(trace: seq<Record>, k: nat)
    requires k < |trace|
  {
    forall i | 0 <= i < |trace[k].steps| :: SafeStep(trace[k], i, SeenBefore(trace, k))
  }

  predicate TraceSafe(trace: seq<Record>) { forall k | 0 <= k < |trace| :: SafePass(trace, k) }

  function InfrastructureSteps(spec: Spec, o: Oracle): seq<TierStep> {
    if spec.infrastructure.None? then []
    else [TierStep(Infrastructure, InfrastructureTier.Run(o, spec.infrastructure.value))]
  }

  lemma TiersSound(spec: Spec, inputs: Inputs)
    ensures spec.infrastructure.Some? && InfrastructureTier.Run(inputs.infra, spec.infrastructure.value).status.ready
            ==> !InfrastructureTier.Run(inputs.infra, spec.infrastructure.value).err
    ensures CoreTier.Run(inputs.core, spec).status.ready ==> !CoreTier.Run(inputs.core, spec).err
    ensures RestTier.Run(inputs.rest, spec).status.ready ==> !RestTier.Run(inputs.rest, spec).err
  {
  }

  function CoreSteps(spec: Spec, infrastructure: seq<TierStep>, o: Oracle): seq<TierStep> {
    if infrastructure == [] || infrastructure[0].run.status.ready then [TierStep(Core, CoreTier.Run(o, spec))] else []
  }

  function RestSteps(spec: Spec, coreUp: bool, o: Oracle): seq<TierStep> {
    if RestEnabled(spec) && coreUp then [TierStep(Rest, RestTier.Run(o, spec))] else []
  }

  lemma InfrastructureTried(spec: Spec, generation: int, s: Status, o: Oracle)
    ensures var w := AfterInfrastructure(spec, generation, s, o);
            && w.steps == InfrastructureSteps(spec, o) && w.status.core == s.core
            && (spec.infrastructure.None? || TierUp(w.status.infrastructure)
               <==> w.steps == [] || w.steps[0].run.status.ready)
  {
  }

  lemma CoreTried(spec: Spec, generation: int, w: Work, o: Oracle)
    requires spec.infrastructure.None? || TierUp(w.status.infrastructure)
             <==> w.steps == [] || w.steps[0].run.status.ready
    ensures var v := AfterCore(spec, generation, w, o);
            var c := CoreSteps(spec, w.steps, o);
            v.steps == w.steps + c && v.status.core == if c == [] then w.status.core else Some(c[0].run.status)
  {
  }

  lemma RestTried(spec: Spec, generation: int, w: Work, o: Oracle)
    ensures var v := AfterRest(spec, generation, w, o);
            v.steps == w.steps + RestSteps(spec, TierUp(w.status.core), o) && v.status.core == w.status.core
  {
  }

  /** The steps of a pass, one tier after the other. */
  lemma ComputedSteps(d: Stored, inputs: Inputs)
    ensures var w := Computed(d, inputs);
            if !BackendUp(d.spec, inputs.detect) then w.steps == [] && w.status.core == d.status.core
            else
              var i := InfrastructureSteps(d.spec, inputs.infra);
              var c := CoreSteps(d.spec, i, inputs.core);
              && (w.status.core == if c == [] then d.status.core else Some(c[0].run.status))
              && w.steps == i + c + RestSteps(d.spec, TierUp(w.status.core), inputs.rest)
  {
    var s := WithTLSCheck(d.spec, Observed(d), d.generation, inputs.detect);
    InfrastructureTried(d.spec, d.generation, s, inputs.infra);
    var w := AfterInfrastructure(d.spec, d.generation, s, inputs.infra);
    CoreTried(d.spec, d.generation, w, inputs.core);
    RestTried(d.spec, d.generation, AfterCore(d.spec, d.generation, w, inputs.core), inputs.rest);
  }

  lemma StepsInOrder(d: Stored, detect: Answer, trace: seq<Record>, i: seq<TierStep>, c: seq<TierStep>,
      t: seq<TierStep>)
    requires MayAct(d, detect)
    requires i == [] <==> d.spec.infrastructure.None?
    requires |i| <= 1 && (i != [] ==> i[0].tier == Infrastructure)
    requires |c| <= 1 && (c != [] ==> c[0].tier == Core && (i == [] || UpStep(i[0], Infrastructure)))
    requires |t| <= 1 && (t != [] ==> t[0].tier == Rest && RestEnabled(d.spec)
                                      && if c == [] then CoreSeen(trace, |trace|, d.uid) else UpStep(c[0], Core))
    ensures var r := Record(Some(d), detect, i + c + t);
            SafePass(trace + [r], |trace|) && (c != [] && UpStep(c[0], Core) ==> Reported(r, Core, |r.steps|))
  {
    var r := Record(Some(d), detect, i + c + t);
    assert i != [] ==> r.steps[0] == i[0];
    assert c != [] ==> r.steps[|i|] == c[0];
    if t != [] && c == [] { SeenGrows(trace, trace + [r], |trace|, |trace|, d.uid); }
  }

  /** The steps of a pass keep the rollout order, given that a core status stored
      as ready was once reported. */
  lemma ComputedSafe(d: Stored, inputs: Inputs, trace: seq<Record>)
    requires d.spec.tls.Some? && d.finalizer && !d.deleting && d.status.phase != NoPhase
    requires TierUp(d.status.core) ==> CoreSeen(trace, |trace|, d.uid)
    ensures var w := Computed(d, inputs);
            var r := Record(Some(d), inputs.detect, w.steps);
            && SafePass(trace + [r], |trace|)
            && (TierUp(w.status.core) ==> CoreSeen(trace, |trace|, d.uid) || Reported(r, Core, |r.steps|))
  {
    ComputedSteps(d, inputs);
    var w := Computed(d, inputs);
    if BackendUp(d.spec, inputs.detect) {
      var i := InfrastructureSteps(d.spec, inputs.infra);
      var c := CoreSteps(d.spec, i, inputs.core);
      TiersSound(d.spec, inputs);
      StepsInOrder(d, inputs.detect, trace, i, c, RestSteps(d.spec, TierUp(w.status.core), inputs.rest));
    }
  }

  lemma SeenGrows(a: seq<Record>, b: seq<Record>, k: nat, m: nat, uid: nat)
    requires a <= b && k <= |a| && k <= m <= |b| && CoreSeen(a, k, uid)
    ensures CoreSeen(b, m, uid)
  {
    var j :| 0 <= j < k && a[j].fetched.Some? && a[j].fetched.value.uid == uid && Reported(a[j], Core, |a[j].steps|);
    assert b[j] == a[j];
  }

  lemma SafeGrows(trace: seq<Record>, r: Record)
    requires TraceSafe(trace) && SafePass(trace + [r], |trace|)
    ensures TraceSafe(trace + [r])
  {
    forall k | 0 <= k < |trace| ensures SafePass(trace + [r], k) {
      if SeenBefore(trace, k) { SeenGrows(trace, trace + [r], k, k, trace[k].fetched.value.uid); }
      forall i | 0 <= i < |trace[k].steps| ensures SafeStep((trace + [r])[k], i, SeenBefore(trace + [r], k)) {
        assert SafePass(trace, k);
      }
    }
  }

  // ------------------------------------------------------------ the invariant

  predicate Fit(name: string, profile: Profile, spec: Spec) { Admitted(name, spec) && spec.profile == profile }

  /** Every generation of the object so far held an admitted spec of one profile. */
  ghost predicate HistoryInv(s: State, d: Stored) {
    && d.uid < s.cluster.nextUid && 1 <= d.generation
    && (forall g :: g in s.history <==> 1 <= g <= d.generation)
    && s.history[d.generation] == d.spec
    && forall g | g in s.history :: Fit(d.name, d.spec.profile, s.history[g])
  }

  /** The stored status: untouched, freshly initialised, or final for the spec at
      its observed generation, as judged by the pass that wrote it. */
  ghost predicate StatusInv(s: State, d: Stored) {
    var t := d.status;
    && Booked(t) && (forall c | OfServices(c) :: !IsConditionTrue(t.conditions, c))
    && (d.spec.profile == Site ==> t.rest.None?)
    && (TierUp(t.core) ==> CoreSeen(s.trace, |s.trace|, d.uid))
    && (t.phase == NoPhase ==> t == FRESH_STATUS && s.writer.None?)
    && (t.phase == Pending ==>
          && t == FRESH_STATUS.(phase := Pending, conditions := t.conditions)
          && forall c :: !IsConditionTrue(t.conditions, c))
    && (t.phase != NoPhase && t.phase != Pending ==>
          && t.observedGeneration in s.history && Final(s.history[t.observedGeneration], t)
          && s.writer.Some? && Judged(s.writer.value, d.uid, t.observedGeneration, s.history[t.observedGeneration], t))
  }

  /** The pass recorded in `r` fetched that generation of the object, and the TLS
      conditions in `t` are what it detected. */
  ghost predicate Judged(r: Record, uid: nat, generation: int, spec: Spec, t: Status) {
    && r.fetched.Some? && r.fetched.value.uid == uid
    && r.fetched.value.generation == generation && r.fetched.value.spec == spec
    && TLSJudged(spec, t, r.detect)
  }

  ghost predicate Inv(s: State) {
    && TraceSafe(s.trace)
    && if s.cluster.obj.None? then s.history == map[] && s.writer.None?
       else HistoryInv(s, s.cluster.obj.value) && StatusInv(s, s.cluster.obj.value)
  }

  lemma {:induction false} ByAllOthersCluster(s: State, es: seq<EnvStep>)
    ensures ByAllOthers(s, es).cluster == EnvAll(s.cluster, es)
  {
    if es != [] { ByAllOthersCluster(s, es[..|es| - 1]); }
  }

  /** `b` holds the object of `a`, its status and past untouched. */
  ghost predicate Kept(a: State, b: State) {
    && a.cluster.obj.Some? && b.cluster.obj.Some? && b.trace == a.trace && b.writer == a.writer
    && var x, y := a.cluster.obj.value, b.cluster.obj.value;
       && y.uid == x.uid && y.name == x.name && y.status == x.status && x.finalizer && y.finalizer
       && x.generation <= y.generation && (x.deleting ==> y.deleting)
       && forall g | g in a.history :: g in b.history && b.history[g] == a.history[g]
  }

  /** The object after another admitted spec, or new flags, or both. */
  function Changed(s: State, d: Stored): State {
    s.(cluster := s.cluster.(obj := Some(d)), history := s.history[d.generation := d.spec])
  }

  /** `d` is `was` with flags changed or one more admitted spec. */
  ghost predicate Successor(was: Stored, d: Stored) {
    && d == was.(spec := d.spec, generation := d.generation, deleting := d.deleting, finalizer := d.finalizer)
    && (d.generation == was.generation + 1 || (d.generation == was.generation && d.spec == was.spec))
    && Admitted(d.name, d.spec) && d.spec.profile == was.spec.profile
  }

  lemma Extended<T>(h: map<int, T>, n: int, m: int, x: T, fit: T -> bool)
    requires 1 <= n && (forall g :: g in h <==> 1 <= g <= n) && (forall g | g in h :: fit(h[g]))
    requires fit(x) && (m == n + 1 || (m == n && h[n] == x))
    ensures var h' := h[m := x];
            && (forall g :: g in h' <==> 1 <= g <= m) && (forall g | g in h' :: fit(h'[g]))
            && (forall g | g in h :: g in h' && h'[g] == h[g])
  {
  }

  lemma ChangeKeepsHistory(s: State, was: Stored, d: Stored)
    requires HistoryInv(s, was) && Successor(was, d)
    ensures HistoryInv(Changed(s, d), d)
    ensures forall g | g in s.history :: g in Changed(s, d).history && Changed(s, d).history[g] == s.history[g]
  {
    Extended(s.history, was.generation, d.generation, d.spec, x => Fit(d.name, d.spec.profile, x));
  }

  lemma ChangeKeepsStatus(s: State, was: Stored, h: map<int, Spec>, d: Stored)
    requires StatusInv(s, was) && d.status == was.status && d.uid == was.uid && d.spec.profile == was.spec.profile
    requires forall g | g in s.history :: g in h && h[g] == s.history[g]
    ensures StatusInv(s.(history := h), d)
  {
  }

  lemma ChangeKeepsInv(s: State, d: Stored)
    requires Inv(s) && s.cluster.obj.Some? && Successor(s.cluster.obj.value, d)
    ensures Inv(Changed(s, d))
    ensures forall g | g in s.history :: g in Changed(s, d).history && Changed(s, d).history[g] == s.history[g]
  {
    ChangeKeepsHistory(s, s.cluster.obj.value, d);
    ChangeKeepsStatus(s, s.cluster.obj.value, Changed(s, d).history, d);
  }

  lemma CreateKeepsInv(s: State, name: string, spec: Spec)
    requires Inv(s) && s.cluster.obj.None? && Admitted(name, spec)
    ensures var d := Stored(s.cluster.nextUid, name, spec, 1, false, false, FRESH_STATUS);
            Inv(State(Cluster(Some(d), s.cluster.nextUid + 1), map[1 := spec], s.trace, None))
  {
    assert Booked(FRESH_STATUS);
  }

  lemma EnvSucceeds(c: Cluster, e: EnvStep)
    requires c.obj.Some? && Admitted(c.obj.value.name, c.obj.value.spec) && Env(c, e).obj.Some?
    ensures Successor(c.obj.value, Env(c, e).obj.value) && Env(c, e) == c.(obj := Env(c, e).obj)
    ensures e != StripFinalizer && c.obj.value.finalizer ==> Env(c, e).obj.value.finalizer
    ensures c.obj.value.deleting ==> Env(c, e).obj.value.deleting
  {
    if e.Edit? { DefaultIdempotent(c.obj.value.name, e.user); }
  }

  lemma OthersKeepInv(s: State, e: EnvStep)
    requires Inv(s)
    ensures Inv(ByOthers(s, e))
    ensures s.cluster.obj.Some? && s.cluster.obj.value.finalizer && e != StripFinalizer ==> Kept(s, ByOthers(s, e))
  {
    var c := Env(s.cluster, e);
    if s.cluster.obj.None? {
      if c.obj.Some? {
        DefaultIdempotent(e.name, e.user);
        CreateKeepsInv(s, e.name, Defaulted(e.name, e.user));
      }
    } else if c.obj.Some? {
      EnvSucceeds(s.cluster, e);
      ChangeKeepsInv(s, c.obj.value);
      assert ByOthers(s, e) == Changed(s, c.obj.value);
    }
  }

  lemma {:induction false} AllOthersKeepInv(s: State, es: seq<EnvStep>)
    requires Inv(s) && StripFinalizer !in es
    ensures Inv(ByAllOthers(s, es))
    ensures s.cluster.obj.Some? && s.cluster.obj.value.finalizer ==> Kept(s, ByAllOthers(s, es))
  {
    if es != [] {
      AllOthersKeepInv(s, es[..|es| - 1]);
      OthersKeepInv(ByAllOthers(s, es[..|es| - 1]), es[|es| - 1]);
    }
  }

  lemma HistoryStands(m: State, y: Stored)
    requires Inv(m) && m.cluster.obj.Some?
    requires var d := m.cluster.obj.value; y == d.(status := y.status, finalizer := y.finalizer)
    ensures Remember(m.history, m.cluster.obj, Some(y)) == m.history
  {
  }

  /** The pass left the object alone but perhaps for its finalizer. */
  lemma Untouched(m: State, out: Outcome, r: Record, finalizer: bool)
    requires Inv(m) && !out.wrote && TraceSafe(m.trace + [r])
    requires out.cluster
             == if m.cluster.obj.None? then m.cluster
                else m.cluster.(obj := Some(m.cluster.obj.value.(finalizer := finalizer)))
    ensures Inv(Concluded(m, out, r))
  {
    if m.cluster.obj.Some? {
      var d := m.cluster.obj.value;
      HistoryStands(m, d.(finalizer := finalizer));
      if TierUp(d.status.core) { SeenGrows(m.trace, m.trace + [r], |m.trace|, |m.trace| + 1, d.uid); }
    }
  }

  /** The pass wrote a status that is fit for the object. */
  lemma Rewritten(m: State, out: Outcome, r: Record, t: Status)
    requires Inv(m) && m.cluster.obj.Some? && TraceSafe(m.trace + [r])
    requires out.wrote && out.cluster == Committed(m.cluster, t)
    requires StatusInv(m.(trace := m.trace + [r], writer := Some(r)), m.cluster.obj.value.(status := t))
    ensures Inv(Concluded(m, out, r))
  {
    HistoryStands(m, m.cluster.obj.value.(status := t));
  }

  lemma IdleSafe(trace: seq<Record>, r: Record)
    requires TraceSafe(trace) && r.steps == []
    ensures TraceSafe(trace + [r])
  {
    SafeGrows(trace, r);
  }

  lemma FinalizerKeepsInv(m: State, d: Stored, writeOk: bool, r: Record)
    requires Inv(m) && r.steps == []
    ensures Inv(Concluded(m, FinalizerPass(m.cluster, d, writeOk), r))
  {
    IdleSafe(m.trace, r);
    var out := FinalizerPass(m.cluster, d, writeOk);
    if out.cluster.obj.Some? { Untouched(m, out, r, out.cluster.obj.value.finalizer); }
  }

  lemma InitKeepsInv(m: State, d: Stored, writeOk: bool, r: Record)
    requires Inv(m) && r.steps == [] && d.status.phase == NoPhase
    ensures Inv(Concluded(m, InitPass(m.cluster, d, writeOk), r))
  {
    IdleSafe(m.trace, r);
    var out := InitPass(m.cluster, d, writeOk);
    if out.wrote {
      InitializedFacts(d.spec, d.generation);
      Rewritten(m, out, r, Initialized(d.spec, d.status, d.generation));
    } else {
      Untouched(m, out, r, m.cluster.obj.Some? && m.cluster.obj.value.finalizer);
    }
  }

  lemma WorkTrace(s: State, d: Stored, inputs: Inputs, r: Record)
    requires TraceSafe(s.trace) && (TierUp(d.status.core) ==> CoreSeen(s.trace, |s.trace|, d.uid))
    requires d.spec.tls.Some? && d.finalizer && !d.deleting && d.status.phase != NoPhase
    requires r == Record(Some(d), inputs.detect, Computed(d, inputs).steps)
    ensures TraceSafe(s.trace + [r])
    ensures TierUp(Computed(d, inputs).status.core) ==> CoreSeen(s.trace + [r], |s.trace| + 1, d.uid)
  {
    ComputedSafe(d, inputs, s.trace);
    SafeGrows(s.trace, r);
    if CoreSeen(s.trace, |s.trace|, d.uid) {
      SeenGrows(s.trace, s.trace + [r], |s.trace|, |s.trace| + 1, d.uid);
    } else {
      assert (s.trace + [r])[|s.trace|] == r;
    }
  }

  /** A status computed from `d` is fit for the object `y` that `d` has become. */
  lemma ComputedFits(m: State, d: Stored, inputs: Inputs, r: Record, y: Stored)
    requires Booked(d.status) && Admitted(d.name, d.spec) && (d.spec.profile == Site ==> d.status.rest.None?)
    requires forall c | OfServices(c) :: !IsConditionTrue(d.status.conditions, c)
    requires d.generation in m.history && m.history[d.generation] == d.spec
    requires y.uid == d.uid && y.spec.profile == d.spec.profile && y.status == Computed(d, inputs).status
    requires r.fetched == Some(d) && r.detect == inputs.detect && m.writer == Some(r)
    requires TierUp(y.status.core) ==> CoreSeen(m.trace, |m.trace|, d.uid)
    ensures StatusInv(m, y)
  {
    ComputedFacts(d, inputs);
    if d.spec.rest.Some? { RestFollowsProfile(d.name, d.spec); }
    assert d.spec.tls.Some?;
  }

  /** The status a pass computed from `s` is fit for the object in `m`. */
  lemma WorkStatusInv(s: State, m: State, d: Stored, inputs: Inputs, r: Record)
    requires Inv(s) && Inv(m) && Kept(s, m) && s.cluster.obj == Some(d)
    requires !d.deleting && d.status.phase != NoPhase
    requires r == Record(Some(d), inputs.detect, Computed(d, inputs).steps)
    ensures TraceSafe(m.trace + [r])
    ensures var y := m.cluster.obj.value.(status := Computed(d, inputs).status);
            StatusInv(m.(trace := m.trace + [r], writer := Some(r)), y)
  {
    assert Fit(d.name, d.spec.profile, s.history[d.generation]);
    WorkTrace(s, d, inputs, r);
    assert Fit(m.cluster.obj.value.name, m.cluster.obj.value.spec.profile, m.history[d.generation]);
    ComputedFits(m.(trace := m.trace + [r], writer := Some(r)), d, inputs, r,
                 m.cluster.obj.value.(status := Computed(d, inputs).status));
  }

  lemma WorkKeepsInv(s: State, m: State, d: Stored, inputs: Inputs, r: Record)
    requires Inv(s) && Inv(m) && Kept(s, m) && s.cluster.obj == Some(d)
    requires !d.deleting && d.status.phase != NoPhase
    requires r == Record(Some(d), inputs.detect, Computed(d, inputs).steps)
    ensures Inv(Concluded(m, WorkPass(m.cluster, d, inputs), r))
  {
    var out := WorkPass(m.cluster, d, inputs);
    WorkStatusInv(s, m, d, inputs, r);
    if out.wrote {
      Rewritten(m, out, r, Computed(d, inputs).status);
    } else {
      Untouched(m, out, r, m.cluster.obj.value.finalizer);
    }
  }

  lemma FetchedKeepsInv(s: State, m: State, inputs: Inputs, mid: seq<EnvStep>)
    requires Inv(s) && Inv(m) && s.cluster.obj.Some? && inputs.fetchOk && m.cluster == EnvAll(s.cluster, mid)
    requires s.cluster.obj.value.finalizer ==> Kept(s, m)
    ensures var out := Pass(s.cluster, inputs, mid);
            Inv(Concluded(m, out, Record(s.cluster.obj, inputs.detect, out.steps)))
  {
    var d, out := s.cluster.obj.value, Pass(s.cluster, inputs, mid);
    var r := Record(s.cluster.obj, inputs.detect, out.steps);
    if d.deleting || !d.finalizer {
      assert out == FinalizerPass(m.cluster, d, inputs.writeOk);
      FinalizerKeepsInv(m, d, inputs.writeOk, r);
    } else if d.status.phase == NoPhase {
      assert out == InitPass(m.cluster, d, inputs.writeOk);
      InitKeepsInv(m, d, inputs.writeOk, r);
    } else {
      assert out == WorkPass(m.cluster, d, inputs);
      WorkKeepsInv(s, m, d, inputs, r);
    }
  }

  lemma PassKeepsInv(s: State, inputs: Inputs, mid: seq<EnvStep>)
    requires Inv(s) && StripFinalizer !in mid
    ensures Inv(ByPass(s, inputs, mid))
  {
    var m := ByAllOthers(s, mid);
    ByAllOthersCluster(s, mid);
    AllOthersKeepInv(s, mid);
    if inputs.fetchOk && s.cluster.obj.Some? {
      FetchedKeepsInv(s, m, inputs, mid);
    } else {
      var r := Record(None, inputs.detect, []);
      IdleSafe(m.trace, r);
      Untouched(m, Pass(s.cluster, inputs, mid), r, m.cluster.obj.Some? && m.cluster.obj.value.finalizer);
    }
  }

  lemma NextKeepsInv(s: State, step: Step)
    requires Inv(s) && Undisturbed(step)
    ensures Inv(Next(s, step))
  {
    match step
    case Others(e) => OthersKeepInv(s, e);
    case PassStep(inputs, mid) => PassKeepsInv(s, inputs, mid);
  }

  lemma EmptyInv()
    ensures Inv(EMPTY)
  {
  }

  lemma LinkKeepsInv(run: Run, i: nat)
    requires Orderly(run) && i < |run.steps| && Inv(run.states[i])
    ensures Inv(run.states[i + 1])
  {
    assert Linked(run, i) && Undisturbed(run.steps[i]);
    NextKeepsInv(run.states[i], run.steps[i]);
  }

  /** Every state of every orderly run satisfies the invariant. */
  lemma RunsKeepInv(run: Run, k: nat)
    requires Orderly(run) && k < |run.states|
    ensures Inv(run.states[k])
  {
    EmptyInv();
    for i := 0 to k
      invariant Inv(run.states[i])
    {
      LinkKeepsInv(run, i);
    }
  }
}
