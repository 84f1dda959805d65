/** One reconcile pass over the stored CarbideDeployment, with the steps of others
    that land while it runs. */
module Controller {
  import opened Api
  import opened Gates
  import opened Clients
  import opened Conditions
  import opened Admission
  import InfrastructureTier
  import CoreTier
  import RestTier

  // --------------------------------------------------------------- the store

  datatype Stored = Stored(
    uid: nat, name: string, spec: Spec, generation: int, deleting: bool, finalizer: bool, status: Status)

  datatype Cluster = Cluster(obj: Option<Stored>, nextUid: nat)

  /** What others do to the object. Writes go through admission; marking the object
      for deletion counts as a new generation. */
  datatype EnvStep = Create(name: string, user: Spec) | Edit(user: Spec) | RequestDelete | StripFinalizer

  function Env(c: Cluster, e: EnvStep): Cluster {
    match e
    case Create(name, user) =>
      var d := Defaulted(name, user);
      if c.obj.None? && Valid(d) && InSchema(d)
      then Cluster(Some(Stored(c.nextUid, name, d, 1, false, false, FRESH_STATUS)), c.nextUid + 1) else c
    case Edit(user) =>
      if c.obj.None? then c
      else
        var s := c.obj.value;
        var d := Defaulted(s.name, user);
        if ValidUpdate(s.spec, d) && InSchema(d) then c.(obj := Some(WithSpec(s, d))) else c
    case RequestDelete =>
      if c.obj.None? then c
      else if !c.obj.value.finalizer then c.(obj := None)
      else if c.obj.value.deleting then c
      else c.(obj := Some(c.obj.value.(deleting := true, generation := c.obj.value.generation + 1)))
    case StripFinalizer =>
      if c.obj.None? then c
      else if c.obj.value.deleting then c.(obj := None)
      else c.(obj := Some(c.obj.value.(finalizer := false)))
  }

  function WithSpec(s: Stored, d: Spec): Stored {
    s.(spec := d, generation := if d == s.spec then s.generation else s.generation + 1)
  }

  function EnvAll(c: Cluster, es: seq<EnvStep>): Cluster {
    if es == [] then c else Env(EnvAll(c, es[..|es| - 1]), es[|es| - 1])
  }

  /** The operator's Update of the object it fetched: rejected when the object has
      changed since, and passed through admission like any other. */
  function Put(c: Cluster, fetched: Stored, finalizer: bool): Option<Cluster> {
    var d := Defaulted(fetched.name, fetched.spec);
    if c.obj != Some(fetched) || !ValidUpdate(fetched.spec, d) || !InSchema(d) then None
    else if fetched.deleting && !finalizer then Some(c.(obj := None))
    else Some(c.(obj := Some(WithSpec(fetched, d).(finalizer := finalizer))))
  }

  // ---------------------------------------------------------------- the pass

  /** Everything a pass is told by the cluster: whether its reads and writes of the
      object go through, the TLS backend detection, and the three tiers' answers. */
  datatype Inputs = Inputs(
    fetchOk: bool, writeOk: bool, refetchOk: bool, detect: Answer, infra: Oracle, core: Oracle, rest: Oracle)

  datatype TierStep = TierStep(tier: Tier, run: TierRun)

  datatype Work = Work(status: Status, steps: seq<TierStep>, requeue: bool, err: bool)

  function Tried(w: Work, tier: Tier, run: TierRun, status: Status): Work {
    Work(if run.err then status.(phase := Failed) else status,
         w.steps + [TierStep(tier, run)],
         w.requeue || (!run.err && !run.status.ready),
         w.err || run.err)
  }

  function AfterInfrastructure(spec: Spec, generation: int, s: Status, o: Oracle): Work {
    var w := Work(s, [], false, false);
    if spec.infrastructure.None? then w
    else
      var run := InfrastructureTier.Run(o, spec.infrastructure.value);
      Tried(w, Infrastructure, run, WithInfrastructure(s, run.status, generation))
  }

  function AfterCore(spec: Spec, generation: int, w: Work, o: Oracle): Work {
    if spec.infrastructure.Some? && !TierUp(w.status.infrastructure) then w
    else
      var run := CoreTier.Run(o, spec);
      Tried(w, Core, run, WithCore(w.status, run.status, generation))
  }

  function AfterRest(spec: Spec, generation: int, w: Work, o: Oracle): Work {
    if !RestEnabled(spec) || !TierUp(w.status.core) then w
    else
      var run := RestTier.Run(o, spec);
      Tried(w, Rest, run, WithRest(w.status, run.status, generation))
  }

  function Tiers(spec: Spec, generation: int, s: Status, inputs: Inputs): Work {
    AfterRest(spec, generation,
              AfterCore(spec, generation, AfterInfrastructure(spec, generation, s, inputs.infra), inputs.core),
              inputs.rest)
  }

  /** The configured TLS backend was detected. */
  predicate BackendUp(spec: Spec, detect: Answer) {
    spec.tls.None? || ((spec.tls.value.mode == Spiffe || spec.tls.value.mode == CertManager) && detect == Yes)
  }

  function WithTLSCheck(spec: Spec, s: Status, generation: int, detect: Answer): Status {
    if spec.tls.None? then s
    else
      var probed := match spec.tls.value.mode
        case Spiffe => WithCondition(s, SPIFFEAvailable, Truth(detect == Yes), generation)
        case CertManager => WithCondition(s, CertManagerAvailable, Truth(detect == Yes), generation)
        case _ => s;
      WithCondition(probed, TLSReady, Truth(BackendUp(spec, detect)), generation)
  }

  datatype Outcome = Outcome(cluster: Cluster, requeue: bool, err: bool, steps: seq<TierStep>, wrote: bool)

  function Committed(c: Cluster, status: Status): Cluster
    requires c.obj.Some?
  {
    c.(obj := Some(c.obj.value.(status := status)))
  }

  /** Steps 2 and 3: the finalizer goes on before anything else and comes off last. */
  function FinalizerPass(now: Cluster, d: Stored, writeOk: bool): Outcome {
    if d.deleting && !d.finalizer then Outcome(now, false, false, [], false)
    else
      var put := Put(now, d, !d.deleting);
      if writeOk && put.Some? then Outcome(put.value, !d.deleting, false, [], false)
      else Outcome(now, false, true, [], false)
  }

  /** Step 4. */
  function InitPass(now: Cluster, d: Stored, writeOk: bool): Outcome {
    if writeOk && now.obj == Some(d)
    then Outcome(Committed(now, Initialized(d.spec, d.status, d.generation)), true, false, [], true)
    else Outcome(now, true, false, [], false)
  }

  /** Step 5: a spec change is noticed. */
  function Observed(d: Stored): Status {
    var s := if d.status.observedGeneration != 0 && d.status.observedGeneration < d.generation
        && d.status.phase == Ready
             then d.status.(phase := Updating) else d.status;
    s.(observedGeneration := d.generation)
  }

  /** Steps 5 to 8: the status a pass computes. */
  function Computed(d: Stored, inputs: Inputs): Work {
    var s := WithTLSCheck(d.spec, Observed(d), d.generation, inputs.detect);
    var w := if BackendUp(d.spec, inputs.detect) then Tiers(d.spec, d.generation, s, inputs)
             else Work(s.(phase := Failed), [], true, false);
    w.(status := WithSummary(d.spec, w.status, d.generation))
  }

  /** Steps 9 and 10: the status is written onto whatever object is there by then. */
  function WorkPass(now: Cluster, d: Stored, inputs: Inputs): Outcome {
    var w := Computed(d, inputs);
    if inputs.refetchOk && now.obj.Some? && inputs.writeOk
    then Outcome(Committed(now, w.status), w.err || w.requeue, w.err, w.steps, true)
    else
      var up := BackendUp(d.spec, inputs.detect);
      Outcome(now, !up, up, w.steps, false)
  }

  /** The pass, `mid` landing after its fetch and before it writes. */
  function Pass(c: Cluster, inputs: Inputs, mid: seq<EnvStep>): Outcome {
    var now := EnvAll(c, mid);
    if !inputs.fetchOk then Outcome(now, false, true, [], false)
    else if c.obj.None? then Outcome(now, false, false, [], false)
    else if c.obj.value.deleting || !c.obj.value.finalizer then FinalizerPass(now, c.obj.value, inputs.writeOk)
    else if c.obj.value.status.phase == NoPhase then InitPass(now, c.obj.value, inputs.writeOk)
    else WorkPass(now, c.obj.value, inputs)
  }

  // --------------------------------------------------- the pass, as written

  class Store {
    var cluster: Cluster

    constructor (c: Cluster)
      ensures cluster == c
    {
      cluster := c;
    }

    /** Others take their steps. */
    method Land(es: seq<EnvStep>)
      modifies this
      ensures cluster == EnvAll(old(cluster), es)
    {
      for i := 0 to |es|
        invariant cluster == EnvAll(old(cluster), es[..i])
      {
        assert es[..i + 1][..i] == es[..i];
        cluster := Env(cluster, es[i]);
      }
      assert es[..|es|] == es;
    }

    /** Update with the fetched resource version. */
    method Update(fetched: Stored, finalizer: bool, ok: bool) returns (err: bool)
      modifies this
      ensures err == !(ok && Put(old(cluster), fetched, finalizer).Some?)
      ensures cluster == if err then old(cluster) else Put(old(cluster), fetched, finalizer).value
    {
      var put := Put(cluster, fetched, finalizer);
      err := !ok || put.None?;
      if !err { cluster := put.value; }
    }

    method UpdateStatus(status: Status, ok: bool) returns (err: bool)
      requires cluster.obj.Some?
      modifies this
      ensures err == !ok
      ensures cluster == if err then old(cluster) else Committed(old(cluster), status)
    {
      err := !ok;
      if ok { cluster := Committed(cluster, status); }
    }
  }

  method CheckTLSPrerequisites(d: Deployment, detect: Answer) returns (available: bool)
    requires d.spec.tls.Some?
    modifies d
    ensures available == BackendUp(d.spec, detect)
    ensures available <==> detect == Yes && (d.spec.tls.value.mode == Spiffe || d.spec.tls.value.mode == CertManager)
    ensures d.status == WithTLSCheck(d.spec, old(d.status), d.generation, detect)
  {
    match d.spec.tls.value.mode {
      case Spiffe =>
        available := detect == Yes;
        d.SetCondition(SPIFFEAvailable, Truth(available));
        d.SetCondition(TLSReady, Truth(available));
      case CertManager =>
        available := detect == Yes;
        d.SetCondition(CertManagerAvailable, Truth(available));
        d.SetCondition(TLSReady, Truth(available));
      case _ =>
        d.SetCondition(TLSReady, False);
        available := false;
    }
  }

  method ReconcileInfrastructure(d: Deployment, o: Oracle) returns (ready: bool, err: bool, ghost run: TierRun)
    requires d.spec.infrastructure.Some?
    modifies d
    ensures run == InfrastructureTier.Run(o, d.spec.infrastructure.value)
    ensures err == run.err && (ready <==> !run.err && run.status.ready)
    ensures d.status == WithInfrastructure(old(d.status), run.status, d.generation)
  {
    var c := new Client(o);
    var t;
    t, err := InfrastructureTier.Reconcile(c, d.spec.infrastructure.value);
    run := TierRun(t, err, c.log);
    d.status := d.status.(infrastructure := Some(t));
    d.SetCondition(InfrastructureReady, if t.ready then True else False);
    ready := !err && t.ready;
  }

  method ReconcileCore(d: Deployment, o: Oracle) returns (ready: bool, err: bool, ghost run: TierRun)
    modifies d
    ensures run == CoreTier.Run(o, d.spec)
    ensures err == run.err && (ready <==> !run.err && run.status.ready)
    ensures d.status == WithCore(old(d.status), run.status, d.generation)
  {
    var c := new Client(o);
    var t;
    t, err := CoreTier.Reconcile(c, d.spec);
    run := TierRun(t, err, c.log);
    d.status := d.status.(core := Some(t));
    d.SetCondition(CoreReady, if t.ready then True else False);
    ready := !err && t.ready;
  }

  method ReconcileRest(d: Deployment, o: Oracle) returns (ready: bool, err: bool, ghost run: TierRun)
    modifies d
    ensures run == RestTier.Run(o, d.spec)
    ensures err == run.err && (ready <==> !run.err && run.status.ready)
    ensures d.status == WithRest(old(d.status), run.status, d.generation)
  {
    var c := new Client(o);
    var t;
    t, err := RestTier.Reconcile(c, d.spec);
    run := TierRun(t, err, c.log);
    d.status := d.status.(rest := Some(t));
    d.SetCondition(RestReady, if t.ready then True else False);
    ready := !err && t.ready;
  }

  /** Step 7, infrastructure; a failing tier assigns a phase that step 8 overwrites. */
  method StepInfrastructure(d: Deployment, o: Oracle) returns (requeue: bool, err: bool, ghost steps: seq<TierStep>)
    modifies d
    ensures Work(d.status, steps, requeue, err) == AfterInfrastructure(d.spec, d.generation, old(d.status), o)
  {
    requeue, err, steps := false, false, [];
    if d.spec.infrastructure.Some? {
      var tierReady, tierErr;
      ghost var run;
      tierReady, tierErr, run := ReconcileInfrastructure(d, o);
      steps := steps + [TierStep(Infrastructure, run)];
      if tierErr {
        err := true;
        d.status := d.status.(phase := Failed);
      } else if !tierReady {
        requeue := true;
      }
    }
  }

  method StepCore(d: Deployment, o: Oracle, requeueBefore: bool, errBefore: bool, ghost stepsBefore: seq<TierStep>)
    returns (requeue: bool, err: bool, ghost steps: seq<TierStep>)
    modifies d
    ensures Work(d.status, steps, requeue, err)
            == AfterCore(d.spec, d.generation, Work(old(d.status), stepsBefore, requeueBefore, errBefore), o)
  {
    requeue, err, steps := requeueBefore, errBefore, stepsBefore;
    var infraReady := d.spec.infrastructure.None?
        || (d.status.infrastructure.Some? && d.status.infrastructure.value.ready);
    if infraReady {
      var tierReady, tierErr;
      ghost var run;
      tierReady, tierErr, run := ReconcileCore(d, o);
      steps := steps + [TierStep(Core, run)];
      if tierErr {
        err := true;
        d.status := d.status.(phase := Failed);
      } else if !tierReady {
        requeue := true;
      }
    }
  }

  method StepRest(d: Deployment, o: Oracle, requeueBefore: bool, errBefore: bool, ghost stepsBefore: seq<TierStep>)
    returns (requeue: bool, err: bool, ghost steps: seq<TierStep>)
    modifies d
    ensures Work(d.status, steps, requeue, err)
            == AfterRest(d.spec, d.generation, Work(old(d.status), stepsBefore, requeueBefore, errBefore), o)
  {
    requeue, err, steps := requeueBefore, errBefore, stepsBefore;
    var coreReady := d.status.core.Some? && d.status.core.value.ready;
    if d.spec.rest.Some? && d.spec.rest.value.enabled && coreReady {
      var tierReady, tierErr;
      ghost var run;
      tierReady, tierErr, run := ReconcileRest(d, o);
      steps := steps + [TierStep(Rest, run)];
      if tierErr {
        err := true;
        d.status := d.status.(phase := Failed);
      } else if !tierReady {
        requeue := true;
      }
    }
  }

  /** Steps 5 to 8. */
  method Compute(d: Deployment, f: Stored, inputs: Inputs)
    returns (available: bool, requeue: bool, err: bool, ghost steps: seq<TierStep>)
    requires d.spec == f.spec && d.generation == f.generation && d.status == f.status
    modifies d
    ensures Work(d.status, steps, requeue, err) == Computed(f, inputs) && available == BackendUp(f.spec, inputs.detect)
  {
    if d.status.observedGeneration != 0 && d.status.observedGeneration < d.generation && d.status.phase == Ready {
      d.status := d.status.(phase := Updating);
    }
    d.status := d.status.(observedGeneration := d.generation);
    available := true;
    if d.spec.tls.Some? {
      available := CheckTLSPrerequisites(d, inputs.detect);
      if !available {
        d.status := d.status.(phase := Failed);
        d.SetReadyCondition();
        return false, true, false, [];
      }
    }
    requeue, err, steps := StepInfrastructure(d, inputs.infra);
    requeue, err, steps := StepCore(d, inputs.core, requeue, err, steps);
    requeue, err, steps := StepRest(d, inputs.rest, requeue, err, steps);
    d.SetReadyCondition();
  }

  /** Reconcile. */
  method Reconcile(store: Store, inputs: Inputs, mid: seq<EnvStep>)
    returns (requeue: bool, err: bool, ghost steps: seq<TierStep>, ghost wrote: bool)
    modifies store
    ensures Outcome(store.cluster, requeue, err, steps, wrote) == Pass(old(store.cluster), inputs, mid)
  {
    requeue, err, steps, wrote := false, false, [], false;
    var fetched := store.cluster.obj;
    store.Land(mid);
    if !inputs.fetchOk { return false, true, steps, wrote; }
    if fetched.None? { return; }
    var f := fetched.value;

    if f.deleting {
      if !f.finalizer { return; }
      err := store.Update(f, false, inputs.writeOk);
      return;
    }
    if !f.finalizer {
      err := store.Update(f, true, inputs.writeOk);
      requeue := !err;
      return;
    }

    var d := new Deployment(f.spec, f.generation, f.status);
    if d.status.phase == NoPhase {
      d.InitializeConditions();
      requeue := true;
      if store.cluster.obj == fetched {
        var conflict := store.UpdateStatus(d.status, inputs.writeOk);
        wrote := !conflict;
      }
      return;
    }

    var available, requeueRequired, tierErr;
    available, requeueRequired, tierErr, steps := Compute(d, f, inputs);
    var lost := true;
    if inputs.refetchOk && store.cluster.obj.Some? {
      lost := store.UpdateStatus(d.status, inputs.writeOk);
    }
    wrote := !lost;
    if lost {
      // a lost write is an error, except after a failed TLS check
      return !available, available, steps, wrote;
    }
    if tierErr { return true, true, steps, wrote; }
    requeue := requeueRequired;
  }
}
