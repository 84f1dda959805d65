/**
 A reference semantics for one tier of the rollout, independent of the flags and
 early returns of the reconcilers: a tier is a prelude plan followed by a row of
 slots, each slot empty (component not expected) or holding a gate (component,
 prerequisites, plan). The reconcilers of the three tiers are proved against it.
 */
module Gates {
  import opened Api

  // ------------------------------------------------- talking to the cluster

  datatype Kind =
    | Namespace | ServiceAccount | ConfigMap | SecretObject | Service | Deployment | DaemonSet | Job
    | PersistentVolumeClaim | ClusterRoleBinding | Role | RoleBinding
    | PostgresCluster | KeycloakInstance | KeycloakRealmImport | Certificate | ClusterSPIFFEID

  datatype Obj = Obj(kind: Kind, namespace: string, name: string)

  datatype Target =
    | StorageClassNamed(name: string) | PostgresOperator | KeycloakOperator
    | ExternalPostgres(host: string, secrets: set<Obj>) | ExternalTemporal(endpoint: string)

  /** What runs in pods; the spec determines the pod template of each. */
  datatype Workload =
    | APIServer | DHCPServer | PXEServer | DNSServer | RLAServer | PSMServer | VaultHelm | VaultInit
    | TemporalHelm | TemporalInit | RestServer | CloudRunner | SiteRunner | Manager | Agent

  /** One exchange with the cluster: an upsert, plain or of a workload with its pod
      template; a wait for a workload to be rolled out, or for an object that
      depends on others; a secret lookup; an outside check. */
  datatype Call =
    | Write(obj: Obj)
    | Apply(obj: Obj, pod: Workload)
    | Await(obj: Obj, pod: Workload)
    | Probe(obj: Obj, needs: set<Obj>)
    | SecretRead(namespace: string, name: string)
    | Reach(target: Target)

  datatype Answer = Yes | No | Error

  /** What the cluster answers to a call after a given history of calls. Nothing
      ties one answer to another, so every interference by others is covered. */
  type Oracle = (seq<Call>, Call) -> Answer

  datatype Reason =
    | NoInfrastructure | MissingConnection | MissingUserSecret | MissingEndpoint | MissingAddress
    | MissingProvider | UnknownMode | NilDereference

  /** Must: anything but Yes is an error. Poll: No means wait. Hope: anything but
      Yes means wait. Abort and Stall are the outcomes the spec alone decides. */
  datatype Action = Must(call: Call) | Poll(call: Call) | Hope(call: Call) | Abort(why: Reason) | Stall(why: Reason)

  // ------------------------------------------------------------------ plans

  datatype PlanRun = PlanRun(log: seq<Call>, answer: Answer)

  function Step(o: Oracle, log: seq<Call>, a: Action): PlanRun {
    match a
    case Must(c) => PlanRun(log + [c], if o(log, c) == Yes then Yes else Error)
    case Poll(c) => PlanRun(log + [c], o(log, c))
    case Hope(c) => PlanRun(log + [c], if o(log, c) == Yes then Yes else No)
    case Abort(_) => PlanRun(log, Error)
    case Stall(_) => PlanRun(log, No)
  }

  function Then(o: Oracle, r: PlanRun, a: Action): PlanRun {
    if r.answer != Yes then r else Step(o, r.log, a)
  }

  /** The first `k` actions of `plan`, stopping at the first that does not answer Yes. */
  function PlanAfter(o: Oracle, log: seq<Call>, plan: seq<Action>, k: nat): PlanRun
    requires k <= |plan|
  {
    if k == 0 then PlanRun(log, Yes)
    else
      Then(o, PlanAfter(o, log, plan, k - 1), plan[k - 1])
  }

  function RunPlan(o: Oracle, log: seq<Call>, plan: seq<Action>): PlanRun {
    PlanAfter(o, log, plan, |plan|)
  }

  /** The step equations of a short plan, to walk a reconciler along it. */
  lemma PlanUnroll(o: Oracle, log: seq<Call>, plan: seq<Action>)
    ensures PlanAfter(o, log, plan, 0) == PlanRun(log, Yes)
    ensures |plan| >= 1 ==> PlanAfter(o, log, plan, 1) == Step(o, log, plan[0])
    ensures |plan| >= 2 ==> PlanAfter(o, log, plan, 2) == Then(o, PlanAfter(o, log, plan, 1), plan[1])
    ensures |plan| >= 3 ==> PlanAfter(o, log, plan, 3) == Then(o, PlanAfter(o, log, plan, 2), plan[2])
    ensures |plan| >= 4 ==> PlanAfter(o, log, plan, 4) == Then(o, PlanAfter(o, log, plan, 3), plan[3])
    ensures |plan| >= 5 ==> PlanAfter(o, log, plan, 5) == Then(o, PlanAfter(o, log, plan, 4), plan[4])
    ensures |plan| >= 6 ==> PlanAfter(o, log, plan, 6) == Then(o, PlanAfter(o, log, plan, 5), plan[5])
    ensures |plan| >= 7 ==> PlanAfter(o, log, plan, 7) == Then(o, PlanAfter(o, log, plan, 6), plan[6])
  {
  }

  /** How a reconciler's `(ready, err)` pair reads as an answer. */
  function Verdict(ready: bool, err: bool): Answer {
    if err then Error else if ready then Yes else No
  }

  /** A reconciler that started at `before` and returned `(ready, err)` at `after`
      did what `plan` prescribes. */
  ghost predicate Follows(o: Oracle, before: seq<Call>, plan: seq<Action>, after: seq<Call>, ready: bool, err: bool) {
    RunPlan(o, before, plan) == PlanRun(after, Verdict(ready, err)) && !(ready && err)
  }

  lemma {:induction false} PlanStuck(o: Oracle, log: seq<Call>, plan: seq<Action>, k: nat, m: nat)
    requires k <= m <= |plan|
    requires PlanAfter(o, log, plan, k).answer != Yes
    ensures PlanAfter(o, log, plan, m) == PlanAfter(o, log, plan, k)
  {
    if k < m { PlanStuck(o, log, plan, k, m - 1); }
  }

  lemma {:induction false} PlanPrefix(o: Oracle, log: seq<Call>, a: seq<Action>, b: seq<Action>, k: nat)
    requires k <= |a|
    ensures PlanAfter(o, log, a + b, k) == PlanAfter(o, log, a, k)
  {
    if k > 0 {
      PlanPrefix(o, log, a, b, k - 1);
      assert (a + b)[k - 1] == a[k - 1];
    }
  }

  lemma {:induction false} PlanSuffix(o: Oracle, log: seq<Call>, a: seq<Action>, b: seq<Action>, k: nat)
    requires k <= |b|
    ensures var r := RunPlan(o, log, a);
            PlanAfter(o, log, a + b, |a| + k) == if r.answer != Yes then r else PlanAfter(o, r.log, b, k)
  {
    if k == 0 {
      PlanPrefix(o, log, a, b, |a|);
    } else {
      PlanSuffix(o, log, a, b, k - 1);
      assert (a + b)[|a| + k - 1] == b[k - 1];
    }
  }

  /** Running a concatenation is running the parts in turn. */
  lemma PlanConcat(o: Oracle, log: seq<Call>, a: seq<Action>, b: seq<Action>)
    ensures var r := RunPlan(o, log, a);
            RunPlan(o, log, a + b) == if r.answer != Yes then r else RunPlan(o, r.log, b)
  {
    PlanSuffix(o, log, a, b, |b|);
  }

  predicate Blocked(a: Action) { a.Abort? || a.Stall? }

  predicate Issues(a: Action, c: Call) { !Blocked(a) && a.call == c }

  /** A plan that got past action `i` had issued it, been answered Yes, and kept
      that exchange at its place in the log; in particular it was not blocked. */
  lemma {:induction false} PlanDone(o: Oracle, log: seq<Call>, plan: seq<Action>, k: nat, i: nat)
    requires i < k <= |plan| && PlanAfter(o, log, plan, k).answer == Yes
    ensures !Blocked(plan[i])
    ensures var l := PlanAfter(o, log, plan, i).log;
            && |l| == |log| + i && o(l, plan[i].call) == Yes
            && l + [plan[i].call] <= PlanAfter(o, log, plan, k).log
  {
    if i < k - 1 {
      PlanDone(o, log, plan, k - 1, i);
    } else if i > 0 {
      PlanDone(o, log, plan, i, i - 1);
      assert |PlanAfter(o, log, plan, i).log| == |PlanAfter(o, log, plan, i - 1).log| + 1;
    }
  }

  /** A plan only ever appends calls it contains. */
  lemma {:induction false} PlanLog(o: Oracle, log: seq<Call>, plan: seq<Action>, k: nat)
    requires k <= |plan|
    ensures log <= PlanAfter(o, log, plan, k).log
    ensures var l := PlanAfter(o, log, plan, k).log;
            forall i | |log| <= i < |l| :: exists j | 0 <= j < |plan| :: Issues(plan[j], l[i])
  {
    if k > 0 {
      PlanLog(o, log, plan, k - 1);
      var l0, l := PlanAfter(o, log, plan, k - 1).log, PlanAfter(o, log, plan, k).log;
      forall i | |log| <= i < |l| ensures exists j | 0 <= j < |plan| :: Issues(plan[j], l[i]) {
        if i < |l0| {
          assert l[i] == l0[i];
        } else {
          assert Issues(plan[k - 1], l[i]);
        }
      }
    }
  }

  // ---------------------------------------------------------- gate networks

  /** `reported`: the component appears in the tier status. `reportsFailure`: it
      appears there also when its reconciliation failed. */
  datatype Gate = Gate(
    name: Component, reported: bool, reportsFailure: bool, needs: set<Component>, plan: seq<Action>)

  datatype Net = Net(log: seq<Call>, components: seq<ComponentStatus>, ready: set<Component>, failed: bool)

  type Slot = Option<Gate>

  function Opt(expected: bool, g: Gate): Slot { if expected then Some(g) else None }

  function RunSlot(o: Oracle, n: Net, s: Slot): Net {
    if n.failed || s.None? || !(s.value.needs <= n.ready) then n
    else
      var g := s.value;
      var r := RunPlan(o, n.log, g.plan);
      var entry := if g.reported && (r.answer != Error || g.reportsFailure)
                   then [ComponentStatus(g.name, r.answer == Yes)] else [];
      Net(r.log, n.components + entry, if r.answer == Yes then n.ready + {g.name} else n.ready, r.answer == Error)
  }

  function NetAfter(o: Oracle, n: Net, slots: seq<Slot>, k: nat): Net
    requires k <= |slots|
  {
    if k == 0 then n else RunSlot(o, NetAfter(o, n, slots, k - 1), slots[k - 1])
  }

  predicate AllReady(slots: seq<Slot>, ready: set<Component>) {
    forall i | 0 <= i < |slots| :: slots[i].Some? ==> slots[i].value.name in ready
  }

  datatype TierRun = TierRun(status: TierStatus, err: bool, log: seq<Call>)

  const START := Net([], [], {}, false)

  function RunTier(o: Oracle, prelude: seq<Action>, slots: seq<Slot>): TierRun {
    var p := RunPlan(o, [], prelude);
    if p.answer != Yes then TierRun(TierStatus(false, []), p.answer == Error, p.log)
    else
      var n := NetAfter(o, START.(log := p.log), slots, |slots|);
      TierRun(TierStatus(!n.failed && AllReady(slots, n.ready), n.components), n.failed, n.log)
  }

  lemma {:induction false} NetStuck(o: Oracle, n: Net, slots: seq<Slot>, k: nat, m: nat)
    requires k <= m <= |slots| && NetAfter(o, n, slots, k).failed
    ensures NetAfter(o, n, slots, m) == NetAfter(o, n, slots, k)
  {
    if k < m { NetStuck(o, n, slots, k, m - 1); }
  }

  /** The network stands before slot `k` with this log and these entries. */
  ghost predicate Standing(o: Oracle, n: Net, slots: seq<Slot>, k: nat, log: seq<Call>,
      components: seq<ComponentStatus>)
    requires k <= |slots|
  {
    var m := NetAfter(o, n, slots, k);
    m.log == log && m.components == components && !m.failed
  }

  /** The network has failed with this log and these entries. */
  ghost predicate Broken(o: Oracle, n: Net, slots: seq<Slot>, log: seq<Call>, components: seq<ComponentStatus>) {
    var m := NetAfter(o, n, slots, |slots|);
    m.log == log && m.components == components && m.failed
  }

  /** A component that was reconciled and then reported. */
  lemma SlotRan(o: Oracle, n: Net, slots: seq<Slot>, k: nat, log: seq<Call>, components: seq<ComponentStatus>,
                after: seq<Call>, ready: bool, err: bool)
    requires k < |slots| && slots[k].Some? && Standing(o, n, slots, k, log, components)
    requires slots[k].value.needs <= NetAfter(o, n, slots, k).ready
    requires Follows(o, log, slots[k].value.plan, after, ready, err)
    ensures var g, m, m' := slots[k].value, NetAfter(o, n, slots, k), NetAfter(o, n, slots, k + 1);
            var components' := if g.reported && (!err || g.reportsFailure)
                               then components + [ComponentStatus(g.name, ready)] else components;
            && m'.ready == (if ready then m.ready + {g.name} else m.ready)
            && (!err ==> Standing(o, n, slots, k + 1, after, components'))
            && (err ==> Broken(o, n, slots, after, components'))
  {
    if err { NetStuck(o, n, slots, k + 1, |slots|); }
  }

  /** A component that was not expected, or whose prerequisites were not ready. */
  lemma SlotSkipped(o: Oracle, n: Net, slots: seq<Slot>, k: nat, log: seq<Call>, components: seq<ComponentStatus>)
    requires k < |slots| && Standing(o, n, slots, k, log, components)
    requires slots[k].None? || !(slots[k].value.needs <= NetAfter(o, n, slots, k).ready)
    ensures Standing(o, n, slots, k + 1, log, components)
    ensures NetAfter(o, n, slots, k + 1).ready == NetAfter(o, n, slots, k).ready
  {
  }

  // ------------------------------------------------ exactness of the status

  /** Position of a component in its tier. */
  function Rank(c: Component): nat {
    match c
    case PostgreSQL => 0
    case Migration => 0 case API => 1 case DHCP => 2 case PXE => 3
    case DNS => 4 case Vault => 5 case RLA => 6 case PSM => 7
    case Temporal => 0 case Keycloak => 1 case TemporalSetup => 2 case RestAPI => 3
    case CloudWorker => 4 case SiteWorker => 5 case SiteManager => 6 case SiteAgent => 7
  }

  predicate Expected(slots: seq<Slot>, c: Component) {
    Rank(c) < |slots| && slots[Rank(c)].Some? && slots[Rank(c)].value.name == c
  }

  /** Gates sit at their rank, need only gates before them, and every gate left
      out of the status is needed by one that is reported. */
  predicate WellFormed(slots: seq<Slot>) {
    && (forall i | 0 <= i < |slots| :: slots[i].Some? ==> Rank(slots[i].value.name) == i)
    && (forall i, d | 0 <= i < |slots| && slots[i].Some? && d in slots[i].value.needs ::
          Expected(slots, d) && Rank(d) < i)
    && (forall i | 0 <= i < |slots| && slots[i].Some? && !slots[i].value.reported ::
          exists j | 0 <= j < |slots| && slots[j].Some? ::
            slots[j].value.reported && slots[i].value.name in slots[j].value.needs)
  }

  /** What is ready is expected, and so are its prerequisites. */
  ghost predicate ReadyInv(slots: seq<Slot>, n: Net, k: nat) {
    forall c | c in n.ready :: Expected(slots, c) && Rank(c) < k && slots[Rank(c)].value.needs <= n.ready
  }

  /** A reported entry belongs to an expected gate whose prerequisites are ready,
      and its flag is the truth. */
  ghost predicate Sound(slots: seq<Slot>, n: Net, k: nat, e: ComponentStatus) {
    && Expected(slots, e.name) && Rank(e.name) < k
    && slots[Rank(e.name)].value.reported
    && slots[Rank(e.name)].value.needs <= n.ready
    && (e.ready <==> e.name in n.ready)
  }

  ghost predicate EntriesInv(slots: seq<Slot>, n: Net, k: nat) {
    forall i | 0 <= i < |n.components| :: Sound(slots, n, k, n.components[i])
  }

  predicate InOrder(components: seq<ComponentStatus>) {
    forall i, j | 0 <= i < j < |components| :: Rank(components[i].name) < Rank(components[j].name)
  }

  predicate Appears(components: seq<ComponentStatus>, c: Component) {
    exists i | 0 <= i < |components| :: components[i].name == c
  }

  /** Until a failure, every reported gate whose prerequisites are ready has an entry. */
  ghost predicate CoveredInv(slots: seq<Slot>, n: Net, k: nat)
    requires k <= |slots|
  {
    && (forall c | c in n.ready :: Expected(slots, c) && (slots[Rank(c)].value.reported ==> Appears(n.components, c)))
    && (!n.failed ==> forall i | 0 <= i < k ::
          slots[i].Some? && slots[i].value.reported && slots[i].value.needs <= n.ready
          ==> Appears(n.components, slots[i].value.name))
  }

  /** A failure leaves some expected gate unready. */
  ghost predicate FailedInv(slots: seq<Slot>, n: Net, k: nat)
    requires k <= |slots|
  {
    n.failed ==> exists i | 0 <= i < k :: slots[i].Some? && slots[i].value.name !in n.ready
  }

  ghost predicate NetInv(slots: seq<Slot>, n: Net, k: nat)
    requires k <= |slots|
  {
    && ReadyInv(slots, n, k) && EntriesInv(slots, n, k) && InOrder(n.components)
    && CoveredInv(slots, n, k) && FailedInv(slots, n, k)
  }

  lemma {:induction false} NetKeepsInv(o: Oracle, n: Net, slots: seq<Slot>, k: nat)
    requires WellFormed(slots) && k <= |slots|
    requires n.components == [] && n.ready == {} && !n.failed
    ensures NetInv(slots, NetAfter(o, n, slots, k), k)
  {
    if k > 0 {
      NetKeepsInv(o, n, slots, k - 1);
      SlotKeepsInv(o, NetAfter(o, n, slots, k - 1), slots, k - 1);
    }
  }

  lemma SlotKeepsInv(o: Oracle, n: Net, slots: seq<Slot>, k: nat)
    requires WellFormed(slots) && k < |slots| && NetInv(slots, n, k)
    ensures NetInv(slots, RunSlot(o, n, slots[k]), k + 1)
  {
    if n.failed || slots[k].None? || !(slots[k].value.needs <= n.ready) {
      IdleKeepsInv(n, slots, k);
    } else {
      GateKeepsInv(n, slots, k, RunSlot(o, n, slots[k]), RunPlan(o, n.log, slots[k].value.plan).answer);
    }
  }

  lemma IdleKeepsInv(n: Net, slots: seq<Slot>, k: nat)
    requires k < |slots| && NetInv(slots, n, k)
    requires n.failed || slots[k].None? || !(slots[k].value.needs <= n.ready)
    ensures NetInv(slots, n, k + 1)
  {
    forall i | 0 <= i < |n.components| ensures Sound(slots, n, k + 1, n.components[i]) {
      assert Sound(slots, n, k, n.components[i]);
    }
  }

  lemma GateKeepsInv(n: Net, slots: seq<Slot>, k: nat, n': Net, answer: Answer)
    requires WellFormed(slots) && k < |slots| && NetInv(slots, n, k)
    requires !n.failed && slots[k].Some? && slots[k].value.needs <= n.ready
    requires var g := slots[k].value;
             && n'.components == n.components + (if g.reported && (answer != Error || g.reportsFailure)
                                                 then [ComponentStatus(g.name, answer == Yes)] else [])
             && n'.ready == (if answer == Yes then n.ready + {g.name} else n.ready)
             && n'.failed == (answer == Error)
    ensures NetInv(slots, n', k + 1)
  {
    var g := slots[k].value;
    assert g.name !in n.ready;
    assert EntriesInv(slots, n', k + 1) by {
      forall i | 0 <= i < |n'.components| ensures Sound(slots, n', k + 1, n'.components[i]) {
        if i < |n.components| { assert Sound(slots, n, k, n.components[i]); }
      }
    }
    assert InOrder(n'.components) by {
      forall i | 0 <= i < |n.components| ensures Rank(n.components[i].name) < k {
        assert Sound(slots, n, k, n.components[i]);
      }
    }
    AppearsGrows(n.components, n'.components);
    if |n'.components| > |n.components| { assert n'.components[|n.components|].name == g.name; }
    CoveredStep(n, slots, k, n');
  }

  lemma AppearsGrows(a: seq<ComponentStatus>, b: seq<ComponentStatus>)
    requires a <= b
    ensures forall c :: Appears(a, c) ==> Appears(b, c)
  {
    forall c | Appears(a, c) ensures Appears(b, c) {
      var i :| 0 <= i < |a| && a[i].name == c;
      assert b[i].name == c;
    }
  }

  lemma CoveredStep(n: Net, slots: seq<Slot>, k: nat, n': Net)
    requires WellFormed(slots) && k < |slots| && CoveredInv(slots, n, k) && slots[k].Some? && !n.failed
    requires n'.ready == n.ready || n'.ready == n.ready + {slots[k].value.name}
    requires forall c :: Appears(n.components, c) ==> Appears(n'.components, c)
    requires slots[k].value.reported && (!n'.failed || n'.ready != n.ready)
             ==> Appears(n'.components, slots[k].value.name)
    ensures CoveredInv(slots, n', k + 1)
  {
    if !n'.failed {
      forall i | 0 <= i < k + 1 && slots[i].Some? && slots[i].value.reported && slots[i].value.needs <= n'.ready
        ensures Appears(n'.components, slots[i].value.name)
      {
        if i < k {
          forall d | d in slots[i].value.needs ensures d in n.ready { assert Rank(d) < i; }
        }
      }
    }
  }

  // ------------------------------------------------------ the tier theorems

  /** The status the documentation promises: every expected reported component
      has an entry and every entry is ready. */
  ghost predicate AllReported(slots: seq<Slot>, components: seq<ComponentStatus>) {
    && (forall i | 0 <= i < |slots| && slots[i].Some? && slots[i].value.reported ::
          Appears(components, slots[i].value.name))
    && (forall i | 0 <= i < |components| :: components[i].ready)
  }

  /** An entry tells the truth about a network: it stands for an expected gate,
      and every prerequisite of that gate that is itself reported stands before
      it, ready. */
  ghost predicate Prerequisites(slots: seq<Slot>, components: seq<ComponentStatus>) {
    forall i | 0 <= i < |components| ::
      && Expected(slots, components[i].name) && slots[Rank(components[i].name)].value.reported
      && forall d |
           d in slots[Rank(components[i].name)].value.needs && Expected(slots, d) && slots[Rank(d)].value.reported ::
           exists j | 0 <= j < i :: components[j] == ComponentStatus(d, true)
  }

  lemma NetReadyIsReported(slots: seq<Slot>, n: Net)
    requires WellFormed(slots) && NetInv(slots, n, |slots|)
    ensures !n.failed && AllReady(slots, n.ready) <==> AllReported(slots, n.components)
  {
    if !n.failed && AllReady(slots, n.ready) {
      forall i | 0 <= i < |n.components| ensures n.components[i].ready {
        assert Sound(slots, n, |slots|, n.components[i]);
      }
    }
    if AllReported(slots, n.components) {
      forall i | 0 <= i < |slots| && slots[i].Some? ensures slots[i].value.name in n.ready {
        if slots[i].value.reported {
          ReportedReady(slots, n, slots[i].value.name);
        } else {
          var j :| 0 <= j < |slots| && slots[j].Some? && slots[j].value.reported
              && slots[i].value.name in slots[j].value.needs;
          ReportedReady(slots, n, slots[j].value.name);
        }
      }
    }
  }

  lemma ReportedReady(slots: seq<Slot>, n: Net, c: Component)
    requires NetInv(slots, n, |slots|) && AllReported(slots, n.components) && Appears(n.components, c)
    ensures c in n.ready && Expected(slots, c) && slots[Rank(c)].value.needs <= n.ready
  {
    var e :| 0 <= e < |n.components| && n.components[e].name == c;
    assert Sound(slots, n, |slots|, n.components[e]);
  }

  lemma NetPrerequisites(slots: seq<Slot>, n: Net, k: nat)
    requires WellFormed(slots) && k <= |slots| && NetInv(slots, n, k)
    ensures Prerequisites(slots, n.components)
  {
    forall i | 0 <= i < |n.components|
      ensures Expected(slots, n.components[i].name) && slots[Rank(n.components[i].name)].value.reported
    {
      assert Sound(slots, n, k, n.components[i]);
    }
    forall i, d | 0 <= i < |n.components| && Expected(slots, n.components[i].name)
                  && d in slots[Rank(n.components[i].name)].value.needs && Expected(slots, d)
                     && slots[Rank(d)].value.reported
      ensures exists j | 0 <= j < i :: n.components[j] == ComponentStatus(d, true)
    {
      assert Sound(slots, n, k, n.components[i]);
      assert d in n.ready;
      var j :| 0 <= j < |n.components| && n.components[j].name == d;
      assert Sound(slots, n, k, n.components[j]);
      assert Rank(d) < Rank(n.components[i].name);
      assert n.components[j] == ComponentStatus(d, true);
    }
  }

  predicate SomethingExpected(slots: seq<Slot>) {
    exists i | 0 <= i < |slots| :: slots[i].Some? && slots[i].value.reported
  }

  /** The tier status is exact, for every answer the cluster may give: Ready means
      precisely that all expected components are listed and ready (no skipped step
      passes for a ready one), components are listed once and in order, only after
      their prerequisites, and an error never comes with Ready. */
  lemma TierExact(o: Oracle, prelude: seq<Action>, slots: seq<Slot>)
    requires WellFormed(slots) && SomethingExpected(slots)
    ensures var t := RunTier(o, prelude, slots);
            && (t.status.ready <==> AllReported(slots, t.status.components))
            && (t.err ==> !t.status.ready)
            && InOrder(t.status.components)
            && Prerequisites(slots, t.status.components)
  {
    var p := RunPlan(o, [], prelude);
    if p.answer == Yes {
      var n := NetAfter(o, START.(log := p.log), slots, |slots|);
      NetKeepsInv(o, START.(log := p.log), slots, |slots|);
      NetPrerequisites(slots, n, |slots|);
      NetReadyIsReported(slots, n);
    }
  }

  /** A tier status read through the component list alone: it is Ready exactly
      when every wanted component is listed and every listed one is ready; nothing
      unwanted is listed, nothing is listed twice, and what must come before a
      component is listed before it, ready. */
  ghost predicate StatusExact(wanted: Component -> bool, before: Component -> set<Component>, s: TierStatus) {
    && (s.ready <==> (forall c :: wanted(c) ==> Appears(s.components, c))
                     && (forall i | 0 <= i < |s.components| :: s.components[i].ready))
    && (forall i | 0 <= i < |s.components| :: wanted(s.components[i].name))
    && (forall i, j | 0 <= i < j < |s.components| :: s.components[i].name != s.components[j].name)
    && (forall i, d | 0 <= i < |s.components| && d in before(s.components[i].name) :: ReadyBefore(s.components, i, d))
  }

  predicate ReadyBefore(components: seq<ComponentStatus>, i: nat, c: Component)
    requires i < |components|
  {
    exists j | 0 <= j < i :: components[j] == ComponentStatus(c, true)
  }

  lemma TierStatusExact(o: Oracle, prelude: seq<Action>, slots: seq<Slot>, wanted: Component -> bool,
      before: Component -> set<Component>)
    requires WellFormed(slots) && SomethingExpected(slots)
    requires forall c :: wanted(c) <==> Expected(slots, c) && slots[Rank(c)].value.reported
    requires forall c, d | wanted(c) && d in before(c) ::
               Expected(slots, c) && d in slots[Rank(c)].value.needs && wanted(d)
    ensures var t := RunTier(o, prelude, slots);
            StatusExact(wanted, before, t.status) && (t.err ==> !t.status.ready)
  {
    TierExact(o, prelude, slots);
    var s := RunTier(o, prelude, slots).status;
    forall i, d | 0 <= i < |s.components| && d in before(s.components[i].name) ensures ReadyBefore(s.components, i, d) {
      assert d in slots[Rank(s.components[i].name)].value.needs && wanted(d);
    }
    if (forall c :: wanted(c) ==> Appears(s.components, c))
        && (forall i | 0 <= i < |s.components| :: s.components[i].ready) {
      forall i | 0 <= i < |slots| && slots[i].Some? && slots[i].value.reported
        ensures Appears(s.components, slots[i].value.name)
      {
        assert wanted(slots[i].value.name);
      }
      assert AllReported(slots, s.components);
    }
  }
}
