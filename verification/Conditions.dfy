/** The condition list and the summary of a deployment's status. */
module Conditions {
  import opened Api

  // --------------------------------------------- the list, keyed by its type

  function SetStatusCondition(cs: seq<Condition>, c: Condition): seq<Condition> {
    if cs == [] then [c]
    else if cs[0].ctype == c.ctype then [c] + cs[1..]
    else [cs[0]] + SetStatusCondition(cs[1..], c)
  }

  function FindStatusCondition(cs: seq<Condition>, t: ConditionType): Option<Condition> {
    if cs == [] then None else if cs[0].ctype == t then Some(cs[0]) else FindStatusCondition(cs[1..], t)
  }

  predicate IsConditionTrue(cs: seq<Condition>, t: ConditionType) {
    var c := FindStatusCondition(cs, t);
    c.Some? && c.value.status == True
  }

  predicate UniqueTypes(cs: seq<Condition>) {
    forall i, j | 0 <= i < j < |cs| :: cs[i].ctype != cs[j].ctype
  }

  /** A set condition is found, every other lookup is unchanged. */
  lemma {:induction false} FindAfterSet(cs: seq<Condition>, c: Condition, t: ConditionType)
    ensures FindStatusCondition(SetStatusCondition(cs, c), t)
            == if t == c.ctype then Some(c) else FindStatusCondition(cs, t)
  {
    if cs != [] {
      if cs[0].ctype == c.ctype {
        assert ([c] + cs[1..])[1..] == cs[1..];
      } else {
        var rest := SetStatusCondition(cs[1..], c);
        assert ([cs[0]] + rest)[1..] == rest;
        FindAfterSet(cs[1..], c, t);
      }
    }
  }

  lemma {:induction false} SetKeepsTypes(cs: seq<Condition>, c: Condition)
    ensures |SetStatusCondition(cs, c)| >= |cs|
    ensures forall i | 0 <= i < |cs| :: SetStatusCondition(cs, c)[i].ctype == cs[i].ctype
    ensures forall i | |cs| <= i < |SetStatusCondition(cs, c)| :: SetStatusCondition(cs, c)[i] == c
    ensures |SetStatusCondition(cs, c)| <= |cs| + 1
    ensures |SetStatusCondition(cs, c)| > |cs| ==> forall i | 0 <= i < |cs| :: cs[i].ctype != c.ctype
  {
    if cs != [] && cs[0].ctype != c.ctype { SetKeepsTypes(cs[1..], c); }
  }

  /** Setting a condition never duplicates a type. */
  lemma SetKeepsUnique(cs: seq<Condition>, c: Condition)
    requires UniqueTypes(cs)
    ensures UniqueTypes(SetStatusCondition(cs, c))
  {
    SetKeepsTypes(cs, c);
  }

  // ------------------------------------------------------- status transitions

  function WithCondition(s: Status, t: ConditionType, v: ConditionStatus, generation: int): Status {
    s.(conditions := SetStatusCondition(s.conditions, Condition(t, v, generation)))
  }

  function Truth(b: bool): ConditionStatus { if b then True else False }

  function WithInfrastructure(s: Status, t: TierStatus, generation: int): Status {
    WithCondition(s.(infrastructure := Some(t)), InfrastructureReady, Truth(t.ready), generation)
  }

  function WithCore(s: Status, t: TierStatus, generation: int): Status {
    WithCondition(s.(core := Some(t)), CoreReady, Truth(t.ready), generation)
  }

  function WithRest(s: Status, t: TierStatus, generation: int): Status {
    WithCondition(s.(rest := Some(t)), RestReady, Truth(t.ready), generation)
  }

  /** The overall phase: one fixed function of the spec, whether the TLS backend
      is known to be up, and the three tier statuses. */
  function Summary(spec: Spec, tlsUp: bool, s: Status): Phase {
    if spec.tls.Some? && !tlsUp then Failed
    else if (spec.infrastructure.None? || TierUp(s.infrastructure)) && TierUp(s.core)
        && (spec.rest.None? || TierUp(s.rest))
    then Ready
    else Provisioning
  }

  function WithSummary(spec: Spec, s: Status, generation: int): Status {
    var phase := Summary(spec, IsConditionTrue(s.conditions, TLSReady), s);
    WithCondition(s, ReadyCondition, Truth(phase == Ready), generation).(phase := phase)
  }

  function When(cond: bool, s: Status, t: ConditionType, generation: int): Status {
    if cond then WithCondition(s, t, Unknown, generation) else s
  }

  function Initialized(spec: Spec, s: Status, generation: int): Status {
    var s1 := WithCondition(s, ReadyCondition, Unknown, generation);
    var s2 := When(spec.infrastructure.Some?, s1, InfrastructureReady, generation);
    var s3 := WithCondition(s2, CoreReady, Unknown, generation);
    var s4 := When(RestEnabled(spec), s3, RestReady, generation);
    var s5 := When(spec.tls.Some?, s4, TLSReady, generation);
    var s6 := When(IsSpiffeMode(spec), s5, SPIFFEAvailable, generation);
    var s7 := When(IsCertManagerMode(spec), s6, CertManagerAvailable, generation);
    var s8 := When(spec.core.vault.Some?, s7, VaultReady, generation);
    var s9 := When(Enabled(spec.core.rla), s8, RLAReady, generation);
    When(Enabled(spec.core.psm), s9, PSMReady, generation).(phase := Pending)
  }

  // ------------------------------------------------- the in-memory deployment

  /** The copy of the object a reconcile pass works on. */
  class Deployment {
    const spec: Spec
    const generation: int
    var status: Status

    constructor (spec: Spec, generation: int, status: Status)
      ensures this.spec == spec && this.generation == generation && this.status == status
    {
      this.spec, this.generation, this.status := spec, generation, status;
    }

    method SetCondition(t: ConditionType, v: ConditionStatus)
      modifies this
      ensures status == WithCondition(old(status), t, v, generation)
    {
      status := status.(conditions := SetStatusCondition(status.conditions, Condition(t, v, generation)));
    }

    method SetReadyCondition()
      modifies this
      ensures status == WithSummary(spec, old(status), generation)
    {
      var tlsReady := IsConditionTrue(status.conditions, TLSReady);
      if spec.tls.Some? && !tlsReady {
        SetCondition(ReadyCondition, False);
        status := status.(phase := Failed);
        return;
      }
      var infraReady := spec.infrastructure.None? || (status.infrastructure.Some? && status.infrastructure.value.ready);
      var coreReady := status.core.Some? && status.core.value.ready;
      var restReady := spec.rest.None? || (status.rest.Some? && status.rest.value.ready);
      if infraReady && coreReady && restReady {
        SetCondition(ReadyCondition, True);
        status := status.(phase := Ready);
      } else {
        SetCondition(ReadyCondition, False);
        status := status.(phase := Provisioning);
      }
    }

    method InitializeConditions()
      modifies this
      ensures status == Initialized(spec, old(status), generation)
    {
      SetCondition(ReadyCondition, Unknown);
      if spec.infrastructure.Some? { SetCondition(InfrastructureReady, Unknown); }
      SetCondition(CoreReady, Unknown);
      if spec.rest.Some? && spec.rest.value.enabled { SetCondition(RestReady, Unknown); }
      if spec.tls.Some? {
        SetCondition(TLSReady, Unknown);
        match spec.tls.value.mode {
          case Spiffe => SetCondition(SPIFFEAvailable, Unknown);
          case CertManager => SetCondition(CertManagerAvailable, Unknown);
          case _ =>
        }
      }
      if spec.core.vault.Some? { SetCondition(VaultReady, Unknown); }
      if spec.core.rla.Some? && spec.core.rla.value.enabled { SetCondition(RLAReady, Unknown); }
      if spec.core.psm.Some? && spec.core.psm.value.enabled { SetCondition(PSMReady, Unknown); }
      status := status.(phase := Pending);
    }
  }
}
