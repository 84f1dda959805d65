/** The API-server connection a tier reconciler holds, with the calls it has made. */
module Clients {
  import opened Gates

  class Client {
    const oracle: Oracle
    var log: seq<Call>

    constructor (o: Oracle)
      ensures oracle == o && log == []
    {
      oracle := o;
      log := [];
    }

    method Ask(c: Call) returns (a: Answer)
      modifies this
      ensures log == old(log) + [c] && a == oracle(old(log), c)
    {
      a := oracle(log, c);
      log := log + [c];
    }

    /** createOrUpdate and ensureNamespace, as their callers see them. */
    method CreateOrUpdate(obj: Obj) returns (err: bool)
      modifies this
      ensures Step(oracle, old(log), Must(Write(obj))) == PlanRun(log, Verdict(true, err))
    {
      var a := Ask(Write(obj));
      err := a != Yes;
    }

    /** createOrUpdate of a workload: the pod template goes along. */
    method Deploy(obj: Obj, pod: Workload) returns (err: bool)
      modifies this
      ensures Step(oracle, old(log), Must(Apply(obj, pod))) == PlanRun(log, Verdict(true, err))
    {
      var a := Ask(Apply(obj, pod));
      err := a != Yes;
    }

    /** IsDeploymentReady, IsDaemonSetReady and IsJobComplete of an own workload. */
    method IsRolledOut(obj: Obj, pod: Workload) returns (ready: bool, err: bool)
      modifies this
      ensures Step(oracle, old(log), Poll(Await(obj, pod))) == PlanRun(log, Verdict(ready, err))
      ensures !(ready && err)
    {
      var a := Ask(Await(obj, pod));
      ready, err := a == Yes, a == Error;
    }

    /** IsPVCBound and its kind, on what others bring about from `needs`. */
    method IsReady(obj: Obj, needs: set<Obj>) returns (ready: bool, err: bool)
      modifies this
      ensures Step(oracle, old(log), Poll(Probe(obj, needs))) == PlanRun(log, Verdict(ready, err))
      ensures !(ready && err)
    {
      var a := Ask(Probe(obj, needs));
      ready, err := a == Yes, a == Error;
    }

    /** IsSecretAvailable. */
    method IsSecretAvailable(namespace: string, name: string) returns (available: bool, err: bool)
      modifies this
      ensures Step(oracle, old(log), Poll(SecretRead(namespace, name))) == PlanRun(log, Verdict(available, err))
      ensures !(available && err)
    {
      var a := Ask(SecretRead(namespace, name));
      available, err := a == Yes, a == Error;
    }

    /** A Get of a secret whose absence is an error to the reader. */
    method ReadSecret(namespace: string, name: string) returns (err: bool)
      modifies this
      ensures Step(oracle, old(log), Must(SecretRead(namespace, name))) == PlanRun(log, Verdict(true, err))
    {
      var a := Ask(SecretRead(namespace, name));
      err := a != Yes;
    }

    /** The Validate* helpers: installed operators, storage classes, outside endpoints;
        that of PostgreSQL also reads the secret of every user. */
    method Validate(target: Target) returns (err: bool)
      modifies this
      ensures Step(oracle, old(log), Must(Reach(target))) == PlanRun(log, Verdict(true, err))
    {
      var a := Ask(Reach(target));
      err := a != Yes;
    }
  }
}
