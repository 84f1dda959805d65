/** What the log of a tier shows: which exchanges stand behind a ready component, what
    came before each call, and which answers make a tier fail. */
module Logs {
  import opened Api
  import opened Gates

  /** Position `i` of the log was answered Yes. */
  predicate Passed(o: Oracle, log: seq<Call>, i: nat)
    requires i < |log|
  {
    o(log[..i], log[i]) == Yes
  }

  /** The first `k` calls of `plan` stand in the log from `b` on, each answered Yes. */
  ghost predicate DoneUpTo(o: Oracle, log: seq<Call>, plan: seq<Action>, k: nat, b: nat)
    requires k <= |plan|
  {
    && b + k <= |log|
    && forall i | 0 <= i < k :: !Blocked(plan[i]) && log[b + i] == plan[i].call && Passed(o, log, b + i)
  }

  ghost predicate DoneAt(o: Oracle, log: seq<Call>, plan: seq<Action>, b: nat) {
    DoneUpTo(o, log, plan, |plan|, b)
  }

  ghost predicate Done(o: Oracle, log: seq<Call>, plan: seq<Action>) { exists b: nat :: DoneAt(o, log, plan, b) }

  ghost predicate Answered(o: Oracle, log: seq<Call>, c: Call) {
    exists i | 0 <= i < |log| :: log[i] == c && Passed(o, log, i)
  }

  /** `c` was answered Yes, and later `d`. */
  ghost predicate Followed(o: Oracle, log: seq<Call>, c: Call, d: Call) {
    exists i, j | 0 <= i < j < |log| :: log[i] == c && Passed(o, log, i) && log[j] == d && Passed(o, log, j)
  }

  /** The workload was applied, and later seen rolled out. */
  ghost predicate RolledOut(o: Oracle, log: seq<Call>, w: Obj, pod: Workload) {
    Followed(o, log, Apply(w, pod), Await(w, pod))
  }

  lemma DoneUpToGrows(o: Oracle, log: seq<Call>, more: seq<Call>, plan: seq<Action>, k: nat, b: nat)
    requires k <= |plan| && DoneUpTo(o, log, plan, k, b) && log <= more
    ensures DoneUpTo(o, more, plan, k, b)
  {
    forall i | 0 <= i < k ensures !Blocked(plan[i]) && more[b + i] == plan[i].call && Passed(o, more, b + i) {
      assert log[b + i] == plan[i].call && more[..b + i] == log[..b + i];
    }
  }

  lemma DoneGrows(o: Oracle, log: seq<Call>, more: seq<Call>, plan: seq<Action>)
    requires Done(o, log, plan) && log <= more
    ensures Done(o, more, plan)
  {
    var b: nat :| DoneAt(o, log, plan, b);
    DoneUpToGrows(o, log, more, plan, |plan|, b);
    assert DoneAt(o, more, plan, b);
  }

  lemma DoneAnswered(o: Oracle, log: seq<Call>, plan: seq<Action>, i: nat)
    requires Done(o, log, plan) && i < |plan|
    ensures !Blocked(plan[i]) && Answered(o, log, plan[i].call)
  {
    var b: nat :| DoneAt(o, log, plan, b);
    assert log[b + i] == plan[i].call && Passed(o, log, b + i);
  }

  lemma DoneFollowed(o: Oracle, log: seq<Call>, plan: seq<Action>, i: nat, j: nat)
    requires Done(o, log, plan) && i < j < |plan|
    ensures !Blocked(plan[i]) && !Blocked(plan[j]) && Followed(o, log, plan[i].call, plan[j].call)
  {
    var b: nat :| DoneAt(o, log, plan, b);
    assert log[b + i] == plan[i].call && log[b + j] == plan[j].call;
  }

  // ------------------------------------------------------------------ plans

  /** How an action ends its plan: what the spec alone decides, or an answer other than
      Yes, which is an error for a Must, a wait for a Hope, and for a Poll what it says. */
  function EndOf(a: Action, answer: Answer): Answer {
    match a
    case Abort(_) => Error
    case Stall(_) => No
    case Must(_) => Error
    case Hope(_) => No
    case Poll(_) => answer
  }

  /** The run ended at action `k`, after all before it were done. */
  ghost predicate StoppedAt(o: Oracle, log: seq<Call>, plan: seq<Action>, r: PlanRun, k: nat)
    requires k < |plan|
  {
    && DoneUpTo(o, r.log, plan, k, |log|)
    && if Blocked(plan[k]) then |r.log| == |log| + k && r.answer == EndOf(plan[k], Yes)
       else |r.log| == |log| + k + 1 && r.log[|log| + k] == plan[k].call && !Passed(o, r.log, |log| + k)
            && r.answer == EndOf(plan[k], o(r.log[..|log| + k], plan[k].call))
  }

  lemma OneMoreDone(o: Oracle, log: seq<Call>, plan: seq<Action>, k: nat, b: nat)
    requires k < |plan| && DoneUpTo(o, log, plan, k, b) && |log| == b + k
    requires Step(o, log, plan[k]).answer == Yes
    ensures DoneUpTo(o, Step(o, log, plan[k]).log, plan, k + 1, b)
  {
    var more := log + [plan[k].call];
    DoneUpToGrows(o, log, more, plan, k, b);
    assert more[..b + k] == log && Passed(o, more, b + k);
    forall i | 0 <= i < k + 1
      ensures !Blocked(plan[i]) && more[b + i] == plan[i].call && Passed(o, more, b + i) {}
  }

  lemma StopsThere(o: Oracle, log: seq<Call>, before: seq<Call>, plan: seq<Action>, k: nat)
    requires k < |plan| && log <= before && |before| == |log| + k && DoneUpTo(o, before, plan, k, |log|)
    requires Step(o, before, plan[k]).answer != Yes
    ensures StoppedAt(o, log, plan, Step(o, before, plan[k]), k)
  {
    var r := Step(o, before, plan[k]);
    DoneUpToGrows(o, before, r.log, plan, k, |log|);
    assert r.log[..|before|] == before;
  }

  /** A plan runs to its end, every call answered Yes, or it stops at one action. */
  lemma {:induction false} PlanOutcome(o: Oracle, log: seq<Call>, plan: seq<Action>, k: nat)
    requires k <= |plan|
    ensures var r := PlanAfter(o, log, plan, k);
            && log <= r.log
            && (r.answer == Yes ==> |r.log| == |log| + k && DoneUpTo(o, r.log, plan, k, |log|))
            && (r.answer != Yes ==> exists j: nat | j < k :: StoppedAt(o, log, plan, r, j))
  {
    if k > 0 {
      PlanOutcome(o, log, plan, k - 1);
      var before, r := PlanAfter(o, log, plan, k - 1), PlanAfter(o, log, plan, k);
      if before.answer == Yes {
        assert r == Step(o, before.log, plan[k - 1]);
        if r.answer == Yes {
          OneMoreDone(o, before.log, plan, k - 1, |log|);
        } else {
          StopsThere(o, log, before.log, plan, k - 1);
        }
      }
    }
  }

  /** Call `i` of the log is action `j` of the plan, all before it done right before. */
  ghost predicate InPlace(o: Oracle, log: seq<Call>, plan: seq<Action>, i: nat, j: nat)
    requires i < |log|
  {
    j < |plan| && j <= i && Issues(plan[j], log[i]) && DoneUpTo(o, log[..i], plan, j, i - j)
  }

  lemma DoneBefore(o: Oracle, log: seq<Call>, plan: seq<Action>, k: nat, b: nat, j: nat)
    requires j <= k <= |plan| && DoneUpTo(o, log, plan, k, b)
    ensures DoneUpTo(o, log[..b + j], plan, j, b)
  {
    var before := log[..b + j];
    forall i | 0 <= i < j ensures !Blocked(plan[i]) && before[b + i] == plan[i].call && Passed(o, before, b + i) {
      assert log[b + i] == plan[i].call && before[..b + i] == log[..b + i];
    }
  }

  /** Every call that a plan adds is in its place. */
  lemma PlanInPlace(o: Oracle, log: seq<Call>, plan: seq<Action>, i: nat)
    requires |log| <= i < |RunPlan(o, log, plan).log|
    ensures InPlace(o, RunPlan(o, log, plan).log, plan, i, i - |log|)
  {
    var r := RunPlan(o, log, plan);
    PlanOutcome(o, log, plan, |plan|);
    if r.answer == Yes {
      DoneInPlace(o, r.log, plan, |plan|, |log|, i);
    } else {
      var k: nat :| k < |plan| && StoppedAt(o, log, plan, r, k);
      if i < |log| + k {
        DoneInPlace(o, r.log, plan, k, |log|, i);
      } else {
        DoneBefore(o, r.log, plan, k, |log|, k);
      }
    }
  }

  lemma DoneInPlace(o: Oracle, log: seq<Call>, plan: seq<Action>, k: nat, b: nat, i: nat)
    requires k <= |plan| && DoneUpTo(o, log, plan, k, b) && b <= i < b + k
    ensures InPlace(o, log, plan, i, i - b)
  {
    assert log[b + (i - b)] == plan[i - b].call;
    DoneBefore(o, log, plan, k, b, i - b);
  }

  // --------------------------------------------------------------- networks

  /** Whatever is ready has its whole plan in the log. */
  ghost predicate ReadyDone(o: Oracle, slots: seq<Slot>, n: Net) {
    forall c | c in n.ready :: Expected(slots, c) && Done(o, n.log, slots[Rank(c)].value.plan)
  }

  /** Call `i` belongs to a gate, is in its place there, and all that the gate needs was
      done before. */
  ghost predicate Gated(o: Oracle, slots: seq<Slot>, log: seq<Call>, i: nat)
    requires i < |log|
  {
    exists s: nat, j: nat | s < |slots| && slots[s].Some? ::
      && InPlace(o, log, slots[s].value.plan, i, j)
      && forall d | d in slots[s].value.needs :: Expected(slots, d) && Done(o, log[..i], slots[Rank(d)].value.plan)
  }

  lemma GatedGrows(o: Oracle, slots: seq<Slot>, log: seq<Call>, more: seq<Call>, i: nat)
    requires i < |log| && log <= more && Gated(o, slots, log, i)
    ensures Gated(o, slots, more, i)
  {
    assert more[..i] == log[..i];
    var s: nat, j: nat :| s < |slots| && slots[s].Some? && InPlace(o, log, slots[s].value.plan, i, j)
        && forall d | d in slots[s].value.needs :: Expected(slots, d) && Done(o, log[..i], slots[Rank(d)].value.plan);
    assert InPlace(o, more, slots[s].value.plan, i, j);
  }

  lemma {:induction false} NetLogged(o: Oracle, n: Net, slots: seq<Slot>, k: nat)
    requires WellFormed(slots) && k <= |slots| && n.ready == {}
    ensures var m := NetAfter(o, n, slots, k);
            && n.log <= m.log && ReadyDone(o, slots, m)
            && forall i | |n.log| <= i < |m.log| :: Gated(o, slots, m.log, i)
  {
    if k > 0 {
      NetLogged(o, n, slots, k - 1);
      SlotLogged(o, n, slots, k - 1);
    }
  }

  lemma SlotLogged(o: Oracle, n: Net, slots: seq<Slot>, k: nat)
    requires WellFormed(slots) && k < |slots|
    requires var m := NetAfter(o, n, slots, k);
             && n.log <= m.log && ReadyDone(o, slots, m)
             && forall i | |n.log| <= i < |m.log| :: Gated(o, slots, m.log, i)
    ensures var m := NetAfter(o, n, slots, k + 1);
            && n.log <= m.log && ReadyDone(o, slots, m)
            && forall i | |n.log| <= i < |m.log| :: Gated(o, slots, m.log, i)
  {
    var m, m' := NetAfter(o, n, slots, k), NetAfter(o, n, slots, k + 1);
    if !m.failed && slots[k].Some? && slots[k].value.needs <= m.ready {
      var plan := slots[k].value.plan;
      PlanOutcome(o, m.log, plan, |plan|);
      assert m'.log == RunPlan(o, m.log, plan).log;
      forall c | c in m'.ready ensures Expected(slots, c) && Done(o, m'.log, slots[Rank(c)].value.plan) {
        if c in m.ready {
          DoneGrows(o, m.log, m'.log, slots[Rank(c)].value.plan);
        } else {
          assert Rank(c) == k && DoneAt(o, m'.log, plan, |m.log|);
        }
      }
      forall i | |n.log| <= i < |m'.log| ensures Gated(o, slots, m'.log, i) {
        if i < |m.log| { GatedGrows(o, slots, m.log, m'.log, i); } else { NewCallGated(o, slots, m, k, i); }
      }
    }
  }

  lemma NewCallGated(o: Oracle, slots: seq<Slot>, m: Net, k: nat, i: nat)
    requires k < |slots| && slots[k].Some? && slots[k].value.needs <= m.ready && ReadyDone(o, slots, m)
    requires |m.log| <= i < |RunPlan(o, m.log, slots[k].value.plan).log|
    ensures Gated(o, slots, RunPlan(o, m.log, slots[k].value.plan).log, i)
  {
    var plan := slots[k].value.plan;
    var log := RunPlan(o, m.log, plan).log;
    PlanOutcome(o, m.log, plan, |plan|);
    PlanInPlace(o, m.log, plan, i);
    forall d | d in slots[k].value.needs ensures Expected(slots, d) && Done(o, log[..i], slots[Rank(d)].value.plan) {
      assert m.log <= log[..i];
      DoneGrows(o, m.log, log[..i], slots[Rank(d)].value.plan);
    }
  }

  // ------------------------------------------------------------------- tiers

  /** Behind a tier status: each ready entry has the whole plan of its component in the
      log, a ready tier has every plan there, and no call of a gate was made before all
      that the gate needs was done, prelude included. */
  lemma TierLogged(o: Oracle, prelude: seq<Action>, slots: seq<Slot>)
    requires WellFormed(slots)
    ensures var t := RunTier(o, prelude, slots);
            && (forall e | e in t.status.components && e.ready ::
                  Expected(slots, e.name) && Done(o, t.log, slots[Rank(e.name)].value.plan))
            && (t.status.ready ==>
                  && DoneAt(o, t.log, prelude, 0)
                  && forall s | 0 <= s < |slots| && slots[s].Some? :: Done(o, t.log, slots[s].value.plan))
            && forall i | 0 <= i < |t.log| ::
                 || InPlace(o, t.log, prelude, i, i)
                 || (DoneAt(o, t.log[..i], prelude, 0) && Gated(o, slots, t.log, i))
  {
    var t, p := RunTier(o, prelude, slots), RunPlan(o, [], prelude);
    PlanOutcome(o, [], prelude, |prelude|);
    if p.answer == Yes {
      var n := START.(log := p.log);
      NetLogged(o, n, slots, |slots|);
      NetKeepsInv(o, n, slots, |slots|);
      var m := NetAfter(o, n, slots, |slots|);
      forall e | e in m.components && e.ready ensures e.name in m.ready {
        var i :| 0 <= i < |m.components| && m.components[i] == e;
        assert Sound(slots, m, |slots|, m.components[i]);
      }
      DoneUpToGrows(o, p.log, t.log, prelude, |prelude|, 0);
      forall s | 0 <= s < |slots| && slots[s].Some? && t.status.ready ensures Done(o, t.log, slots[s].value.plan) {
        assert slots[s].value.name in m.ready && Rank(slots[s].value.name) == s;
      }
    }
    forall i | 0 <= i < |t.log|
      ensures InPlace(o, t.log, prelude, i, i) || (DoneAt(o, t.log[..i], prelude, 0) && Gated(o, slots, t.log, i))
    {
      if i < |p.log| {
        PlanInPlace(o, [], prelude, i);
        assert t.log[..i] == p.log[..i];
      } else {
        assert p.log <= t.log[..i];
        DoneUpToGrows(o, p.log, t.log[..i], prelude, |prelude|, 0);
      }
    }
  }

  // ------------------------------------------------------------------ errors

  /** An answer that makes this action wait instead of failing. */
  predicate Waits(a: Action, answer: Answer) { a.Hope? || (a.Poll? && answer == No) }

  ghost predicate Excused(o: Oracle, plan: seq<Action>, log: seq<Call>, i: nat)
    requires i < |log|
  {
    exists k | 0 <= k < |plan| :: Issues(plan[k], log[i]) && Waits(plan[k], o(log[..i], log[i]))
  }

  /** The plan has an action that fails: by itself, or at the last call of the log. */
  ghost predicate Fails(o: Oracle, plan: seq<Action>, log: seq<Call>) {
    exists k | 0 <= k < |plan| ::
      || plan[k].Abort?
      || (log != [] && Issues(plan[k], log[|log| - 1]) && !Passed(o, log, |log| - 1)
          && !Waits(plan[k], o(log[..|log| - 1], log[|log| - 1])))
  }

  lemma DonePassed(o: Oracle, log: seq<Call>, plan: seq<Action>, k: nat, b: nat)
    requires k <= |plan| && DoneUpTo(o, log, plan, k, b)
    ensures forall i | b <= i < b + k :: Passed(o, log, i)
  {
    forall i | b <= i < b + k ensures Passed(o, log, i) {
      assert log[b + (i - b)] == plan[i - b].call;
    }
  }

  lemma PlanTells(o: Oracle, log: seq<Call>, plan: seq<Action>)
    ensures var r := RunPlan(o, log, plan);
            && log <= r.log
            && (r.answer == Error ==> Fails(o, plan, r.log))
            && (r.answer != Error
                ==> forall i | |log| <= i < |r.log| :: Passed(o, r.log, i) || Excused(o, plan, r.log, i))
  {
    var r := RunPlan(o, log, plan);
    PlanOutcome(o, log, plan, |plan|);
    if r.answer == Yes {
      DonePassed(o, r.log, plan, |plan|, |log|);
    } else {
      var k: nat :| k < |plan| && StoppedAt(o, log, plan, r, k);
      DonePassed(o, r.log, plan, k, |log|);
      if !Blocked(plan[k]) {
        assert Issues(plan[k], r.log[|log| + k]) && |r.log| - 1 == |log| + k;
        assert r.answer != Error ==> Excused(o, plan, r.log, |log| + k);
      }
    }
  }

  /** Some plan of the tier has it. */
  ghost predicate SomeExcuse(o: Oracle, prelude: seq<Action>, slots: seq<Slot>, log: seq<Call>, i: nat)
    requires i < |log|
  {
    Excused(o, prelude, log, i)
    || exists s | 0 <= s < |slots| && slots[s].Some? :: Excused(o, slots[s].value.plan, log, i)
  }

  ghost predicate SomeFailure(o: Oracle, prelude: seq<Action>, slots: seq<Slot>, log: seq<Call>) {
    Fails(o, prelude, log) || exists s | 0 <= s < |slots| && slots[s].Some? :: Fails(o, slots[s].value.plan, log)
  }

  lemma ExcuseGrows(o: Oracle, prelude: seq<Action>, slots: seq<Slot>, log: seq<Call>, more: seq<Call>, i: nat)
    requires i < |log| && log <= more && (Passed(o, log, i) || SomeExcuse(o, prelude, slots, log, i))
    ensures Passed(o, more, i) || SomeExcuse(o, prelude, slots, more, i)
  {
    assert more[..i] == log[..i];
    if Excused(o, prelude, log, i) {
      assert Excused(o, prelude, more, i);
    } else if !Passed(o, log, i) {
      var s :| 0 <= s < |slots| && slots[s].Some? && Excused(o, slots[s].value.plan, log, i);
      assert Excused(o, slots[s].value.plan, more, i);
    }
  }

  lemma {:induction false} NetTells(o: Oracle, n: Net, prelude: seq<Action>, slots: seq<Slot>, k: nat)
    requires k <= |slots| && !n.failed
    requires forall i | 0 <= i < |n.log| :: Passed(o, n.log, i) || SomeExcuse(o, prelude, slots, n.log, i)
    ensures var m := NetAfter(o, n, slots, k);
            && (m.failed ==> SomeFailure(o, prelude, slots, m.log))
            && (!m.failed ==>
                  forall i | 0 <= i < |m.log| :: Passed(o, m.log, i) || SomeExcuse(o, prelude, slots, m.log, i))
  {
    if k > 0 {
      NetTells(o, n, prelude, slots, k - 1);
      SlotTells(o, NetAfter(o, n, slots, k - 1), prelude, slots, k - 1);
    }
  }

  lemma SlotTells(o: Oracle, m: Net, prelude: seq<Action>, slots: seq<Slot>, k: nat)
    requires k < |slots| && (m.failed ==> SomeFailure(o, prelude, slots, m.log))
    requires !m.failed ==>
               forall i | 0 <= i < |m.log| :: Passed(o, m.log, i) || SomeExcuse(o, prelude, slots, m.log, i)
    ensures var m' := RunSlot(o, m, slots[k]);
            && (m'.failed ==> SomeFailure(o, prelude, slots, m'.log))
            && (!m'.failed ==>
                  forall i | 0 <= i < |m'.log| :: Passed(o, m'.log, i) || SomeExcuse(o, prelude, slots, m'.log, i))
  {
    if !m.failed && slots[k].Some? && slots[k].value.needs <= m.ready {
      var plan, more := slots[k].value.plan, RunSlot(o, m, slots[k]).log;
      PlanTells(o, m.log, plan);
      if RunPlan(o, m.log, plan).answer != Error {
        forall i | 0 <= i < |more| ensures Passed(o, more, i) || SomeExcuse(o, prelude, slots, more, i) {
          if i < |m.log| { ExcuseGrows(o, prelude, slots, m.log, more, i); }
        }
      }
    }
  }

  /** No answer is swallowed and no error made up: without an error, every call of the
      tier was answered Yes or by an answer that one of its plans waits on; with an error,
      one of its plans cannot go on, or the last call was answered in a way that makes an
      action of a plan fail. */
  lemma TierTells(o: Oracle, prelude: seq<Action>, slots: seq<Slot>)
    ensures var t := RunTier(o, prelude, slots);
            && (t.err ==> SomeFailure(o, prelude, slots, t.log))
            && (!t.err ==>
                  forall i | 0 <= i < |t.log| :: Passed(o, t.log, i) || SomeExcuse(o, prelude, slots, t.log, i))
  {
    var p := RunPlan(o, [], prelude);
    PlanTells(o, [], prelude);
    if p.answer == Yes { NetTells(o, START.(log := p.log), prelude, slots, |slots|); }
  }

  // ---------------------------------------------------------- failed components

  /** The gate at `s` failed, and the status shows it: as its last entry, not ready, or,
      for gates that do not report a failure, not at all. */
  ghost predicate FailedAt(o: Oracle, slots: seq<Slot>, log: seq<Call>, components: seq<ComponentStatus>, s: nat)
    requires s < |slots|
  {
    && slots[s].Some? && Fails(o, slots[s].value.plan, log)
    && var g := slots[s].value;
       if g.reported && g.reportsFailure
       then components != [] && components[|components| - 1] == ComponentStatus(g.name, false)
       else !Appears(components, g.name)
  }

  lemma {:induction false} NetFailedAt(o: Oracle, n: Net, slots: seq<Slot>, k: nat)
    requires WellFormed(slots) && k <= |slots| && n.components == [] && n.ready == {} && !n.failed
    requires NetAfter(o, n, slots, k).failed
    ensures exists s: nat | s < |slots| ::
              FailedAt(o, slots, NetAfter(o, n, slots, k).log, NetAfter(o, n, slots, k).components, s)
  {
    var m := NetAfter(o, n, slots, k - 1);
    if m.failed {
      NetFailedAt(o, n, slots, k - 1);
    } else {
      var m', plan := NetAfter(o, n, slots, k), slots[k - 1].value.plan;
      PlanTells(o, m.log, plan);
      NetKeepsInv(o, n, slots, k - 1);
      forall i | 0 <= i < |m.components| ensures m.components[i].name != slots[k - 1].value.name {
        assert Sound(slots, m, k - 1, m.components[i]);
      }
      assert FailedAt(o, slots, m'.log, m'.components, k - 1);
    }
  }

  /** A tier that fails once its prelude is through shows the component it failed for. */
  lemma TierFailedAt(o: Oracle, prelude: seq<Action>, slots: seq<Slot>)
    requires WellFormed(slots) && RunTier(o, prelude, slots).err && !Fails(o, prelude, RunTier(o, prelude, slots).log)
    ensures var t := RunTier(o, prelude, slots);
            exists s: nat | s < |slots| :: FailedAt(o, slots, t.log, t.status.components, s)
  {
    PlanTells(o, [], prelude);
    NetFailedAt(o, START.(log := RunPlan(o, [], prelude).log), slots, |slots|);
  }
}
