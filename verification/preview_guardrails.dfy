// No guardrail is forgotten: every kind is looked up, and what the Project owned is gone
// when the finalizer is about to be released.
module PreviewGuardrails {
  import opened Wrappers
  import opened PreviewTeardown

  // Step `q` looks this guardrail up.
  predicate LooksUp(run: seq<World>, steps: seq<Step>, q: nat, guard: Guard)
    requires |run| == |steps| + 1 && q < |steps|
  {
    steps[q].Act? && run[q].local.AtGuard? && run[q].local.guards != [] && run[q].local.guards[0] == guard
  }

  predicate Touches(step: Step, guard: Guard)
  {
    (step.PutGuard? || step.RelabelGuard?) && step.guard == guard
  }

  predicate AtGuardrails(local: Local)
  {
    local.AtGuard? || local.AtGuardDelete? || local.AtRelease?
  }

  // The guardrails that are not finished yet.
  function Pending(local: Local): seq<Guard>
  {
    match local
    case AtGuard(guards) => guards
    case AtGuardDelete(guard, _, rest) => [guard] + rest
    case _ => []
  }

  ghost predicate AfterList(run: seq<World>, steps: seq<Step>, l: nat, k: nat)
  {
    && IsRun(run, steps) && l < k < |run| && steps[l].List?
    && forall m :: l < m < k ==> Calm(steps[m])
  }

  lemma LastStep(run: seq<World>, steps: seq<Step>, l: nat, k: nat)
    requires AfterList(run, steps, l, k)
    ensures Enabled(run[k - 1], steps[k - 1]) && Next(run[k - 1], steps[k - 1]) == run[k]
    ensures k - 1 > l ==> AfterList(run, steps, l, k - 1) && Calm(steps[k - 1])
  {
    assert Next(run[k - 1], steps[k - 1]) == run[k - 1 + 1];
  }

  lemma {:induction false} PassStaysOnItsWay(run: seq<World>, steps: seq<Step>, l: nat, k: nat)
    requires AfterList(run, steps, l, k)
    ensures run[k].local.Deleting? || AtGuardrails(run[k].local) || run[k].local.Idle?
    ensures k == l + 1 ==> run[k].local.Deleting?
  {
    LastStep(run, steps, l, k);
    if k > l + 1 {
      PassStaysOnItsWay(run, steps, l, k - 1);
    }
  }

  lemma GuardrailsComeLater(run: seq<World>, steps: seq<Step>, l: nat, k: nat)
    requires AfterList(run, steps, l, k) && AtGuardrails(run[k].local)
    ensures k - 1 > l && AfterList(run, steps, l, k - 1) && Calm(steps[k - 1])
    ensures Enabled(run[k - 1], steps[k - 1]) && Next(run[k - 1], steps[k - 1]) == run[k]
  {
    LastStep(run, steps, l, k);
    PassStaysOnItsWay(run, steps, l, k);
  }

  // What precedes a world among the guardrails.
  lemma BeforeGuardrails(run: seq<World>, steps: seq<Step>, l: nat, k: nat)
    requires AfterList(run, steps, l, k) && AtGuardrails(run[k].local)
    ensures k - 1 > l && AfterList(run, steps, l, k - 1) && Calm(steps[k - 1])
    ensures Enabled(run[k - 1], steps[k - 1]) && Next(run[k - 1], steps[k - 1]) == run[k]
    ensures AtGuardrails(run[k - 1].local) || (run[k - 1].local.Deleting? && forall guard: Guard :: guard in Pending(run[k].local))
  {
    GuardrailsComeLater(run, steps, l, k);
    PassStaysOnItsWay(run, steps, l, k - 1);
    if run[k - 1].local.Deleting? {
      forall guard: Guard ensures guard in Pending(run[k].local) {
        EveryGuardIsListed(guard);
      }
    }
  }

  lemma EveryGuardIsListed(guard: Guard)
    ensures guard in GUARDS
  {
    match guard
    case ResourceQuota => assert GUARDS[0] == guard;
    case LimitRange => assert GUARDS[1] == guard;
    case DefaultDeny => assert GUARDS[2] == guard;
    case AllowIngress => assert GUARDS[3] == guard;
    case Issuer => assert GUARDS[4] == guard;
  }

  lemma {:induction false} LookupOf(run: seq<World>, steps: seq<Step>, l: nat, k: nat) returns (q: nat)
    requires AfterList(run, steps, l, k) && run[k].local.AtGuardDelete?
    ensures l < q < k && LooksUp(run, steps, q, run[k].local.guard)
  {
    BeforeGuardrails(run, steps, l, k);
    if steps[k - 1].Act? {
      q := k - 1;
    } else {
      q := LookupOf(run, steps, l, k - 1);
    }
  }

  // A finished guardrail was looked up.
  lemma {:induction false} LookedUp(run: seq<World>, steps: seq<Step>, l: nat, k: nat, guard: Guard) returns (q: nat)
    requires AfterList(run, steps, l, k) && AtGuardrails(run[k].local) && guard !in Pending(run[k].local)
    ensures l < q < k && LooksUp(run, steps, q, guard)
  {
    BeforeGuardrails(run, steps, l, k);
    if steps[k - 1].Act? && run[k - 1].local.AtGuard? && run[k - 1].local.guards != [] && run[k - 1].local.guards[0] == guard {
      q := k - 1;
    } else if steps[k - 1].Act? && run[k - 1].local.AtGuardDelete? && run[k - 1].local.guard == guard {
      q := LookupOf(run, steps, l, k - 1);
    } else {
      q := LookedUp(run, steps, l, k - 1, guard);
    }
  }

  // Also in a pass with conflicts: whatever is no longer to do was looked up in this pass.
  ghost predicate LookedUpInPass(run: seq<World>, steps: seq<Step>, i: nat, guard: Guard)
    requires |run| == |steps| + 1 && i <= |steps|
  {
    exists q :: 0 <= q < i && LooksUp(run, steps, q, guard) && forall m :: q < m < i ==> !steps[m].Begin?
  }

  // Done with, or about to be deleted.
  predicate Seen(local: Local, guard: Guard)
  {
    || (local.AtGuard? && guard !in local.guards)
    || (local.AtGuardDelete? && guard !in local.rest)
  }

  lemma SeenBefore(w: World, step: Step, guard: Guard)
    requires Enabled(w, step) && Seen(Next(w, step).local, guard)
    ensures !step.Begin?
    ensures Seen(w.local, guard) || (step.Act? && w.local.AtGuard? && w.local.guards != [] && w.local.guards[0] == guard)
  {
    EveryGuardIsListed(guard);
    if step.Act? && w.local.AtGuard? && w.local.guards != [] {
      assert w.local.guards == [w.local.guards[0]] + w.local.guards[1..];
    }
  }

  lemma {:induction false} EveryGuardrailIsLookedUp(run: seq<World>, steps: seq<Step>, i: nat, guard: Guard) returns (q: nat)
    requires IsRun(run, steps) && i < |run| && Seen(run[i].local, guard)
    ensures q < i && LooksUp(run, steps, q, guard) && forall m :: q < m < i ==> !steps[m].Begin?
  {
    assert i > 0 && Next(run[i - 1], steps[i - 1]) == run[i - 1 + 1];
    SeenBefore(run[i - 1], steps[i - 1], guard);
    if Seen(run[i - 1].local, guard) {
      q := EveryGuardrailIsLookedUp(run, steps, i - 1, guard);
    } else {
      q := i - 1;
    }
  }

  predicate Replaced(w: World)
  {
    w.local.AtGuardDelete? && w.local.guard in w.guards && w.guards[w.local.guard].uid != w.local.uid
  }

  lemma ReplacedStep(w: World, step: Step)
    requires Enabled(w, step) && Calm(step) && Replaced(Next(w, step))
    ensures w.local == Next(w, step).local && (Replaced(w) || Touches(step, w.local.guard))
  {
  }

  lemma ReplacedBefore(run: seq<World>, steps: seq<Step>, l: nat, k: nat)
    requires AfterList(run, steps, l, k) && Replaced(run[k])
    ensures k - 1 > l && AfterList(run, steps, l, k - 1)
    ensures run[k - 1].local == run[k].local && (Replaced(run[k - 1]) || Touches(steps[k - 1], run[k].local.guard))
  {
    GuardrailsComeLater(run, steps, l, k);
    ReplacedStep(run[k - 1], steps[k - 1]);
  }

  // A guardrail that is not the one looked up was put since.
  lemma {:induction false} ReplacedBy(run: seq<World>, steps: seq<Step>, l: nat, k: nat) returns (m: nat)
    requires AfterList(run, steps, l, k) && Replaced(run[k])
    ensures l < m < k && run[m].local == run[k].local && Touches(steps[m], run[k].local.guard)
  {
    ReplacedBefore(run, steps, l, k);
    if Replaced(run[k - 1]) {
      m := ReplacedBy(run, steps, l, k - 1);
    } else {
      m := k - 1;
    }
  }

  lemma ReplacedSinceLookup(run: seq<World>, steps: seq<Step>, l: nat, k: nat) returns (q: nat, m: nat)
    requires AfterList(run, steps, l, k) && Replaced(run[k])
    ensures l < q < m < k && LooksUp(run, steps, q, run[k].local.guard) && Touches(steps[m], run[k].local.guard)
  {
    m := ReplacedBy(run, steps, l, k);
    q := LookupOf(run, steps, l, m);
  }

  // It was there and finished before any other step.
  lemma GuardrailWasFinished(w: World, step: Step, guard: Guard)
    requires Enabled(w, step) && Calm(step) && AtGuardrails(w.local) && AtGuardrails(Next(w, step).local)
    requires guard !in Pending(Next(w, step).local) && guard in Next(w, step).guards && Next(w, step).guards[guard].owned
    requires !Touches(step, guard) && !(step.Act? && w.local.AtGuardDelete? && w.local.guard == guard)
    ensures guard in w.guards && w.guards[guard].owned && guard !in Pending(w.local)
  {
    if step.Act? && w.local.AtGuard? && w.local.guards != [] {
      assert w.local.guards == [w.local.guards[0]] + w.local.guards[1..];
    }
  }

  lemma DeletedGuardrailWasReplaced(w: World, guard: Guard)
    requires Enabled(w, Act) && w.local.AtGuardDelete? && w.local.guard == guard && guard in Next(w, Act).guards
    ensures guard in w.guards && w.guards[guard].uid != w.local.uid
  {
  }

  // A finished guardrail that is there, owned by the Project, was put or relabeled after
  // its lookup.
  lemma {:induction false} FinishedGuardrailCameBack(run: seq<World>, steps: seq<Step>, l: nat, k: nat, guard: Guard)
    returns (q: nat, m: nat)
    requires AfterList(run, steps, l, k) && AtGuardrails(run[k].local) && guard !in Pending(run[k].local)
    requires guard in run[k].guards && run[k].guards[guard].owned
    ensures l < q < m < k && LooksUp(run, steps, q, guard) && Touches(steps[m], guard)
  {
    BeforeGuardrails(run, steps, l, k);
    var step, local := steps[k - 1], run[k - 1].local;
    if Touches(step, guard) {
      q := LookedUp(run, steps, l, k - 1, guard);
      m := k - 1;
    } else if step.Act? && local.AtGuardDelete? && local.guard == guard {
      DeletedGuardrailWasReplaced(run[k - 1], guard);
      q, m := ReplacedSinceLookup(run, steps, l, k - 1);
    } else {
      GuardrailWasFinished(run[k - 1], step, guard);
      q, m := FinishedGuardrailCameBack(run, steps, l, k - 1, guard);
    }
  }

  // From a list without verified previews on, a pass without failures gets to the release
  // with no guardrail of any kind left that belongs to the Project, except one that others
  // put or relabeled after its lookup.
  lemma NoGuardrailIsForgotten(run: seq<World>, steps: seq<Step>, l: nat, i: nat, guard: Guard) returns (q: nat, m: nat)
    requires IsRun(run, steps) && l < i < |run| && SawNone(run, steps, l)
    requires forall m :: l < m < i ==> Calm(steps[m])
    requires run[i].local.AtRelease?
    requires guard in run[i].guards && run[i].guards[guard].owned
    ensures l < q < m < i && LooksUp(run, steps, q, guard)
    ensures (steps[m].PutGuard? || steps[m].RelabelGuard?) && steps[m].guard == guard
  {
    q, m := FinishedGuardrailCameBack(run, steps, l, i, guard);
  }

  // So without others touching them none is left at all.
  lemma UntouchedGuardrailsAreGone(run: seq<World>, steps: seq<Step>, l: nat, i: nat)
    requires IsRun(run, steps) && l < i < |run| && SawNone(run, steps, l)
    requires forall m :: l < m < i ==> Calm(steps[m]) && !steps[m].PutGuard? && !steps[m].RelabelGuard?
    requires run[i].local.AtRelease?
    ensures forall guard :: guard in run[i].guards ==> !run[i].guards[guard].owned
  {
    forall guard | guard in run[i].guards ensures !run[i].guards[guard].owned {
      if run[i].guards[guard].owned {
        var q, m := NoGuardrailIsForgotten(run, steps, l, i, guard);
      }
    }
  }
}
