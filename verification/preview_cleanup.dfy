// The preview part of `cleanup` in the form of its source. Every call can fail, and
// others act before every call; each execution is a run of the teardown protocol.
module PreviewCleanup {
  import opened Wrappers
  import opened PreviewGuardrails
  import opened PreviewTeardown

  datatype Error = Kube | PreviewProjectsTerminating(remaining: nat)

  // What a DELETE with a UID precondition answers.
  datatype Answer = Accepted | NotFound | PreconditionFailed | Failed

  class Api {
    var world: World
    ghost var run: seq<World>
    ghost var steps: seq<Step>

    ghost predicate Valid()
      reads this
    {
      IsRun(run, steps) && run[|run| - 1] == world
    }

    constructor (world: World)
      requires world.local.Idle?
      ensures Valid() && this.world == world
    {
      this.world := world;
      run, steps := [world], [];
    }

    method Take(step: Step)
      requires Valid() && Enabled(world, step)
      modifies this
      ensures Valid() && old(steps) < steps && world == Next(old(world), step)
    {
      world := Next(world, step);
      run, steps := run + [world], steps + [step];
    }

    // Any actions of others.
    method Interfere()
      requires Valid()
      modifies this
      ensures Valid() && old(steps) <= steps
      ensures world.local == old(world.local) && world.finalizer == old(world.finalizer)
    {
      var n: int := *;
      while n > 0
        invariant Valid() && old(steps) <= steps
        invariant world.local == old(world.local) && world.finalizer == old(world.finalizer)
      {
        n := n - 1;
        var step: Step := *;
        if Enabled(world, step) && !ByOperator(step) {
          Take(step);
        }
      }
    }

    method GetNamespace() returns (r: Result<Option<Owned>, Error>)
      requires Valid() && world.local.AtNamespace?
      modifies this
      ensures Valid() && old(steps) <= steps && world.finalizer == old(world.finalizer)
      ensures r.Failure? ==> world.local == Idle && r.error == Kube
      ensures r.Success? ==>
        world.local == if r.value.Some? && r.value.value.owned then AtNamespaceDelete(r.value.value.uid) else AtList
    {
      Interfere();
      var ok: bool := *;
      if ok {
        r := Success(world.namespace);
        Take(Act);
      } else {
        r := Failure(Kube);
        Take(Abort);
      }
    }

    method DeleteNamespace(uid: Uid) returns (answer: Answer)
      requires Valid() && world.local == AtNamespaceDelete(uid)
      modifies this
      ensures Valid() && old(steps) <= steps && world.finalizer == old(world.finalizer)
      ensures world.local == match answer
                             case Failed => Idle
                             case Accepted => AtRelease
                             case NotFound => AtList
                             case PreconditionFailed => AtList
    {
      Interfere();
      var outcome: Outcome := *;
      answer := Classify(outcome, if world.namespace.Some? then Some(world.namespace.value.uid) else None, uid);
      Perform(outcome);
    }

    // A request can be refused, and it can take effect without its answer arriving.
    method Perform(outcome: Outcome)
      requires Valid() && Enabled(world, Conflict)
      modifies this
      ensures Valid() && old(steps) <= steps && world.finalizer == old(world.finalizer)
      ensures world.local == match outcome
                             case Answered => Next(old(world), Act).local
                             case Refused => Next(old(world), Conflict).local
                             case Lost(_) => Idle
    {
      match outcome {
        case Answered => Take(Act);
        case Refused => Take(Conflict);
        case Lost(effective) =>
          if effective {
            Take(Act);
          }
          Take(Abort);
      }
    }

    method ListPreviews() returns (r: Result<seq<Item>, Error>)
      requires Valid() && world.local.AtList?
      modifies this
      ensures Valid() && old(steps) <= steps && world.finalizer == old(world.finalizer)
      ensures world.local == if r.Success? then Deleting(r.value, 0) else Idle
      ensures r.Failure? ==> r.error == Kube
    {
      Interfere();
      var order: seq<string> := *;
      if Lists(order, world) {
        r := Success(Items(world, order));
        Take(List(order));
      } else {
        r := Failure(Kube);
        Take(Abort);
      }
    }

    method DeletePreview(name: string, uid: Uid) returns (answer: Answer)
      requires Valid() && world.local.Deleting? && world.local.next < |world.local.items|
      requires
        var item := world.local.items[world.local.next];
        item.name == name && item.uid == uid && item.verified && !item.deleting
      modifies this
      ensures Valid() && old(steps) <= steps && world.finalizer == old(world.finalizer)
      ensures world.local ==
        if answer.Failed? then Idle else Deleting(old(world.local.items), old(world.local.next) + 1)
    {
      Interfere();
      var outcome: Outcome := *;
      answer := Classify(outcome, if name in world.previews then Some(world.previews[name].uid) else None, uid);
      Perform(outcome);
    }

    // Going on without a call.
    method Decide()
      requires Valid() && Enabled(world, Act)
      requires !world.local.AtNamespaceDelete? && !world.local.AtGuardDelete? && !world.local.AtRelease?
      modifies this
      ensures Valid() && old(steps) <= steps && world.finalizer == old(world.finalizer)
      ensures world.local == Next(old(world), Act).local
    {
      Take(Act);
    }

    method GetGuard(guard: Guard) returns (r: Result<Option<Owned>, Error>)
      requires Valid() && world.local.AtGuard? && world.local.guards != [] && world.local.guards[0] == guard
      modifies this
      ensures Valid() && old(steps) <= steps && world.finalizer == old(world.finalizer)
      ensures r.Failure? ==> world.local == Idle && r.error == Kube
      ensures r.Success? ==>
        var rest := old(world.local.guards)[1..];
        world.local == if r.value.Some? && r.value.value.owned
                       then AtGuardDelete(guard, r.value.value.uid, rest) else AtGuard(rest)
    {
      Interfere();
      var ok: bool := *;
      if ok {
        r := Success(Get(world.guards, guard));
        Take(Act);
      } else {
        r := Failure(Kube);
        Take(Abort);
      }
    }

    method DeleteGuard(guard: Guard, uid: Uid) returns (answer: Answer)
      requires Valid() && world.local.AtGuardDelete? && world.local.guard == guard && world.local.uid == uid
      modifies this
      ensures Valid() && old(steps) <= steps && world.finalizer == old(world.finalizer)
      ensures world.local == if answer.Failed? then Idle else AtGuard(old(world.local.rest))
    {
      Interfere();
      var outcome: Outcome := *;
      answer := Classify(outcome, if guard in world.guards then Some(world.guards[guard].uid) else None, uid);
      Perform(outcome);
    }

    // The finalizer's own patch, which removes it after a successful cleanup.
    method ReleaseFinalizer() returns (r: Result<(), Error>)
      requires Valid() && world.local.AtRelease?
      modifies this
      ensures Valid() && old(steps) <= steps && world.local == Idle
      ensures if r.Success? then !world.finalizer else r.error == Kube
    {
      Interfere();
      var outcome: Outcome := *;
      if outcome.Answered? || outcome == Lost(true) {
        Take(Act);
      } else {
        Take(Abort);
      }
      r := if outcome.Answered? then Success(()) else Failure(Kube);
    }
  }

  datatype Outcome = Answered | Refused | Lost(effective: bool)

  function Classify(outcome: Outcome, live: Option<Uid>, uid: Uid): Answer
  {
    match outcome
    case Lost(_) => Failed
    case Refused => PreconditionFailed
    case Answered => if live.None? then NotFound else if live.value == uid then Accepted else PreconditionFailed
  }

  method DeleteOwnedPreviewNamespace(api: Api) returns (r: Result<bool, Error>)
    requires api.Valid() && api.world.local.AtNamespace?
    modifies api
    ensures api.Valid() && old(api.steps) <= api.steps && api.world.finalizer == old(api.world.finalizer)
    ensures r.Failure? ==> r.error == Kube
    ensures api.world.local == if r.Failure? then Idle else if r.value then AtRelease else AtList
  {
    var existing := api.GetNamespace();
    if existing.Failure? {
      return Failure(existing.error);
    }
    if existing.value.None? || !existing.value.value.owned {
      return Success(false);
    }
    var answer := api.DeleteNamespace(existing.value.value.uid);
    match answer {
      case Accepted => return Success(true);
      case NotFound => return Success(false);
      case PreconditionFailed => return Success(false);
      case Failed => return Failure(Kube);
    }
  }

  // Requests the deletion of every verified item of one list response, and counts
  // them all, whether they were already deleting, gone or replaced.
  method DeleteRetainedPreviewProjects(api: Api) returns (r: Result<nat, Error>, ghost items: seq<Item>)
    requires api.Valid() && api.world.local.AtList?
    modifies api
    ensures api.Valid() && old(api.steps) <= api.steps && api.world.finalizer == old(api.world.finalizer)
    ensures r.Failure? ==> api.world.local == Idle && r.error == Kube
    ensures r.Success? ==> api.world.local == Deleting(items, |items|) && r.value == CountVerified(items)
  {
    var listed := api.ListPreviews();
    if listed.Failure? {
      return Failure(listed.error), [];
    }
    var previews := listed.value;
    items := previews;
    var remaining: nat := 0;
    for i := 0 to |previews|
      invariant api.Valid() && old(api.steps) <= api.steps && api.world.finalizer == old(api.world.finalizer)
      invariant api.world.local == Deleting(previews, i)
      invariant remaining == CountVerified(previews[..i])
    {
      var item := previews[i];
      assert previews[..i + 1][..i] == previews[..i];
      if !item.verified {
        api.Decide();
        continue;
      }
      remaining := remaining + 1;
      if item.deleting {
        api.Decide();
        continue;
      }
      var answer := api.DeletePreview(item.name, item.uid);
      if answer.Failed? {
        return Failure(Kube), items;
      }
    }
    assert previews[..|previews|] == previews;
    return Success(remaining), items;
  }

  method DeletePreviewGuardrailIfOwned(api: Api, guard: Guard) returns (r: Result<(), Error>)
    requires api.Valid() && api.world.local.AtGuard?
    requires api.world.local.guards != [] && api.world.local.guards[0] == guard
    modifies api
    ensures api.Valid() && old(api.steps) <= api.steps && api.world.finalizer == old(api.world.finalizer)
    ensures r.Failure? ==> r.error == Kube
    ensures api.world.local == if r.Failure? then Idle else AtGuard(old(api.world.local.guards)[1..])
  {
    var existing := api.GetGuard(guard);
    if existing.Failure? {
      return Failure(existing.error);
    }
    if existing.value.None? || !existing.value.value.owned {
      return Success(());
    }
    var answer := api.DeleteGuard(guard, existing.value.value.uid);
    return if answer.Failed? then Failure(Kube) else Success(());
  }

  // A success has looked up every guardrail, of whatever kind, in this pass.
  method DeleteRetainedPreviewGuardrails(api: Api) returns (r: Result<(), Error>)
    requires api.Valid() && api.world.local == AtGuard(GUARDS)
    modifies api
    ensures api.Valid() && old(api.steps) <= api.steps && api.world.finalizer == old(api.world.finalizer)
    ensures r.Failure? ==> r.error == Kube
    ensures api.world.local == if r.Failure? then Idle else AtGuard([])
    ensures r.Success? ==> forall guard :: LookedUpInPass(api.run, api.steps, |api.steps|, guard)
  {
    for i := 0 to |GUARDS|
      invariant api.Valid() && old(api.steps) <= api.steps && api.world.finalizer == old(api.world.finalizer)
      invariant api.world.local == AtGuard(GUARDS[i..])
    {
      r := DeletePreviewGuardrailIfOwned(api, GUARDS[i]);
      if r.Failure? {
        return;
      }
    }
    forall guard ensures LookedUpInPass(api.run, api.steps, |api.steps|, guard) {
      var q := EveryGuardrailIsLookedUp(api.run, api.steps, |api.steps|, guard);
    }
    return Success(());
  }

  // One pass of `cleanup`. A success has released the finalizer, by a release step of
  // the protocol; while verified previews were listed, it reports how many.
  method CleanupPreviews(api: Api, enabled: bool, uidKnown: bool, manages: bool) returns (r: Result<(), Error>)
    requires api.Valid() && api.world.local.Idle? && api.world.finalizer
    modifies api
    ensures api.Valid() && old(api.steps) < api.steps && api.world.local == Idle
    ensures r.Success? ==> !api.world.finalizer
    ensures r.Failure? && r.error.PreviewProjectsTerminating? ==> r.error.remaining > 0 && api.world.finalizer && enabled
  {
    api.Take(Begin(enabled, uidKnown, manages));
    if enabled {
      var deleted := Success(false);
      if manages && uidKnown {
        deleted := DeleteOwnedPreviewNamespace(api);
        if deleted.Failure? {
          return Failure(deleted.error);
        }
      }
      if !deleted.value {
        var remaining, _ := DeleteRetainedPreviewProjects(api);
        if remaining.Failure? {
          return Failure(remaining.error);
        }
        api.Decide();
        if remaining.value > 0 {
          return Failure(PreviewProjectsTerminating(remaining.value));
        }
        var guards := DeleteRetainedPreviewGuardrails(api);
        if guards.Failure? {
          return Failure(guards.error);
        }
        api.Decide();
      }
    }
    r := api.ReleaseFinalizer();
  }
}
