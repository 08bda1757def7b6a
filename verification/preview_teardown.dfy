// Teardown of the previews of a deleted Project in a retained preview namespace: a
// retry protocol that the parent's finalizer holds open. Objects can be created,
// relabeled, replaced and removed by others between any two calls.
module PreviewTeardown {
  import opened Wrappers

  type Uid = nat

  datatype Preview = Preview(
    uid: Uid,
    selected: bool,  // matches the label selector of this parent
    verified: bool,  // passes `is_verified_preview_of`
    deleting: bool,  // has a deletion timestamp
    held: bool)      // has finalizers, so that a DELETE only marks it

  datatype Item = Item(name: string, uid: Uid, verified: bool, deleting: bool)

  datatype Guard = ResourceQuota | LimitRange | DefaultDeny | AllowIngress | Issuer

  const GUARDS: seq<Guard> := [ResourceQuota, LimitRange, DefaultDeny, AllowIngress, Issuer]

  // A namespace or a guardrail; its labels prove this Project's ownership or not.
  datatype Owned = Owned(uid: Uid, owned: bool)

  datatype Local =
    | Idle
    | AtNamespace
    | AtNamespaceDelete(uid: Uid)
    | AtList
    | Deleting(items: seq<Item>, next: nat)
    | AtGuard(guards: seq<Guard>)
    | AtGuardDelete(guard: Guard, uid: Uid, rest: seq<Guard>)
    | AtRelease

  datatype World = World(
    previews: map<string, Preview>,  // in the preview namespace
    namespace: Option<Owned>,
    guards: map<Guard, Owned>,
    finalizer: bool,                 // on the parent Project
    nextUid: Uid,
    local: Local)

  datatype Step =
    // the operator: a pass of `cleanup` reaches the previews
    | Begin(enabled: bool, uidKnown: bool, manages: bool)
    | List(order: seq<string>)
    | Act
    | Conflict   // the API answers 409 for a reason of its own
    | Abort      // any other failure, or a crash
    // everybody else
    | Put(name: string, selected: bool, verified: bool, held: bool)
    | Relabel(name: string, selected: bool, verified: bool)
    | Mark(name: string)
    | Remove(name: string)
    | PutNamespace(owned: bool)
    | RemoveNamespace
    | PutGuard(guard: Guard, owned: bool)
    | RelabelGuard(guard: Guard, owned: bool)
    | RemoveGuard(guard: Guard)

  predicate Selected(w: World, name: string)
  {
    name in w.previews && w.previews[name].selected
  }

  predicate SelectedAndVerified(w: World, name: string)
  {
    Selected(w, name) && w.previews[name].verified
  }

  // The names of a list response, in the order of the response.
  predicate Lists(order: seq<string>, w: World)
  {
    && (forall i :: 0 <= i < |order| ==> Selected(w, order[i]))
    && (forall i, k :: 0 <= i < k < |order| ==> order[i] != order[k])
    && (forall name :: name in w.previews && Selected(w, name) ==> name in order)
  }

  function ItemOf(w: World, name: string): Item
    requires Selected(w, name)
  {
    var p := w.previews[name];
    Item(name, p.uid, p.verified, p.deleting)
  }

  function Items(w: World, order: seq<string>): seq<Item>
    requires Lists(order, w)
  {
    seq(|order|, i requires 0 <= i < |order| => ItemOf(w, order[i]))
  }

  // `remaining`
  function CountVerified(items: seq<Item>): nat
  {
    if items == [] then 0
    else CountVerified(items[..|items| - 1]) + if items[|items| - 1].verified then 1 else 0
  }

  predicate Enabled(w: World, step: Step)
  {
    match step
    case Begin(_, _, _) => w.local.Idle? && w.finalizer
    case List(order) => w.local.AtList? && Lists(order, w)
    case Act => !w.local.Idle? && !w.local.AtList? && (w.local.Deleting? ==> w.local.next <= |w.local.items|)
    case Conflict =>
      || w.local.AtNamespaceDelete? || w.local.AtGuardDelete?
      || (w.local.Deleting? && w.local.next < |w.local.items|)
    case Abort => true
    case Put(name, _, _, _) => true
    case Relabel(name, _, _) => name in w.previews
    case Mark(name) => name in w.previews
    case Remove(name) => name in w.previews
    case PutNamespace(_) => true
    case RemoveNamespace => true
    case PutGuard(_, _) => true
    case RelabelGuard(guard, _) => guard in w.guards
    case RemoveGuard(_) => true
  }

  function Delete(previews: map<string, Preview>, item: Item): map<string, Preview>
  {
    if item.name !in previews || previews[item.name].uid != item.uid then previews  // 404, 409
    else if previews[item.name].held then previews[item.name := previews[item.name].(deleting := true)]
    else previews - {item.name}
  }

  function ActOn(w: World): World
    requires Enabled(w, Act)
  {
    match w.local
    case AtNamespace =>
      w.(local := if w.namespace.Some? && w.namespace.value.owned then AtNamespaceDelete(w.namespace.value.uid) else AtList)
    case AtNamespaceDelete(uid) =>
      if w.namespace.Some? && w.namespace.value.uid == uid
      then w.(namespace := None, local := AtRelease)
      else w.(local := AtList)
    case Deleting(items, next) =>
      if next == |items| then
        w.(local := if CountVerified(items) > 0 then Idle else AtGuard(GUARDS))
      else if items[next].verified && !items[next].deleting then
        w.(previews := Delete(w.previews, items[next]), local := Deleting(items, next + 1))
      else w.(local := Deleting(items, next + 1))
    case AtGuard(guards) =>
      if guards == [] then w.(local := AtRelease)
      else if guards[0] in w.guards && w.guards[guards[0]].owned
      then w.(local := AtGuardDelete(guards[0], w.guards[guards[0]].uid, guards[1..]))
      else w.(local := AtGuard(guards[1..]))
    case AtGuardDelete(guard, uid, rest) =>
      var guards := if guard in w.guards && w.guards[guard].uid == uid then w.guards - {guard} else w.guards;
      w.(guards := guards, local := AtGuard(rest))
    case AtRelease => w.(finalizer := false, local := Idle)
  }

  function AfterConflict(local: Local): Local
    requires local.AtNamespaceDelete? || local.AtGuardDelete? || local.Deleting?
  {
    match local
    case AtNamespaceDelete(_) => AtList
    case AtGuardDelete(_, _, rest) => AtGuard(rest)
    case Deleting(items, next) => Deleting(items, next + 1)
  }

  function Next(w: World, step: Step): World
    requires Enabled(w, step)
  {
    match step
    case Begin(enabled, uidKnown, manages) =>
      w.(local := if !enabled then AtRelease else if manages && uidKnown then AtNamespace else AtList)
    case List(order) => w.(local := Deleting(Items(w, order), 0))
    case Act => ActOn(w)
    case Conflict => w.(local := AfterConflict(w.local))
    case Abort => w.(local := Idle)
    case Put(name, selected, verified, held) =>
      w.(previews := w.previews[name := Preview(w.nextUid, selected, verified, false, held)], nextUid := w.nextUid + 1)
    case Relabel(name, selected, verified) =>
      w.(previews := w.previews[name := w.previews[name].(selected := selected, verified := verified)])
    case Mark(name) => w.(previews := w.previews[name := w.previews[name].(deleting := true)])
    case Remove(name) => w.(previews := w.previews - {name})
    case PutNamespace(owned) => w.(namespace := Some(Owned(w.nextUid, owned)), nextUid := w.nextUid + 1)
    case RemoveNamespace => w.(namespace := None)
    case PutGuard(guard, owned) => w.(guards := w.guards[guard := Owned(w.nextUid, owned)], nextUid := w.nextUid + 1)
    case RelabelGuard(guard, owned) => w.(guards := w.guards[guard := Owned(w.guards[guard].uid, owned)])
    case RemoveGuard(guard) => w.(guards := w.guards - {guard})
  }

  ghost predicate IsRun(run: seq<World>, steps: seq<Step>)
  {
    && |run| == |steps| + 1 && run[0].local.Idle?
    && forall i :: 0 <= i < |steps| ==> Enabled(run[i], steps[i]) && Next(run[i], steps[i]) == run[i + 1]
  }

  predicate ByOperator(step: Step)
  {
    step.Begin? || step.List? || step.Act? || step.Conflict? || step.Abort?
  }

  // Steps `j` and `i` belong to one pass.
  predicate SamePass(steps: seq<Step>, j: nat, i: nat)
  {
    j <= i < |steps| && forall m :: j < m <= i ==> !steps[m].Begin?
  }

  // ---- What a pass has seen ----------------------------------------------------------------

  // The step at which the pass listed the items it works on.
  lemma {:induction false} ItemsWereListed(run: seq<World>, steps: seq<Step>, i: nat) returns (j: nat)
    requires IsRun(run, steps) && i < |steps| && run[i].local.Deleting? && !steps[i].Begin?
    ensures j < i && SamePass(steps, j, i)
    ensures steps[j].List? && Lists(steps[j].order, run[j])
    ensures run[i].local.items == Items(run[j], steps[j].order)
  {
    assert Next(run[i - 1], steps[i - 1]) == run[i - 1 + 1];
    if steps[i - 1].List? {
      j := i - 1;
    } else {
      j := ItemsWereListed(run, steps, i - 1);
    }
  }

  lemma {:induction false} CountsAllVerified(items: seq<Item>)
    ensures CountVerified(items) == 0 <==> forall k :: 0 <= k < |items| ==> !items[k].verified
  {
    if items != [] {
      CountsAllVerified(items[..|items| - 1]);
    }
  }

  // The pass listed the previews and saw no verified one.
  predicate SawNone(run: seq<World>, steps: seq<Step>, j: nat)
    requires |run| == |steps| + 1 && j < |steps|
  {
    steps[j].List? && forall name :: name in run[j].previews ==> !SelectedAndVerified(run[j], name)
  }

  lemma NothingCountedMeansNoneSeen(w: World, order: seq<string>)
    requires Lists(order, w) && CountVerified(Items(w, order)) == 0
    ensures forall name :: name in w.previews ==> !SelectedAndVerified(w, name)
  {
    var items := Items(w, order);
    CountsAllVerified(items);
    forall name | name in w.previews ensures !SelectedAndVerified(w, name) {
      if Selected(w, name) {
        var k :| 0 <= k < |order| && order[k] == name;
        assert !items[k].verified;
      }
    }
  }

  lemma {:induction false} GuardsComeAfterNone(run: seq<World>, steps: seq<Step>, i: nat) returns (j: nat)
    requires IsRun(run, steps) && i < |steps| && !steps[i].Begin?
    requires run[i].local.AtGuard? || run[i].local.AtGuardDelete?
    ensures j < i && SamePass(steps, j, i) && SawNone(run, steps, j)
  {
    assert Next(run[i - 1], steps[i - 1]) == run[i - 1 + 1];
    if run[i - 1].local.Deleting? {
      j := ItemsWereListed(run, steps, i - 1);
      NothingCountedMeansNoneSeen(run[j], steps[j].order);
    } else {
      j := GuardsComeAfterNone(run, steps, i - 1);
    }
  }

  lemma {:induction false} NamespaceWasOwned(run: seq<World>, steps: seq<Step>, i: nat) returns (j: nat)
    requires IsRun(run, steps) && i < |steps| && !steps[i].Begin? && run[i].local.AtNamespaceDelete?
    ensures j < i && SamePass(steps, j, i)
    ensures run[j].namespace == Some(Owned(run[i].local.uid, true))
  {
    assert Next(run[i - 1], steps[i - 1]) == run[i - 1 + 1];
    if run[i - 1].local.AtNamespace? && steps[i - 1].Act? {
      j := i - 1;
    } else {
      j := NamespaceWasOwned(run, steps, i - 1);
    }
  }

  lemma {:induction false} GuardWasOwned(run: seq<World>, steps: seq<Step>, i: nat) returns (j: nat)
    requires IsRun(run, steps) && i < |steps| && !steps[i].Begin? && run[i].local.AtGuardDelete?
    ensures j < i && SamePass(steps, j, i)
    ensures run[i].local.guard in run[j].guards
    ensures run[j].guards[run[i].local.guard] == Owned(run[i].local.uid, true)
  {
    assert Next(run[i - 1], steps[i - 1]) == run[i - 1 + 1];
    if run[i - 1].local.AtGuard? && steps[i - 1].Act? {
      j := i - 1;
    } else {
      j := GuardWasOwned(run, steps, i - 1);
    }
  }

  // ---- Safety ------------------------------------------------------------------------------

  function Get<K, V>(m: map<K, V>, key: K): Option<V>
  {
    if key in m then Some(m[key]) else None
  }

  // The operator touches a preview only by deleting it, and only if that very object,
  // by UID, was listed and verified earlier in the pass.
  lemma OnlyVerifiedPreviewsAreDeleted(run: seq<World>, steps: seq<Step>, i: nat, name: string) returns (j: nat)
    requires IsRun(run, steps) && i < |steps| && ByOperator(steps[i])
    requires Get(run[i + 1].previews, name) != Get(run[i].previews, name)
    ensures name in run[i].previews
    ensures
      var preview := run[i].previews[name];
      Get(run[i + 1].previews, name) == if preview.held then Some(preview.(deleting := true)) else None
    ensures j < i && SamePass(steps, j, i) && steps[j].List?
    ensures SelectedAndVerified(run[j], name) && !run[j].previews[name].deleting
    ensures run[j].previews[name].uid == run[i].previews[name].uid
  {
    assert Next(run[i], steps[i]) == run[i + 1];
    j := ItemsWereListed(run, steps, i);
    var next := run[i].local.next;
    assert run[i].local.items[next] == ItemOf(run[j], steps[j].order[next]);
  }

  // Guardrails go only in a pass that listed no verified preview, and only if that
  // very object was looked up as owned.
  lemma GuardrailsOutliveVerifiedPreviews(run: seq<World>, steps: seq<Step>, i: nat, guard: Guard)
    returns (none: nat, seen: nat)
    requires IsRun(run, steps) && i < |steps| && ByOperator(steps[i])
    requires Get(run[i + 1].guards, guard) != Get(run[i].guards, guard)
    ensures none < i && SamePass(steps, none, i) && SawNone(run, steps, none)
    ensures seen < i && SamePass(steps, seen, i)
    ensures guard in run[i].guards && Get(run[seen].guards, guard) == Some(Owned(run[i].guards[guard].uid, true))
    ensures guard !in run[i + 1].guards
  {
    assert Next(run[i], steps[i]) == run[i + 1];
    none := GuardsComeAfterNone(run, steps, i);
    seen := GuardWasOwned(run, steps, i);
  }

  // The pass had its delete request for the preview namespace accepted, and that very
  // namespace was looked up as owned.
  predicate NamespaceDeleted(run: seq<World>, steps: seq<Step>, j: nat)
    requires |run| == |steps| + 1 && j < |steps|
  {
    && steps[j].Act? && run[j].local.AtNamespaceDelete?
    && run[j].namespace.Some? && run[j].namespace.value.uid == run[j].local.uid
  }

  predicate MayRelease(run: seq<World>, steps: seq<Step>, j: nat)
    requires |run| == |steps| + 1 && j < |steps|
  {
    SawNone(run, steps, j) || NamespaceDeleted(run, steps, j) || (steps[j].Begin? && !steps[j].enabled)
  }

  lemma {:induction false} ReleaseHasReason(run: seq<World>, steps: seq<Step>, i: nat) returns (j: nat)
    requires IsRun(run, steps) && i < |steps| && !steps[i].Begin? && run[i].local.AtRelease?
    ensures j < i && SamePass(steps, j, i) && MayRelease(run, steps, j)
  {
    assert Next(run[i - 1], steps[i - 1]) == run[i - 1 + 1];
    if steps[i - 1].Begin? || (steps[i - 1].Act? && run[i - 1].local.AtNamespaceDelete?) {
      j := i - 1;
    } else if run[i - 1].local.AtGuard? {
      j := GuardsComeAfterNone(run, steps, i - 1);
    } else {
      j := ReleaseHasReason(run, steps, i - 1);
    }
  }

  // The finalizer is released only in a pass that listed no verified preview, or that
  // had an owned namespace delete accepted, or for a spec without previews.
  lemma FinalizerWaitsForPreviews(run: seq<World>, steps: seq<Step>, i: nat) returns (j: nat)
    requires IsRun(run, steps) && i < |steps| && run[i].finalizer && !run[i + 1].finalizer
    ensures j < i && SamePass(steps, j, i) && MayRelease(run, steps, j)
  {
    assert Next(run[i], steps[i]) == run[i + 1];
    j := ReleaseHasReason(run, steps, i);
  }

  // A verified preview that is there later was put or relabeled by somebody else
  // after the list, so with nobody doing that none is left at the release.
  lemma {:induction false} LaterPreviewsAppearedSince(run: seq<World>, steps: seq<Step>, j: nat, i: nat, name: string)
    returns (m: nat)
    requires IsRun(run, steps) && j <= i < |run| && j < |steps|
    requires SawNone(run, steps, j) && SelectedAndVerified(run[i], name)
    ensures j < m < i
    ensures (steps[m].Put? || steps[m].Relabel?) && steps[m].name == name
  {
    assert name in run[i].previews;
    assert i > j;
    var step := steps[i - 1];
    assert Next(run[i - 1], step) == run[i - 1 + 1];
    if (step.Put? || step.Relabel?) && step.name == name {
      m := i - 1;
    } else {
      m := LaterPreviewsAppearedSince(run, steps, j, i - 1, name);
    }
  }

  // ---- Progress ----------------------------------------------------------------------------

  // Others only mark previews and finish deletions.
  predicate Calm(step: Step)
  {
    || step.Act? || step.Mark? || step.Remove? || step.PutNamespace? || step.RemoveNamespace?
    || step.PutGuard? || step.RelabelGuard? || step.RemoveGuard?
  }

  // The items before `next` that are still there have been marked.
  predicate MarkedSoFar(w: World, listed: World)
  {
    && w.local.Deleting? && w.local.next <= |w.local.items|
    && (forall name :: name in w.previews ==>
          && name in listed.previews && w.previews[name].uid == listed.previews[name].uid
          && w.previews[name].selected == listed.previews[name].selected
          && w.previews[name].verified == listed.previews[name].verified
          && (listed.previews[name].deleting ==> w.previews[name].deleting))
    && (forall k :: 0 <= k < w.local.next && w.local.items[k].verified && w.local.items[k].name in w.previews ==>
          w.previews[w.local.items[k].name].deleting)
  }

  lemma CalmStepMarks(w: World, step: Step, listed: World, order: seq<string>)
    requires Enabled(w, step) && Calm(step) && Lists(order, listed) && MarkedSoFar(w, listed)
    requires w.local.items == Items(listed, order)
    ensures
      var w' := Next(w, step);
      w'.local.Deleting? ==> MarkedSoFar(w', listed) && w'.local.items == Items(listed, order)
  {
    if step.Act? {
      ActMarks(w, listed, order);
    }
  }

  lemma ActMarks(w: World, listed: World, order: seq<string>)
    requires Enabled(w, Act) && Lists(order, listed) && MarkedSoFar(w, listed)
    requires w.local.items == Items(listed, order)
    ensures
      var w' := Next(w, Act);
      w'.local.Deleting? ==> MarkedSoFar(w', listed) && w'.local.items == w.local.items
  {
    if w.local.next < |w.local.items| {
      assert w.local.items[w.local.next] == ItemOf(listed, order[w.local.next]);
    }
  }

  lemma ListMarksNothing(w: World, order: seq<string>)
    requires Enabled(w, List(order))
    ensures MarkedSoFar(Next(w, List(order)), w) && Next(w, List(order)).local.items == Items(w, order)
  {
  }

  // One pass over a list, without failures of the operator.
  ghost predicate CalmPass(run: seq<World>, steps: seq<Step>, j: nat, i: nat)
  {
    && IsRun(run, steps) && j < i < |run| && steps[j].List?
    && (forall m :: j < m < i ==> Calm(steps[m]))
    && (forall m :: j < m <= i ==> run[m].local.Deleting?)
  }

  lemma PassStep(run: seq<World>, steps: seq<Step>, j: nat, i: nat)
    requires CalmPass(run, steps, j, i)
    ensures Enabled(run[i - 1], steps[i - 1]) && Next(run[i - 1], steps[i - 1]) == run[i]
    ensures i - 1 > j ==> CalmPass(run, steps, j, i - 1) && Calm(steps[i - 1])
    ensures Enabled(run[j], steps[j])
  {
    assert Next(run[i - 1], steps[i - 1]) == run[i - 1 + 1];
  }

  lemma {:induction false} CalmPassMarks(run: seq<World>, steps: seq<Step>, j: nat, i: nat)
    requires CalmPass(run, steps, j, i)
    ensures Lists(steps[j].order, run[j]) && run[i].local.items == Items(run[j], steps[j].order)
    ensures MarkedSoFar(run[i], run[j])
  {
    PassStep(run, steps, j, i);
    if i - 1 > j {
      CalmPassMarks(run, steps, j, i - 1);
      CalmStepMarks(run[i - 1], steps[i - 1], run[j], steps[j].order);
    } else {
      ListMarksNothing(run[j], steps[j].order);
    }
  }

  lemma AllMarked(w: World, listed: World, order: seq<string>, name: string)
    requires Lists(order, listed) && MarkedSoFar(w, listed) && w.local.items == Items(listed, order)
    requires w.local.next == |w.local.items| && SelectedAndVerified(w, name)
    ensures SelectedAndVerified(listed, name) && w.previews[name].deleting
  {
    assert Selected(listed, name);
    var k :| 0 <= k < |order| && order[k] == name;
    assert w.local.items[k] == ItemOf(listed, name);
  }

  // A pass that gets through its list without failures, among others that only mark
  // and finish deletions, leaves every verified preview deleted or marked.
  lemma CalmPassMarksEverything(run: seq<World>, steps: seq<Step>, j: nat, i: nat)
    requires CalmPass(run, steps, j, i) && run[i].local.next == |run[i].local.items|
    ensures forall name :: SelectedAndVerified(run[i], name) ==> run[i].previews[name].deleting
    ensures forall name :: SelectedAndVerified(run[i], name) ==> SelectedAndVerified(run[j], name)
  {
    CalmPassMarks(run, steps, j, i);
    forall name | SelectedAndVerified(run[i], name)
      ensures SelectedAndVerified(run[j], name) && run[i].previews[name].deleting
    {
      AllMarked(run[i], run[j], steps[j].order, name);
    }
  }

  lemma {:induction false} VerifiedWasThere(run: seq<World>, steps: seq<Step>, i: nat, l: nat, name: string)
    requires IsRun(run, steps) && i <= l < |run|
    requires forall m :: i <= m < l ==> !steps[m].Put? && !steps[m].Relabel?
    requires SelectedAndVerified(run[l], name)
    ensures SelectedAndVerified(run[i], name)
  {
    if i < l {
      assert Next(run[l - 1], steps[l - 1]) == run[l - 1 + 1];
      VerifiedWasThere(run, steps, i, l - 1, name);
    }
  }

  // When the marked previews are gone and nobody has put or relabeled others, the next
  // list, of whatever pass, sees no verified one.
  lemma NextListSeesNone(run: seq<World>, steps: seq<Step>, j: nat, i: nat, l: nat)
    requires CalmPass(run, steps, j, i) && run[i].local.next == |run[i].local.items|
    requires i <= l < |steps| && steps[l].List?
    requires forall m :: i <= m < l ==> !steps[m].Put? && !steps[m].Relabel?
    requires forall name :: name in run[i].previews && run[i].previews[name].deleting ==> name !in run[l].previews
    ensures SawNone(run, steps, l)
  {
    CalmPassMarksEverything(run, steps, j, i);
    forall name | name in run[l].previews ensures !SelectedAndVerified(run[l], name) {
      if SelectedAndVerified(run[l], name) {
        VerifiedWasThere(run, steps, i, l, name);
      }
    }
  }

  // The operator's calls and decisions that are left, once no verified preview was listed.
  function CallsLeft(local: Local): nat
  {
    match local
    case Deleting(items, next) => (if next <= |items| then |items| - next else 0) + 13
    case AtGuard(guards) => 2 * |guards| + 2
    case AtGuardDelete(_, _, rest) => 2 * |rest| + 3
    case AtRelease => 1
    case _ => 0
  }

  predicate OnItsWay(w: World)
  {
    match w.local
    case Deleting(items, next) => next <= |items| && CountVerified(items) == 0
    case AtGuard(_) => true
    case AtGuardDelete(_, _, _) => true
    case AtRelease => true
    case _ => false
  }

  lemma CalmStepAdvances(w: World, step: Step)
    requires OnItsWay(w) && Enabled(w, step) && Calm(step)
    ensures
      var w' := Next(w, step);
      || !w'.finalizer
      || (OnItsWay(w') && CallsLeft(w'.local) + (if step.Act? then 1 else 0) <= CallsLeft(w.local))
  {
  }

  function Acts(steps: seq<Step>): nat
  {
    if steps == [] then 0
    else Acts(steps[..|steps| - 1]) + if steps[|steps| - 1].Act? then 1 else 0
  }

  lemma ActsOneMore(steps: seq<Step>, from: nat, i: nat)
    requires from < i <= |steps|
    ensures Acts(steps[from..i]) == Acts(steps[from..i - 1]) + if steps[i - 1].Act? then 1 else 0
  {
    var here := steps[from..i];
    assert here[..|here| - 1] == steps[from..i - 1];
    assert here[|here| - 1] == steps[i - 1];
  }

  lemma {:induction false} NothingListedCountsNothing(w: World, order: seq<string>)
    requires Lists(order, w) && forall name :: name in w.previews ==> !SelectedAndVerified(w, name)
    ensures CountVerified(Items(w, order)) == 0
  {
    var items := Items(w, order);
    CountsAllVerified(items);
    forall k | 0 <= k < |items| ensures !items[k].verified {
      assert Selected(w, order[k]);
    }
  }

  // Released, or on its way with this many calls made out of so many in all.
  predicate Bounded(w: World, calls: nat, total: nat)
  {
    !w.finalizer || (OnItsWay(w) && calls + CallsLeft(w.local) <= total)
  }

  lemma CalmStepStaysBounded(w: World, step: Step, calls: nat, total: nat)
    requires Bounded(w, calls, total) && Enabled(w, step) && Calm(step)
    ensures Bounded(Next(w, step), calls + (if step.Act? then 1 else 0), total)
  {
    if w.finalizer {
      CalmStepAdvances(w, step);
    } else {
      ReleasedStays(w, step);
    }
  }

  lemma ListIsBounded(w: World, order: seq<string>)
    requires Enabled(w, List(order)) && forall name :: name in w.previews ==> !SelectedAndVerified(w, name)
    ensures Bounded(Next(w, List(order)), 0, |order| + 13)
  {
    NothingListedCountsNothing(w, order);
  }

  lemma {:induction false} PassIsBounded(run: seq<World>, steps: seq<Step>, l: nat, i: nat)
    requires IsRun(run, steps) && l < i < |run| && SawNone(run, steps, l)
    requires forall m :: l < m < i ==> Calm(steps[m])
    ensures Bounded(run[i], Acts(steps[l + 1..i]), |steps[l].order| + 13)
  {
    assert Next(run[i - 1], steps[i - 1]) == run[i - 1 + 1];
    if i == l + 1 {
      ListIsBounded(run[l], steps[l].order);
    } else {
      PassIsBounded(run, steps, l, i - 1);
      ActsOneMore(steps, l + 1, i);
      CalmStepStaysBounded(run[i - 1], steps[i - 1], Acts(steps[l + 1..i - 1]), |steps[l].order| + 13);
    }
  }

  // From a list without verified previews, a pass without failures has released the
  // finalizer after a bounded number of calls.
  lemma EmptyListLeadsToRelease(run: seq<World>, steps: seq<Step>, l: nat, i: nat)
    requires IsRun(run, steps) && l < i < |run| && SawNone(run, steps, l)
    requires forall m :: l < m < i ==> Calm(steps[m])
    ensures
      var calls := Acts(steps[l + 1..i]);
      && (!run[i].finalizer || (OnItsWay(run[i]) && calls + CallsLeft(run[i].local) <= |steps[l].order| + 13))
      && (calls >= |steps[l].order| + 13 ==> !run[i].finalizer)
  {
    PassIsBounded(run, steps, l, i);
  }

  lemma ReleasedStays(w: World, step: Step)
    requires Enabled(w, step) && !w.finalizer
    ensures !Next(w, step).finalizer
  {
  }

  // ---- The owned namespace -----------------------------------------------------------------

  // A pass of a Project that manages its namespace deletes it if it is owned, with
  // everything in it, and goes on to the release at once; otherwise it goes on to the list.
  lemma OwnedNamespaceIsDeleted(w: World)
    requires Enabled(w, Begin(true, true, true))
    ensures
      var w1 := Next(w, Begin(true, true, true));
      Enabled(w1, Act) && w1 == w.(local := w1.local)
      && var w2 := Next(w1, Act);
         if w.namespace.Some? && w.namespace.value.owned
         then Enabled(w2, Act) && Next(w2, Act) == w.(namespace := None, local := AtRelease)
         else w2 == w.(local := AtList)
  {
  }

  // Without a known UID or without managing it, the namespace is left alone, and so are
  // its contents without previews in the spec.
  lemma OtherPassesSkipNamespace(w: World, uidKnown: bool, manages: bool)
    requires Enabled(w, Begin(true, uidKnown, manages))
    ensures !(uidKnown && manages) ==> Next(w, Begin(true, uidKnown, manages)) == w.(local := AtList)
    ensures Next(w, Begin(false, uidKnown, manages)) == w.(local := AtRelease)
  {
  }

  // `remaining` is the number of verified items.
  lemma {:induction false} CountVerifiedCounts(items: seq<Item>)
    ensures CountVerified(items) == |set k | 0 <= k < |items| && items[k].verified|
  {
    var found := set k | 0 <= k < |items| && items[k].verified;
    if items != [] {
      var front, last := items[..|items| - 1], |items| - 1;
      CountVerifiedCounts(front);
      var before := set k | 0 <= k < |front| && front[k].verified;
      assert found == before + if items[last].verified then {last} else {};
    }
  }
}
