// The condition list of a Project status and every write the operator makes to it.
module Conditions {
  import opened Wrappers
  import opened Project

  // ---- upsert_condition ---------------------------------------------------------

  function Upserted(conditions: seq<Condition>, next: Condition): seq<Condition>
  {
    if conditions == [] then [next]
    else if conditions[0].type_ == next.type_ then [next] + conditions[1..]
    else [conditions[0]] + Upserted(conditions[1..], next)
  }

  class ConditionList {
    var items: seq<Condition>

    constructor (items: seq<Condition>)
      ensures this.items == items
    {
      this.items := items;
    }

    method Upsert(next: Condition)
      modifies this
      ensures items == Upserted(old(items), next)
    {
      var i := 0;
      while i < |items| && items[i].type_ != next.type_
        invariant 0 <= i <= |items| && items == old(items)
        invariant Upserted(items, next) == items[..i] + Upserted(items[i..], next)
      {
        assert items[i..][1..] == items[i + 1..];
        assert items[..i + 1] == items[..i] + [items[i]];
        i := i + 1;
      }
      if i < |items| {
        assert items[i..][1..] == items[i + 1..];
        items := items[i := next];
      } else {
        items := items + [next];
      }
    }
  }

  predicate Unique(conditions: seq<Condition>)
  {
    forall i, j :: 0 <= i < j < |conditions| ==> conditions[i].type_ != conditions[j].type_
  }

  predicate Has(conditions: seq<Condition>, type_: ConditionType, status: ConditionStatus)
  {
    exists c: Condition :: c in conditions && c.type_ == type_ && c.status == status
  }

  predicate HasType(conditions: seq<Condition>, type_: ConditionType)
  {
    exists c: Condition :: c in conditions && c.type_ == type_
  }

  // An upsert sets one type and leaves the others, in their places.
  lemma {:induction false} UpsertSetsOneType(conditions: seq<Condition>, next: Condition)
    ensures forall c: Condition :: c.type_ != next.type_ ==> (c in Upserted(conditions, next) <==> c in conditions)
    ensures next in Upserted(conditions, next)
    ensures Unique(conditions) ==> Unique(Upserted(conditions, next))
    ensures Unique(conditions) ==> forall c: Condition :: c in Upserted(conditions, next) && c.type_ == next.type_ ==> c == next
    ensures |Upserted(conditions, next)| == |conditions| + if HasType(conditions, next.type_) then 0 else 1
  {
    var result := Upserted(conditions, next);
    if conditions != [] {
      var head, tail := conditions[0], conditions[1..];
      assert forall c: Condition :: c in conditions <==> c == head || c in tail;
      if head.type_ == next.type_ {
        assert forall c: Condition :: c in result <==> c == next || c in tail;
        assert HasType(conditions, next.type_);
        if Unique(conditions) {
          assert forall i :: 0 < i < |conditions| ==> conditions[i].type_ != head.type_;
        }
      } else {
        UpsertSetsOneType(tail, next);
        assert forall c: Condition :: c in result <==> c == head || c in Upserted(tail, next);
        assert HasType(conditions, next.type_) <==> HasType(tail, next.type_);
        if Unique(conditions) {
          assert Unique(tail);
          assert forall c: Condition :: c in tail ==> c.type_ != head.type_;
          assert forall c: Condition :: c in Upserted(tail, next) ==> c.type_ != head.type_;
        }
      }
    }
  }

  lemma UpsertHas(conditions: seq<Condition>, next: Condition)
    requires Unique(conditions)
    ensures Unique(Upserted(conditions, next))
    ensures forall type_, status :: Has(Upserted(conditions, next), type_, status) <==>
      if type_ == next.type_ then status == next.status else Has(conditions, type_, status)
  {
    UpsertSetsOneType(conditions, next);
  }

  function Find(conditions: seq<Condition>, type_: ConditionType): Option<Condition>
  {
    if conditions == [] then None
    else if conditions[0].type_ == type_ then Some(conditions[0])
    else Find(conditions[1..], type_)
  }

  function FindWithStatus(conditions: seq<Condition>, type_: ConditionType, status: ConditionStatus): Option<Condition>
  {
    if conditions == [] then None
    else if conditions[0].type_ == type_ && conditions[0].status == status then Some(conditions[0])
    else FindWithStatus(conditions[1..], type_, status)
  }

  // ---- build_status_patch ---------------------------------------------------------

  // `preserve_transition_time_for_unchanged_status`
  function KeepTime(conditions: seq<Condition>, next: Condition): (c: Condition)
    ensures c.type_ == next.type_ && c.status == next.status && c.reason == next.reason
  {
    var existing := FindWithStatus(conditions, next.type_, next.status);
    if existing.Some? then next.(lastTransitionTime := existing.value.lastTransitionTime) else next
  }

  // Without a listed condition of the type and status the new time stands; otherwise the
  // time is that of the first one listed, which in a list of unique types is the only one.
  lemma {:induction false} KeptTimeIsListed(conditions: seq<Condition>, next: Condition)
    ensures !Has(conditions, next.type_, next.status) ==> KeepTime(conditions, next) == next
    ensures Has(conditions, next.type_, next.status) ==>
      exists i :: 0 <= i < |conditions|
        && conditions[i].type_ == next.type_ && conditions[i].status == next.status
        && KeepTime(conditions, next).lastTransitionTime == conditions[i].lastTransitionTime
        && forall j :: 0 <= j < i ==> !(conditions[j].type_ == next.type_ && conditions[j].status == next.status)
  {
    if conditions != [] {
      var first, rest := conditions[0], conditions[1..];
      assert forall c: Condition :: c in conditions <==> c == first || c in rest;
      if !(first.type_ == next.type_ && first.status == next.status) {
        KeptTimeIsListed(rest, next);
        assert KeepTime(conditions, next) == KeepTime(rest, next);
        if Has(conditions, next.type_, next.status) {
          var i :| 0 <= i < |rest|
            && rest[i].type_ == next.type_ && rest[i].status == next.status
            && KeepTime(rest, next).lastTransitionTime == rest[i].lastTransitionTime
            && forall j :: 0 <= j < i ==> !(rest[j].type_ == next.type_ && rest[j].status == next.status);
          assert conditions[i + 1] == rest[i];
          assert forall j :: 0 < j < i + 1 ==> conditions[j] == rest[j - 1];
        }
      }
    }
  }

  function Companion(conditions: seq<Condition>, condition: Condition, now: Time): Option<Condition>
  {
    if (condition.type_ == Progressing && condition.status == CTrue && Has(conditions, Degraded, CTrue))
       || (condition.type_ == Progressing && condition.status == CFalse && condition.reason == "BuildSucceeded")
    then Some(Condition(Degraded, CFalse, condition.reason, Some(now)))
    else if condition.type_ == Degraded && condition.status == CTrue
    then Some(Condition(Progressing, CFalse, condition.reason, Some(now)))
    else None
  }

  function BuildConditions(conditions: seq<Condition>, condition: Condition, now: Time): seq<Condition>
  {
    var upserted := Upserted(conditions, KeepTime(conditions, condition));
    match Companion(conditions, condition, now)
    case None => upserted
    case Some(companion) => Upserted(upserted, KeepTime(conditions, companion))
  }

  function PhaseOfBuild(phase: BuildPhase): Option<Phase>
  {
    match phase
    case Pending => Some(Deploying)
    case Running => Some(Deploying)
    case Failed => Some(PhaseDegraded)
    case Succeeded => None
  }

  // ---- build_status ------------------------------------------------------------------

  datatype Gate = NotRequired | GateRunning | GateSucceeded | GateFailed

  // `build_condition`: the transition time changes with the status only.
  function Stamped(conditions: seq<Condition>, type_: ConditionType, status: ConditionStatus, reason: string, now: Time): Condition
  {
    var existing := Find(conditions, type_);
    Condition(type_, status, reason,
              if existing.Some? && existing.value.status == status then existing.value.lastTransitionTime else Some(now))
  }

  function GateReason(gate: Gate): string
  {
    match gate
    case NotRequired => "MigrationNotRequired"
    case GateRunning => "MigrationRunning"
    case GateSucceeded => "MigrationSucceeded"
    case GateFailed => "MigrationFailed"
  }

  function ReadyReason(ready: bool, gate: Gate): string
  {
    if ready then "ReconcileSuccess" else if gate == GateFailed then "MigrationFailed" else "ReconcileInProgress"
  }

  function UpsertAll(conditions: seq<Condition>, children: seq<Condition>): seq<Condition>
    decreases |children|
  {
    if children == [] then conditions
    else UpsertAll(Upserted(conditions, children[0]), children[1..])
  }

  function GateConditions(conditions: seq<Condition>, ready: bool, gate: Gate, now: Time): seq<Condition>
  {
    var c1 := Upserted(conditions,
      Stamped(conditions, Ready, if ready then CTrue else CFalse, ReadyReason(ready, gate), now));
    var c2 := Upserted(c1,
      Stamped(conditions, MigrationReady, if gate == GateRunning || gate == GateFailed then CFalse else CTrue, GateReason(gate), now));
    if gate == GateFailed then Upserted(c2, Stamped(conditions, Degraded, CTrue, "MigrationFailed", now))
    else if ready && Find(conditions, Degraded).Some?
    then Upserted(c2, Stamped(conditions, Degraded, CFalse, ReadyReason(ready, gate), now))
    else c2
  }

  function StatusConditions(conditions: seq<Condition>, ready: bool, gate: Gate, children: seq<Condition>, now: Time): seq<Condition>
  {
    UpsertAll(GateConditions(conditions, ready, gate, now), children)
  }

  function PhaseOfGate(ready: bool, gate: Gate): Phase
  {
    if gate == GateFailed then PhaseDegraded else if ready then PhaseRunning else Deploying
  }

  // ---- The two remaining writers --------------------------------------------------------

  // `build_degraded_status_patch` sends a list of one condition.
  function TenantConditions(reason: string, now: Time): seq<Condition>
  {
    [Condition(Degraded, CTrue, reason, Some(now))]
  }

  function PreviewDeletedConditions(conditions: seq<Condition>, now: Time): seq<Condition>
  {
    var progressing := KeepTime(conditions, Condition(Progressing, CFalse, "PreviewDeleted", Some(now)));
    var degraded := KeepTime(conditions, Condition(Degraded, CFalse, "PreviewDeleted", Some(now)));
    Upserted(Upserted(conditions, progressing), degraded)
  }

  // ---- What the conditions of a status promise -------------------------------------------

  predicate Consistent(build: Option<Build>, conditions: seq<Condition>)
  {
    && Unique(conditions)
    && (Has(conditions, Progressing, CTrue) ==> build.Some? && Active(build.value.phase))
    && !(Has(conditions, Progressing, CTrue) && Has(conditions, Degraded, CTrue))
  }

  // The condition that accompanies a build of this phase.
  predicate Announces(condition: Condition, phase: BuildPhase)
  {
    match phase
    case Pending => condition.type_ == Progressing && condition.status == CTrue
    case Running => condition.type_ == Progressing && condition.status == CTrue
    case Failed => condition.type_ == Degraded && condition.status == CTrue
    case Succeeded => condition.type_ == Progressing && condition.status == CFalse && condition.reason == "BuildSucceeded"
  }

  // A build write makes the list consistent with the new build: in progress and
  // not degraded, degraded and not in progress, or neither.
  lemma BuildWriteIsConsistent(conditions: seq<Condition>, condition: Condition, build: Build, now: Time)
    requires Unique(conditions) && Announces(condition, build.phase)
    ensures Consistent(Some(build), BuildConditions(conditions, condition, now))
    ensures Has(BuildConditions(conditions, condition, now), Progressing, CTrue) <==> Active(build.phase)
    ensures Has(BuildConditions(conditions, condition, now), Degraded, CTrue) <==> build.phase == Failed
    ensures forall type_, status :: type_ != Progressing && type_ != Degraded ==>
      (Has(BuildConditions(conditions, condition, now), type_, status) <==> Has(conditions, type_, status))
  {
    var kept := KeepTime(conditions, condition);
    UpsertHas(conditions, kept);
    var companion := Companion(conditions, condition, now);
    if companion.Some? {
      UpsertHas(Upserted(conditions, kept), KeepTime(conditions, companion.value));
    }
  }

  lemma {:induction false} UpsertOfMember(conditions: seq<Condition>, c: Condition)
    requires Unique(conditions) && c in conditions
    ensures Upserted(conditions, c) == conditions
    ensures FindWithStatus(conditions, c.type_, c.status) == Some(c)
  {
    assert forall d: Condition :: d in conditions <==> d == conditions[0] || d in conditions[1..];
    if conditions[0] != c {
      assert forall i :: 0 <= i < |conditions[1..]| ==> conditions[1..][i] == conditions[i + 1];
      UpsertOfMember(conditions[1..], c);
    }
  }

  // Announcing the same build again changes nothing, at whatever time.
  lemma RepeatedBuildWriteIsStable(conditions: seq<Condition>, condition: Condition, phase: BuildPhase, now: Time, later: Time)
    requires Unique(conditions) && Announces(condition, phase)
    ensures
      var written := BuildConditions(conditions, condition, now);
      BuildConditions(written, condition.(lastTransitionTime := Some(later)), later) == written
  {
    var written := BuildConditions(conditions, condition, now);
    var again := condition.(lastTransitionTime := Some(later));
    var kept := KeepTime(conditions, condition);
    var companion := Companion(conditions, condition, now);
    UpsertSetsOneType(conditions, kept);
    if companion.Some? {
      UpsertSetsOneType(Upserted(conditions, kept), KeepTime(conditions, companion.value));
      UpsertOfMember(written, KeepTime(conditions, companion.value));
    }
    UpsertOfMember(written, kept);
    assert KeepTime(written, again) == kept;
    BuildWriteIsConsistent(conditions, condition, AnyBuild(phase), now);
  }

  function AnyBuild(phase: BuildPhase): Build
  {
    Build(phase, Production, "", "", "", "", None, None, None, None, None, None)
  }

  predicate ChildTypes(children: seq<Condition>)
  {
    forall c: Condition :: c in children ==> c.type_ == TlsReady || c.type_ == AutoscalerReady
  }

  lemma {:induction false} ChildrenKeepTheRest(conditions: seq<Condition>, children: seq<Condition>)
    requires Unique(conditions) && ChildTypes(children)
    ensures Unique(UpsertAll(conditions, children))
    ensures forall type_, status :: type_ != TlsReady && type_ != AutoscalerReady ==>
      (Has(UpsertAll(conditions, children), type_, status) <==> Has(conditions, type_, status))
    decreases |children|
  {
    if children != [] {
      UpsertHas(conditions, children[0]);
      ChildrenKeepTheRest(Upserted(conditions, children[0]), children[1..]);
    }
  }

  lemma {:induction false} FindMissesAbsentType(conditions: seq<Condition>, type_: ConditionType)
    ensures Find(conditions, type_).Some? <==> HasType(conditions, type_)
  {
    if conditions != [] {
      FindMissesAbsentType(conditions[1..], type_);
      assert forall c: Condition :: c in conditions <==> c == conditions[0] || c in conditions[1..];
    }
  }

  // The final status write never touches Progressing; Degraded becomes true on a
  // failed migration, false on readiness, and is otherwise kept.
  lemma StatusWriteConditions(conditions: seq<Condition>, ready: bool, gate: Gate, children: seq<Condition>, now: Time)
    requires Unique(conditions) && ChildTypes(children)
    ensures
      var result := StatusConditions(conditions, ready, gate, children, now);
      && Unique(result)
      && (forall status :: Has(result, Progressing, status) <==> Has(conditions, Progressing, status))
      && (Has(result, Degraded, CTrue) <==> gate == GateFailed || (!ready && Has(conditions, Degraded, CTrue)))
      && (Has(result, Ready, CTrue) <==> ready)
      && (Has(result, MigrationReady, CTrue) <==> gate == NotRequired || gate == GateSucceeded)
  {
    var s1 := Stamped(conditions, Ready, if ready then CTrue else CFalse, ReadyReason(ready, gate), now);
    UpsertHas(conditions, s1);
    var c1 := Upserted(conditions, s1);
    var s2 := Stamped(conditions, MigrationReady, if gate == GateRunning || gate == GateFailed then CFalse else CTrue, GateReason(gate), now);
    UpsertHas(c1, s2);
    var c2 := Upserted(c1, s2);
    UpsertHas(c2, Stamped(conditions, Degraded, CTrue, "MigrationFailed", now));
    UpsertHas(c2, Stamped(conditions, Degraded, CFalse, ReadyReason(ready, gate), now));
    FindMissesAbsentType(conditions, Degraded);
    assert Has(conditions, Degraded, CTrue) ==> HasType(conditions, Degraded);
    ChildrenKeepTheRest(GateConditions(conditions, ready, gate, now), children);
  }

  lemma PreviewDeletedIsConsistent(conditions: seq<Condition>, now: Time)
    requires Unique(conditions)
    ensures Consistent(None, PreviewDeletedConditions(conditions, now))
    ensures !Has(PreviewDeletedConditions(conditions, now), Degraded, CTrue)
  {
    var progressing := KeepTime(conditions, Condition(Progressing, CFalse, "PreviewDeleted", Some(now)));
    UpsertHas(conditions, progressing);
    UpsertHas(Upserted(conditions, progressing), KeepTime(conditions, Condition(Degraded, CFalse, "PreviewDeleted", Some(now))));
  }

  lemma TenantErrorIsConsistent(build: Option<Build>, reason: string, now: Time)
    ensures Consistent(build, TenantConditions(reason, now))
  {
  }

  // ---- What exactly the writes store -----------------------------------------------------

  // The first listed time of a type and status stands; otherwise the new one does.
  predicate Dated(c: Condition, conditions: seq<Condition>, now: Time)
  {
    if exists d: Condition :: d in conditions && d.type_ == c.type_ && d.status == c.status
    then exists d: Condition :: d in conditions && d.type_ == c.type_ && d.status == c.status && d.lastTransitionTime == c.lastTransitionTime
    else c.lastTransitionTime == Some(now)
  }

  lemma {:induction false} FindOfMember(conditions: seq<Condition>, c: Condition)
    requires Unique(conditions) && c in conditions
    ensures Find(conditions, c.type_) == Some(c)
  {
    assert forall d: Condition :: d in conditions <==> d == conditions[0] || d in conditions[1..];
    if conditions[0] != c {
      assert forall i :: 0 <= i < |conditions[1..]| ==> conditions[1..][i] == conditions[i + 1];
      FindOfMember(conditions[1..], c);
    }
  }

  lemma StampedIsDated(conditions: seq<Condition>, type_: ConditionType, status: ConditionStatus, reason: string, now: Time)
    requires Unique(conditions)
    ensures Dated(Stamped(conditions, type_, status, reason, now), conditions, now)
  {
    FindMissesAbsentType(conditions, type_);
    forall d: Condition | d in conditions && d.type_ == type_ ensures Find(conditions, type_) == Some(d) {
      FindOfMember(conditions, d);
    }
  }

  lemma {:induction false} ChildrenAreStored(conditions: seq<Condition>, children: seq<Condition>)
    requires Unique(conditions) && Unique(children)
    ensures
      var result := UpsertAll(conditions, children);
      && Unique(result)
      && (forall c: Condition :: c in children ==> c in result)
      && (forall c: Condition :: !HasType(children, c.type_) ==> (c in result <==> c in conditions))
    decreases |children|
  {
    if children != [] {
      var first, rest := children[0], children[1..];
      UpsertSetsOneType(conditions, first);
      assert forall i :: 0 <= i < |rest| ==> rest[i] == children[i + 1];
      ChildrenAreStored(Upserted(conditions, first), rest);
      assert forall c: Condition :: c in children <==> c == first || c in rest;
      assert forall c: Condition :: c in rest ==> c.type_ != first.type_;
    }
  }

  // What the final write and its child conditions store.
  ghost predicate Stored(result: seq<Condition>, conditions: seq<Condition>, ready: bool, gate: Gate,
                         children: seq<Condition>, now: Time)
  {
    && Unique(result)
    && Stamped(conditions, Ready, if ready then CTrue else CFalse, ReadyReason(ready, gate), now) in result
    && Stamped(conditions, MigrationReady, if gate == GateRunning || gate == GateFailed then CFalse else CTrue,
               GateReason(gate), now) in result
    && (gate == GateFailed ==> Stamped(conditions, Degraded, CTrue, "MigrationFailed", now) in result)
    && (gate != GateFailed && ready && HasType(conditions, Degraded) ==>
          Stamped(conditions, Degraded, CFalse, "ReconcileSuccess", now) in result)
    && (forall c: Condition :: c in children ==> c in result)
    && var degradedStays := gate != GateFailed && !(ready && HasType(conditions, Degraded));
       forall c: Condition :: c.type_ != Ready && c.type_ != MigrationReady && !HasType(children, c.type_) ==>
         (c.type_ == Degraded ==> degradedStays) ==> (c in result <==> c in conditions)
  }

  lemma GateIsStored(conditions: seq<Condition>, ready: bool, gate: Gate, now: Time)
    requires Unique(conditions)
    ensures Stored(GateConditions(conditions, ready, gate, now), conditions, ready, gate, [], now)
  {
    var s1 := Stamped(conditions, Ready, if ready then CTrue else CFalse, ReadyReason(ready, gate), now);
    UpsertSetsOneType(conditions, s1);
    var c1 := Upserted(conditions, s1);
    var s2 := Stamped(conditions, MigrationReady, if gate == GateRunning || gate == GateFailed then CFalse else CTrue, GateReason(gate), now);
    UpsertSetsOneType(c1, s2);
    var c2 := Upserted(c1, s2);
    FindMissesAbsentType(conditions, Degraded);
    if gate == GateFailed {
      UpsertSetsOneType(c2, Stamped(conditions, Degraded, CTrue, "MigrationFailed", now));
    } else if ready && Find(conditions, Degraded).Some? {
      UpsertSetsOneType(c2, Stamped(conditions, Degraded, CFalse, ReadyReason(ready, gate), now));
    }
  }

  lemma ChildrenAreStoredToo(gated: seq<Condition>, conditions: seq<Condition>, ready: bool, gate: Gate,
                             children: seq<Condition>, now: Time)
    requires Unique(children) && ChildTypes(children) && Stored(gated, conditions, ready, gate, [], now)
    ensures Stored(UpsertAll(gated, children), conditions, ready, gate, children, now)
  {
    ChildrenAreStored(gated, children);
  }

  lemma StatusIsStored(conditions: seq<Condition>, ready: bool, gate: Gate, children: seq<Condition>, now: Time)
    requires Unique(conditions) && Unique(children) && ChildTypes(children)
    ensures Stored(StatusConditions(conditions, ready, gate, children, now), conditions, ready, gate, children, now)
  {
    GateIsStored(conditions, ready, gate, now);
    ChildrenAreStoredToo(GateConditions(conditions, ready, gate, now), conditions, ready, gate, children, now);
  }

  // A condition of this type with this status and reason is listed, dated as of the
  // first time it had that status.
  ghost predicate Reports(result: seq<Condition>, conditions: seq<Condition>, type_: ConditionType, status: ConditionStatus,
                          reason: string, now: Time)
  {
    exists c: Condition :: c in result && c.type_ == type_ && c.status == status && c.reason == reason && Dated(c, conditions, now)
  }

  ghost predicate AllReported(result: seq<Condition>, conditions: seq<Condition>, ready: bool, gate: Gate, now: Time)
  {
    && (ready ==> Reports(result, conditions, Ready, CTrue, "ReconcileSuccess", now))
    && (!ready && gate == GateFailed ==> Reports(result, conditions, Ready, CFalse, "MigrationFailed", now))
    && (!ready && gate != GateFailed ==> Reports(result, conditions, Ready, CFalse, "ReconcileInProgress", now))
    && (gate == NotRequired ==> Reports(result, conditions, MigrationReady, CTrue, "MigrationNotRequired", now))
    && (gate == GateRunning ==> Reports(result, conditions, MigrationReady, CFalse, "MigrationRunning", now))
    && (gate == GateSucceeded ==> Reports(result, conditions, MigrationReady, CTrue, "MigrationSucceeded", now))
    && (gate == GateFailed ==> Reports(result, conditions, MigrationReady, CFalse, "MigrationFailed", now))
    && (gate == GateFailed ==> Reports(result, conditions, Degraded, CTrue, "MigrationFailed", now))
    && (gate != GateFailed && ready && HasType(conditions, Degraded) ==>
          Reports(result, conditions, Degraded, CFalse, "ReconcileSuccess", now))
  }

  // The final status write reports readiness and the migration with the reasons of the
  // gate, raises Degraded on a failed migration, clears a listed one on readiness, stores
  // every child condition, and leaves all other conditions as they were.
  lemma StatusWriteReports(conditions: seq<Condition>, ready: bool, gate: Gate, children: seq<Condition>, now: Time)
    requires Unique(conditions) && Unique(children) && ChildTypes(children)
    ensures
      var result := StatusConditions(conditions, ready, gate, children, now);
      && Unique(result)
      && AllReported(result, conditions, ready, gate, now)
      && (forall c: Condition :: c in children ==> c in result)
    ensures
      var result := StatusConditions(conditions, ready, gate, children, now);
      var degradedStays := gate != GateFailed && !(ready && HasType(conditions, Degraded));
      forall c: Condition :: c.type_ != Ready && c.type_ != MigrationReady && !HasType(children, c.type_) ==>
        (c.type_ == Degraded ==> degradedStays) ==> (c in result <==> c in conditions)
  {
    StatusIsStored(conditions, ready, gate, children, now);
    StoredIsReported(StatusConditions(conditions, ready, gate, children, now), conditions, ready, gate, children, now);
  }

  lemma StoredIsReported(written: seq<Condition>, conditions: seq<Condition>, ready: bool, gate: Gate,
                         children: seq<Condition>, now: Time)
    requires Unique(conditions) && Stored(written, conditions, ready, gate, children, now)
    ensures AllReported(written, conditions, ready, gate, now)
  {
    StampedIsReported(written, conditions, Ready, if ready then CTrue else CFalse, ReadyReason(ready, gate), now);
    StampedIsReported(written, conditions, MigrationReady, if gate == GateRunning || gate == GateFailed then CFalse else CTrue,
                      GateReason(gate), now);
    if gate == GateFailed {
      StampedIsReported(written, conditions, Degraded, CTrue, "MigrationFailed", now);
    } else if ready && HasType(conditions, Degraded) {
      StampedIsReported(written, conditions, Degraded, CFalse, "ReconcileSuccess", now);
    }
  }

  lemma StampedIsReported(result: seq<Condition>, conditions: seq<Condition>, type_: ConditionType, status: ConditionStatus,
                          reason: string, now: Time)
    requires Unique(conditions) && Stamped(conditions, type_, status, reason, now) in result
    ensures Reports(result, conditions, type_, status, reason, now)
  {
    StampedIsDated(conditions, type_, status, reason, now);
  }

  lemma {:induction false} UpsertAllOfMembers(conditions: seq<Condition>, children: seq<Condition>)
    requires Unique(conditions) && forall c: Condition :: c in children ==> c in conditions
    ensures UpsertAll(conditions, children) == conditions
    decreases |children|
  {
    if children != [] {
      UpsertOfMember(conditions, children[0]);
      UpsertAllOfMembers(conditions, children[1..]);
    }
  }

  // Reporting the same state again, at whatever time, changes nothing: no status write
  // triggers the next one.
  lemma RepeatedStatusWriteIsStable(conditions: seq<Condition>, ready: bool, gate: Gate, children: seq<Condition>, now: Time, later: Time)
    requires Unique(conditions) && Unique(children) && ChildTypes(children)
    ensures
      var written := StatusConditions(conditions, ready, gate, children, now);
      StatusConditions(written, ready, gate, children, later) == written
  {
    StatusIsStored(conditions, ready, gate, children, now);
    var written := StatusConditions(conditions, ready, gate, children, now);
    GateConditionsAreStable(conditions, written, ready, gate, now, later);
    UpsertAllOfMembers(written, children);
  }

  lemma GateConditionsAreStable(conditions: seq<Condition>, written: seq<Condition>, ready: bool, gate: Gate, now: Time, later: Time)
    requires Unique(written)
    requires Stamped(conditions, Ready, if ready then CTrue else CFalse, ReadyReason(ready, gate), now) in written
    requires Stamped(conditions, MigrationReady, if gate == GateRunning || gate == GateFailed then CFalse else CTrue,
                     GateReason(gate), now) in written
    requires gate == GateFailed ==> Stamped(conditions, Degraded, CTrue, "MigrationFailed", now) in written
    requires gate != GateFailed && ready && HasType(written, Degraded) ==>
      Stamped(conditions, Degraded, CFalse, "ReconcileSuccess", now) in written
    ensures GateConditions(written, ready, gate, later) == written
  {
    StampedAgain(conditions, written, Ready, if ready then CTrue else CFalse, ReadyReason(ready, gate), now, later);
    StampedAgain(conditions, written, MigrationReady, if gate == GateRunning || gate == GateFailed then CFalse else CTrue,
                 GateReason(gate), now, later);
    FindMissesAbsentType(written, Degraded);
    if gate == GateFailed {
      StampedAgain(conditions, written, Degraded, CTrue, "MigrationFailed", now, later);
    } else if ready && HasType(written, Degraded) {
      StampedAgain(conditions, written, Degraded, CFalse, "ReconcileSuccess", now, later);
    }
  }

  lemma StampedAgain(conditions: seq<Condition>, written: seq<Condition>, type_: ConditionType, status: ConditionStatus, reason: string,
                     now: Time, later: Time)
    requires Unique(written) && Stamped(conditions, type_, status, reason, now) in written
    ensures Upserted(written, Stamped(written, type_, status, reason, later)) == written
  {
    FindOfMember(written, Stamped(conditions, type_, status, reason, now));
    UpsertOfMember(written, Stamped(conditions, type_, status, reason, now));
  }

  // A build write stores the announced condition and its companion, dated like those of
  // the final write, and nothing else.
  lemma BuildWriteReports(conditions: seq<Condition>, condition: Condition, phase: BuildPhase, now: Time)
    requires Unique(conditions) && Announces(condition, phase) && condition.lastTransitionTime == Some(now)
    ensures
      var result := BuildConditions(conditions, condition, now);
      && Reports(result, conditions, condition.type_, condition.status, condition.reason, now)
      && (phase == Failed ==> Reports(result, conditions, Progressing, CFalse, condition.reason, now))
      && (phase == Succeeded || (Active(phase) && Has(conditions, Degraded, CTrue)) ==>
            Reports(result, conditions, Degraded, CFalse, condition.reason, now))
      && (Active(phase) && !Has(conditions, Degraded, CTrue) ==>
            forall c: Condition :: c.type_ == Degraded ==> (c in result <==> c in conditions))
      && (forall c: Condition :: c.type_ != Progressing && c.type_ != Degraded ==> (c in result <==> c in conditions))
  {
    var kept := KeepTime(conditions, condition);
    UpsertSetsOneType(conditions, kept);
    KeptIsDated(conditions, condition, now);
    var companion := Companion(conditions, condition, now);
    if companion.Some? {
      UpsertSetsOneType(Upserted(conditions, kept), KeepTime(conditions, companion.value));
      KeptIsDated(conditions, companion.value, now);
    }
  }

  lemma KeptIsDated(conditions: seq<Condition>, next: Condition, now: Time)
    requires next.lastTransitionTime == Some(now)
    ensures Dated(KeepTime(conditions, next), conditions, now)
  {
    KeptTimeIsListed(conditions, next);
    if Has(conditions, next.type_, next.status) {
      var i :| 0 <= i < |conditions|
        && conditions[i].type_ == next.type_ && conditions[i].status == next.status
        && KeepTime(conditions, next).lastTransitionTime == conditions[i].lastTransitionTime;
      assert conditions[i] in conditions;
    }
  }

  // A cancelled preview build leaves both conditions false for that reason.
  lemma PreviewDeletedReports(conditions: seq<Condition>, now: Time)
    requires Unique(conditions)
    ensures
      var result := PreviewDeletedConditions(conditions, now);
      && Reports(result, conditions, Progressing, CFalse, "PreviewDeleted", now)
      && Reports(result, conditions, Degraded, CFalse, "PreviewDeleted", now)
      && forall c: Condition :: c.type_ != Progressing && c.type_ != Degraded ==> (c in result <==> c in conditions)
  {
    var progressing := Condition(Progressing, CFalse, "PreviewDeleted", Some(now));
    var degraded := Condition(Degraded, CFalse, "PreviewDeleted", Some(now));
    KeptIsDated(conditions, progressing, now);
    KeptIsDated(conditions, degraded, now);
    UpsertSetsOneType(conditions, KeepTime(conditions, progressing));
    UpsertSetsOneType(Upserted(conditions, KeepTime(conditions, progressing)), KeepTime(conditions, degraded));
  }
}
