// Requeue delays: the bounded doubling and the failure counters of the error policy.
module Backoff {
  import opened Wrappers
  import opened ErrorClass

  const U64_MAX: nat := 0xffff_ffff_ffff_ffff
  const U32_MAX: nat := 0xffff_ffff
  type u64 = x: nat | x <= U64_MAX
  type u32 = x: nat | x <= U32_MAX

  const BASE_TRANSIENT: u64 := 30
  const BASE_DEPENDENCY: u64 := 60
  const MAX_SECS: u64 := 600
  const OWNERSHIP_SECS: u64 := 300

  function Min(a: nat, b: nat): nat
  {
    if a <= b then a else b
  }

  function Pow2(n: nat): nat
  {
    if n == 0 then 1 else 2 * Pow2(n - 1)
  }

  // `1u64.checked_shl(n)`
  function CheckedShiftOne(n: u32): Option<u64>
  {
    if n < 64 then Some(Pow2(n) % (U64_MAX + 1)) else None
  }

  function SaturatingMul(a: u64, b: u64): u64
  {
    Min(a * b, U64_MAX)
  }

  function ComputeBackoff(base: u64, attempt: u32): u64
  {
    var shifted := CheckedShiftOne(Min(attempt, 20));
    var factor := if shifted.Some? then shifted.value else U64_MAX;
    Min(SaturatingMul(base, factor), MAX_SECS)
  }

  lemma {:induction false} Pow2Grows(m: nat, n: nat)
    requires m <= n
    ensures 1 <= Pow2(m) <= Pow2(n)
    decreases n
  {
    if m < n {
      Pow2Grows(m, n - 1);
    } else if n > 0 {
      Pow2Grows(m - 1, n - 1);
    }
  }

  lemma Pow2Of20()
    ensures Pow2(20) == 1_048_576
  {
    assert Pow2(4) == 16;
    assert Pow2(8) == 256;
    assert Pow2(12) == 4096;
    assert Pow2(16) == 65536;
  }

  lemma ShiftIsPow2(n: nat)
    requires n <= 20
    ensures CheckedShiftOne(n) == Some(Pow2(n)) && 1 <= Pow2(n) <= 1_048_576
  {
    Pow2Of20();
    Pow2Grows(n, 20);
  }

  lemma Larger(base: nat, factor: nat)
    requires base > 0 && factor >= 600
    ensures Min(600, base * factor) == 600
  {
    assert base * factor >= factor;
  }

  // Neither the shift limit nor the saturation is visible in the result.
  lemma ComputeBackoffIsBoundedDoubling(base: u64, attempt: u32)
    ensures ComputeBackoff(base, attempt) == Min(600, base * Pow2(attempt))
  {
    ShiftIsPow2(Min(attempt, 20));
    BoundedFactor(base, attempt);
    var product := base * Pow2(Min(attempt, 20));
    assert ComputeBackoff(base, attempt) == Min(Min(product, U64_MAX), 600);
  }

  lemma BoundedFactor(base: u64, attempt: u32)
    ensures Min(600, base * Pow2(Min(attempt, 20))) == Min(600, base * Pow2(attempt))
  {
    if attempt > 20 && base > 0 {
      Pow2Of20();
      Pow2Grows(20, attempt);
      Larger(base, Pow2(20));
      Larger(base, Pow2(attempt));
    }
  }

  // ---- The error policy --------------------------------------------------------------

  type Key = (string, string)

  datatype Event =
    | Reconciled(key: Key)
    | Errored(key: Key, error: Error)

  datatype Action = AwaitChange | Requeue(seconds: nat)

  predicate Retryable(event: Event)
  {
    event.Errored? && ClassOf(event.error) in {Transient, DependencyNotReady}
  }

  // The events of one Project.
  function Of(history: seq<Event>, key: Key): seq<Event>
  {
    if history == [] then []
    else
      var last := history[|history| - 1];
      Of(history[..|history| - 1], key) + if last.key == key then [last] else []
  }

  function Streak(events: seq<Event>): nat
  {
    if events == [] || !Retryable(events[|events| - 1]) then 0 else 1 + Streak(events[..|events| - 1])
  }

  // The streak is the number of consecutive retryable failures at the end, and no
  // larger number is.
  lemma {:induction false} StreakIsLongest(events: seq<Event>)
    ensures
      var k := Streak(events);
      && k <= |events|
      && (forall i :: |events| - k <= i < |events| ==> Retryable(events[i]))
      && (k < |events| ==> !Retryable(events[|events| - k - 1]))
  {
    if events != [] && Retryable(events[|events| - 1]) {
      var init := events[..|events| - 1];
      StreakIsLongest(init);
      assert forall i :: 0 <= i < |init| ==> events[i] == init[i];
    }
  }

  function Base(class_: Class): u64
  {
    if class_ == DependencyNotReady then BASE_DEPENDENCY else BASE_TRANSIENT
  }

  lemma SaturationIsInvisible(base: u64, k: nat)
    requires k > 0 && base > 0
    ensures Min(600, base * Pow2(Min(k, U32_MAX) - 1)) == Min(600, base * Pow2(k - 1))
  {
    if k > U32_MAX {
      Pow2Of20();
      Pow2Grows(20, U32_MAX - 1);
      Pow2Grows(20, k - 1);
      Larger(base, Pow2(U32_MAX - 1));
      Larger(base, Pow2(k - 1));
    }
  }

  lemma DelayOfStreak(base: u64, entry: u32, k: nat)
    requires base > 0 && k > 0 && entry == Min(k, U32_MAX)
    ensures ComputeBackoff(base, entry - 1) == Min(600, base * Pow2(k - 1))
  {
    ComputeBackoffIsBoundedDoubling(base, entry - 1);
    SaturationIsInvisible(base, k);
  }

  // `entry(key).or_insert(0)`
  function Count(attempts: map<Key, u32>, key: Key): nat
  {
    if key in attempts then attempts[key] else 0
  }

  // The counter of every Project is its streak, as far as a u32 can count.
  ghost predicate Counts(attempts: map<Key, u32>, history: seq<Event>)
  {
    forall key :: Count(attempts, key) == Min(Streak(Of(history, key)), U32_MAX)
  }

  lemma EventExtendsStreak(history: seq<Event>, event: Event, key: Key)
    ensures Streak(Of(history + [event], key)) ==
      if event.key != key then Streak(Of(history, key))
      else if Retryable(event) then Streak(Of(history, key)) + 1
      else 0
  {
    assert (history + [event])[..|history|] == history;
    var events := Of(history, key);
    assert (events + [event])[..|events|] == events && events + [] == events;
  }

  lemma ResetKeepsCounts(attempts: map<Key, u32>, history: seq<Event>, event: Event)
    requires Counts(attempts, history) && !Retryable(event)
    ensures Counts(attempts - {event.key}, history + [event])
  {
    forall key
      ensures Count(attempts - {event.key}, key) == Min(Streak(Of(history + [event], key)), U32_MAX)
    {
      EventExtendsStreak(history, event, key);
    }
  }

  lemma FailureKeepsCounts(attempts: map<Key, u32>, history: seq<Event>, event: Event, entry: u32)
    requires Counts(attempts, history) && Retryable(event)
    requires entry == Min(Count(attempts, event.key) + 1, U32_MAX)
    ensures Counts(attempts[event.key := entry], history + [event])
  {
    var attempts' := attempts[event.key := entry];
    forall key
      ensures Count(attempts', key) == Min(Streak(Of(history + [event], key)), U32_MAX)
    {
      EventExtendsStreak(history, event, key);
    }
  }

  lemma NextCount(attempts: map<Key, u32>, history: seq<Event>, event: Event)
    requires Counts(attempts, history) && Retryable(event)
    ensures
      var k := Streak(Of(history + [event], event.key));
      k > 0 && Min(Count(attempts, event.key) + 1, U32_MAX) == Min(k, U32_MAX)
  {
    EventExtendsStreak(history, event, event.key);
  }

  class Controller {
    var attempts: map<Key, u32>
    ghost var history: seq<Event>

    ghost predicate Valid()
      reads this
    {
      Counts(attempts, history)
    }

    constructor ()
      ensures Valid() && history == []
    {
      attempts, history := map[], [];
    }

    // The end of a successful reconcile.
    method Succeed(key: Key)
      requires Valid()
      modifies this
      ensures Valid() && history == old(history) + [Reconciled(key)]
    {
      Reset(key, Reconciled(key));
    }

    // The delay after the k-th consecutive retryable failure is the base of its class
    // doubled k - 1 times, up to 600 s; every other outcome starts the count again.
    method ErrorPolicy(key: Key, error: Error) returns (action: Action)
      requires Valid()
      modifies this
      ensures Valid() && history == old(history) + [Errored(key, error)]
      ensures ClassOf(error) == Permanent ==> action == AwaitChange
      ensures ClassOf(error) == OwnershipConflict ==> action == Requeue(300)
      ensures ClassOf(error) in {Transient, DependencyNotReady} ==>
        var k := Streak(Of(history, key));
        k > 0 && action == Requeue(Min(600, (if ClassOf(error) == Transient then 30 else 60) * Pow2(k - 1)))
    {
      var class_ := BackoffClass(error);
      if class_ == Permanent || class_ == OwnershipConflict {
        Reset(key, Errored(key, error));
        action := if class_ == Permanent then AwaitChange else Requeue(OWNERSHIP_SECS);
      } else {
        action := Retry(key, error, class_);
      }
    }

    method Reset(key: Key, ghost event: Event)
      requires Valid() && !Retryable(event) && event.key == key
      modifies this
      ensures Valid() && history == old(history) + [event]
    {
      ResetKeepsCounts(attempts, history, event);
      attempts := attempts - {key};
      history := history + [event];
    }

    method Retry(key: Key, error: Error, class_: Class) returns (action: Action)
      requires Valid() && Retryable(Errored(key, error)) && class_ == ClassOf(error)
      modifies this
      ensures Valid() && history == old(history) + [Errored(key, error)]
      ensures
        var k := Streak(Of(history, key));
        k > 0 && action == Requeue(Min(600, Base(class_) * Pow2(k - 1)))
    {
      var entry := CountUp(key, Errored(key, error));
      DelayOfStreak(Base(class_), entry, Streak(Of(history, key)));
      action := Requeue(ComputeBackoff(Base(class_), entry - 1));
    }

    // The atomic increment of the counter.
    method CountUp(key: Key, ghost event: Event) returns (entry: u32)
      requires Valid() && Retryable(event) && event.key == key
      modifies this
      ensures Valid() && history == old(history) + [event]
      ensures Streak(Of(history, key)) > 0 && entry == Min(Streak(Of(history, key)), U32_MAX)
    {
      entry := Min(Count(attempts, key) + 1, U32_MAX);
      NextCount(attempts, history, event);
      FailureKeepsCounts(attempts, history, event, entry);
      attempts := attempts[key := entry];
      history := history + [event];
    }
  }
}
