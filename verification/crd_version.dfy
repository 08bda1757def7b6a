// Ranking of Kubernetes API versions and the choice among the versions a CRD serves.
module CrdVersion {
  import opened Wrappers

  const U32: nat := 0x1_0000_0000

  datatype Tier = Alpha | Beta | Stable

  datatype Version = Version(tier: Tier, major: nat, minor: nat)

  // ---- Numbers -------------------------------------------------------------------------

  predicate IsDigit(c: char)
  {
    '0' <= c <= '9'
  }

  function DigitsEnd(s: string): (end: nat)
    ensures end <= |s|
  {
    if s != [] && IsDigit(s[0]) then 1 + DigitsEnd(s[1..]) else 0
  }

  function Value(digits: string): nat
    requires forall i :: 0 <= i < |digits| ==> IsDigit(digits[i])
  {
    if digits == [] then 0
    else
      var last := digits[|digits| - 1];
      assert IsDigit(last);
      10 * Value(digits[..|digits| - 1]) + (last as int - '0' as int)
  }

  predicate AllDigits(s: string)
  {
    s != [] && forall i :: 0 <= i < |s| ==> IsDigit(s[i])
  }

  // `str::parse::<u32>`: a leading `+` is accepted.
  function ParseU32(s: string): Option<nat>
  {
    var digits := if "+" <= s then s[1..] else s;
    if AllDigits(digits) && Value(digits) < U32 then Some(Value(digits)) else None
  }

  function Decimal(n: nat): (s: string)
    ensures AllDigits(s)
  {
    var last := [(n % 10 + '0' as int) as char];
    if n < 10 then last else Decimal(n / 10) + last
  }

  lemma {:induction false} ValueOfDecimal(n: nat)
    ensures Value(Decimal(n)) == n
  {
    if n >= 10 {
      ValueOfDecimal(n / 10);
      var s := Decimal(n);
      assert s[..|s| - 1] == Decimal(n / 10);
    }
  }

  lemma ParseInvertsDecimal(n: nat)
    requires n < U32
    ensures ParseU32(Decimal(n)) == Some(n)
  {
    ValueOfDecimal(n);
    var s := Decimal(n);
    assert IsDigit(s[0]) && !IsDigit("+"[0]);
  }

  lemma {:induction false} DigitsEndOfConcat(digits: string, rest: string)
    requires forall i :: 0 <= i < |digits| ==> IsDigit(digits[i])
    requires rest == [] || !IsDigit(rest[0])
    ensures DigitsEnd(digits + rest) == |digits|
  {
    if digits == [] {
      assert digits + rest == rest;
    } else {
      assert (digits + rest)[1..] == digits[1..] + rest;
      DigitsEndOfConcat(digits[1..], rest);
    }
  }

  // ---- `version_rank` ------------------------------------------------------------------

  // `parse().unwrap_or(0)`
  function Minor(s: string): nat
  {
    var parsed := ParseU32(s);
    if parsed.Some? then parsed.value else 0
  }

  function Parse(version: string): Option<Version>
  {
    if !("v" <= version) then None
    else
      var rest := version[1..];
      var end := DigitsEnd(rest);
      var major := ParseU32(rest[..end]);
      var suffix := rest[end..];
      if major.None? then None else WithSuffix(major.value, suffix)
  }

  function WithSuffix(major: nat, suffix: string): Option<Version>
  {
    if suffix == "" then Some(Version(Stable, major, 0))
    else if "beta" <= suffix then Some(Version(Beta, major, Minor(suffix[4..])))
    else if "alpha" <= suffix then Some(Version(Alpha, major, Minor(suffix[5..])))
    else None
  }

  function Base(tier: Tier): nat
  {
    match tier
    case Alpha => 0
    case Beta => 1_000_000
    case Stable => 2_000_000
  }

  // u32 arithmetic, which wraps around.
  function Rank(v: Version): nat
  {
    (Base(v.tier) + v.major * 1_000 + v.minor) % U32
  }

  function VersionRank(version: string): nat
  {
    var parsed := Parse(version);
    if parsed.Some? then Rank(parsed.value) else 0
  }

  function Suffix(v: Version): string
  {
    match v.tier
    case Alpha => "alpha" + Decimal(v.minor)
    case Beta => "beta" + Decimal(v.minor)
    case Stable => ""
  }

  function Name(v: Version): string
  {
    "v" + Decimal(v.major) + Suffix(v)
  }

  lemma SuffixIsRead(v: Version)
    requires v.minor < U32 && (v.tier.Stable? ==> v.minor == 0)
    ensures WithSuffix(v.major, Suffix(v)) == Some(v)
  {
    ParseInvertsDecimal(v.minor);
    match v.tier {
      case Alpha => assert Suffix(v)[5..] == Decimal(v.minor) && Suffix(v)[0] == 'a';
      case Beta => assert Suffix(v)[4..] == Decimal(v.minor);
      case Stable =>
    }
  }

  // What is parsed is what Kubernetes prints.
  lemma ParseInvertsName(v: Version)
    requires v.major < U32 && v.minor < U32 && (v.tier.Stable? ==> v.minor == 0)
    ensures Parse(Name(v)) == Some(v)
  {
    var digits, rest := Decimal(v.major), Name(v)[1..];
    assert rest == digits + Suffix(v);
    DigitsEndOfConcat(digits, Suffix(v));
    assert rest[..|digits|] == digits && rest[|digits|..] == Suffix(v);
    ParseInvertsDecimal(v.major);
    SuffixIsRead(v);
  }

  function TierOrder(tier: Tier): nat
  {
    match tier
    case Alpha => 0
    case Beta => 1
    case Stable => 2
  }

  predicate Less(a: Version, b: Version)
  {
    || TierOrder(a.tier) < TierOrder(b.tier)
    || (a.tier == b.tier && (a.major < b.major || (a.major == b.major && a.minor < b.minor)))
  }

  predicate Within(v: Version, majors: nat, minors: nat)
  {
    v.major < majors && v.minor < minors
  }

  lemma SmallRankIsExact(v: Version)
    requires Within(v, 1000, 1000)
    ensures Rank(v) == Base(v.tier) + v.major * 1_000 + v.minor < Base(v.tier) + 1_000_000
  {
    var sum := Base(v.tier) + v.major * 1_000 + v.minor;
    assert 0 <= sum < U32;
  }

  // Below 1000 the arithmetic does not overflow and orders versions by tier, major
  // and minor; it does not mix versions with unknown formats, except `v0alpha0`.
  lemma RankOrdersSmallVersions(a: Version, b: Version)
    requires Within(a, 1000, 1000) && Within(b, 1000, 1000)
    ensures Base(a.tier) + a.major * 1_000 + a.minor < U32
    ensures Rank(a) < Rank(b) <==> Less(a, b)
    ensures Rank(a) == 0 <==> a == Version(Alpha, 0, 0)
  {
    SmallRankIsExact(a);
    SmallRankIsExact(b);
  }

  ghost predicate RankIsOrder(majors: nat, minors: nat)
  {
    forall a, b :: Within(a, majors, minors) && Within(b, majors, minors) ==> (Rank(a) < Rank(b) <==> Less(a, b))
  }

  // These bounds are exact.
  lemma RankIsOrderExactlyBelow1000(majors: nat, minors: nat)
    requires majors >= 2 && minors >= 1
    ensures RankIsOrder(majors, minors) <==> majors <= 1000 && minors <= 1000
  {
    if majors <= 1000 && minors <= 1000 {
      forall a, b | Within(a, majors, minors) && Within(b, majors, minors)
        ensures Rank(a) < Rank(b) <==> Less(a, b)
      {
        RankOrdersSmallVersions(a, b);
      }
    }
    if majors > 1000 {
      var a, b := Version(Alpha, 1000, 0), Version(Beta, 0, 0);
      assert Within(a, majors, minors) && Within(b, majors, minors) && Rank(a) == Rank(b) && Less(a, b);
    }
    if minors > 1000 {
      var a, b := Version(Alpha, 0, 1000), Version(Alpha, 1, 0);
      assert Within(a, majors, minors) && Within(b, majors, minors) && Rank(a) == Rank(b) && Less(a, b);
    }
  }

  // An unknown format ranks below every version under 1000 but one.
  lemma UnknownRanksLowestExceptV0Alpha0(unknown: string, v: Version)
    requires Parse(unknown).None? && Within(v, 1000, 1000) && (v.tier.Stable? ==> v.minor == 0)
    ensures VersionRank(unknown) < VersionRank(Name(v)) <==> Name(v) != "v0alpha0"
  {
    ParseInvertsName(v);
    RankOrdersSmallVersions(v, v);
    NameOfLeast();
    NamesAreDifferent(v, Version(Alpha, 0, 0));
  }

  lemma NamesAreDifferent(a: Version, b: Version)
    requires a.major < U32 && a.minor < U32 && (a.tier.Stable? ==> a.minor == 0)
    requires b.major < U32 && b.minor < U32 && (b.tier.Stable? ==> b.minor == 0)
    ensures Name(a) == Name(b) <==> a == b
  {
    ParseInvertsName(a);
    ParseInvertsName(b);
  }

  lemma NameOfLeast()
    ensures Name(Version(Alpha, 0, 0)) == "v0alpha0"
  {
    assert Decimal(0) == "0";
  }

  // ---- `pick_best_version` ---------------------------------------------------------------

  datatype Entry = Entry(name: string, served: bool, storage: bool)

  // Order of `&str`.
  predicate StringAtMost(a: string, b: string)
  {
    a == [] || (b != [] && (a[0] < b[0] || (a[0] == b[0] && StringAtMost(a[1..], b[1..]))))
  }

  lemma {:induction false} StringOrderIsTotal(a: string, b: string)
    ensures StringAtMost(a, b) || StringAtMost(b, a)
    ensures StringAtMost(a, b) && StringAtMost(b, a) ==> a == b
  {
    if a != [] && b != [] {
      StringOrderIsTotal(a[1..], b[1..]);
      if a[0] == b[0] && a[1..] == b[1..] {
        assert a == [a[0]] + a[1..] == b;
      }
    }
  }

  lemma {:induction false} StringOrderIsTransitive(a: string, b: string, c: string)
    requires StringAtMost(a, b) && StringAtMost(b, c)
    ensures StringAtMost(a, c)
  {
    if a != [] && a[0] == b[0] == c[0] {
      StringOrderIsTransitive(a[1..], b[1..], c[1..]);
    }
  }

  // Order of the key `(version_rank(v), v)`.
  predicate AtMost(a: string, b: string)
  {
    VersionRank(a) < VersionRank(b) || (VersionRank(a) == VersionRank(b) && StringAtMost(a, b))
  }

  lemma KeyOrderIsTotal(a: string, b: string)
    ensures AtMost(a, b) || AtMost(b, a)
    ensures AtMost(a, b) && AtMost(b, a) ==> a == b
  {
    StringOrderIsTotal(a, b);
  }

  lemma KeyOrderIsTransitive(a: string, b: string, c: string)
    requires AtMost(a, b) && AtMost(b, c)
    ensures AtMost(a, c)
  {
    if VersionRank(a) == VersionRank(b) == VersionRank(c) {
      StringOrderIsTransitive(a, b, c);
    }
  }

  function Served(entries: seq<Entry>): seq<string>
  {
    if entries == [] then []
    else (if entries[0].served then [entries[0].name] else []) + Served(entries[1..])
  }

  // `find(|v| v.served && v.storage)`
  function FirstStorage(entries: seq<Entry>): Option<string>
  {
    if entries == [] then None
    else if entries[0].served && entries[0].storage then Some(entries[0].name)
    else FirstStorage(entries[1..])
  }

  // `max_by_key`: of equal keys the last one wins.
  function MaxByKey(names: seq<string>): string
    requires names != []
  {
    var last := names[|names| - 1];
    if |names| == 1 then last
    else
      var best := MaxByKey(names[..|names| - 1]);
      if AtMost(best, last) then last else best
  }

  function PickBestVersion(entries: seq<Entry>): Option<string>
  {
    var served := Served(entries);
    if served == [] then None
    else if FirstStorage(entries).Some? then FirstStorage(entries)
    else Some(MaxByKey(served))
  }

  predicate Dominates(best: string, names: seq<string>)
  {
    best in names && forall i :: 0 <= i < |names| ==> AtMost(names[i], best)
  }

  lemma {:induction false} MaxByKeyDominates(names: seq<string>)
    requires names != []
    ensures Dominates(MaxByKey(names), names)
  {
    var init, last := names[..|names| - 1], names[|names| - 1];
    assert names == init + [last];
    if |names| == 1 {
      DominatesItself(last);
      assert names == [last];
    } else {
      MaxByKeyDominates(init);
      DominatesOneMore(MaxByKey(init), init, last);
    }
  }

  lemma DominatesItself(name: string)
    ensures Dominates(name, [name])
  {
    KeyOrderIsTotal(name, name);
  }

  lemma DominatesOneMore(best: string, names: seq<string>, last: string)
    requires Dominates(best, names)
    ensures Dominates(if AtMost(best, last) then last else best, names + [last])
  {
    KeyOrderIsTotal(best, last);
    KeyOrderIsTotal(last, last);
    forall i | 0 <= i < |names| ensures AtMost(best, last) ==> AtMost(names[i], last) {
      if AtMost(best, last) {
        KeyOrderIsTransitive(names[i], best, last);
      }
    }
  }

  lemma DominatorIsUnique(a: string, b: string, names: seq<string>, names': seq<string>)
    requires Dominates(a, names) && Dominates(b, names')
    requires forall name :: name in names <==> name in names'
    ensures a == b
  {
    var i :| 0 <= i < |names| && names[i] == b;
    var j :| 0 <= j < |names'| && names'[j] == a;
    StringOrderIsTotal(a, b);
  }

  lemma {:induction false} ServedAreServed(entries: seq<Entry>, name: string)
    ensures name in Served(entries) <==> exists i :: 0 <= i < |entries| && entries[i].served && entries[i].name == name
  {
    if entries != [] {
      ServedAreServed(entries[1..], name);
      if i :| 0 < i < |entries| && entries[i].served && entries[i].name == name {
        assert entries[1..][i - 1] == entries[i];
      }
      if i :| 0 <= i < |entries[1..]| && entries[1..][i].served && entries[1..][i].name == name {
        assert entries[i + 1] == entries[1..][i];
      }
    }
  }

  predicate ServedStorage(entry: Entry)
  {
    entry.served && entry.storage
  }

  lemma {:induction false} FirstStorageIsFirst(entries: seq<Entry>)
    ensures FirstStorage(entries).None? <==> forall i :: 0 <= i < |entries| ==> !ServedStorage(entries[i])
    ensures FirstStorage(entries).Some? ==>
      exists i :: 0 <= i < |entries| && ServedStorage(entries[i]) && FirstStorage(entries) == Some(entries[i].name)
        && forall j :: 0 <= j < i ==> !ServedStorage(entries[j])
  {
    if entries != [] && !ServedStorage(entries[0]) {
      FirstStorageIsFirst(entries[1..]);
      assert forall i :: 0 <= i < |entries[1..]| ==> entries[1..][i] == entries[i + 1];
      assert forall i :: 0 < i < |entries| ==> entries[i] == entries[1..][i - 1];
      if FirstStorage(entries).Some? {
        var i :| 0 <= i < |entries[1..]| && ServedStorage(entries[1..][i])
          && FirstStorage(entries[1..]) == Some(entries[1..][i].name)
          && forall j :: 0 <= j < i ==> !ServedStorage(entries[1..][j]);
        assert ServedStorage(entries[i + 1]) && forall j :: 0 <= j < i + 1 ==> !ServedStorage(entries[j]);
      }
    }
  }

  // Without a served storage version the choice is the served version that
  // dominates all of them.
  lemma PickBestDominates(entries: seq<Entry>)
    requires FirstStorage(entries).None?
    ensures PickBestVersion(entries).None? <==> Served(entries) == []
    ensures PickBestVersion(entries).Some? ==> Dominates(PickBestVersion(entries).value, Served(entries))
  {
    if Served(entries) != [] {
      MaxByKeyDominates(Served(entries));
    }
  }

  predicate SmallVersion(name: string)
  {
    Parse(name).Some? && Within(Parse(name).value, 1000, 1000)
  }

  // For small versions that is the newest version of the most stable tier.
  lemma PickBestIsNewest(entries: seq<Entry>, i: nat)
    requires FirstStorage(entries).None? && PickBestVersion(entries).Some?
    requires forall name :: name in Served(entries) ==> SmallVersion(name)
    requires i < |entries| && entries[i].served
    ensures
      var best := Parse(PickBestVersion(entries).value);
      var other := Parse(entries[i].name);
      best.Some? && other.Some? && !Less(best.value, other.value)
  {
    PickBestDominates(entries);
    ServedAreServed(entries, entries[i].name);
    var best := PickBestVersion(entries).value;
    var k :| 0 <= k < |Served(entries)| && Served(entries)[k] == entries[i].name;
    assert AtMost(Served(entries)[k], best);
    RankOrdersSmallVersions(Parse(best).value, Parse(entries[i].name).value);
  }

  // The choice does not depend on the order of the list, nor on repetitions: it is
  // determined by the served names alone, or by the served storage version.
  lemma PickBestIgnoresOrder(entries: seq<Entry>, entries': seq<Entry>)
    requires forall name :: name in Served(entries) <==> name in Served(entries')
    requires FirstStorage(entries).None? && FirstStorage(entries').None?
    ensures PickBestVersion(entries) == PickBestVersion(entries')
  {
    assert Served(entries) != [] ==> Served(entries)[0] in Served(entries');
    assert Served(entries') != [] ==> Served(entries')[0] in Served(entries);
    if Served(entries) != [] {
      PickBestDominates(entries);
      PickBestDominates(entries');
      DominatorIsUnique(PickBestVersion(entries).value, PickBestVersion(entries').value, Served(entries), Served(entries'));
    }
  }

  lemma PickBestPrefersStorage(entries: seq<Entry>, storage: string)
    requires exists i :: 0 <= i < |entries| && ServedStorage(entries[i])
    requires forall i :: 0 <= i < |entries| && ServedStorage(entries[i]) ==> entries[i].name == storage
    ensures PickBestVersion(entries) == Some(storage)
  {
    FirstStorageIsFirst(entries);
    var i :| 0 <= i < |entries| && ServedStorage(entries[i]);
    ServedAreServed(entries, storage);
  }
}
