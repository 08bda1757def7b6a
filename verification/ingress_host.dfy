// Ingress hosts against the allowed DNS suffixes. The code compares strings; the
// meaning is about dot-separated labels (section 3.1 of RFC 1034).
module IngressHost {
  import opened Wrappers
  import opened Text

  // ---- Splitting -----------------------------------------------------------------------

  function Split(s: string, separator: char): (parts: seq<string>)
    ensures parts != []
  {
    if s == [] then [[]]
    else
      var rest := Split(s[1..], separator);
      if s[0] == separator then [[]] + rest else [[s[0]] + rest[0]] + rest[1..]
  }

  function Join(parts: seq<string>, separator: char): string
    requires parts != []
  {
    if |parts| == 1 then parts[0] else parts[0] + [separator] + Join(parts[1..], separator)
  }

  lemma {:induction false} SplitLosesNothing(s: string, separator: char)
    ensures Join(Split(s, separator), separator) == s
    ensures forall i :: 0 <= i < |Split(s, separator)| ==> separator !in Split(s, separator)[i]
  {
    if s != [] {
      SplitLosesNothing(s[1..], separator);
      var rest := Split(s[1..], separator);
      if s[0] == separator {
        assert ([[]] + rest)[1..] == rest;
      } else {
        var parts := [[s[0]] + rest[0]] + rest[1..];
        assert parts[1..] == rest[1..];
        assert |rest| > 1 ==> Join(rest, separator) == rest[0] + [separator] + Join(rest[1..], separator);
      }
    }
  }

  lemma {:induction false} SplitInvertsJoin(parts: seq<string>, separator: char)
    requires parts != [] && forall i :: 0 <= i < |parts| ==> separator !in parts[i]
    ensures Split(Join(parts, separator), separator) == parts
  {
    SplitOnePart(parts[0], separator);
    if |parts| > 1 {
      SplitInvertsJoin(parts[1..], separator);
      SplitConcat(parts[0], Join(parts[1..], separator), separator);
    }
  }

  lemma {:induction false} SplitOnePart(s: string, separator: char)
    requires separator !in s
    ensures Split(s, separator) == [s]
  {
    if s != [] {
      SplitOnePart(s[1..], separator);
      assert [s[0]] + s[1..] == s;
    }
  }

  lemma {:induction false} SplitConcat(a: string, b: string, separator: char)
    ensures Split(a + [separator] + b, separator) == Split(a, separator) + Split(b, separator)
  {
    var s := a + [separator] + b;
    if a == [] {
      assert s[1..] == b;
    } else {
      assert s[1..] == a[1..] + [separator] + b;
      SplitConcat(a[1..], b, separator);
    }
  }

  lemma {:induction false} JoinConcat(p: seq<string>, q: seq<string>, separator: char)
    requires p != [] && q != []
    ensures Join(p + q, separator) == Join(p, separator) + [separator] + Join(q, separator)
  {
    assert (p + q)[1..] == p[1..] + q;
    if |p| > 1 {
      JoinConcat(p[1..], q, separator);
    } else {
      assert p[1..] + q == q;
    }
  }

  // ---- Suffixes --------------------------------------------------------------------------

  function Labels(name: string): seq<string>
  {
    Split(name, '.')
  }

  lemma StringSuffixGivesLabelSuffix(name: string, suffix: string)
    requires name == suffix || EndsWith(name, "." + suffix)
    ensures EndsWith(Labels(name), Labels(suffix))
  {
    if name != suffix {
      var front := name[..|name| - |suffix| - 1];
      assert name == front + (['.'] + suffix) == front + ['.'] + suffix;
      SplitConcat(front, suffix, '.');
    }
  }

  lemma LabelSuffixGivesStringSuffix(name: string, suffix: string)
    requires EndsWith(Labels(name), Labels(suffix))
    ensures name == suffix || EndsWith(name, "." + suffix)
  {
    var labels, end := Labels(name), Labels(suffix);
    SplitLosesNothing(name, '.');
    SplitLosesNothing(suffix, '.');
    var front := labels[..|labels| - |end|];
    assert labels == front + end;
    if front == [] {
      assert labels == end;
    } else {
      JoinConcat(front, end, '.');
      DotEnds(name, Join(front, '.'), suffix);
    }
  }

  lemma DotEnds(name: string, front: string, suffix: string)
    requires name == front + ['.'] + suffix
    ensures EndsWith(name, "." + suffix)
  {
    assert name == front + ("." + suffix);
  }

  // ---- The code ----------------------------------------------------------------------------

  function Lower(s: string): string
  {
    seq(|s|, i requires 0 <= i < |s| => LowerChar(s[i]))
  }

  function AllowedSuffixes(parts: seq<string>): seq<string>
  {
    if parts == [] then []
    else
      var part := Trim(parts[0]);
      (if part == "" then [] else [Lower(TrimStart(part, '.'))]) + AllowedSuffixes(parts[1..])
  }

  predicate HostMatchesAllowedSuffix(host: string, suffix: string)
  {
    var host := Lower(TrimEnd(host, '.'));
    var suffix := TrimEnd(suffix, '.');
    host == suffix || EndsWith(host, "." + suffix)
  }

  predicate IsWildcard(host: string)
  {
    "*." <= TrimEnd(Trim(host), '.')
  }

  predicate MatchesAny(host: string, suffixes: seq<string>)
  {
    exists i :: 0 <= i < |suffixes| && HostMatchesAllowedSuffix(host, suffixes[i])
  }

  datatype Refusal = Wildcard | NoSuffixes | OutsideSuffixes

  function EnsureIngressHostAllowed(host: string, variable: string): Result<(), Refusal>
  {
    var suffixes := AllowedSuffixes(Split(variable, ','));
    if IsWildcard(host) then Failure(Wildcard)
    else if suffixes == [] then Failure(NoSuffixes)
    else if MatchesAny(host, suffixes) then Success(())
    else Failure(OutsideSuffixes)
  }

  // ---- Its meaning -------------------------------------------------------------------------

  // For all strings, matching is about whole labels.
  lemma HostMatchesExactlyBySuffixLabels(host: string, suffix: string)
    ensures HostMatchesAllowedSuffix(host, suffix) <==>
      EndsWith(Labels(Lower(TrimEnd(host, '.'))), Labels(TrimEnd(suffix, '.')))
  {
    var name, end := Lower(TrimEnd(host, '.')), TrimEnd(suffix, '.');
    if HostMatchesAllowedSuffix(host, suffix) {
      StringSuffixGivesLabelSuffix(name, end);
    }
    if EndsWith(Labels(name), Labels(end)) {
      LabelSuffixGivesStringSuffix(name, end);
    }
  }

  lemma WildcardIsFirstLabel(host: string)
    ensures
      var labels := Labels(TrimEnd(Trim(host), '.'));
      IsWildcard(host) <==> |labels| > 1 && labels[0] == "*"
  {
    var name := TrimEnd(Trim(host), '.');
    var labels := Labels(name);
    if "*." <= name {
      assert name == "*" + ['.'] + name[2..];
      SplitConcat("*", name[2..], '.');
      SplitOnePart("*", '.');
    }
    if |labels| > 1 && labels[0] == "*" {
      SplitLosesNothing(name, '.');
      assert name == "*" + ['.'] + Join(labels[1..], '.');
    }
  }

  // The part of a configured entry that counts.
  function Configured(part: string): string
  {
    Lower(TrimStart(Trim(part), '.'))
  }

  predicate Gives(part: string, suffix: string)
  {
    Trim(part) != "" && Configured(part) == suffix
  }

  lemma {:induction false} EntryGivesSuffix(parts: seq<string>, i: nat)
    requires i < |parts| && Trim(parts[i]) != ""
    ensures Configured(parts[i]) in AllowedSuffixes(parts)
  {
    if i > 0 {
      EntryGivesSuffix(parts[1..], i - 1);
    }
  }

  lemma {:induction false} SuffixComesFromEntry(parts: seq<string>, suffix: string) returns (i: nat)
    requires suffix in AllowedSuffixes(parts)
    ensures i < |parts| && Gives(parts[i], suffix)
  {
    if Gives(parts[0], suffix) {
      i := 0;
    } else {
      i := SuffixComesFromEntry(parts[1..], suffix);
      i := i + 1;
    }
  }

  predicate EntryAllows(part: string, host: string)
  {
    Trim(part) != "" && EndsWith(Labels(Lower(TrimEnd(host, '.'))), Labels(TrimEnd(Configured(part), '.')))
  }

  predicate AllowedByAny(host: string, entries: seq<string>)
  {
    exists i :: 0 <= i < |entries| && EntryAllows(entries[i], host)
  }

  lemma MemberMatches(host: string, suffixes: seq<string>, suffix: string)
    requires suffix in suffixes && HostMatchesAllowedSuffix(host, suffix)
    ensures MatchesAny(host, suffixes)
  {
    var k :| 0 <= k < |suffixes| && suffixes[k] == suffix;
    assert HostMatchesAllowedSuffix(host, suffixes[k]);
  }

  lemma ConfiguredSuffixMatches(host: string, entries: seq<string>, i: nat)
    requires i < |entries| && Trim(entries[i]) != "" && HostMatchesAllowedSuffix(host, Configured(entries[i]))
    ensures MatchesAny(host, AllowedSuffixes(entries))
  {
    EntryGivesSuffix(entries, i);
    MemberMatches(host, AllowedSuffixes(entries), Configured(entries[i]));
  }

  lemma MatchingSuffixHasEntry(entries: seq<string>, host: string)
    requires MatchesAny(host, AllowedSuffixes(entries))
    ensures AllowedByAny(host, entries)
  {
    var k :| 0 <= k < |AllowedSuffixes(entries)| && HostMatchesAllowedSuffix(host, AllowedSuffixes(entries)[k]);
    var suffix := AllowedSuffixes(entries)[k];
    HostMatchesExactlyBySuffixLabels(host, suffix);
    var i := SuffixComesFromEntry(entries, suffix);
    assert EntryAllows(entries[i], host);
  }

  // A host is allowed exactly when it has no wildcard label in front and the labels
  // of one entry of the comma-separated variable end its own.
  lemma HostAllowedExactlyByLabels(host: string, variable: string)
    ensures
      var labels := Labels(TrimEnd(Trim(host), '.'));
      EnsureIngressHostAllowed(host, variable).Success? <==>
        !(|labels| > 1 && labels[0] == "*") && AllowedByAny(host, Split(variable, ','))
  {
    var entries := Split(variable, ',');
    WildcardIsFirstLabel(host);
    if MatchesAny(host, AllowedSuffixes(entries)) {
      MatchingSuffixHasEntry(entries, host);
    }
    if AllowedByAny(host, entries) {
      var i :| 0 <= i < |entries| && EntryAllows(entries[i], host);
      HostMatchesExactlyBySuffixLabels(host, Configured(entries[i]));
      ConfiguredSuffixMatches(host, entries, i);
    }
  }

  // An entry of dots alone allows no named host.
  lemma DotsAllowNothing(host: string)
    requires TrimEnd(host, '.') != ""
    ensures !HostMatchesAllowedSuffix(host, "")
  {
    LastIsNotTrimmed(host);
    var name := Lower(TrimEnd(host, '.'));
    var last := name[|name| - 1..];
    assert last[0] != '.';
  }

  lemma {:induction false} LastIsNotTrimmed(s: string)
    ensures var t := TrimEnd(s, '.'); t != "" ==> t[|t| - 1] != '.'
  {
    if s != [] && s[|s| - 1] == '.' {
      LastIsNotTrimmed(s[..|s| - 1]);
    }
  }

  // ---- Letter case -------------------------------------------------------------------------

  // The same character, or the two cases of one ASCII letter.
  predicate SameLetter(a: char, b: char)
  {
    a == b || ('A' <= a <= 'Z' && b as int == a as int + 32) || ('A' <= b <= 'Z' && a as int == b as int + 32)
  }

  predicate SameButCase(a: string, b: string)
  {
    |a| == |b| && forall i :: 0 <= i < |a| ==> SameLetter(a[i], b[i])
  }

  predicate AllSameButCase(a: seq<string>, b: seq<string>)
  {
    |a| == |b| && forall i :: 0 <= i < |a| ==> SameButCase(a[i], b[i])
  }

  lemma CaseIsLowered(a: string, b: string)
    requires SameButCase(a, b)
    ensures Lower(a) == Lower(b)
  {
    forall i | 0 <= i < |a| ensures Lower(a)[i] == Lower(b)[i] {
      assert SameLetter(a[i], b[i]);
    }
  }

  lemma {:induction false} TrimIgnoresCase(a: string, b: string)
    requires SameButCase(a, b)
    ensures SameButCase(Trim(a), Trim(b))
    decreases |a|
  {
    if a != [] {
      assert SameLetter(a[0], b[0]) && SameLetter(a[|a| - 1], b[|b| - 1]);
      assert Whitespace(a[0]) == Whitespace(b[0]) && Whitespace(a[|a| - 1]) == Whitespace(b[|b| - 1]);
      if Whitespace(a[0]) {
        TrimIgnoresCase(a[1..], b[1..]);
      } else if Whitespace(a[|a| - 1]) {
        TrimIgnoresCase(a[..|a| - 1], b[..|b| - 1]);
      }
    }
  }

  lemma {:induction false} TrimEndIgnoresCase(a: string, b: string)
    requires SameButCase(a, b)
    ensures SameButCase(TrimEnd(a, '.'), TrimEnd(b, '.'))
    decreases |a|
  {
    if a != [] {
      assert SameLetter(a[|a| - 1], b[|b| - 1]);
      if a[|a| - 1] == '.' {
        TrimEndIgnoresCase(a[..|a| - 1], b[..|b| - 1]);
      }
    }
  }

  lemma {:induction false} TrimStartIgnoresCase(a: string, b: string)
    requires SameButCase(a, b)
    ensures SameButCase(TrimStart(a, '.'), TrimStart(b, '.'))
    decreases |a|
  {
    if a != [] {
      assert SameLetter(a[0], b[0]);
      if a[0] == '.' {
        TrimStartIgnoresCase(a[1..], b[1..]);
      }
    }
  }

  lemma {:induction false} SplitIgnoresCase(a: string, b: string)
    requires SameButCase(a, b)
    ensures AllSameButCase(Split(a, ','), Split(b, ','))
    decreases |a|
  {
    if a != [] {
      assert SameLetter(a[0], b[0]);
      SplitIgnoresCase(a[1..], b[1..]);
    }
  }

  lemma {:induction false} SuffixesIgnoreCase(a: seq<string>, b: seq<string>)
    requires AllSameButCase(a, b)
    ensures AllowedSuffixes(a) == AllowedSuffixes(b)
    decreases |a|
  {
    if a != [] {
      TrimIgnoresCase(a[0], b[0]);
      TrimStartIgnoresCase(Trim(a[0]), Trim(b[0]));
      CaseIsLowered(TrimStart(Trim(a[0]), '.'), TrimStart(Trim(b[0]), '.'));
      assert forall i :: 0 <= i < |a[1..]| ==> a[1..][i] == a[i + 1] && b[1..][i] == b[i + 1];
      SuffixesIgnoreCase(a[1..], b[1..]);
    }
  }

  lemma WildcardIgnoresCase(a: string, b: string)
    requires SameButCase(a, b)
    ensures IsWildcard(a) == IsWildcard(b)
  {
    TrimIgnoresCase(a, b);
    TrimEndIgnoresCase(Trim(a), Trim(b));
    var x, y := TrimEnd(Trim(a), '.'), TrimEnd(Trim(b), '.');
    if |x| >= 2 {
      assert SameLetter(x[0], y[0]) && SameLetter(x[1], y[1]);
    }
  }

  // The letter case of the host and of the variable decides nothing.
  lemma DecisionIgnoresCase(host: string, other: string, variable: string, written: string)
    requires SameButCase(host, other) && SameButCase(variable, written)
    ensures EnsureIngressHostAllowed(host, variable) == EnsureIngressHostAllowed(other, written)
  {
    WildcardIgnoresCase(host, other);
    SplitIgnoresCase(variable, written);
    SuffixesIgnoreCase(Split(variable, ','), Split(written, ','));
    TrimEndIgnoresCase(host, other);
    CaseIsLowered(TrimEnd(host, '.'), TrimEnd(other, '.'));
  }

  predicate NothingConfigured(variable: string)
  {
    forall i :: 0 <= i < |Split(variable, ',')| ==> Trim(Split(variable, ',')[i]) == ""
  }

  // A refusal names the wildcard first, and then whether any suffix is configured.
  lemma RefusalNamesReason(host: string, variable: string)
    requires EnsureIngressHostAllowed(host, variable).Failure?
    ensures
      var refusal := EnsureIngressHostAllowed(host, variable).error;
      if IsWildcard(host) then refusal == Wildcard
      else if NothingConfigured(variable) then refusal == NoSuffixes
      else refusal == OutsideSuffixes
  {
    var entries := Split(variable, ',');
    if !NothingConfigured(variable) {
      var i :| 0 <= i < |entries| && Trim(entries[i]) != "";
      EntryGivesSuffix(entries, i);
    } else if AllowedSuffixes(entries) != [] {
      var i := SuffixComesFromEntry(entries, AllowedSuffixes(entries)[0]);
    }
  }
}
