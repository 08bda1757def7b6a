// Text operations of the Rust standard library that several models use.
module Text {
  // Unicode White_Space
  predicate Whitespace(c: char)
  {
    var n := c as int;
    || 0x9 <= n <= 0xd || n in {0x20, 0x85, 0xa0, 0x1680, 0x2028, 0x2029, 0x202f, 0x205f, 0x3000}
    || 0x2000 <= n <= 0x200a
  }

  // `str::trim`
  function Trim(s: string): string
  {
    if s == [] then s
    else if Whitespace(s[0]) then Trim(s[1..])
    else if Whitespace(s[|s| - 1]) then Trim(s[..|s| - 1])
    else s
  }

  // `char::to_ascii_lowercase`
  function LowerChar(c: char): char
  {
    if 'A' <= c <= 'Z' then (c as int + 32) as char else c
  }

  function TrimEnd(s: string, c: char): string
  {
    if s != [] && s[|s| - 1] == c then TrimEnd(s[..|s| - 1], c) else s
  }

  function TrimStart(s: string, c: char): string
  {
    if s != [] && s[0] == c then TrimStart(s[1..], c) else s
  }

  // `str::trim_matches`
  function TrimMatches(s: string, c: char): string
  {
    TrimEnd(TrimStart(s, c), c)
  }

  predicate EndsWith<T(==)>(s: seq<T>, end: seq<T>)
  {
    |end| <= |s| && s[|s| - |end|..] == end
  }

  // ---- What is trimmed -------------------------------------------------------------

  lemma {:induction false} StartIsTrimmed(s: string, c: char) returns (n: nat)
    ensures n <= |s| && TrimStart(s, c) == s[n..]
    ensures forall i :: 0 <= i < n ==> s[i] == c
    ensures n < |s| ==> s[n] != c
  {
    if s != [] && s[0] == c {
      var m := StartIsTrimmed(s[1..], c);
      n := m + 1;
      assert s[1..][m..] == s[n..];
      assert forall i :: 0 < i < n ==> s[i] == s[1..][i - 1];
    } else {
      n := 0;
    }
  }

  lemma {:induction false} EndIsTrimmed(s: string, c: char) returns (n: nat)
    ensures n <= |s| && TrimEnd(s, c) == s[..n]
    ensures forall i :: n <= i < |s| ==> s[i] == c
    ensures n > 0 ==> s[n - 1] != c
  {
    if s != [] && s[|s| - 1] == c {
      n := EndIsTrimmed(s[..|s| - 1], c);
      assert s[..|s| - 1][..n] == s[..n];
    } else {
      n := |s|;
      assert s[..n] == s;
    }
  }

  lemma {:induction false} TrimIsMiddle(s: string) returns (n: nat, m: nat)
    ensures n <= m <= |s| && Trim(s) == s[n..m]
    ensures forall i :: 0 <= i < n || m <= i < |s| ==> Whitespace(s[i])
    ensures n < m ==> !Whitespace(s[n]) && !Whitespace(s[m - 1])
    decreases |s|
  {
    if s != [] && Whitespace(s[0]) {
      var k, l := TrimIsMiddle(s[1..]);
      n, m := k + 1, l + 1;
      assert s[1..][k..l] == s[n..m];
      assert forall i :: 0 < i < |s| ==> s[i] == s[1..][i - 1];
    } else if s != [] && Whitespace(s[|s| - 1]) {
      n, m := TrimIsMiddle(s[..|s| - 1]);
      assert s[..|s| - 1][n..m] == s[n..m];
      assert forall i :: 0 <= i < |s| - 1 ==> s[i] == s[..|s| - 1][i];
    } else {
      n, m := 0, |s|;
      assert s[n..m] == s;
    }
  }
}
