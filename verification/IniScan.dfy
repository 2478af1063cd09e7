/** The parser's helpers as they work in place on NUL-terminated buffers. */
module IniScan {
  import opened IniText

  /** The C string at `a + i` is `s`. */
  ghost predicate Holds(a: array<char>, i: nat, s: string)
    reads a
  {
    && i + |s| < a.Length
    && (forall k :: i <= k < i + |s| ==> a[k] == s[k - i])
    && NUL !in s
    && a[i + |s|] == NUL
  }

  lemma CharAt(a: array<char>, i: nat, s: string)
    requires Holds(a, i, s)
    ensures forall k :: i <= k < i + |s| ==> a[k] == s[k - i] && a[k] != NUL
  {
    forall k | i <= k < i + |s| ensures a[k] == s[k - i] && a[k] != NUL {
      assert a[k] in s;
    }
  }

  method StrLen(a: array<char>, i: nat, ghost s: string) returns (end: nat)
    requires Holds(a, i, s)
    ensures end == i + |s|
  {
    CharAt(a, i, s);
    end := i;
    while a[end] != NUL
      invariant i <= end <= i + |s|
      decreases i + |s| - end
    {
      end := end + 1;
    }
  }

  method RStrip(a: array<char>, i: nat, ghost s: string)
    requires Holds(a, i, s)
    modifies a
    ensures Holds(a, i, Trim(s))
    ensures forall k :: (0 <= k < i || i + |s| <= k < a.Length) ==> a[k] == old(a[k])
  {
    var p := StrLen(a, i, s);
    ghost var rest := s;
    while p > i && IsSpace(a[p - 1])
      invariant i <= p == i + |rest| && Holds(a, i, rest)
      invariant Trim(rest) == Trim(s) && |rest| <= |s|
      invariant forall k :: (0 <= k < i || i + |s| <= k < a.Length) ==> a[k] == old(a[k])
    {
      p := p - 1;
      assert a[p] == rest[|rest| - 1];
      rest := rest[..|rest| - 1];
      a[p] := NUL;
    }
    assert rest != "" ==> a[p - 1] == rest[|rest| - 1];
  }

  method LSkip(a: array<char>, i: nat, ghost s: string) returns (k: nat)
    requires Holds(a, i, s)
    ensures k == i + |s| - |Skip(s)| && Holds(a, k, Skip(s))
  {
    hide Skip;
    k := i;
    ghost var rest := s;
    while a[k] != NUL && IsSpace(a[k])
      invariant i <= k == i + |s| - |rest| && Holds(a, k, rest)
      invariant Skip(rest) == Skip(s)
      decreases |rest|
    {
      assert rest != "" && a[k] == rest[0];
      SkipStep(rest);
      rest := rest[1..];
      k := k + 1;
    }
    assert rest != "" ==> a[k] == rest[0];
    SkipStep(rest);
  }

  method FindCharsOrComment(a: array<char>, i: nat, chars: string, ghost s: string) returns (k: nat)
    requires Holds(a, i, s)
    ensures k == i + Scan(s, chars)
  {
    CharAt(a, i, s);
    var wasSpace := false;
    k := i;
    while a[k] != NUL && a[k] !in chars && !(wasSpace && a[k] == ';')
      invariant i <= k <= i + |s|
      invariant wasSpace <==> k > i && IsSpace(s[k - i - 1])
      invariant Passes(s, chars, k - i)
      decreases i + |s| - k
    {
      wasSpace := IsSpace(a[k]);
      k := k + 1;
    }
    ScanIsFirst(s, chars, k - i);
  }

  /** `*k = '\0'` inside a string. */
  method Cut(a: array<char>, i: nat, k: nat, ghost s: string)
    requires Holds(a, i, s) && i <= k <= i + |s|
    modifies a
    ensures Holds(a, i, s[..k - i])
    ensures forall j :: 0 <= j < a.Length && j != k ==> a[j] == old(a[j])
  {
    a[k] := NUL;
  }

  /** Copies at most the buffer's length, pads with NUL, and ends the buffer with NUL. */
  method StrNCpy0(dest: array<char>, a: array<char>, i: nat, ghost s: string)
    requires Holds(a, i, s) && dest != a && dest.Length > 0
    modifies dest
    ensures Holds(dest, 0, Truncated(s, dest.Length))
  {
    CharAt(a, i, s);
    var n, ended := 0, false;
    while n < dest.Length
      invariant n <= dest.Length
      invariant !ended ==> n <= |s| && dest[..n] == s[..n]
      invariant ended ==> |s| < n && dest[..|s|] == s && dest[|s|] == NUL
    {
      if !ended && a[i + n] == NUL {
        ended := true;
      }
      if ended {
        dest[n] := NUL;
      } else {
        dest[n] := a[i + n];
      }
      n := n + 1;
    }
    dest[dest.Length - 1] := NUL;
    ghost var t := Truncated(s, dest.Length);
    assert dest[..|t|] == t;
  }
}
