/** Strings as the INI parser cuts them up. A `char` stands for one byte of the file. */
module IniText {

  const NUL: char := '\0'
  const BOM: string := ['\U{EF}', '\U{BB}', '\U{BF}']

  /** `isspace` in the C locale. */
  predicate IsSpace(c: char) {
    c == ' ' || 9 <= c as int <= 13
  }

  /** These six, and no others. */
  lemma SpacesAre(c: char)
    ensures IsSpace(c) <==> c in " \t\n\r\U{0B}\U{0C}"
  {
    var s := " \t\n\r\U{0B}\U{0C}";
    assert s[0] == ' ' && s[1] == '\t' && s[2] == '\n' && s[3] == '\r' && s[4] == '\U{0B}' && s[5] == '\U{0C}';
  }

  predicate Blank(s: string) {
    forall i :: 0 <= i < |s| ==> IsSpace(s[i])
  }

  /** No white space at either end. */
  predicate Stripped(s: string) {
    s != "" ==> !IsSpace(s[0]) && !IsSpace(s[|s| - 1])
  }

  /** What `rstrip` leaves. */
  function Trim(s: string): (r: string)
    ensures r <= s && Blank(s[|r|..])
    ensures r != "" ==> !IsSpace(r[|r| - 1])
  {
    if s != "" && IsSpace(s[|s| - 1]) then
      var r := Trim(s[..|s| - 1]);
      assert s[|r|..] == s[..|s| - 1][|r|..] + [s[|s| - 1]];
      r
    else s
  }

  /** What `lskip` points at. */
  function Skip(s: string): (r: string)
    ensures |r| <= |s| && r == s[|s| - |r|..] && Blank(s[..|s| - |r|])
    ensures r != "" ==> !IsSpace(r[0])
  {
    if s != "" && IsSpace(s[0]) then
      var r := Skip(s[1..]);
      assert s[..|s| - |r|] == [s[0]] + s[1..][..|s| - 1 - |r|];
      r
    else s
  }

  lemma SkipStep(s: string)
    ensures Skip(s) == if s != "" && IsSpace(s[0]) then Skip(s[1..]) else s
  {
  }

  /** An inline comment starts at a `;` that follows white space, never at the first character. */
  predicate CommentAt(s: string, i: nat)
    requires i < |s|
  {
    s[i] == ';' && i > 0 && IsSpace(s[i - 1])
  }

  predicate Stops(s: string, chars: string, i: nat)
    requires i < |s|
  {
    s[i] in chars || CommentAt(s, i)
  }

  predicate Passes(s: string, chars: string, upto: nat)
    requires upto <= |s|
  {
    forall i :: 0 <= i < upto ==> !Stops(s, chars, i)
  }

  function ScanFrom(s: string, chars: string, i: nat): (k: nat)
    requires i <= |s| && Passes(s, chars, i)
    ensures i <= k <= |s| && Passes(s, chars, k)
    ensures k < |s| ==> Stops(s, chars, k)
    decreases |s| - i
  {
    if i == |s| || Stops(s, chars, i) then i else ScanFrom(s, chars, i + 1)
  }

  /** Where `find_chars_or_comment` stops: the first of `chars`, the first inline comment, or the end. */
  function Scan(s: string, chars: string): (k: nat)
    ensures k <= |s| && Passes(s, chars, k)
    ensures k < |s| ==> Stops(s, chars, k)
  {
    ScanFrom(s, chars, 0)
  }

  lemma {:induction false} ScanFromIsFirst(s: string, chars: string, i: nat, k: nat)
    requires i <= k <= |s| && Passes(s, chars, k) && (k < |s| ==> Stops(s, chars, k))
    ensures ScanFrom(s, chars, i) == k
    decreases k - i
  {
    if i < k {
      assert !Stops(s, chars, i);
      ScanFromIsFirst(s, chars, i + 1, k);
    }
  }

  lemma ScanIsFirst(s: string, chars: string, k: nat)
    requires k <= |s| && Passes(s, chars, k) && (k < |s| ==> Stops(s, chars, k))
    ensures Scan(s, chars) == k
  {
    ScanFromIsFirst(s, chars, 0, k);
  }

  /** The text without an inline comment. */
  function Uncommented(s: string): string {
    Trim(s[..Scan(s, "")])
  }

  /** The C string a buffer with these bytes holds: everything before the first NUL. */
  function Visible(s: string): (r: string)
    ensures r <= s && NUL !in r
    ensures |r| < |s| ==> s[|r|] == NUL
  {
    if s == "" || s[0] == NUL then "" else [s[0]] + Visible(s[1..])
  }

  lemma VisibleAll(s: string)
    requires NUL !in s
    ensures Visible(s) == s
  {
  }

  /** `strncpy0` into a buffer of `size` bytes. */
  function Truncated(s: string, size: nat): string
    requires size > 0
  {
    if |s| < size then s else s[..size - 1]
  }

  /** `tolower` in the C locale. */
  function LowerChar(c: char): char {
    if 'A' <= c <= 'Z' then (c as int + 32) as char else c
  }

  /** Capital letters become the small ones, and nothing else changes. */
  lemma LowerCharIs(i: nat, c: char)
    ensures var capital, small := "ABCDEFGHIJKLMNOPQRSTUVWXYZ", "abcdefghijklmnopqrstuvwxyz";
            && (i < 26 ==> LowerChar(capital[i]) == small[i])
            && (c !in capital ==> LowerChar(c) == c)
  {
    var capital, small := "ABCDEFGHIJKLMNOPQRSTUVWXYZ", "abcdefghijklmnopqrstuvwxyz";
    assert forall k :: 0 <= k < 26 ==> capital[k] as int == 65 + k && small[k] as int == 97 + k;
    if 'A' <= c <= 'Z' {
      assert capital[c as int - 65] == c;
    }
  }

  function Lower(s: string): (r: string)
    ensures |r| == |s| && forall i :: 0 <= i < |s| ==> r[i] == LowerChar(s[i])
  {
    seq(|s|, i requires 0 <= i < |s| => LowerChar(s[i]))
  }

  // ---- how trimming meets concatenation ----

  lemma {:induction false} TrimUnique(s: string, r: string)
    requires r <= s && Blank(s[|r|..]) && (r != "" ==> !IsSpace(r[|r| - 1]))
    ensures Trim(s) == r
    decreases |s|
  {
    if |r| < |s| {
      var n := |s| - 1;
      assert s[|r|..][n - |r|] == s[n];
      assert s[..n][|r|..] == s[|r|..][..n - |r|];
      TrimUnique(s[..n], r);
    }
  }

  lemma {:induction false} SkipUnique(s: string, n: nat)
    requires n <= |s| && Blank(s[..n]) && (n < |s| ==> !IsSpace(s[n]))
    ensures Skip(s) == s[n..]
    decreases n
  {
    if n > 0 {
      assert s[..n][0] == s[0];
      assert s[1..][..n - 1] == s[..n][1..];
      SkipUnique(s[1..], n - 1);
      assert s[1..][n - 1..] == s[n..];
    }
  }

  lemma TrimAppend(a: string, b: string)
    ensures Trim(a + b) == if Blank(b) then Trim(a) else a + Trim(b)
  {
    hide Trim;
    var s, t := a + b, Trim(b);
    if Blank(b) {
      var r := Trim(a);
      assert s[|r|..] == a[|r|..] + b;
      assert r <= s;
      TrimUnique(s, r);
    } else {
      assert t != "";
      assert s[|a + t|..] == b[|t|..];
      TrimUnique(s, a + t);
    }
  }

  lemma SkipAppend(a: string, b: string)
    requires Blank(a) && (b != "" ==> !IsSpace(b[0]))
    ensures Skip(a + b) == b
  {
    var s := a + b;
    assert s[..|a|] == a;
    SkipUnique(s, |a|);
  }
}
