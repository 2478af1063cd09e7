/** What the INI parser makes of a stream: the calls of its handler, and the number of the first malformed line. */
module IniParser {
  import opened IniText

  const MAX_LINE: nat := 200
  const MAX_SECTION: nat := 50
  const MAX_NAME: nat := 50

  datatype Entry = Entry(section: string, name: string, value: string)

  datatype Line =
    | Nothing                                  // blank, or a comment
    | More(value: string)                      // one more line of the previous name's value
    | Heading(title: string)
    | Setting(name: string, value: string)
    | Malformed

  // ---- one line ----

  function Body(text: string, start: nat): string
    requires start <= |text|
  {
    Skip(Trim(text[start..]))
  }

  predicate Indented(text: string, start: nat) {
    start > 0 || (text != "" && IsSpace(text[0]))
  }

  function Classify(text: string, start: nat, inValue: bool): Line
    requires start <= |text|
  {
    ClassifyBody(Body(text, start), inValue && Indented(text, start))
  }

  function ClassifyBody(body: string, continues: bool): Line {
    if body == "" || body[0] == ';' || body[0] == '#' then Nothing
    else if continues then More(Uncommented(body))
    else if body[0] == '[' then ClassifyHeading(body[1..])
    else ClassifySetting(body)
  }

  function ClassifyHeading(inner: string): Line {
    var k := Scan(inner, "]");
    if k < |inner| && inner[k] == ']' then Heading(inner[..k]) else Malformed
  }

  function ClassifySetting(body: string): Line {
    var k := Scan(body, "=:");
    if k < |body| && body[k] in "=:"
    then Setting(Trim(body[..k]), Uncommented(Skip(body[k + 1..])))
    else Malformed
  }

  // ---- the stream ----

  /** How much `fgets` takes: up to the end of the line, and never more than `limit`. */
  function LineLength(s: string, limit: nat): (n: nat)
    ensures n <= |s| && n <= limit
    ensures s != "" && limit > 0 ==> n > 0
    ensures forall i :: 0 <= i < n - 1 ==> s[i] != '\n'
    ensures n < |s| && n < limit ==> n > 0 && s[n - 1] == '\n'
  {
    if s == "" || limit == 0 then 0
    else if s[0] == '\n' then 1
    else 1 + LineLength(s[1..], limit - 1)
  }

  function Chunks(stream: string): seq<string>
    decreases |stream|
  {
    if stream == "" then []
    else
      var n := LineLength(stream, MAX_LINE - 1);
      [stream[..n]] + Chunks(stream[n..])
  }

  function Concat(chunks: seq<string>): string {
    if chunks == [] then "" else chunks[0] + Concat(chunks[1..])
  }

  /** Nothing of the stream is lost: its pieces are all of it, in order. */
  lemma {:induction false} ChunksAreTheStream(stream: string)
    ensures Concat(Chunks(stream)) == stream
    decreases |stream|
  {
    hide LineLength;
    if stream != "" {
      var n := LineLength(stream, MAX_LINE - 1);
      var first, rest := stream[..n], Chunks(stream[n..]);
      ChunksAreTheStream(stream[n..]);
      assert Chunks(stream) == [first] + rest && ([first] + rest)[1..] == rest;
      assert first + stream[n..] == stream;
    }
  }

  /** A piece ends its line or fills the buffer, unless it is the last, and has no line break inside. */
  predicate PieceOk(chunk: string, last: bool) {
    && 0 < |chunk| <= 199
    && (last || chunk[|chunk| - 1] == '\n' || |chunk| == 199)
    && forall k :: 0 <= k < |chunk| - 1 ==> chunk[k] != '\n'
  }

  lemma {:induction false} ChunksArePieces(stream: string, i: nat)
    requires i < |Chunks(stream)|
    ensures PieceOk(Chunks(stream)[i], i == |Chunks(stream)| - 1)
    decreases |stream|
  {
    hide LineLength;
    var n := LineLength(stream, MAX_LINE - 1);
    if i > 0 {
      ChunksArePieces(stream[n..], i - 1);
    } else {
      assert n < |stream| ==> stream[..n][n - 1] == '\n' || n == 199;
    }
  }

  datatype State = State(section: string, prev: string, lineno: nat, error: nat, entries: seq<Entry>)

  const INITIAL: State := State("", "", 0, 0, [])

  function StartOf(text: string, lineno: nat): (start: nat)
    ensures start <= |text|
  {
    if lineno == 1 && BOM <= text then |BOM| else 0
  }

  function Read(st: State, chunk: string): Line {
    var text := Visible(chunk);
    Classify(text, StartOf(text, st.lineno + 1), st.prev != "")
  }

  function Take(st: State, line: Line): State {
    var n := st.lineno + 1;
    match line
    case Nothing => st.(lineno := n)
    case More(value) => st.(lineno := n, entries := st.entries + [Entry(st.section, st.prev, value)])
    case Heading(title) => st.(lineno := n, section := Truncated(title, MAX_SECTION), prev := "")
    case Setting(name, value) =>
      st.(lineno := n, prev := Truncated(name, MAX_NAME), entries := st.entries + [Entry(st.section, name, value)])
    case Malformed => st.(lineno := n, error := if st.error == 0 then n else st.error)
  }

  function Feed(st: State, chunk: string): State {
    Take(st, Read(st, chunk))
  }

  function FeedAll(st: State, chunks: seq<string>): State
    decreases |chunks|
  {
    if chunks == [] then st else FeedAll(Feed(st, chunks[0]), chunks[1..])
  }

  function Parse(stream: string): State {
    FeedAll(INITIAL, Chunks(stream))
  }

  lemma {:induction false} FeedSplit(st: State, a: seq<string>, b: seq<string>)
    ensures FeedAll(st, a + b) == FeedAll(FeedAll(st, a), b)
    decreases |a|
  {
    if a == [] {
      assert a + b == b;
    } else {
      assert (a + b)[0] == a[0] && (a + b)[1..] == a[1..] + b;
      FeedSplit(Feed(st, a[0]), a[1..], b);
    }
  }

  // ---- the error ----

  /** The first `n` lines of the stream have been read. */
  function Before(stream: string, n: nat): State
    requires n <= |Chunks(stream)|
  {
    FeedAll(INITIAL, Chunks(stream)[..n])
  }

  predicate MalformedAt(stream: string, n: nat)
    requires 1 <= n <= |Chunks(stream)|
  {
    Read(Before(stream, n - 1), Chunks(stream)[n - 1]) == Malformed
  }

  lemma BeforeNext(stream: string, n: nat)
    requires 1 <= n <= |Chunks(stream)|
    ensures Before(stream, n) == Feed(Before(stream, n - 1), Chunks(stream)[n - 1])
  {
    hide Chunks, Read, Take;
    var chunks := Chunks(stream);
    assert chunks[..n] == chunks[..n - 1] + [chunks[n - 1]];
    FeedSplit(INITIAL, chunks[..n - 1], [chunks[n - 1]]);
    assert [chunks[n - 1]][1..] == [];
  }

  /** The error after `n` lines is the number of the first malformed one among them, or 0. */
  lemma {:induction false} ErrorSoFar(stream: string, n: nat)
    requires n <= |Chunks(stream)|
    ensures var error := Before(stream, n).error;
            && Before(stream, n).lineno == n
            && (error == 0 ==> forall m :: 1 <= m <= n ==> !MalformedAt(stream, m))
            && (error != 0 ==> error <= n && MalformedAt(stream, error)
                               && forall m :: 1 <= m < error ==> !MalformedAt(stream, m))
  {
    hide Chunks, Read;
    if n > 0 {
      ErrorSoFar(stream, n - 1);
      BeforeNext(stream, n);
    }
  }

  /** ParseError is 0 exactly when no line is malformed, and otherwise the number of the first malformed line. */
  lemma ErrorIsFirstMalformed(stream: string)
    ensures var error, lines := Parse(stream).error, |Chunks(stream)|;
            && (error == 0 <==> forall m :: 1 <= m <= lines ==> !MalformedAt(stream, m))
            && (error != 0 ==> error <= lines && MalformedAt(stream, error)
                               && forall m :: 1 <= m < error ==> !MalformedAt(stream, m))
  {
    var lines := |Chunks(stream)|;
    assert Chunks(stream)[..lines] == Chunks(stream);
    ErrorSoFar(stream, lines);
  }

  /** Some character of `chars` comes before any inline comment. */
  predicate Delimited(s: string, chars: string) {
    exists k :: 0 <= k < |s| && s[k] in chars && Passes(s, chars, k)
  }

  lemma DelimitedByScan(s: string, chars: string)
    ensures Delimited(s, chars) <==> Scan(s, chars) < |s| && s[Scan(s, chars)] in chars
  {
    if Delimited(s, chars) {
      var k :| 0 <= k < |s| && s[k] in chars && Passes(s, chars, k);
      ScanIsFirst(s, chars, k);
    }
  }

  /** A line is malformed when it says something, does not continue a value, and its closing `]`, or its `=` or `:`,
      is missing or commented out. */
  lemma MalformedMeans(text: string, start: nat, inValue: bool)
    requires start <= |text|
    ensures var body := Body(text, start);
            Classify(text, start, inValue) == Malformed <==>
              && body != "" && body[0] != ';' && body[0] != '#'
              && !(inValue && Indented(text, start))
              && !(if body[0] == '[' then Delimited(body[1..], "]") else Delimited(body, "=:"))
  {
    var body := Body(text, start);
    if body != "" {
      DelimitedByScan(body[1..], "]");
      DelimitedByScan(body, "=:");
    }
  }
}
