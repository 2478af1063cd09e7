/** INI files as people write them, with padding, either separator, comments and continued values, and the theorem that
    the parser reads from them exactly what they say. */
module IniDocument {
  import opened IniText
  import opened IniParser

  /** White space and an optional inline comment after a value. */
  datatype Tail = Tail(gap: string, comment: string)

  datatype Spelled =
    | Empty(pad: string)
    | Remark(pad: string, text: string)
    | Title(pad: string, title: string, rest: string)
    | Pair(pad: string, name: string, before: string, separator: char, after: string, value: string, tail: Tail)
    | Continued(pad: string, value: string, tail: Tail)

  function Core(l: Spelled): string {
    match l
    case Empty(_) => ""
    case Remark(_, text) => text
    case Title(_, title, rest) => "[" + title + "]" + rest
    case Pair(_, name, before, separator, after, value, tail) =>
      name + before + [separator] + (after + value + tail.gap + tail.comment)
    case Continued(_, value, tail) => value + tail.gap + tail.comment
  }

  function Text(l: Spelled): string {
    l.pad + Core(l)
  }

  /** What the line says. */
  function Saying(l: Spelled): Line {
    match l
    case Empty(_) => Nothing
    case Remark(_, _) => Nothing
    case Title(_, title, _) => Heading(title)
    case Pair(_, name, _, _, _, value, _) => Setting(name, value)
    case Continued(_, value, _) => More(value)
  }

  // ---- which lines are well formed, where the previous name is `prev` ----

  predicate Unbroken(s: string) {
    '\n' !in s && NUL !in s
  }

  /** A value can be followed by a comment unless it is empty: then the comment would be read as the value. */
  predicate ValueOk(value: string, tail: Tail) {
    && Stripped(value) && Passes(value, "", |value|)
    && Blank(tail.gap)
    && (tail.comment != "" ==> tail.comment[0] == ';' && tail.gap != "" && value != "")
  }

  predicate NameOk(name: string, before: string) {
    && Stripped(name) && Passes(name, "=:", |name|)
    && (if name == "" then before == "" else name[0] != ';' && name[0] != '#' && name[0] != '[')
    && Blank(before)
  }

  predicate ShapeOk(l: Spelled, prev: string) {
    match l
    case Empty(_) => true
    case Remark(_, text) => text != "" && (text[0] == ';' || text[0] == '#')
    case Title(pad, title, _) => (pad == "" || prev == "") && Passes(title, "]", |title|)
    case Pair(pad, name, before, separator, after, value, tail) =>
      (pad == "" || prev == "") && NameOk(name, before) && separator in "=:" && Blank(after) && ValueOk(value, tail)
    case Continued(pad, value, tail) =>
      prev != "" && pad != "" && value != "" && value[0] != ';' && value[0] != '#' && ValueOk(value, tail)
  }

  predicate LineOk(l: Spelled, prev: string) {
    Blank(l.pad) && Unbroken(Text(l)) && |Text(l)| < MAX_LINE && ShapeOk(l, prev)
  }

  // ---- one line ----

  lemma TrimSolid(a: string, b: string)
    requires a != "" && !IsSpace(a[|a| - 1])
    ensures Trim(a + b) == a + Trim(b)
  {
    TrimAppend(a, b);
    if Blank(b) {
      TrimUnique(b, "");
      TrimUnique(a, a);
    }
  }

  lemma TrimKeepsFirst(s: string)
    requires s != "" && !IsSpace(s[0])
    ensures Trim(s) != "" && Trim(s)[0] == s[0]
  {
    TrimSolid(s[..1], s[1..]);
    assert s[..1] + s[1..] == s;
  }

  /** A value, what follows it trimmed, is found again. */
  lemma ValueFound(value: string, tail: Tail)
    requires ValueOk(value, tail) && value != ""
    ensures var t := Trim(value + tail.gap + tail.comment);
            t != "" && t[0] == value[0] && Uncommented(t) == value
  {
    hide Trim, Scan, Passes;
    var gap, comment := tail.gap, tail.comment;
    assert value + gap + comment == value + (gap + comment);
    TrimSolid(value, gap + comment);
    TrimUnique(value, value);
    if comment == "" {
      assert gap + comment == gap;
      TrimUnique(gap, "");
      assert value + "" == value;
      ScanIsFirst(value, "", |value|);
      assert value[..|value|] == value;
    } else {
      TrimKeepsFirst(comment);
      TrimAppend(gap, comment);
      assert value + (gap + Trim(comment)) == value + gap + Trim(comment);
      CommentFound(value, gap, Trim(comment));
    }
  }

  lemma CommentFound(value: string, gap: string, comment: string)
    requires Stripped(value) && Passes(value, "", |value|)
    requires Blank(gap) && gap != "" && comment != "" && comment[0] == ';'
    ensures Uncommented(value + gap + comment) == value
  {
    hide Trim, Scan;
    var t, k := value + gap + comment, |value| + |gap|;
    assert Passes(t, "", k) by {
      forall i | 0 <= i < k ensures !Stops(t, "", i) {
        if i < |value| {
          assert !Stops(value, "", i);
        } else {
          assert IsSpace(gap[i - |value|]);
        }
      }
    }
    assert t[k] == ';' && t[k - 1] == gap[|gap| - 1];
    ScanIsFirst(t, "", k);
    assert t[..k] == value + gap;
    TrimAppend(value, gap);
    TrimUnique(value, value);
  }

  lemma NothingFound()
    ensures Skip("") == "" && Uncommented("") == ""
  {
  }

  lemma PaddedValueFound(after: string, value: string, tail: Tail)
    requires Blank(after) && ValueOk(value, tail)
    ensures Uncommented(Skip(Trim(after + value + tail.gap + tail.comment))) == value
  {
    hide *;
    var rest := value + tail.gap + tail.comment;
    assert after + value + tail.gap + tail.comment == after + rest;
    ValueParts(value, tail);
    if value == "" {
      BlankTrimmed(after, rest);
      NothingFound();
    } else {
      ValueFound(value, tail);
      PadSkipped(after, rest);
    }
  }

  lemma ValueParts(value: string, tail: Tail)
    requires ValueOk(value, tail)
    ensures var rest := value + tail.gap + tail.comment;
            if value == "" then Blank(rest) else rest != "" && !IsSpace(rest[0])
  {
    hide Passes;
  }

  lemma BlankTrimmed(a: string, b: string)
    requires Blank(a) && Blank(b)
    ensures Trim(a + b) == ""
  {
    hide Trim;
    TrimAppend(a, b);
    TrimUnique(a, "");
  }

  lemma PadSkipped(pad: string, rest: string)
    requires Blank(pad) && rest != "" && !IsSpace(rest[0])
    ensures Skip(Trim(pad + rest)) == Trim(rest)
  {
    hide Trim, Skip;
    TrimAppend(pad, rest);
    TrimKeepsFirst(rest);
    SkipAppend(pad, Trim(rest));
  }

  lemma SettingFound(name: string, before: string, separator: char, rest: string)
    requires NameOk(name, before) && separator in "=:"
    ensures ClassifySetting(name + before + [separator] + rest) == Setting(name, Uncommented(Skip(rest)))
  {
    var body, k := name + before + [separator] + rest, |name| + |before|;
    assert Passes(body, "=:", k) by {
      forall i | 0 <= i < k ensures !Stops(body, "=:", i) {
        if i < |name| {
          assert !Stops(name, "=:", i);
        } else {
          assert IsSpace(before[i - |name|]);
        }
      }
    }
    assert body[k] == separator;
    ScanIsFirst(body, "=:", k);
    assert body[..k] == name + before && body[k + 1..] == rest;
    TrimAppend(name, before);
    TrimUnique(name, name);
  }

  lemma HeadingFound(title: string, rest: string)
    requires Passes(title, "]", |title|)
    ensures ClassifyHeading(title + "]" + rest) == Heading(title)
  {
    var inner := title + "]" + rest;
    assert forall i :: 0 <= i < |title| ==> Stops(inner, "]", i) == Stops(title, "]", i);
    assert inner[|title|] == ']';
    ScanIsFirst(inner, "]", |title|);
    assert inner[..|title|] == title;
  }

  lemma BodyIsCore(l: Spelled, prev: string, chunk: string)
    requires LineOk(l, prev) && (chunk == Text(l) || chunk == Text(l) + "\n")
    ensures Body(chunk, 0) == Trim(Core(l))
    ensures Core(l) != "" ==> !IsSpace(Core(l)[0])
  {
    hide Passes, Trim, Skip;
    var core := Core(l);
    assert core != "" ==> !IsSpace(core[0]);
    TrimAppend(Text(l), "\n");
    assert chunk[0..] == chunk;
    if core == "" {
      assert Text(l) == l.pad;
      TrimUnique(l.pad, "");
      TrimUnique("", "");
      SkipUnique("", 0);
    } else {
      PadSkipped(l.pad, core);
    }
  }

  lemma TitleRead(l: Spelled, prev: string)
    requires l.Title? && LineOk(l, prev)
    ensures ClassifyBody(Trim(Core(l)), false) == Saying(l)
  {
    hide Trim, Passes, ClassifyHeading, Unbroken, Blank;
    var front := "[" + l.title + "]";
    TrimSolid(front, l.rest);
    var body := front + Trim(l.rest);
    assert body[0] == '[' && body[1..] == l.title + "]" + Trim(l.rest);
    HeadingFound(l.title, Trim(l.rest));
  }

  lemma PairFront(name: string, before: string, separator: char, rest: string)
    requires NameOk(name, before) && separator in "=:"
    ensures var body := Trim(name + before + [separator] + rest);
            && body == name + before + [separator] + Trim(rest)
            && body[0] != ';' && body[0] != '#' && body[0] != '['
  {
    hide Trim, Passes;
    var front := name + before + [separator];
    assert front[|front| - 1] == separator;
    TrimSolid(front, rest);
    assert (front + Trim(rest))[0] == if name == "" then separator else name[0];
  }

  lemma PairBody(name: string, before: string, separator: char, rest: string)
    requires NameOk(name, before) && separator in "=:"
    ensures ClassifyBody(Trim(name + before + [separator] + rest), false) == Setting(name, Uncommented(Skip(Trim(rest))))
  {
    hide *;
    PairFront(name, before, separator, rest);
    SettingFound(name, before, separator, Trim(rest));
    NotSpecial(Trim(name + before + [separator] + rest));
  }

  lemma NotSpecial(body: string)
    requires body != "" && body[0] != ';' && body[0] != '#' && body[0] != '['
    ensures ClassifyBody(body, false) == ClassifySetting(body)
  {
    hide ClassifySetting, ClassifyHeading;
  }

  lemma PairRead(l: Spelled, prev: string)
    requires l.Pair? && LineOk(l, prev)
    ensures ClassifyBody(Trim(Core(l)), false) == Saying(l)
  {
    hide Trim, Skip, Uncommented, ClassifyBody, NameOk, ValueOk, Blank, Text, Unbroken;
    PairBody(l.name, l.before, l.separator, l.after + l.value + l.tail.gap + l.tail.comment);
    PaddedValueFound(l.after, l.value, l.tail);
  }

  lemma ContinuedRead(l: Spelled, prev: string)
    requires l.Continued? && LineOk(l, prev)
    ensures ClassifyBody(Trim(Core(l)), true) == Saying(l)
  {
    hide Trim, Passes, Unbroken, Blank, ValueOk, Uncommented;
    ValueFound(l.value, l.tail);
  }

  /** A well-formed line is read as what it says, with or without its newline. */
  lemma LineRead(l: Spelled, prev: string, chunk: string)
    requires LineOk(l, prev) && (chunk == Text(l) || chunk == Text(l) + "\n")
    ensures Classify(chunk, 0, prev != "") == Saying(l)
  {
    hide Trim, Body, Passes, ClassifyHeading, ClassifySetting, Unbroken, ValueOk, NameOk, Uncommented;
    BodyIsCore(l, prev, chunk);
    var core := Core(l);
    if core == "" {
      TrimUnique("", "");
    } else {
      TrimKeepsFirst(core);
      assert chunk[0] == if l.pad == "" then core[0] else l.pad[0];
      assert Indented(chunk, 0) <==> l.pad != "";
    }
    match l {
      case Empty(_) =>
      case Remark(_, _) =>
      case Title(_, _, _) => TitleRead(l, prev);
      case Pair(_, _, _, _, _, _, _) => PairRead(l, prev);
      case Continued(_, _, _) => ContinuedRead(l, prev);
    }
  }

  // ---- a whole file ----

  function Written(doc: seq<Spelled>): string {
    if doc == [] then "" else Text(doc[0]) + "\n" + Written(doc[1..])
  }

  function NameAfter(l: Spelled, prev: string): string {
    match l
    case Title(_, _, _) => ""
    case Pair(_, name, _, _, _, _, _) => Truncated(name, MAX_NAME)
    case _ => prev
  }

  function SectionAfter(l: Spelled, section: string): string {
    if l.Title? then Truncated(l.title, MAX_SECTION) else section
  }

  predicate DocumentOk(doc: seq<Spelled>, prev: string) {
    doc != [] ==> LineOk(doc[0], prev) && DocumentOk(doc[1..], NameAfter(doc[0], prev))
  }

  function ToldBy(l: Spelled, section: string, prev: string): seq<Entry> {
    match l
    case Pair(_, name, _, _, _, value, _) => [Entry(section, name, value)]
    case Continued(_, value, _) => [Entry(section, prev, value)]
    case _ => []
  }

  /** The settings a file makes, one for each line of a value. */
  function Told(doc: seq<Spelled>, section: string, prev: string): seq<Entry> {
    if doc == [] then []
    else
      var l := doc[0];
      ToldBy(l, section, prev) + Told(doc[1..], SectionAfter(l, section), NameAfter(l, prev))
  }

  lemma LineTaken(t: string, rest: string)
    requires '\n' !in t && |t| < MAX_LINE
    ensures var s := t + "\n" + rest;
            LineLength(s, MAX_LINE - 1) == if |t| == MAX_LINE - 1 then |t| else |t| + 1
  {
    var s := t + "\n" + rest;
    var n := LineLength(s, MAX_LINE - 1);
    assert s[|t|] == '\n';
    assert forall i :: 0 <= i < |t| ==> s[i] == t[i];
  }

  /** A line comes in one piece, or, if it just fills the buffer, with its newline as a blank line after it. */
  lemma LineChunked(t: string, rest: string)
    requires '\n' !in t && |t| < MAX_LINE
    ensures Chunks(t + "\n" + rest) == (if |t| == MAX_LINE - 1 then [t, "\n"] else [t + "\n"]) + Chunks(rest)
  {
    hide Chunks, LineLength;
    var s := t + "\n" + rest;
    LineTaken(t, rest);
    if |t| == MAX_LINE - 1 {
      ChunkedAt(s, t, "\n" + rest);
      assert "" + "\n" + rest == "\n" + rest;
      LineTaken("", rest);
      ChunkedAt("\n" + rest, "\n", rest);
      assert [t] + (["\n"] + Chunks(rest)) == [t, "\n"] + Chunks(rest);
    } else {
      ChunkedAt(s, t + "\n", rest);
    }
  }

  lemma ChunkedAt(s: string, chunk: string, rest: string)
    requires s != "" && s == chunk + rest && LineLength(s, MAX_LINE - 1) == |chunk|
    ensures Chunks(s) == [chunk] + Chunks(rest)
  {
    hide LineLength;
    assert s[..|chunk|] == chunk && s[|chunk|..] == rest;
  }

  predicate NoMark(st: State, text: string) {
    st.lineno > 0 || !(BOM <= text)
  }

  lemma ChunkRead(st: State, l: Spelled, chunk: string)
    requires LineOk(l, st.prev) && (chunk == Text(l) || chunk == Text(l) + "\n") && NoMark(st, chunk)
    ensures Read(st, chunk) == Saying(l)
  {
    VisibleAll(chunk);
    LineRead(l, st.prev, chunk);
  }

  lemma NewlineRead(st: State)
    ensures Read(st, "\n") == Nothing
  {
    var l := Empty("");
    assert Text(l) == "" && "" + "\n" == "\n";
    assert LineOk(l, st.prev);
    ChunkRead(st, l, "\n");
  }

  /** The first piece in which a line comes. */
  function Piece(t: string): string {
    if |t| == MAX_LINE - 1 then t else t + "\n"
  }

  /** Reading a line, however it is cut, leaves what its first piece is read as and some line number. */
  lemma PieceFed(st: State, t: string, rest: string, line: Line) returns (after: State)
    requires '\n' !in t && |t| < MAX_LINE && Read(st, Piece(t)) == line
    ensures FeedAll(st, Chunks(t + "\n" + rest)) == FeedAll(after, Chunks(rest))
    ensures after == Take(st, line).(lineno := after.lineno) && after.lineno > 0
  {
    hide Read, Chunks, Take;
    var chunk := Piece(t);
    LineChunked(t, rest);
    after := Take(st, line);
    assert after.lineno == st.lineno + 1 by { TakeCounts(st, line); }
    FeedSplit(st, if |t| == MAX_LINE - 1 then [t, "\n"] else [chunk], Chunks(rest));
    if |t| == MAX_LINE - 1 {
      NewlineRead(after);
      FeedTwo(st, t, "\n");
      TakeCounts(after, Nothing);
      after := Take(after, Nothing);
    } else {
      FeedOne(st, chunk);
    }
  }

  /** So a well-formed line leaves what it says. */
  lemma LineFed(st: State, l: Spelled, rest: string) returns (after: State)
    requires LineOk(l, st.prev) && NoMark(st, Text(l) + "\n" + rest)
    ensures FeedAll(st, Chunks(Text(l) + "\n" + rest)) == FeedAll(after, Chunks(rest))
    ensures after == Take(st, Saying(l)).(lineno := after.lineno) && after.lineno > 0
  {
    hide Read, Chunks, ShapeOk, Take, Text;
    var t := Text(l);
    assert NoMark(st, Piece(t)) by { assert Piece(t) <= t + "\n" + rest; }
    ChunkRead(st, l, Piece(t));
    after := PieceFed(st, t, rest, Saying(l));
  }

  lemma TakeCounts(st: State, line: Line)
    ensures Take(st, line).lineno == st.lineno + 1
    ensures line == Nothing ==> Take(st, line) == st.(lineno := st.lineno + 1)
  {
  }

  lemma FeedOne(st: State, c: string)
    ensures FeedAll(st, [c]) == Feed(st, c)
  {
    hide Read, Take;
  }

  lemma FeedTwo(st: State, c: string, d: string)
    ensures FeedAll(st, [c, d]) == Feed(Feed(st, c), d)
  {
    hide Read, Take;
    assert [c, d][1..] == [d];
    FeedOne(Feed(st, c), d);
  }

  lemma ChunksEmpty()
    ensures Chunks("") == []
  {
  }

  lemma LineAdds(st: State, l: Spelled)
    ensures var after := Take(st, Saying(l));
            && after.section == SectionAfter(l, st.section) && after.prev == NameAfter(l, st.prev)
            && after.entries == st.entries + ToldBy(l, st.section, st.prev) && after.error == st.error
  {
  }

  lemma {:induction false} DocumentFed(st: State, doc: seq<Spelled>)
    requires DocumentOk(doc, st.prev) && NoMark(st, Written(doc))
    ensures var end := FeedAll(st, Chunks(Written(doc)));
            end.entries == st.entries + Told(doc, st.section, st.prev) && end.error == st.error
    decreases |doc|
  {
    hide LineOk, Chunks, Feed, Take, Saying, ToldBy, SectionAfter, NameAfter, Text;
    ChunksEmpty();
    if doc != [] {
      var l := doc[0];
      var after := LineFed(st, l, Written(doc[1..]));
      LineAdds(st, l);
      DocumentFed(after, doc[1..]);
    }
  }

  /** Every well-formed file, in whatever spelling, is read without error as exactly the settings it makes. */
  lemma DocumentRead(doc: seq<Spelled>)
    requires DocumentOk(doc, "") && !(BOM <= Written(doc))
    ensures Parse(Written(doc)).error == 0
    ensures Parse(Written(doc)).entries == Told(doc, "", "")
  {
    DocumentFed(INITIAL, doc);
  }

  // ---- a file that starts with a byte-order mark ----

  /** Behind the mark, the first line is read as if the mark were not there. */
  lemma MarkedRead(text: string)
    requires NUL !in text
    ensures Read(INITIAL, "\U{EF}\U{BB}\U{BF}" + text) == Classify(text, 0, false)
  {
    hide Trim, Skip, ClassifyBody;
    var mark := "\U{EF}\U{BB}\U{BF}";
    var chunk := mark + text;
    assert mark == BOM && chunk[3..] == text && text[0..] == text;
    assert NUL !in chunk;
    VisibleAll(chunk);
  }

  /** The same file with the mark in front of it, if its first line leaves room for the three bytes, is read just so. */
  lemma MarkedDocumentRead(doc: seq<Spelled>)
    requires DocumentOk(doc, "") && (doc != [] ==> |Text(doc[0])| + 3 < MAX_LINE)
    ensures var read := Parse("\U{EF}\U{BB}\U{BF}" + Written(doc));
            read.error == 0 && read.entries == Told(doc, "", "")
  {
    hide LineOk, Chunks, Read, Take, Saying, ToldBy, SectionAfter, NameAfter, Text, FeedAll;
    var mark := "\U{EF}\U{BB}\U{BF}";
    if doc == [] {
      assert mark + Written(doc) == mark;
      MarkAlone();
    } else {
      var l, rest := doc[0], Written(doc[1..]);
      var t := mark + Text(l);
      assert mark + Written(doc) == t + "\n" + rest;
      MarkedLine(l);
      var after := PieceFed(INITIAL, t, rest, Saying(l));
      LineAdds(INITIAL, l);
      DocumentFed(after, doc[1..]);
    }
  }

  lemma MarkedLine(l: Spelled)
    requires LineOk(l, "") && |Text(l)| + 3 < MAX_LINE
    ensures var t := "\U{EF}\U{BB}\U{BF}" + Text(l); '\n' !in t && Read(INITIAL, Piece(t)) == Saying(l)
  {
    hide Read, ShapeOk, Text, Saying, Classify;
    var mark, text := "\U{EF}\U{BB}\U{BF}", Text(l);
    var chunk := if |mark + text| == MAX_LINE - 1 then text else text + "\n";
    assert Piece(mark + text) == mark + chunk;
    MarkedRead(chunk);
    LineRead(l, "", chunk);
  }

  lemma MarkAlone()
    ensures var read := Parse("\U{EF}\U{BB}\U{BF}"); read.error == 0 && read.entries == []
  {
    hide Read, Chunks, FeedAll, LineLength, Classify;
    var mark := "\U{EF}\U{BB}\U{BF}";
    MarkedRead("");
    assert mark + "" == mark;
    assert Classify("", 0, false) == Nothing by { NothingThere(); }
    assert LineLength(mark, MAX_LINE - 1) == 3;
    ChunkedAt(mark, mark, "");
    ChunksEmpty();
    FeedOne(INITIAL, mark);
    assert [mark] + [] == [mark];
  }

  lemma NothingThere()
    ensures Classify("", 0, false) == Nothing
  {
    var l := Empty("");
    assert Text(l) == "" && LineOk(l, "");
    LineRead(l, "", "");
  }
}
