/** Every stream, well formed or not, has a normal form: a well-formed file that makes the same settings. */
module IniNormalForm {
  import opened IniText
  import opened IniParser
  import opened IniReader
  import opened IniDocument
  import opened IniRoundTrip

  /** The plainest way to write what a line was read as; comments and malformed lines are dropped. */
  function Rewritten(line: Line): seq<Spelled> {
    match line
    case More(value) => [Continued(" ", value, NO_TAIL)]
    case Heading(title) => [Title("", Truncated(title, MAX_SECTION), "")]
    case Setting(name, value) => [Pair("", name, "", '=', "", value, NO_TAIL)]
    case _ => []
  }

  function RewrittenFrom(st: State, chunks: seq<string>): seq<Spelled>
    decreases |chunks|
  {
    if chunks == [] then []
    else Rewritten(Read(st, chunks[0])) + RewrittenFrom(Feed(st, chunks[0]), chunks[1..])
  }

  /** A blank first line keeps what follows from being taken for a byte-order mark. */
  function NormalForm(stream: string): seq<Spelled> {
    [Empty("")] + RewrittenFrom(INITIAL, Chunks(stream))
  }

  // ---- what is read can be written ----

  predicate ChunkOk(chunk: string) {
    |chunk| < MAX_LINE && forall i :: 0 <= i < |chunk| - 1 ==> chunk[i] != '\n'
  }

  lemma {:induction false} ChunksOk(stream: string)
    ensures forall i :: 0 <= i < |Chunks(stream)| ==> ChunkOk(Chunks(stream)[i])
    decreases |stream|
  {
    if stream != "" {
      var n := LineLength(stream, MAX_LINE - 1);
      assert ChunkOk(stream[..n]);
      ChunksOk(stream[n..]);
    }
  }

  /** What is left of a line, stripped at both ends. */
  lemma SkippedPlain(rest: string)
    requires NUL !in rest && forall i :: 0 <= i < |rest| - 1 ==> rest[i] != '\n'
    ensures var body := Skip(Trim(rest));
            && Stripped(body) && Unbroken(body) && |body| <= |rest|
            && (body != "" && IsSpace(rest[0]) ==> |body| < |rest|)
  {
    hide Trim, Skip;
    var t := Trim(rest);
    var body := Skip(t);
    assert forall i :: 0 <= i < |t| ==> t[i] == rest[i];
    assert forall i :: 0 <= i < |t| ==> t[i] != '\n';
    assert forall i :: 0 <= i < |body| ==> body[i] == t[|t| - |body| + i];
    assert Unbroken(body);
  }

  /** The text of a line is stripped and unbroken, and an indented one is shorter than its line. */
  lemma BodyPlain(chunk: string, start: nat)
    requires ChunkOk(chunk) && start <= |Visible(chunk)|
    ensures var text := Visible(chunk);
            var body := Body(text, start);
            && Stripped(body) && Unbroken(body) && |body| < MAX_LINE
            && (body != "" && Indented(text, start) ==> |body| + 1 < MAX_LINE)
  {
    hide Trim, Skip, Visible, Stripped, Unbroken;
    var text := Visible(chunk);
    var rest := text[start..];
    assert forall i :: 0 <= i < |rest| ==> rest[i] == chunk[start + i];
    SkippedPlain(rest);
  }

  lemma UncommentedPlain(s: string)
    requires s != "" ==> !IsSpace(s[0])
    requires Unbroken(s)
    ensures var v := Uncommented(s);
            && PlainValue(v) && |v| <= |s|
            && (s != "" ==> v != "" && v[0] == s[0])
  {
    var k := Scan(s, "");
    var v := Uncommented(s);
    assert Passes(v, "", |v|) by {
      forall i | 0 <= i < |v| ensures !Stops(v, "", i) {
        assert !Stops(s, "", i);
      }
    }
    assert forall c :: c in v ==> c in s;
    if s != "" {
      assert !Stops(s, "", 0);
      assert s[..k] != "";
      TrimKeepsFirst(s[..k]);
    }
  }

  lemma NamePlain(body: string, k: nat)
    requires Stripped(body) && Unbroken(body) && k <= |body| && Passes(body, "=:", k)
    ensures var name := Trim(body[..k]);
            && Stripped(name) && Passes(name, "=:", |name|) && Unbroken(name) && |name| <= k
            && (name != "" ==> name[0] == body[0])
  {
    hide Trim;
    var name := Trim(body[..k]);
    assert forall i :: 0 <= i < |name| ==> name[i] == body[..k][i] == body[i];
    assert Passes(name, "=:", |name|) by {
      forall i | 0 <= i < |name| ensures !Stops(name, "=:", i) {
        assert !Stops(body, "=:", i);
      }
    }
  }

  lemma SettingRewritten(body: string, prev: string)
    requires body != "" && Stripped(body) && Unbroken(body) && |body| < MAX_LINE
    requires body[0] != ';' && body[0] != '#' && body[0] != '['
    ensures DocumentOk(Rewritten(ClassifySetting(body)), prev)
  {
    hide LineOk, Trim, Skip, Passes, Uncommented, PlainValue;
    var k := Scan(body, "=:");
    if k < |body| && body[k] in "=:" {
      var rest := body[k + 1..];
      NamePlain(body, k);
      assert forall i :: 0 <= i < |Skip(rest)| ==> Skip(rest)[i] == body[|body| - |Skip(rest)| + i];
      UncommentedPlain(Skip(rest));
      PairLineOk(Trim(body[..k]), Uncommented(Skip(rest)), prev);
    }
  }

  lemma HeadingRewritten(inner: string, prev: string)
    requires Unbroken(inner)
    ensures DocumentOk(Rewritten(ClassifyHeading(inner)), prev)
  {
    hide LineOk;
    if ClassifyHeading(inner).Heading? {
      var title := Truncated(ClassifyHeading(inner).title, MAX_SECTION);
      assert title <= inner;
      assert Passes(title, "]", |title|) by {
        forall i | 0 <= i < |title| ensures !Stops(title, "]", i) {
          assert !Stops(inner, "]", i);
        }
      }
      HeadTold(title, "", prev);
    }
  }

  lemma BodyRewritten(body: string, continues: bool, prev: string)
    requires Stripped(body) && Unbroken(body) && |body| < MAX_LINE
    requires continues ==> prev != "" && (body != "" ==> |body| + 1 < MAX_LINE)
    ensures DocumentOk(Rewritten(ClassifyBody(body, continues)), prev)
  {
    hide LineOk, ClassifyHeading, ClassifySetting, Uncommented, Passes;
    if body != "" && body[0] != ';' && body[0] != '#' {
      if continues {
        UncommentedPlain(body);
        MoreLineOk(Uncommented(body), prev);
      } else if body[0] == '[' {
        assert Unbroken(body[1..]);
        HeadingRewritten(body[1..], prev);
      } else {
        SettingRewritten(body, prev);
      }
    }
  }

  lemma LineRewritten(st: State, chunk: string)
    requires ChunkOk(chunk)
    ensures DocumentOk(Rewritten(Read(st, chunk)), st.prev)
  {
    hide Rewritten, ClassifyBody, DocumentOk, Visible, StartOf, Body, Indented;
    var text := Visible(chunk);
    var start := StartOf(text, st.lineno + 1);
    BodyPlain(chunk, start);
    BodyRewritten(Body(text, start), st.prev != "" && Indented(text, start), st.prev);
  }

  lemma RewrittenTells(st: State, line: Line)
    ensures var after, doc := Take(st, line), Rewritten(line);
            && after.entries == st.entries + Told(doc, st.section, st.prev)
            && after.section == SectionAfterAll(doc, st.section) && after.prev == NameAfterAll(doc, st.prev)
  {
    if Rewritten(line) != [] {
      assert Rewritten(line)[1..] == [];
    }
  }

  lemma NothingTold(st: State)
    ensures DocumentOk([], st.prev) && st.entries == st.entries + Told([], st.section, st.prev)
  {
  }

  lemma {:induction false} RewrittenRead(st: State, chunks: seq<string>)
    requires forall i :: 0 <= i < |chunks| ==> ChunkOk(chunks[i])
    ensures var doc := RewrittenFrom(st, chunks);
            && DocumentOk(doc, st.prev)
            && FeedAll(st, chunks).entries == st.entries + Told(doc, st.section, st.prev)
    decreases |chunks|
  {
    hide Rewritten, Read, Take, ChunkOk, DocumentOk, Told, NameAfterAll, SectionAfterAll;
    if chunks == [] {
      NothingTold(st);
    } else {
      var line, after := Read(st, chunks[0]), Feed(st, chunks[0]);
      var a, b := Rewritten(line), RewrittenFrom(after, chunks[1..]);
      LineRewritten(st, chunks[0]);
      RewrittenTells(st, line);
      RewrittenRead(after, chunks[1..]);
      DocSplit(a, b, st.section, st.prev);
    }
  }

  /** Rewriting any stream in its normal form keeps every setting it makes and leaves nothing malformed. */
  lemma NormalFormKeeps(stream: string)
    ensures DocumentOk(NormalForm(stream), "")
    ensures Parse(Written(NormalForm(stream))).error == 0
    ensures Parse(Written(NormalForm(stream))).entries == Parse(stream).entries
  {
    hide DocumentOk, Told, Written, NormalForm, FeedAll, Chunks, RewrittenFrom;
    ChunksOk(stream);
    RewrittenRead(INITIAL, Chunks(stream));
    NormalFormOk(stream);
    NormalFormNotMarked(stream);
    DocumentRead(NormalForm(stream));
  }

  lemma NormalFormNotMarked(stream: string)
    ensures !(BOM <= Written(NormalForm(stream)))
  {
    hide RewrittenFrom;
    assert NormalForm(stream)[0] == Empty("");
    assert Written(NormalForm(stream))[0] == '\n';
  }

  lemma NormalFormOk(stream: string)
    requires DocumentOk(RewrittenFrom(INITIAL, Chunks(stream)), "")
    ensures DocumentOk(NormalForm(stream), "")
    ensures Told(NormalForm(stream), "", "") == Told(RewrittenFrom(INITIAL, Chunks(stream)), "", "")
  {
    hide RewrittenFrom, Chunks;
    var blank, rest := Empty(""), RewrittenFrom(INITIAL, Chunks(stream));
    assert NormalForm(stream)[0] == blank && NormalForm(stream)[1..] == rest;
    assert Text(blank) == "";
    assert LineOk(blank, "");
  }
}
