/** The reader built on the parser: values by section and name, and the parser as it runs, line buffer and all. */
module IniReader {
  import opened Options
  import opened IniText
  import opened IniScan
  import opened IniParser

  // ---- keys ----

  function MakeKey(section: string, name: string): string {
    Lower(section + "=" + name)
  }

  predicate SameUpToCase(a: Entry, b: Entry) {
    Lower(a.section) == Lower(b.section) && Lower(a.name) == Lower(b.name)
  }

  lemma KeyParts(section: string, name: string)
    ensures var key := MakeKey(section, name);
            key == Lower(section) + "=" + Lower(name)
  {
  }

  /** Two strings with no `=` after the marked one are split by their last `=`. */
  lemma LastEqualsSplits(a: string, b: string, c: string, d: string)
    requires a + "=" + b == c + "=" + d && '=' !in b && '=' !in d
    ensures a == c && b == d
  {
    var s := a + "=" + b;
    assert s[|a|] == '=' && s[|c|] == '=';
    assert forall i :: |a| < i < |s| ==> s[i] == b[i - |a| - 1];
    assert forall i :: |c| < i < |s| ==> s[i] == d[i - |c| - 1];
    assert a == s[..|a|] && c == s[..|c|];
    assert b == s[|a| + 1..] && d == s[|c| + 1..];
  }

  lemma LowerKeepsEquals(s: string)
    ensures '=' in Lower(s) <==> '=' in s
  {
    if '=' in s {
      var i :| 0 <= i < |s| && s[i] == '=';
      assert Lower(s)[i] == '=';
    }
  }

  /** Keys tell apart all settings whose names have no `=`. */
  lemma KeyInjective(a: Entry, b: Entry)
    requires '=' !in a.name && '=' !in b.name
    ensures MakeKey(a.section, a.name) == MakeKey(b.section, b.name) <==> SameUpToCase(a, b)
  {
    hide Lower, LowerChar;
    KeyParts(a.section, a.name);
    KeyParts(b.section, b.name);
    LowerKeepsEquals(a.name);
    LowerKeepsEquals(b.name);
    if MakeKey(a.section, a.name) == MakeKey(b.section, b.name) {
      LastEqualsSplits(Lower(a.section), Lower(a.name), Lower(b.section), Lower(b.name));
    }
  }

  /** Some setting with a plain name, of another section or name, has the key of this query. Whether a file can make
      that setting is another matter. */
  ghost predicate KeyIsShared(section: string, name: string) {
    exists e: Entry :: '=' !in e.name && MakeKey(e.section, e.name) == MakeKey(section, name)
                       && !SameUpToCase(e, Entry(section, name, ""))
  }

  function LastEquals(s: string): (k: nat)
    requires '=' in s
    ensures k < |s| && s[k] == '=' && '=' !in s[k + 1..]
  {
    if s[|s| - 1] == '=' then |s| - 1
    else
      assert s == s[..|s| - 1] + [s[|s| - 1]];
      var k := LastEquals(s[..|s| - 1]);
      assert s[k + 1..] == s[..|s| - 1][k + 1..] + [s[|s| - 1]];
      k
  }

  lemma MovedEquals(section: string, prefix: string, suffix: string)
    ensures MakeKey(section, prefix + "=" + suffix) == MakeKey(section + "=" + prefix, suffix)
    ensures !SameUpToCase(Entry(section + "=" + prefix, suffix, ""), Entry(section, prefix + "=" + suffix, ""))
  {
    assert section + "=" + (prefix + "=" + suffix) == section + "=" + prefix + "=" + suffix;
    assert |Lower(suffix)| != |Lower(prefix + "=" + suffix)|;
  }

  /** A key is shared with another plain-named setting exactly when the name has an `=`. */
  lemma KeyNeedsPlainNames(section: string, name: string)
    ensures KeyIsShared(section, name) <==> '=' in name
  {
    hide MakeKey, SameUpToCase;
    if '=' in name {
      var k := LastEquals(name);
      assert name == name[..k] + "=" + name[k + 1..];
      MovedEquals(section, name[..k], name[k + 1..]);
      var e := Entry(section + "=" + name[..k], name[k + 1..], "");
      assert '=' !in e.name && MakeKey(e.section, e.name) == MakeKey(section, name);
    } else if KeyIsShared(section, name) {
      var e: Entry :| '=' !in e.name && MakeKey(e.section, e.name) == MakeKey(section, name)
                      && !SameUpToCase(e, Entry(section, name, ""));
      KeyInjective(e, Entry(section, name, ""));
    }
  }

  // ---- values ----

  function Stored(values: map<string, string>, e: Entry): map<string, string> {
    var key := MakeKey(e.section, e.name);
    var was := if key in values then values[key] else "";
    values[key := (if was != "" then was + "\n" else "") + e.value]
  }

  function Values(entries: seq<Entry>): map<string, string> {
    if entries == [] then map[] else Stored(Values(entries[..|entries| - 1]), entries[|entries| - 1])
  }

  function SectionsOf(entries: seq<Entry>): set<string> {
    set i | 0 <= i < |entries| :: entries[i].section
  }

  function Lookup(values: map<string, string>, section: string, name: string, default: string): string {
    var key := MakeKey(section, name);
    if key in values then values[key] else default
  }

  class Reader {
    var error: int
    var values: map<string, string>
    var sections: set<string>

    /** Reads a whole file, unless it cannot be opened. */
    constructor (file: Option<string>)
      ensures file.None? ==> error == -1 && values == map[] && sections == {}
      ensures file.Some? ==>
                var read := Parse(file.value);
                error == read.error && values == Values(read.entries) && sections == SectionsOf(read.entries)
    {
      error, values, sections := 0, map[], {};
      new;
      match file {
        case None => error := -1;
        case Some(stream) => ParseStream(stream);
      }
    }

    method Get(section: string, name: string, default: string) returns (value: string)
      ensures value == Lookup(values, section, name, default)
    {
      var key := MakeKey(section, name);
      if key in values {
        value := values[key];
      } else {
        value := default;
      }
    }

    method ValueHandler(section: string, name: string, value: string)
      modifies this`values, this`sections
      ensures values == Stored(old(values), Entry(section, name, value))
      ensures sections == old(sections) + {section}
    {
      var key := MakeKey(section, name);
      if key !in values {
        values := values[key := ""];
      }
      if |values[key]| > 0 {
        values := values[key := values[key] + "\n"];
      }
      values := values[key := values[key] + value];
      sections := sections + {section};
    }

    ghost predicate Reflects(st: State)
      reads this
    {
      values == Values(st.entries) && sections == SectionsOf(st.entries)
    }

    /** The handler, called with what three C strings hold. */
    method Emit(section: array<char>, name: array<char>, n: nat, value: array<char>, v: nat, ghost st: State, ghost e: Entry)
      requires Reflects(st)
      requires Holds(section, 0, e.section) && Holds(name, n, e.name) && Holds(value, v, e.value)
      modifies this`values, this`sections
      ensures Reflects(st.(entries := st.entries + [e]))
    {
      var nameEnd := StrLen(name, n, e.name);
      var valueEnd := StrLen(value, v, e.value);
      var sectionEnd := StrLen(section, 0, e.section);
      ValueHandler(section[..sectionEnd], name[n..nameEnd], value[v..valueEnd]);
      assert section[..sectionEnd] == e.section && name[n..nameEnd] == e.name && value[v..valueEnd] == e.value;
      ghost var more := st.entries + [e];
      assert more[..|more| - 1] == st.entries;
      assert SectionsOf(more) == SectionsOf(st.entries) + {e.section} by {
        assert more[|more| - 1].section in SectionsOf(more);
        forall s | s in SectionsOf(st.entries) ensures s in SectionsOf(more) {
          var i :| 0 <= i < |st.entries| && st.entries[i].section == s;
          assert more[i].section == s;
        }
      }
    }

    /** `find_chars_or_comment(…, NULL)`, cut there, `rstrip`. */
    method Uncomment(line: array<char>, i: nat, ghost s: string)
      requires Holds(line, i, s)
      modifies line
      ensures Holds(line, i, Uncommented(s))
      ensures forall k :: 0 <= k < i ==> line[k] == old(line[k])
    {
      var end := FindCharsOrComment(line, i, "", s);
      if line[end] != NUL {
        Cut(line, i, end, s);
      } else {
        CharAt(line, i, s);
        assert s[..end - i] == s;
      }
      RStrip(line, i, s[..end - i]);
    }

    method ParseHeading(line: array<char>, start: nat, section: array<char>, prevName: array<char>, ghost body: string,
                        ghost st: State) returns (malformed: bool)
      requires Holds(line, start, body) && body != "" && body[0] == '['
      requires section.Length == MAX_SECTION && prevName.Length == MAX_NAME
      requires line != section && line != prevName && section != prevName
      requires Holds(section, 0, st.section) && Holds(prevName, 0, st.prev) && Reflects(st)
      modifies line, section, prevName
      ensures malformed == (ClassifyHeading(body[1..]) == Malformed)
      ensures Holds(section, 0, Take(st, ClassifyHeading(body[1..])).section)
      ensures Holds(prevName, 0, Take(st, ClassifyHeading(body[1..])).prev)
      ensures Reflects(Take(st, ClassifyHeading(body[1..])))
    {
      ghost var inner := body[1..];
      assert Holds(line, start + 1, inner);
      var end := FindCharsOrComment(line, start + 1, "]", inner);
      CharAt(line, start + 1, inner);
      malformed := line[end] != ']';
      if !malformed {
        Cut(line, start + 1, end, inner);
        StrNCpy0(section, line, start + 1, inner[..end - start - 1]);
        prevName[0] := NUL;
      }
    }

    /** Cuts a pair at its separator into a stripped name and a stripped value with no comment. */
    method SplitPair(line: array<char>, start: nat, end: nat, ghost body: string) returns (value: nat)
      requires Holds(line, start, body) && start <= end < start + |body|
      modifies line
      ensures Holds(line, start, Trim(body[..end - start]))
      ensures Holds(line, value, Uncommented(Skip(body[end - start + 1..])))
    {
      hide Uncommented, Trim, Skip;
      ghost var name, rest := body[..end - start], body[end - start + 1..];
      assert Holds(line, end + 1, rest);
      Cut(line, start, end, body);
      RStrip(line, start, name);
      assert Holds(line, end + 1, rest);
      value := LSkip(line, end + 1, rest);
      Uncomment(line, value, Skip(rest));
    }

    method ParseSetting(line: array<char>, start: nat, section: array<char>, prevName: array<char>, ghost body: string,
                        ghost st: State) returns (malformed: bool)
      requires Holds(line, start, body) && body != ""
      requires section.Length == MAX_SECTION && prevName.Length == MAX_NAME
      requires line != section && line != prevName && section != prevName
      requires Holds(section, 0, st.section) && Holds(prevName, 0, st.prev) && Reflects(st)
      modifies line, prevName, this`values, this`sections
      ensures malformed == (ClassifySetting(body) == Malformed)
      ensures Holds(section, 0, Take(st, ClassifySetting(body)).section)
      ensures Holds(prevName, 0, Take(st, ClassifySetting(body)).prev)
      ensures Reflects(Take(st, ClassifySetting(body)))
    {
      hide Uncommented, Trim, Skip, Values, SectionsOf;
      var end := FindCharsOrComment(line, start, "=:", body);
      CharAt(line, start, body);
      malformed := line[end] != '=' && line[end] != ':';
      if !malformed {
        ghost var name, text := Trim(body[..end - start]), Uncommented(Skip(body[end - start + 1..]));
        var value := SplitPair(line, start, end, body);
        StrNCpy0(prevName, line, start, name);
        Emit(section, line, start, line, value, st, Entry(st.section, name, text));
      }
    }

    /** Past the byte-order mark of the first line, and stripped. */
    method FindBody(line: array<char>, lineno: nat, ghost text: string) returns (start: nat)
      requires Holds(line, 0, text)
      modifies line
      ensures Holds(line, start, Body(text, StartOf(text, lineno)))
      ensures Body(text, StartOf(text, lineno)) != "" ==> (start > 0 <==> Indented(text, StartOf(text, lineno)))
    {
      hide Trim, Skip, Indented, StartOf;
      start := SkipMark(line, lineno, text);
      ghost var rest := text[start..];
      IndentedBody(text, start);
      RStrip(line, start, rest);
      start := LSkip(line, start, Trim(rest));
    }

    method SkipMark(line: array<char>, lineno: nat, ghost text: string) returns (start: nat)
      requires Holds(line, 0, text)
      ensures start == StartOf(text, lineno) && Holds(line, start, text[start..])
    {
      CharAt(line, 0, text);
      start := 0;
      if lineno == 1 && line[0] == BOM[0] && line[1] == BOM[1] && line[2] == BOM[2] {
        start := 3;
      }
    }

    /** One round of the loop, once the line is in the buffer. */
    method ParseLine(line: array<char>, section: array<char>, prevName: array<char>, lineno: nat, ghost chunk: string,
                     ghost st: State) returns (malformed: bool)
      requires Holds(line, 0, Visible(chunk)) && lineno == st.lineno + 1
      requires section.Length == MAX_SECTION && prevName.Length == MAX_NAME
      requires line != section && line != prevName && section != prevName
      requires Holds(section, 0, st.section) && Holds(prevName, 0, st.prev) && Reflects(st)
      modifies line, section, prevName, this`values, this`sections
      ensures malformed == (Read(st, chunk) == Malformed)
      ensures Holds(section, 0, Feed(st, chunk).section) && Holds(prevName, 0, Feed(st, chunk).prev)
      ensures Reflects(Feed(st, chunk))
    {
      hide Uncommented, Trim, Skip, Values, SectionsOf, ClassifyHeading, ClassifySetting, Body, StartOf, Indented, Visible;
      ghost var text := Visible(chunk);
      ghost var body := Body(text, StartOf(text, lineno));
      malformed := false;
      var start := FindBody(line, lineno, text);
      CharAt(line, start, body);
      CharAt(prevName, 0, st.prev);
      if line[start] == ';' || line[start] == '#' {
        assert Read(st, chunk) == Nothing;
      } else if prevName[0] != NUL && line[start] != NUL && start > 0 {
        assert Read(st, chunk) == More(Uncommented(body));
        Uncomment(line, start, body);
        Emit(section, prevName, 0, line, start, st, Entry(st.section, st.prev, Uncommented(body)));
      } else if line[start] == '[' {
        assert Read(st, chunk) == ClassifyHeading(body[1..]);
        malformed := ParseHeading(line, start, section, prevName, body, st);
      } else if line[start] != NUL {
        assert Read(st, chunk) == ClassifySetting(body);
        malformed := ParseSetting(line, start, section, prevName, body, st);
      } else {
        assert Read(st, chunk) == Nothing;
      }
    }

    method ParseStream(stream: string)
      requires error == 0 && values == map[] && sections == {}
      modifies this
      ensures error == Parse(stream).error
      ensures values == Values(Parse(stream).entries)
      ensures sections == SectionsOf(Parse(stream).entries)
    {
      hide Read, Take, Values, SectionsOf, Chunks, FeedAll, Visible, LineLength;
      assert Reflects(INITIAL) by { EmptyReader(); }
      var line, section, prevName := new char[MAX_LINE], new char[MAX_SECTION], new char[MAX_NAME];
      section[0], prevName[0] := NUL, NUL;
      var lineno, pos := 0, 0;
      ghost var st := INITIAL;
      while pos < |stream|
        invariant pos <= |stream|
        invariant FeedAll(st, Chunks(stream[pos..])) == Parse(stream)
        invariant lineno == st.lineno && error == st.error && Reflects(st)
        invariant Holds(section, 0, st.section) && Holds(prevName, 0, st.prev)
      {
        var next := Fgets(line, stream, pos);
        ghost var chunk := stream[pos..next];
        FeedFront(st, stream[pos..]);
        lineno := lineno + 1;
        FeedCounts(st, chunk);
        var malformed := ParseLine(line, section, prevName, lineno, chunk, st);
        if malformed && error == 0 {
          error := lineno;
        }
        st := Feed(st, chunk);
        assert stream[pos..][next - pos..] == stream[next..] && stream[pos..][..next - pos] == chunk;
        pos := next;
      }
      assert stream[pos..] == "";
      FedAll(st);
    }
  }

  lemma IndentedBody(text: string, start: nat)
    requires start <= |text|
    ensures var t := Trim(text[start..]);
            Skip(t) != "" ==> (start + |t| - |Skip(t)| > 0 <==> Indented(text, start))
  {
    var t := Trim(text[start..]);
    if t != "" {
      assert t[0] == text[start];
    }
  }

  lemma EmptyReader()
    ensures Values([]) == map[] && SectionsOf([]) == {}
  {
  }

  lemma FeedFront(st: State, rest: string)
    requires rest != ""
    ensures var n := LineLength(rest, MAX_LINE - 1);
            FeedAll(st, Chunks(rest)) == FeedAll(Feed(st, rest[..n]), Chunks(rest[n..]))
  {
  }

  lemma FeedCounts(st: State, chunk: string)
    ensures var after := Feed(st, chunk);
            && after.lineno == st.lineno + 1
            && after.error == if Read(st, chunk) == Malformed && st.error == 0 then after.lineno else st.error
  {
    hide Read;
  }

  lemma FedAll(st: State)
    ensures FeedAll(st, Chunks("")) == st
  {
  }

  /** A buffer filled with some bytes and ended holds those before the first NUL among them. */
  lemma VisibleHeld(a: array<char>, chunk: string)
    requires |chunk| < a.Length && a[..|chunk|] == chunk && a[|chunk|] == NUL
    ensures Holds(a, 0, Visible(chunk))
  {
    var v := Visible(chunk);
    assert forall k :: 0 <= k < |chunk| ==> a[k] == a[..|chunk|][k];
  }

  lemma LineLengthStep(s: string, limit: nat)
    requires s != "" && limit > 0
    ensures LineLength(s, limit) == if s[0] == '\n' then 1 else 1 + LineLength(s[1..], limit - 1)
  {
  }

  lemma LineLengthEnds(s: string, limit: nat)
    ensures s == "" || limit == 0 ==> LineLength(s, limit) == 0
    ensures s != "" && limit > 0 ==> LineLength(s, limit) > 0
  {
  }

  /** Takes the rest of the line, the rest of the stream or as much as fits, whichever ends first. */
  method Fgets(line: array<char>, stream: string, pos: nat) returns (next: nat)
    requires line.Length == MAX_LINE && pos < |stream|
    modifies line
    ensures pos < next == pos + LineLength(stream[pos..], MAX_LINE - 1) <= |stream|
    ensures Holds(line, 0, Visible(stream[pos..next]))
  {
    hide Visible, LineLength;
    next := pos;
    ghost var all := LineLength(stream[pos..], MAX_LINE - 1);
    var newline := false;
    while next < |stream| && next - pos < MAX_LINE - 1 && !newline
      invariant pos <= next <= |stream| && next - pos <= MAX_LINE - 1
      invariant line[..next - pos] == stream[pos..next]
      invariant newline ==> next - pos == all
      invariant !newline ==> next - pos + LineLength(stream[next..], MAX_LINE - 1 - (next - pos)) == all
    {
      LineLengthStep(stream[next..], MAX_LINE - 1 - (next - pos));
      assert stream[next..][1..] == stream[next + 1..];
      line[next - pos] := stream[next];
      newline := stream[next] == '\n';
      next := next + 1;
    }
    LineLengthEnds(stream[next..], MAX_LINE - 1 - (next - pos));
    line[next - pos] := NUL;
    ghost var chunk := stream[pos..next];
    assert line[..|chunk|] == chunk;
    VisibleHeld(line, chunk);
  }
}
