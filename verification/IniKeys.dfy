/** Which sections and names the parser can hand out at all, and so which questions to a reader are answered by the
    settings they name, and which can be answered by others. */
module IniKeys {
  import opened IniText
  import opened IniParser
  import opened IniReader
  import opened IniDocument
  import opened IniRoundTrip
  import opened IniNormalForm

  /** A name the parser can hand out. It may end in white space only as the first 49 bytes of a longer one, under
      which a value was continued. */
  predicate Nameable(n: string) {
    && Unbroken(n) && Passes(n, "=:", |n|) && |n| + 1 < 200
    && (n != "" ==>
          && !IsSpace(n[0]) && n[0] != ';' && n[0] != '#' && n[0] != '['
          && (IsSpace(n[|n| - 1]) ==> |n| == 49))
  }

  predicate Makeable(section: string, name: string) {
    PlainTitle(section) && Nameable(name)
  }

  // ---- what is handed out is makeable ----

  lemma PassesPrefix(s: string, chars: string, n: nat)
    requires n <= |s| && Passes(s, chars, |s|)
    ensures Passes(s[..n], chars, n)
  {
    forall i | 0 <= i < n ensures !Stops(s[..n], chars, i) {
      assert !Stops(s, chars, i);
    }
  }

  lemma PairNameable(l: Spelled, prev: string)
    requires l.Pair? && LineOk(l, prev)
    ensures Nameable(l.name) && Nameable(Truncated(l.name, MAX_NAME))
  {
    hide Passes, ValueOk;
    var text := Text(l);
    assert forall i :: 0 <= i < |l.name| ==> l.name[i] == text[|l.pad| + i];
    assert |text| >= |l.name| + 1;
    assert Unbroken(l.name);
    if |l.name| >= MAX_NAME {
      PassesPrefix(l.name, "=:", MAX_NAME - 1);
    }
  }

  lemma TitlePlain(l: Spelled, prev: string)
    requires l.Title? && LineOk(l, prev)
    ensures PlainTitle(Truncated(l.title, MAX_SECTION))
  {
    hide Passes;
    var text := Text(l);
    assert forall i :: 0 <= i < |l.title| ==> l.title[i] == text[|l.pad| + 1 + i];
    assert Unbroken(l.title);
    if |l.title| >= MAX_SECTION {
      PassesPrefix(l.title, "]", MAX_SECTION - 1);
    }
  }

  lemma {:induction false} ToldMakeable(doc: seq<Spelled>, section: string, prev: string, i: nat)
    requires DocumentOk(doc, prev) && Makeable(section, prev) && i < |Told(doc, section, prev)|
    ensures Makeable(Told(doc, section, prev)[i].section, Told(doc, section, prev)[i].name)
    decreases |doc|
  {
    hide LineOk, PlainTitle, Nameable;
    var l := doc[0];
    var here := ToldBy(l, section, prev);
    if l.Pair? {
      PairNameable(l, prev);
    } else if l.Title? {
      TitlePlain(l, prev);
      EmptyNameable();
    }
    if i >= |here| {
      ToldMakeable(doc[1..], SectionAfter(l, section), NameAfter(l, prev), i - |here|);
    }
  }

  lemma EmptyNameable()
    ensures Makeable("", "")
  {
  }

  lemma MadeIsMakeable(stream: string, i: nat)
    requires i < |Parse(stream).entries|
    ensures Makeable(Parse(stream).entries[i].section, Parse(stream).entries[i].name)
  {
    hide Parse, DocumentOk, NormalForm, Written, Makeable;
    NormalFormKeeps(stream);
    NormalFormNotMarked(stream);
    var doc := NormalForm(stream);
    DocumentRead(doc);
    EmptyNameable();
    ToldMakeable(doc, "", "", i);
  }

  // ---- and what is makeable can be handed out ----

  /** A file that makes a setting with this section and name, as its last. */
  function Maker(section: string, name: string): seq<Spelled> {
    var head := Title("", section, "");
    if Stripped(name) then [head, Pair("", name, "", '=', "", "", NO_TAIL)]
    else [head, Pair("", name + "x", "", '=', "", "", NO_TAIL), Continued(" ", "1", NO_TAIL)]
  }

  lemma MakerHead(section: string, rest: seq<Spelled>)
    requires PlainTitle(section) && DocumentOk(rest, "")
    ensures var doc := [Title("", section, "")] + rest;
            DocumentOk(doc, "") && !(BOM <= Written(doc)) && Told(doc, "", "") == Told(rest, section, "")
  {
    hide PlainTitle, LineOk;
    var head, doc := [Title("", section, "")], [Title("", section, "")] + rest;
    HeadTold(section, "", "");
    DocSplit(head, rest, "", "");
    assert doc[0] == Title("", section, "");
    assert Written(doc)[0] == Text(doc[0])[0] == '[';
  }

  lemma OneLine(l: Spelled, section: string, prev: string)
    requires LineOk(l, prev)
    ensures DocumentOk([l], prev) && Told([l], section, prev) == ToldBy(l, section, prev)
  {
    hide LineOk, ToldBy;
    assert [l][1..] == [];
    assert Told([], SectionAfter(l, section), NameAfter(l, prev)) == [];
    assert ToldBy(l, section, prev) + [] == ToldBy(l, section, prev);
  }

  lemma PlainMaker(section: string, name: string)
    requires Nameable(name) && Stripped(name)
    ensures var rest := [Pair("", name, "", '=', "", "", NO_TAIL)];
            DocumentOk(rest, "") && Told(rest, section, "") == [Entry(section, name, "")]
  {
    hide LineOk, Passes;
    PlainOne();
    PairLineOk(name, "", "");
    OneLine(Pair("", name, "", '=', "", "", NO_TAIL), section, "");
  }

  lemma CutMaker(section: string, name: string)
    requires Nameable(name) && !Stripped(name)
    ensures var rest := [Pair("", name + "x", "", '=', "", "", NO_TAIL), Continued(" ", "1", NO_TAIL)];
            && DocumentOk(rest, "")
            && Told(rest, section, "") == [Entry(section, name + "x", ""), Entry(section, name, "1")]
  {
    hide LineOk, Passes;
    var long, more := Pair("", name + "x", "", '=', "", "", NO_TAIL), Continued(" ", "1", NO_TAIL);
    PlainOne();
    LongName(name);
    PairLineOk(name + "x", "", "");
    MoreLineOk("1", name);
    assert NameAfter(long, "") == name;
    assert [long, more][1..] == [more];
    OneLine(more, section, name);
    assert Told([long, more], section, "") == [Entry(section, name + "x", "")] + Told([more], section, name);
  }

  lemma PlainOne()
    ensures PlainValue("") && MoreOk("1")
  {
  }

  lemma LongName(name: string)
    requires Nameable(name) && !Stripped(name)
    ensures Stripped(name + "x") && Unbroken(name + "x") && Passes(name + "x", "=:", |name| + 1)
  {
    var s := name + "x";
    forall i | 0 <= i < |s| ensures !Stops(s, "=:", i) {
      assert i < |name| ==> !Stops(name, "=:", i);
    }
  }

  lemma MakerMakes(section: string, name: string)
    requires Makeable(section, name)
    ensures var entries := Parse(Written(Maker(section, name))).entries;
            entries != [] && entries[|entries| - 1].section == section && entries[|entries| - 1].name == name
  {
    hide PlainTitle, Nameable, Parse, DocumentOk, Told, Written;
    var doc := Maker(section, name);
    var rest := doc[1..];
    assert doc == [Title("", section, "")] + rest;
    if Stripped(name) {
      assert rest == [Pair("", name, "", '=', "", "", NO_TAIL)];
      PlainMaker(section, name);
    } else {
      assert rest == [Pair("", name + "x", "", '=', "", "", NO_TAIL), Continued(" ", "1", NO_TAIL)];
      CutMaker(section, name);
    }
    MakerHead(section, rest);
    DocumentRead(doc);
  }

  ghost predicate Made(stream: string, i: nat, section: string, name: string) {
    i < |Parse(stream).entries| && Parse(stream).entries[i].section == section && Parse(stream).entries[i].name == name
  }

  /** Exactly these sections and names are ever handed out. */
  lemma MadeIffMakeable(section: string, name: string)
    ensures (exists stream, i :: Made(stream, i, section, name)) <==> Makeable(section, name)
  {
    hide Parse, Makeable;
    if stream, i :| Made(stream, i, section, name) {
      MadeIsMakeable(stream, i);
    }
    if Makeable(section, name) {
      MakerMakes(section, name);
      var stream := Written(Maker(section, name));
      assert Made(stream, |Parse(stream).entries| - 1, section, name);
    }
  }

  // ---- keys ----

  lemma MadeNamePlain(stream: string, i: nat)
    requires i < |Parse(stream).entries|
    ensures '=' !in Parse(stream).entries[i].name
  {
    hide Parse, PlainTitle;
    MadeIsMakeable(stream, i);
    NameHasNoEquals(Parse(stream).entries[i].name);
  }

  /** Of all the settings any stream makes, two share a key exactly when section and name agree up to case. */
  lemma KeysTellApart(stream: string, i: nat, j: nat)
    requires i < |Parse(stream).entries| && j < |Parse(stream).entries|
    ensures var a, b := Parse(stream).entries[i], Parse(stream).entries[j];
            && '=' !in a.name && '=' !in b.name
            && (MakeKey(a.section, a.name) == MakeKey(b.section, b.name) <==> SameUpToCase(a, b))
  {
    hide Parse, MakeKey, SameUpToCase;
    MadeNamePlain(stream, i);
    MadeNamePlain(stream, j);
    KeyInjective(Parse(stream).entries[i], Parse(stream).entries[j]);
  }

  /** Bytes that agree up to case are the same but for letters. */
  lemma SameSpecials(x: char, y: char)
    requires LowerChar(x) == LowerChar(y)
    ensures IsSpace(x) <==> IsSpace(y)
    ensures (x == '=' <==> y == '=') && (x == ':' <==> y == ':') && (x == ';' <==> y == ';') && (x == '#' <==> y == '#')
    ensures (x == '[' <==> y == '[') && (x == ']' <==> y == ']') && (x == '\n' <==> y == '\n') && (x == NUL <==> y == NUL)
  {
  }

  lemma UnbrokenUpToCase(a: string, b: string)
    requires Lower(a) == Lower(b) && Unbroken(a)
    ensures Unbroken(b)
  {
    hide LowerChar;
    forall i | 0 <= i < |b| ensures b[i] != '\n' && b[i] != NUL {
      assert Lower(a)[i] == Lower(b)[i] && a[i] in a;
      SameSpecials(a[i], b[i]);
    }
  }

  lemma PassesUpToCase(a: string, b: string, chars: string)
    requires Lower(a) == Lower(b) && Passes(a, chars, |a|) && (chars == "]" || chars == "=:")
    ensures |a| == |b| && Passes(b, chars, |b|)
  {
    hide LowerChar;
    assert |a| == |Lower(a)| == |b|;
    forall i | 0 <= i < |b| ensures !Stops(b, chars, i) {
      assert !Stops(a, chars, i);
      assert Lower(a)[i] == Lower(b)[i];
      SameSpecials(a[i], b[i]);
      if i > 0 {
        assert Lower(a)[i - 1] == Lower(b)[i - 1];
        SameSpecials(a[i - 1], b[i - 1]);
      }
    }
  }

  lemma MakeableUpToCase(section: string, name: string, section': string, name': string)
    requires Lower(section) == Lower(section') && Lower(name) == Lower(name') && Makeable(section, name)
    ensures Makeable(section', name')
  {
    hide LowerChar, Passes, Unbroken;
    UnbrokenUpToCase(section, section');
    PassesUpToCase(section, section', "]");
    UnbrokenUpToCase(name, name');
    PassesUpToCase(name, name', "=:");
    if name' != "" {
      var n := |name| - 1;
      assert Lower(name)[0] == Lower(name')[0] && Lower(name)[n] == Lower(name')[n];
      SameSpecials(name[0], name'[0]);
      SameSpecials(name[n], name'[n]);
    }
  }

  /** The i-th setting of the stream answers a query that names another section or name. */
  ghost predicate AnswersFor(stream: string, i: nat, section: string, name: string)
  {
    && i < |Parse(stream).entries|
    && var e := Parse(stream).entries[i];
    MakeKey(e.section, e.name) == MakeKey(section, name) && !SameUpToCase(e, Entry(section, name, ""))
  }

  /** The name has an `=`, and what stands before its last `=`, joined to the section, and what stands after it can be a
      section and a name of a file. */
  predicate Mistakable(section: string, name: string) {
    '=' in name &&
    var k := LastEquals(name);
    Makeable(section + "=" + name[..k], name[k + 1..])
  }

  /** A query can be answered by a setting it does not name, from some file, exactly when it is mistakable. */
  lemma AnsweredByAnotherIff(section: string, name: string)
    ensures (exists stream, i :: AnswersFor(stream, i, section, name)) <==> Mistakable(section, name)
  {
    hide Parse, Makeable, MakeKey, SameUpToCase;
    if stream, i :| AnswersFor(stream, i, section, name) {
      AnswersMistakable(stream, i, section, name);
    }
    if Mistakable(section, name) {
      var stream := MistakenFor(section, name);
    }
  }

  lemma AnswersMistakable(stream: string, i: nat, section: string, name: string)
    requires AnswersFor(stream, i, section, name)
    ensures Mistakable(section, name)
  {
    hide Parse, Makeable, MakeKey, Lower, LowerChar;
    var e := Parse(stream).entries[i];
    MadeNamePlain(stream, i);
    MadeIsMakeable(stream, i);
    if '=' !in name {
      KeyInjective(e, Entry(section, name, ""));
    } else {
      var k := LastEquals(name);
      var prefix, suffix := name[..k], name[k + 1..];
      assert name == prefix + "=" + suffix;
      MovedEquals(section, prefix, suffix);
      KeyInjective(e, Entry(section + "=" + prefix, suffix, ""));
      MakeableUpToCase(e.section, e.name, section + "=" + prefix, suffix);
    }
  }

  lemma MistakenFor(section: string, name: string) returns (stream: string)
    requires Mistakable(section, name)
    ensures exists i :: AnswersFor(stream, i, section, name)
    ensures stream == Written(Maker(section + "=" + name[..LastEquals(name)], name[LastEquals(name) + 1..]))
  {
    hide Parse, Makeable, MakeKey, SameUpToCase;
    var k := LastEquals(name);
    var prefix, suffix := name[..k], name[k + 1..];
    assert name == prefix + "=" + suffix;
    stream := Written(Maker(section + "=" + prefix, suffix));
    MakerMakes(section + "=" + prefix, suffix);
    MovedEquals(section, prefix, suffix);
    var i := |Parse(stream).entries| - 1;
    SameButValue(Parse(stream).entries[i], Entry(section + "=" + prefix, suffix, ""), Entry(section, name, ""));
    assert AnswersFor(stream, i, section, name);
  }

  lemma SameButValue(a: Entry, b: Entry, c: Entry)
    requires a.section == b.section && a.name == b.name
    ensures SameUpToCase(a, c) <==> SameUpToCase(b, c)
  {
  }

  // ---- and so for what Get returns ----

  ghost predicate NamedIn(entries: seq<Entry>, section: string, name: string) {
    exists i :: 0 <= i < |entries| && SameUpToCase(entries[i], Entry(section, name, ""))
  }

  lemma {:induction false} GivenHas(entries: seq<Entry>, key: string)
    ensures Given(entries, key) != [] <==>
              exists i :: 0 <= i < |entries| && MakeKey(entries[i].section, entries[i].name) == key
    decreases |entries|
  {
    hide MakeKey;
    if entries != [] {
      GivenHas(entries[1..], key);
      if i :| 0 <= i < |entries| && MakeKey(entries[i].section, entries[i].name) == key {
        assert i > 0 ==> entries[1..][i - 1] == entries[i];
      }
      if i :| 0 <= i < |entries[1..]| && MakeKey(entries[1..][i].section, entries[1..][i].name) == key {
        assert entries[i + 1] == entries[1..][i];
      }
    }
  }

  /** A name without `=` is answered exactly when the stream sets it; one with `=` is answered exactly when some setting
      the stream makes, never the one named, answers for it. */
  lemma AnsweredIff(stream: string, section: string, name: string)
    ensures var entries := Parse(stream).entries;
            var answered := MakeKey(section, name) in Values(entries);
            && ('=' !in name ==> (answered <==> NamedIn(entries, section, name)))
            && ('=' in name ==> !NamedIn(entries, section, name)
                                && (answered <==> exists i :: AnswersFor(stream, i, section, name)))
  {
    hide Parse, MakeKey, Values, SameUpToCase;
    var entries, key, query := Parse(stream).entries, MakeKey(section, name), Entry(section, name, "");
    ValueIsGiven(entries, key);
    GivenHas(entries, key);
    forall i | 0 <= i < |entries|
      ensures '=' !in name ==>
                (MakeKey(entries[i].section, entries[i].name) == key <==> SameUpToCase(entries[i], query))
      ensures '=' in name ==> !SameUpToCase(entries[i], query)
    {
      MadeNamePlain(stream, i);
      if '=' !in name {
        KeyInjective(entries[i], query);
      } else {
        PlainDiffers(entries[i], query);
      }
    }
    if i :| 0 <= i < |entries| && MakeKey(entries[i].section, entries[i].name) == key {
      assert '=' in name ==> AnswersFor(stream, i, section, name);
    }
  }

  lemma PlainDiffers(a: Entry, b: Entry)
    requires '=' !in a.name && '=' in b.name
    ensures !SameUpToCase(a, b)
  {
    LowerKeepsEquals(a.name);
    LowerKeepsEquals(b.name);
  }
}
