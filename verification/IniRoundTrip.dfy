/** What a reader answers from the settings made, and writing a configuration and reading it back. */
module IniRoundTrip {
  import opened IniText
  import opened IniParser
  import opened IniReader
  import opened IniDocument

  // ---- what a reader answers, from the settings made ----

  /** The values given under a key, in order. */
  function Given(entries: seq<Entry>, key: string): seq<string> {
    if entries == [] then []
    else (if MakeKey(entries[0].section, entries[0].name) == key then [entries[0].value] else [])
         + Given(entries[1..], key)
  }

  function Join(lines: seq<string>): string
    requires lines != []
  {
    if |lines| == 1 then lines[0] else lines[0] + "\n" + Join(lines[1..])
  }

  /** Values under one key are joined by newlines; as long as there is nothing before it, a value starts afresh. */
  function Glue(was: string, lines: seq<string>): string
    decreases |lines|
  {
    if lines == [] then was else Glue((if was != "" then was + "\n" else "") + lines[0], lines[1..])
  }

  lemma {:induction false} GivenSplit(a: seq<Entry>, b: seq<Entry>, key: string)
    ensures Given(a + b, key) == Given(a, key) + Given(b, key)
    decreases |a|
  {
    if a == [] {
      assert a + b == b;
    } else {
      assert (a + b)[0] == a[0] && (a + b)[1..] == a[1..] + b;
      GivenSplit(a[1..], b, key);
    }
  }

  lemma {:induction false} GlueLast(was: string, lines: seq<string>, last: string)
    ensures Glue(was, lines + [last]) == (if Glue(was, lines) != "" then Glue(was, lines) + "\n" else "") + last
    decreases |lines|
  {
    if lines == [] {
      assert lines + [last] == [last];
      assert [last][1..] == [];
    } else {
      assert (lines + [last])[0] == lines[0] && (lines + [last])[1..] == lines[1..] + [last];
      GlueLast((if was != "" then was + "\n" else "") + lines[0], lines[1..], last);
    }
  }

  /** A key has a value exactly when it was given one, and then everything it was given is in it, in order. */
  lemma {:induction false} ValueIsGiven(entries: seq<Entry>, key: string)
    ensures key in Values(entries) <==> Given(entries, key) != []
    ensures key in Values(entries) ==> Values(entries)[key] == Glue("", Given(entries, key))
    decreases |entries|
  {
    hide MakeKey, Given, Glue;
    if entries == [] {
      assert Given(entries, key) == [] by { NothingGiven(key); }
    } else {
      var init, e := entries[..|entries| - 1], entries[|entries| - 1];
      ValueIsGiven(init, key);
      assert init + [e] == entries;
      GivenLast(init, e, key);
      GlueLast("", Given(init, key), e.value);
      NothingGlued();
    }
  }

  lemma NothingGiven(key: string)
    ensures Given([], key) == []
  {
  }

  lemma NothingGlued()
    ensures Glue("", []) == ""
  {
  }

  lemma GivenLast(init: seq<Entry>, e: Entry, key: string)
    ensures Given(init + [e], key)
         == if MakeKey(e.section, e.name) == key then Given(init, key) + [e.value] else Given(init, key)
  {
    hide MakeKey;
    GivenSplit(init, [e], key);
    assert [e][1..] == [];
    assert Given(init, key) + [] == Given(init, key);
  }

  lemma {:induction false} GlueIsJoin(was: string, lines: seq<string>)
    requires was != ""
    ensures Glue(was, lines) == Join([was] + lines)
    decreases |lines|
  {
    if lines != [] {
      var more := was + "\n" + lines[0];
      GlueIsJoin(more, lines[1..]);
      assert ([was] + lines)[1..] == lines;
      JoinFront(was, lines);
    }
  }

  lemma JoinFront(was: string, lines: seq<string>)
    requires lines != []
    ensures Join([was + "\n" + lines[0]] + lines[1..]) == was + "\n" + Join(lines)
  {
    var more := [was + "\n" + lines[0]] + lines[1..];
    assert more[1..] == lines[1..];
    if |lines| > 1 {
      assert was + "\n" + lines[0] + "\n" + Join(lines[1..]) == was + "\n" + (lines[0] + "\n" + Join(lines[1..]));
    }
  }

  /** The lines of a value come back joined, exactly when the first of several is not empty. */
  lemma GlueWhole(lines: seq<string>)
    requires lines != []
    ensures Glue("", lines) == Join(lines) <==> |lines| == 1 || lines[0] != ""
  {
    assert "" + lines[0] == lines[0];
    if |lines| == 1 {
      assert lines[1..] == [];
    } else if lines[0] != "" {
      GlueIsJoin(lines[0], lines[1..]);
      assert [lines[0]] + lines[1..] == lines;
    } else {
      GlueLength("", lines[1..]);
      JoinLength(lines[1..]);
    }
  }

  function Total(lines: seq<string>): nat {
    if lines == [] then 0 else |lines[0]| + Total(lines[1..])
  }

  lemma {:induction false} GlueLength(was: string, lines: seq<string>)
    ensures |Glue(was, lines)| <= |was| + Total(lines) + (if was == "" && lines != [] then |lines| - 1 else |lines|)
    decreases |lines|
  {
    if lines != [] {
      GlueLength((if was != "" then was + "\n" else "") + lines[0], lines[1..]);
    }
  }

  lemma {:induction false} JoinLength(lines: seq<string>)
    requires lines != []
    ensures |Join(lines)| == Total(lines) + |lines| - 1
  {
    if |lines| > 1 {
      JoinLength(lines[1..]);
    } else {
      assert lines[1..] == [];
    }
  }

  // ---- configurations ----

  datatype Property = Property(name: string, lines: seq<string>)
  datatype Section = Section(title: string, properties: seq<Property>)
  type Config = seq<Section>

  const NO_TAIL: Tail := Tail("", "")

  function LinesDoc(lines: seq<string>): seq<Spelled> {
    seq(|lines|, i requires 0 <= i < |lines| => Continued(" ", lines[i], NO_TAIL))
  }

  function PropertyDoc(o: Property): seq<Spelled>
    requires o.lines != []
  {
    [Pair("", o.name, "", '=', "", o.lines[0], NO_TAIL)] + LinesDoc(o.lines[1..])
  }

  /** Plain text: nothing that the file format would cut off, split or read as a comment. */
  predicate PlainValue(v: string) {
    Stripped(v) && Passes(v, "", |v|) && Unbroken(v)
  }

  predicate PlainName(n: string) {
    && n != "" && |n| < 50 && Stripped(n) && Passes(n, "=:", |n|) && Unbroken(n)
    && n[0] != ';' && n[0] != '#' && n[0] != '['
  }

  predicate PlainTitle(t: string) {
    |t| < 50 && Passes(t, "]", |t|) && Unbroken(t)
  }

  predicate MoreOk(v: string) {
    PlainValue(v) && v != "" && v[0] != ';' && v[0] != '#' && |v| + 1 < 200
  }

  predicate PropertyOk(o: Property) {
    && PlainName(o.name)
    && o.lines != [] && PlainValue(o.lines[0]) && |o.name| + 1 + |o.lines[0]| < 200
    && (|o.lines| > 1 ==> o.lines[0] != "")
    && forall i :: 1 <= i < |o.lines| ==> MoreOk(o.lines[i])
  }

  function PropertiesDoc(os: seq<Property>): seq<Spelled>
    requires forall i :: 0 <= i < |os| ==> PropertyOk(os[i])
  {
    if os == [] then [] else assert PropertyOk(os[0]); PropertyDoc(os[0]) + PropertiesDoc(os[1..])
  }

  predicate SectionOk(s: Section) {
    PlainTitle(s.title) && forall i :: 0 <= i < |s.properties| ==> PropertyOk(s.properties[i])
  }

  predicate SectionsOk(config: Config) {
    forall i :: 0 <= i < |config| ==> SectionOk(config[i])
  }

  function SectionDoc(s: Section): seq<Spelled>
    requires SectionOk(s)
  {
    [Title("", s.title, "")] + PropertiesDoc(s.properties)
  }

  function ConfigDoc(config: Config): seq<Spelled>
    requires SectionsOk(config)
  {
    if config == [] then []
    else SectionDoc(config[0]) + ConfigDoc(config[1..])
  }

  /** The file as text. */
  function Render(config: Config): string
    requires SectionsOk(config)
  {
    Written(ConfigDoc(config))
  }

  datatype Named = Named(section: string, property: Property)

  function NamedIn(title: string, os: seq<Property>): seq<Named> {
    seq(|os|, i requires 0 <= i < |os| => Named(title, os[i]))
  }

  /** All properties with their sections, in order. */
  function Properties(config: Config): seq<Named> {
    if config == [] then [] else NamedIn(config[0].title, config[0].properties) + Properties(config[1..])
  }

  predicate Calls(n: Named, section: string, name: string) {
    Lower(n.section) == Lower(section) && Lower(n.property.name) == Lower(name)
  }

  predicate Distinct(all: seq<Named>) {
    forall i, j :: 0 <= i < j < |all| ==> !Calls(all[i], all[j].section, all[j].property.name)
  }

  // ---- the rendering is a well-formed file that makes these settings ----

  function NameAfterAll(doc: seq<Spelled>, prev: string): string {
    if doc == [] then prev else NameAfterAll(doc[1..], NameAfter(doc[0], prev))
  }

  function SectionAfterAll(doc: seq<Spelled>, section: string): string {
    if doc == [] then section else SectionAfterAll(doc[1..], SectionAfter(doc[0], section))
  }

  lemma {:induction false} DocSplit(a: seq<Spelled>, b: seq<Spelled>, section: string, prev: string)
    ensures DocumentOk(a + b, prev) <==> DocumentOk(a, prev) && DocumentOk(b, NameAfterAll(a, prev))
    ensures Told(a + b, section, prev)
         == Told(a, section, prev) + Told(b, SectionAfterAll(a, section), NameAfterAll(a, prev))
    decreases |a|
  {
    hide LineOk, ToldBy, NameAfter, SectionAfter;
    if a == [] {
      assert a + b == b;
    } else {
      assert (a + b)[0] == a[0] && (a + b)[1..] == a[1..] + b;
      DocSplit(a[1..], b, SectionAfter(a[0], section), NameAfter(a[0], prev));
    }
  }

  function Settings(section: string, name: string, lines: seq<string>): seq<Entry> {
    seq(|lines|, i requires 0 <= i < |lines| => Entry(section, name, lines[i]))
  }

  lemma UnbrokenSum(a: string, b: string)
    requires Unbroken(a) && Unbroken(b)
    ensures Unbroken(a + b)
  {
  }

  lemma PlainValueOk(v: string)
    requires PlainValue(v)
    ensures ValueOk(v, NO_TAIL) && Unbroken(v)
  {
    hide Passes, Unbroken;
  }

  lemma MoreLineOk(v: string, prev: string)
    requires MoreOk(v) && prev != ""
    ensures LineOk(Continued(" ", v, NO_TAIL), prev)
  {
    hide Unbroken, ValueOk, PlainValue;
    assert Text(Continued(" ", v, NO_TAIL)) == " " + v;
    PlainValueOk(v);
    assert Unbroken(" ") by { NoBreaks(); }
    UnbrokenSum(" ", v);
  }

  lemma NoBreaks()
    ensures Unbroken(" ") && Unbroken("=") && Unbroken("[") && Unbroken("]")
  {
  }

  lemma PairLineOk(n: string, v: string, prev: string)
    requires Stripped(n) && Passes(n, "=:", |n|) && Unbroken(n) && PlainValue(v) && |n| + 1 + |v| < MAX_LINE
    requires n != "" ==> n[0] != ';' && n[0] != '#' && n[0] != '['
    ensures LineOk(Pair("", n, "", '=', "", v, NO_TAIL), prev)
  {
    hide Unbroken, ValueOk, PlainValue, Passes, Stripped, Text;
    PairText(n, v);
    PlainValueOk(v);
    NoBreaks();
    UnbrokenSum(n, "=");
    UnbrokenSum(n + "=", v);
  }

  lemma PairText(n: string, v: string)
    ensures Text(Pair("", n, "", '=', "", v, NO_TAIL)) == n + "=" + v
  {
    var tail := "" + v + "" + "";
    assert tail == v;
    assert n + "" + ['='] == n + "=";
  }

  lemma {:induction false} LinesTold(lines: seq<string>, section: string, name: string)
    requires name != "" && forall i :: 0 <= i < |lines| ==> MoreOk(lines[i])
    ensures DocumentOk(LinesDoc(lines), name) && Told(LinesDoc(lines), section, name) == Settings(section, name, lines)
    ensures NameAfterAll(LinesDoc(lines), name) == name && SectionAfterAll(LinesDoc(lines), section) == section
    decreases |lines|
  {
    hide LineOk, MoreOk;
    if lines != [] {
      var l, rest := Continued(" ", lines[0], NO_TAIL), lines[1..];
      assert LinesDoc(lines) == [l] + LinesDoc(rest) && ([l] + LinesDoc(rest))[1..] == LinesDoc(rest);
      MoreLineOk(lines[0], name);
      LinesTold(rest, section, name);
      assert Settings(section, name, lines) == [Entry(section, name, lines[0])] + Settings(section, name, rest);
    }
  }

  lemma PropertyTold(o: Property, section: string, prev: string)
    requires PropertyOk(o)
    ensures DocumentOk(PropertyDoc(o), prev) && Told(PropertyDoc(o), section, prev) == Settings(section, o.name, o.lines)
    ensures SectionAfterAll(PropertyDoc(o), section) == section
  {
    hide LineOk, MoreOk, LinesDoc;
    var first, rest := Pair("", o.name, "", '=', "", o.lines[0], NO_TAIL), o.lines[1..];
    assert PropertyDoc(o)[0] == first && PropertyDoc(o)[1..] == LinesDoc(rest);
    LinesTold(rest, section, o.name);
    PairLineOk(o.name, o.lines[0], prev);
  }

  function SettingsOf(all: seq<Named>): seq<Entry> {
    if all == [] then []
    else Settings(all[0].section, all[0].property.name, all[0].property.lines) + SettingsOf(all[1..])
  }

  lemma {:induction false} SettingsSplit(a: seq<Named>, b: seq<Named>)
    ensures SettingsOf(a + b) == SettingsOf(a) + SettingsOf(b)
    decreases |a|
  {
    if a == [] {
      assert a + b == b;
    } else {
      assert (a + b)[0] == a[0] && (a + b)[1..] == a[1..] + b;
      SettingsSplit(a[1..], b);
    }
  }

  lemma {:induction false} PropertiesTold(os: seq<Property>, section: string, prev: string)
    requires forall i :: 0 <= i < |os| ==> PropertyOk(os[i])
    ensures DocumentOk(PropertiesDoc(os), prev)
    ensures Told(PropertiesDoc(os), section, prev) == SettingsOf(NamedIn(section, os))
    ensures SectionAfterAll(PropertiesDoc(os), section) == section
    decreases |os|
  {
    hide LineOk;
    if os != [] {
      var a, b := PropertyDoc(os[0]), PropertiesDoc(os[1..]);
      PropertyTold(os[0], section, prev);
      PropertiesTold(os[1..], section, NameAfterAll(a, prev));
      DocSplit(a, b, section, prev);
      SectionSplit(a, b, section);
      assert NamedIn(section, os)[1..] == NamedIn(section, os[1..]);
    }
  }

  lemma {:induction false} SectionSplit(a: seq<Spelled>, b: seq<Spelled>, section: string)
    ensures SectionAfterAll(a + b, section) == SectionAfterAll(b, SectionAfterAll(a, section))
    decreases |a|
  {
    if a == [] {
      assert a + b == b;
    } else {
      assert (a + b)[0] == a[0] && (a + b)[1..] == a[1..] + b;
      SectionSplit(a[1..], b, SectionAfter(a[0], section));
    }
  }

  lemma SectionTold(s: Section, section: string, prev: string)
    requires SectionOk(s)
    ensures DocumentOk(SectionDoc(s), prev)
    ensures Told(SectionDoc(s), section, prev) == SettingsOf(NamedIn(s.title, s.properties))
  {
    hide DocumentOk, Told, NameAfterAll, SectionAfterAll, PropertiesDoc, SettingsOf;
    var head, body := [Title("", s.title, "")], PropertiesDoc(s.properties);
    HeadTold(s.title, section, prev);
    PropertiesTold(s.properties, s.title, "");
    DocSplit(head, body, section, prev);
  }

  lemma {:induction false} ConfigTold(config: Config, section: string, prev: string)
    requires SectionsOk(config)
    ensures DocumentOk(ConfigDoc(config), prev)
    ensures Told(ConfigDoc(config), section, prev) == SettingsOf(Properties(config))
    decreases |config|
  {
    hide SectionDoc, LineOk, PropertyOk, PlainTitle, Settings;
    if config != [] {
      var s, doc := config[0], SectionDoc(config[0]);
      SectionTold(s, section, prev);
      ConfigTold(config[1..], SectionAfterAll(doc, section), NameAfterAll(doc, prev));
      DocSplit(doc, ConfigDoc(config[1..]), section, prev);
      SettingsSplit(NamedIn(s.title, s.properties), Properties(config[1..]));
    }
  }

  lemma HeadTold(title: string, section: string, prev: string)
    requires PlainTitle(title)
    ensures var head := [Title("", title, "")];
            && DocumentOk(head, prev) && Told(head, section, prev) == []
            && NameAfterAll(head, prev) == "" && SectionAfterAll(head, section) == title
  {
    hide Unbroken, Passes;
    var l := Title("", title, "");
    assert Text(l) == "[" + title + "]";
    NoBreaks();
    UnbrokenSum("[", title);
    UnbrokenSum("[" + title, "]");
    assert LineOk(l, prev);
    assert [l][1..] == [];
  }

  // ---- and so it is read back ----

  lemma {:induction false} SettingsGiven(section: string, name: string, lines: seq<string>, key: string)
    ensures Given(Settings(section, name, lines), key) == if MakeKey(section, name) == key then lines else []
    decreases |lines|
  {
    if lines != [] {
      assert Settings(section, name, lines)[1..] == Settings(section, name, lines[1..]);
      SettingsGiven(section, name, lines[1..], key);
    }
  }

  /** Where no property has the key, nothing is given under it. */
  lemma {:induction false} NoneGiven(all: seq<Named>, key: string)
    requires forall i :: 0 <= i < |all| ==> MakeKey(all[i].section, all[i].property.name) != key
    ensures Given(SettingsOf(all), key) == []
    decreases |all|
  {
    hide MakeKey;
    if all != [] {
      var n := all[0];
      SettingsGiven(n.section, n.property.name, n.property.lines, key);
      NoneGiven(all[1..], key);
      GivenSplit(Settings(n.section, n.property.name, n.property.lines), SettingsOf(all[1..]), key);
    }
  }

  lemma OneGiven(all: seq<Named>, i: nat, key: string)
    requires i < |all|
    requires forall j :: 0 <= j < |all| ==> (MakeKey(all[j].section, all[j].property.name) == key <==> j == i)
    ensures Given(SettingsOf(all), key) == all[i].property.lines
  {
    hide MakeKey;
    var n := all[i];
    var a, b := all[..i], all[i + 1..];
    assert all == a + ([n] + b) && ([n] + b)[1..] == b;
    SettingsSplit(a, [n] + b);
    var mine := Settings(n.section, n.property.name, n.property.lines);
    GivenSplit(SettingsOf(a), mine + SettingsOf(b), key);
    GivenSplit(mine, SettingsOf(b), key);
    NoneGiven(a, key);
    NoneGiven(b, key);
    SettingsGiven(n.section, n.property.name, n.property.lines, key);
  }

  lemma {:induction false} PropertiesAreOk(config: Config, i: nat)
    requires SectionsOk(config) && i < |Properties(config)|
    ensures PropertyOk(Properties(config)[i].property)
    decreases |config|
  {
    var here := NamedIn(config[0].title, config[0].properties);
    if i >= |here| {
      PropertiesAreOk(config[1..], i - |here|);
    }
  }

  lemma NameHasNoEquals(n: string)
    requires Passes(n, "=:", |n|)
    ensures '=' !in n
  {
    forall k | 0 <= k < |n| ensures n[k] != '=' {
      assert !Stops(n, "=:", k);
    }
  }

  lemma KeyOfProperty(n: Named, section: string, name: string)
    requires PropertyOk(n.property) && '=' !in name
    ensures MakeKey(n.section, n.property.name) == MakeKey(section, name) <==> Calls(n, section, name)
  {
    NameHasNoEquals(n.property.name);
    KeyInjective(Entry(n.section, n.property.name, ""), Entry(section, name, ""));
  }

  /** A name that is not there gets the default, whatever else the file holds. */
  lemma AbsentIsDefault(config: Config, section: string, name: string, default: string)
    requires SectionsOk(config) && '=' !in name
    requires forall i :: 0 <= i < |Properties(config)| ==> !Calls(Properties(config)[i], section, name)
    ensures Lookup(Values(SettingsOf(Properties(config))), section, name, default) == default
  {
    var all, key := Properties(config), MakeKey(section, name);
    forall i | 0 <= i < |all| ensures MakeKey(all[i].section, all[i].property.name) != key {
      PropertiesAreOk(config, i);
      KeyOfProperty(all[i], section, name);
    }
    NoneGiven(all, key);
    ValueIsGiven(SettingsOf(all), key);
  }

  lemma PresentIsValue(config: Config, i: nat, section: string, name: string, default: string)
    requires SectionsOk(config) && Distinct(Properties(config)) && '=' !in name
    requires i < |Properties(config)| && Calls(Properties(config)[i], section, name)
    ensures PropertyOk(Properties(config)[i].property)
    ensures Lookup(Values(SettingsOf(Properties(config))), section, name, default) == Join(Properties(config)[i].property.lines)
  {
    hide PropertyOk, MakeKey, Properties;
    var all, key := Properties(config), MakeKey(section, name);
    forall j | 0 <= j < |all| ensures MakeKey(all[j].section, all[j].property.name) == key <==> j == i {
      PropertiesAreOk(config, j);
      KeyOfProperty(all[j], section, name);
      assert j < i ==> !Calls(all[j], all[i].section, all[i].property.name);
      assert i < j ==> !Calls(all[i], all[j].section, all[j].property.name);
    }
    OneGiven(all, i, key);
    ValueIsGiven(SettingsOf(all), key);
    PropertiesAreOk(config, i);
    LinesJoin(all[i].property);
  }

  lemma LinesJoin(o: Property)
    requires PropertyOk(o)
    ensures o.lines != [] && Glue("", o.lines) == Join(o.lines)
  {
    GlueWhole(o.lines);
  }

  /** The file as some editors save it: with a byte-order mark, or without. */
  function Saved(config: Config, marked: bool): string
    requires SectionsOk(config)
  {
    (if marked then "\U{EF}\U{BB}\U{BF}" else "") + Render(config)
  }

  lemma RenderedRead(config: Config, marked: bool)
    requires SectionsOk(config)
    ensures Parse(Saved(config, marked)).error == 0
    ensures Parse(Saved(config, marked)).entries == SettingsOf(Properties(config))
    ensures !marked ==> Saved(config, marked) == Render(config)
  {
    hide DocumentOk, Told, ConfigDoc, Written, Parse, Text;
    ConfigTold(config, "", "");
    if marked {
      RoomForMark(config);
      MarkedDocumentRead(ConfigDoc(config));
    } else {
      assert "" + Render(config) == Render(config);
      NotMarked(config);
      DocumentRead(ConfigDoc(config));
    }
  }

  lemma RoomForMark(config: Config)
    requires SectionsOk(config)
    ensures var doc := ConfigDoc(config); doc != [] ==> |Text(doc[0])| + 3 < MAX_LINE
  {
    if config != [] {
      assert ConfigDoc(config)[0] == Title("", config[0].title, "");
    }
  }

  /** Writing a configuration and reading it back: no error, every property found under its own name in any case, its
      lines joined by newlines, and nothing else found. */
  lemma RoundTrip(config: Config, marked: bool, section: string, name: string, default: string)
    requires SectionsOk(config) && Distinct(Properties(config)) && '=' !in name
    ensures var read, all := Parse(Saved(config, marked)), Properties(config);
            && read.error == 0
            && (forall i :: 0 <= i < |all| && Calls(all[i], section, name) ==>
                  && PropertyOk(all[i].property)
                  && Lookup(Values(read.entries), section, name, default) == Join(all[i].property.lines))
            && ((forall i :: 0 <= i < |all| ==> !Calls(all[i], section, name)) ==>
                  Lookup(Values(read.entries), section, name, default) == default)
  {
    hide MakeKey, Calls, Lookup, Values, Join, Parse, Saved, Properties, SettingsOf, SectionsOk, Distinct;
    var all := Properties(config);
    RenderedRead(config, marked);
    forall i | 0 <= i < |all| && Calls(all[i], section, name)
      ensures PropertyOk(all[i].property)
      ensures Lookup(Values(SettingsOf(all)), section, name, default) == Join(all[i].property.lines)
    {
      PresentIsValue(config, i, section, name, default);
    }
    if forall i :: 0 <= i < |all| ==> !Calls(all[i], section, name) {
      AbsentIsDefault(config, section, name, default);
    }
  }

  lemma NotMarked(config: Config)
    requires SectionsOk(config)
    ensures !(BOM <= Render(config))
  {
    if config != [] {
      var doc := ConfigDoc(config);
      assert doc[0] == Title("", config[0].title, "");
      assert Render(config)[0] == Text(doc[0])[0] == '[';
    }
  }

  /** A file with one property, asked for a name with an `=`. */
  lemma OnePropertyAnswers(section: string, prefix: string, suffix: string, value: string, default: string)
    requires PlainTitle(section + "=" + prefix) && PropertyOk(Property(suffix, [value]))
    ensures var config := [Section(section + "=" + prefix, [Property(suffix, [value])])];
            && SectionsOk(config)
            && var read := Parse(Render(config));
            && Lookup(Values(read.entries), section, prefix + "=" + suffix, default) == value
            && (forall i :: 0 <= i < |read.entries| ==>
                  !SameUpToCase(read.entries[i], Entry(section, prefix + "=" + suffix, "")))
  {
    hide PropertyOk, PlainTitle, MakeKey, Render, Parse, Values;
    var title, o := section + "=" + prefix, Property(suffix, [value]);
    var config := [Section(title, [o])];
    assert config[1..] == [];
    assert Properties(config) == [Named(title, o)];
    assert '=' !in suffix by { PropertyNamesPlain(o); }
    RenderedRead(config, false);
    assert SettingsOf(Properties(config)) == [Entry(title, suffix, value)];
    assert Calls(Properties(config)[0], title, suffix);
    PresentIsValue(config, 0, title, suffix, default);
    MovedEquals(section, prefix, suffix);
  }

  lemma PropertyNamesPlain(o: Property)
    requires PropertyOk(o)
    ensures '=' !in o.name
  {
    NameHasNoEquals(o.name);
  }

  /** For instance: `b=c` in section `a`, answered with what section `a=b` says of `c`. */
  lemma AnsweredByAnotherHere()
    ensures Lookup(Values(Parse("[a=b]\nc=1\n").entries), "a", "b=c", "") == "1"
    ensures forall i :: 0 <= i < |Parse("[a=b]\nc=1\n").entries| ==>
              !SameUpToCase(Parse("[a=b]\nc=1\n").entries[i], Entry("a", "b=c", ""))
  {
    hide Parse, Values, Lookup, SameUpToCase;
    var config := [Section("a=b", [Property("c", ["1"])])];
    assert "a" + "=" + "b" == "a=b" && "b" + "=" + "c" == "b=c";
    assert PlainTitle("a=b") && PropertyOk(Property("c", ["1"]));
    OnePropertyAnswers("a", "b", "c", "1", "");
    HereRendered();
  }

  lemma HereRendered()
    ensures var config := [Section("a=b", [Property("c", ["1"])])];
            SectionsOk(config) && Render(config) == "[a=b]\nc=1\n"
  {
    var o := Property("c", ["1"]);
    var config := [Section("a=b", [o])];
    assert PropertyOk(o) && PlainTitle("a=b");
    var head, pair := Title("", "a=b", ""), Pair("", "c", "", '=', "", "1", NO_TAIL);
    assert o.lines[1..] == [] && [o][1..] == [] && config[1..] == [];
    assert PropertyDoc(o) == [pair];
    assert PropertiesDoc([o]) == [pair];
    assert ConfigDoc(config) == [head, pair];
    assert [head, pair][1..] == [pair] && [pair][1..] == [];
    assert Text(head) == "[a=b]" && Text(pair) == "c=1";
    assert Written([pair]) == "c=1\n";
  }
}
