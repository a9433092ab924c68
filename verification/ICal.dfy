/** iCalendar text: the printer of the calendar feed and of the invite, and a reader
    written from RFC 5545 (unfolding and content lines, section 3.1; TEXT escapes,
    section 3.3.11) that recovers what was printed. */
module ICal {
  import opened Prelude

  // ---------- text values ----------

  /** JavaScript `replace` of every occurrence of one character. */
  function ReplaceAll(s: string, c: char, with: string): string {
    if s == "" then "" else (if s[0] == c then with else [s[0]]) + ReplaceAll(s[1..], c, with)
  }

  /** `esc`: four replacements, one after the other. */
  function Esc(s: string): string {
    ReplaceAll(ReplaceAll(ReplaceAll(ReplaceAll(s, '\\', "\\\\"), ',', "\\,"), ';', "\\;"), '\n', "\\n")
  }

  function EscapeChar(c: char): string {
    if c == '\\' then "\\\\" else if c == ',' then "\\," else if c == ';' then "\\;" else if c == '\n' then "\\n" else [c]
  }

  /** Each character on its own. */
  function EscapeEach(s: string): string {
    if s == "" then "" else EscapeChar(s[0]) + EscapeEach(s[1..])
  }

  /** Section 3.3.11: a backslash gives the next character literally, n and N a line feed. */
  function Unescape(s: string): string {
    if s == "" then ""
    else if s[0] != '\\' || |s| == 1 then [s[0]] + Unescape(s[1..])
    else [if s[1] == 'n' || s[1] == 'N' then '\n' else s[1]] + Unescape(s[2..])
  }

  lemma {:induction false} ReplaceAllConcat(a: string, b: string, c: char, with: string)
    ensures ReplaceAll(a + b, c, with) == ReplaceAll(a, c, with) + ReplaceAll(b, c, with)
  {
    if a == "" {
      assert a + b == b;
    } else {
      assert (a + b)[1..] == a[1..] + b;
      ReplaceAllConcat(a[1..], b, c, with);
    }
  }

  lemma EscConcat(a: string, b: string)
    ensures Esc(a + b) == Esc(a) + Esc(b)
  {
    var a1, b1 := ReplaceAll(a, '\\', "\\\\"), ReplaceAll(b, '\\', "\\\\");
    var a2, b2 := ReplaceAll(a1, ',', "\\,"), ReplaceAll(b1, ',', "\\,");
    var a3, b3 := ReplaceAll(a2, ';', "\\;"), ReplaceAll(b2, ';', "\\;");
    ReplaceAllConcat(a, b, '\\', "\\\\");
    ReplaceAllConcat(a1, b1, ',', "\\,");
    ReplaceAllConcat(a2, b2, ';', "\\;");
    ReplaceAllConcat(a3, b3, '\n', "\\n");
  }

  lemma ReplaceOne(x: char, c: char, with: string)
    ensures ReplaceAll([x], c, with) == if x == c then with else [x]
  {
    assert [x][1..] == "";
  }

  lemma ReplaceTwo(x: char, y: char, c: char, with: string)
    ensures ReplaceAll([x, y], c, with) == (if x == c then with else [x]) + (if y == c then with else [y])
  {
    assert [x, y][1..] == [y];
    ReplaceOne(y, c, with);
  }

  lemma EscOne(x: char)
    ensures Esc([x]) == EscapeChar(x)
  {
    ReplaceOne(x, '\\', "\\\\");
    ReplaceOne(x, ',', "\\,");
    ReplaceOne(x, ';', "\\;");
    ReplaceOne(x, '\n', "\\n");
    if x == '\\' {
      ReplaceTwo('\\', '\\', ',', "\\,");
      ReplaceTwo('\\', '\\', ';', "\\;");
      ReplaceTwo('\\', '\\', '\n', "\\n");
    } else if x == ',' {
      ReplaceTwo('\\', ',', ';', "\\;");
      ReplaceTwo('\\', ',', '\n', "\\n");
    } else if x == ';' {
      ReplaceTwo('\\', ';', '\n', "\\n");
    }
  }

  /** Backslash first makes the four passes one: no pass touches what an earlier one put
      in. */
  lemma {:induction false} FourPassesAreOne(s: string)
    ensures Esc(s) == EscapeEach(s)
  {
    if s != "" {
      FourPassesAreOne(s[1..]);
      EscOne(s[0]);
      EscConcat([s[0]], s[1..]);
      assert s == [s[0]] + s[1..];
    }
  }

  lemma {:induction false} UnescapeEach(s: string)
    ensures Unescape(EscapeEach(s)) == s
  {
    if s != "" {
      UnescapeEach(s[1..]);
      var e, rest := EscapeEach(s), EscapeEach(s[1..]);
      if |EscapeChar(s[0])| == 2 {
        assert e[2..] == rest;
      } else {
        assert e[1..] == rest;
      }
      assert s == [s[0]] + s[1..];
    }
  }

  /** A reader gets every text back. */
  lemma EscRoundTrip(s: string)
    ensures Unescape(Esc(s)) == s
  {
    FourPassesAreOne(s);
    UnescapeEach(s);
  }

  predicate NoLF(s: string) {
    '\n' !in s
  }

  lemma {:induction false} EscapeEachNoLF(s: string)
    ensures NoLF(EscapeEach(s))
  {
    if s != "" {
      EscapeEachNoLF(s[1..]);
    }
  }

  /** No text can end its content line. */
  lemma EscNoLF(s: string)
    ensures NoLF(Esc(s))
  {
    FourPassesAreOne(s);
    EscapeEachNoLF(s);
  }

  predicate Plain(s: string) {
    '\\' !in s && ',' !in s && ';' !in s && '\n' !in s
  }

  lemma {:induction false} EscPlain(s: string)
    requires Plain(s)
    ensures Esc(s) == s
  {
    FourPassesAreOne(s);
    if s != "" {
      EscPlain(s[1..]);
      FourPassesAreOne(s[1..]);
    }
  }

  // ---------- lines ----------

  const CRLF := "\r\n"

  function Join(lines: seq<string>): string {
    if lines == [] then "" else if |lines| == 1 then lines[0] else lines[0] + CRLF + Join(lines[1..])
  }

  /** A line break followed by a space or tab continues the line. */
  function Unfold(s: string): string {
    if s == "" then ""
    else if |s| >= 3 && s[0] == '\r' && s[1] == '\n' && (s[2] == ' ' || s[2] == '\t') then Unfold(s[3..])
    else [s[0]] + Unfold(s[1..])
  }

  function Split(s: string): (lines: seq<string>)
    ensures lines != []
  {
    if s == "" then [""]
    else if |s| >= 2 && s[0] == '\r' && s[1] == '\n' then [""] + Split(s[2..])
    else var rest := Split(s[1..]); [[s[0]] + rest[0]] + rest[1..]
  }

  lemma {:induction false} JoinAppend(a: seq<string>, b: seq<string>)
    requires a != [] && b != []
    ensures Join(a + b) == Join(a) + CRLF + Join(b)
  {
    if |a| == 1 {
      assert (a + b)[1..] == b;
    } else {
      assert (a + b)[1..] == a[1..] + b;
      JoinAppend(a[1..], b);
      assert a[0] + CRLF + (Join(a[1..]) + CRLF + Join(b)) == (a[0] + CRLF + Join(a[1..])) + CRLF + Join(b);
    }
  }

  lemma {:induction false} SplitFirst(line: string, rest: string)
    requires NoLF(line)
    ensures Split(line + CRLF + rest) == [line] + Split(rest)
    ensures Split(line) == [line]
  {
    if line == "" {
      assert line + CRLF + rest == CRLF + rest && (CRLF + rest)[2..] == rest;
    } else {
      SplitFirst(line[1..], rest);
      var s := line + CRLF + rest;
      assert s[1..] == line[1..] + CRLF + rest;
      assert |line| >= 2 ==> s[1] == line[1];
      assert |line| == 1 ==> s[1] == '\r';
      assert [line[0]] + line[1..] == line;
    }
  }

  lemma {:induction false} SplitJoin(lines: seq<string>)
    requires lines != [] && forall i :: 0 <= i < |lines| ==> NoLF(lines[i])
    ensures Split(Join(lines)) == lines
  {
    if |lines| == 1 {
      SplitFirst(lines[0], "");
    } else {
      SplitJoin(lines[1..]);
      SplitFirst(lines[0], Join(lines[1..]));
    }
  }

  /** A line that starts at the margin cannot be taken for a continuation. */
  predicate AtMargin(line: string) {
    NoLF(line) && line != "" && line[0] != ' ' && line[0] != '\t'
  }

  lemma {:induction false} UnfoldLine(line: string, rest: string)
    requires NoLF(line) && (rest == "" || (|rest| >= 3 && rest[..2] == CRLF && rest[2] != ' ' && rest[2] != '\t'))
    ensures Unfold(line + rest) == line + Unfold(rest)
  {
    if line == "" {
      assert line + rest == rest;
    } else {
      UnfoldLine(line[1..], rest);
      var s := line + rest;
      assert s[1..] == line[1..] + rest;
      assert |line| >= 2 ==> s[1] == line[1];
      assert |line| == 1 && rest != "" ==> s[1] == rest[..2][0];
    }
  }

  lemma UnfoldKeeps(s: string, c: char, rest: string)
    requires s == [c] + rest && (c != '\r' || rest == "" || rest[0] != '\n' || |rest| == 1 || (rest[1] != ' ' && rest[1] != '\t'))
    ensures Unfold(s) == [c] + Unfold(rest)
  {
    assert s[1..] == rest;
    assert |s| >= 3 ==> s[1] == rest[0] && s[2] == rest[1];
  }

  lemma UnfoldBreak(s: string, lf: string, tail: string)
    requires s == ['\r'] + lf && lf == ['\n'] + tail
    requires tail != "" && tail[0] != ' ' && tail[0] != '\t'
    ensures Unfold(s) == CRLF + Unfold(tail)
  {
    UnfoldKeeps(lf, '\n', tail);
    UnfoldKeeps(s, '\r', lf);
    assert CRLF == ['\r'] + ['\n'];
  }

  lemma {:induction false} UnfoldJoin(lines: seq<string>)
    requires forall i :: 0 <= i < |lines| ==> AtMargin(lines[i])
    ensures Unfold(Join(lines)) == Join(lines)
  {
    if |lines| == 1 {
      UnfoldLine(lines[0], "");
      assert lines[0] + "" == lines[0];
    } else if lines != [] {
      UnfoldJoin(lines[1..]);
      var tail := Join(lines[1..]);
      assert AtMargin(lines[1]);
      JoinStarts(lines[1..]);
      assert CRLF + tail == ['\r'] + (['\n'] + tail);
      UnfoldBreak(CRLF + tail, ['\n'] + tail, tail);
      assert (CRLF + tail)[..2] == CRLF && (CRLF + tail)[2] == tail[0];
      UnfoldLine(lines[0], CRLF + tail);
      assert lines[0] + (CRLF + tail) == Join(lines);
    }
  }

  lemma JoinStarts(lines: seq<string>)
    requires lines != [] && AtMargin(lines[0])
    ensures Join(lines) != "" && Join(lines)[0] == lines[0][0]
  {
  }

  // ---------- content lines ----------

  function Line(name: string, value: string): string {
    name + ":" + value
  }

  function NameOf(line: string): string {
    if line == "" || line[0] == ':' || line[0] == ';' then "" else [line[0]] + NameOf(line[1..])
  }

  /** What follows the name and its colon; lines with parameters are not interpreted. */
  function ValueOf(line: string): string {
    var n := |NameOf(line)|;
    if n < |line| && line[n] == ':' then line[n + 1..] else ""
  }

  predicate IsName(name: string) {
    name != "" && (forall i :: 0 <= i < |name| ==> 'A' <= name[i] <= 'Z' || name[i] == '-')
  }

  lemma {:induction false} NameStops(name: string, stop: char, rest: string)
    requires ':' !in name && ';' !in name && (stop == ':' || stop == ';')
    ensures NameOf(name + [stop] + rest) == name
  {
    var line := name + [stop] + rest;
    if name != "" {
      NameStops(name[1..], stop, rest);
      assert line[1..] == name[1..] + [stop] + rest;
    }
  }

  lemma LineReads(name: string, value: string)
    requires IsName(name)
    ensures NameOf(Line(name, value)) == name && ValueOf(Line(name, value)) == value
    ensures NoLF(value) ==> AtMargin(Line(name, value))
  {
    NameStops(name, ':', value);
    assert Line(name, value) == name + [':'] + value;
    assert Line(name, value)[|name| + 1..] == value;
  }

  /** The properties the program prints. */
  datatype Property =
    | BEGIN | END | VERSION | PRODID | CALSCALE | METHOD | X_WR_CALNAME | X_WR_TIMEZONE
    | UID | DTSTAMP | DTSTART | DTEND | SUMMARY | DESCRIPTION | LOCATION | STATUS | SEQUENCE

  function NameText(p: Property): string {
    match p
    case BEGIN => "BEGIN"
    case END => "END"
    case VERSION => "VERSION"
    case PRODID => "PRODID"
    case CALSCALE => "CALSCALE"
    case METHOD => "METHOD"
    case X_WR_CALNAME => "X-WR-CALNAME"
    case X_WR_TIMEZONE => "X-WR-TIMEZONE"
    case UID => "UID"
    case DTSTAMP => "DTSTAMP"
    case DTSTART => "DTSTART"
    case DTEND => "DTEND"
    case SUMMARY => "SUMMARY"
    case DESCRIPTION => "DESCRIPTION"
    case LOCATION => "LOCATION"
    case STATUS => "STATUS"
    case SEQUENCE => "SEQUENCE"
  }

  function PropertyOf(name: string): Option<Property> {
    if name == "BEGIN" then Some(BEGIN)
    else if name == "END" then Some(END)
    else if name == "VERSION" then Some(VERSION)
    else if name == "PRODID" then Some(PRODID)
    else if name == "CALSCALE" then Some(CALSCALE)
    else if name == "METHOD" then Some(METHOD)
    else if name == "X-WR-CALNAME" then Some(X_WR_CALNAME)
    else if name == "X-WR-TIMEZONE" then Some(X_WR_TIMEZONE)
    else if name == "UID" then Some(UID)
    else if name == "DTSTAMP" then Some(DTSTAMP)
    else if name == "DTSTART" then Some(DTSTART)
    else if name == "DTEND" then Some(DTEND)
    else if name == "SUMMARY" then Some(SUMMARY)
    else if name == "DESCRIPTION" then Some(DESCRIPTION)
    else if name == "LOCATION" then Some(LOCATION)
    else if name == "STATUS" then Some(STATUS)
    else if name == "SEQUENCE" then Some(SEQUENCE)
    else None
  }

  lemma NamesAreDistinct(p: Property)
    ensures PropertyOf(NameText(p)) == Some(p)
  {
  }

  lemma NamesAreNames(p: Property)
    ensures IsName(NameText(p))
  {
  }

  // ---------- reading one line after the other ----------

  function Fold<R, F>(step: (R, F) -> R, r: R, fs: seq<F>): R
    decreases |fs|
  {
    if fs == [] then r else Fold(step, step(r, fs[0]), fs[1..])
  }

  lemma {:induction false} FoldAppend<R, F>(step: (R, F) -> R, r: R, a: seq<F>, b: seq<F>)
    ensures Fold(step, r, a + b) == Fold(step, Fold(step, r, a), b)
    decreases |a|
  {
    if a == [] {
      assert a + b == b;
    } else {
      assert (a + b)[1..] == a[1..] + b;
      FoldAppend(step, step(r, a[0]), a[1..], b);
    }
  }

  lemma FoldThree<R, F>(step: (R, F) -> R, r: R, a: F, b: F, c: F)
    ensures Fold(step, r, [a, b, c]) == step(step(step(r, a), b), c)
  {
    assert [a, b, c][1..] == [b, c] && [b, c][1..] == [c] && [c][1..] == [];
    assert Fold(step, r, [a, b, c]) == Fold(step, step(r, a), [b, c]);
    assert Fold(step, step(r, a), [b, c]) == Fold(step, step(step(r, a), b), [c]);
  }

  // ---------- the reader ----------

  datatype Entry = Entry(uid: string, starts: string, ends: string, summary: string, description: string,
                         location: string, status: string)

  const NOTHING := Entry("", "", "", "", "", "", "")

  datatype Feed = Feed(name: string, entries: seq<Entry>)

  datatype Reader = Reader(feed: Feed, current: Option<Entry>)

  function WithField(e: Entry, p: Property, value: string): Entry {
    match p
    case UID => e.(uid := value)
    case DTSTART => e.(starts := value)
    case DTEND => e.(ends := value)
    case SUMMARY => e.(summary := Unescape(value))
    case DESCRIPTION => e.(description := Unescape(value))
    case LOCATION => e.(location := Unescape(value))
    case STATUS => e.(status := value)
    case _ => e
  }

  function ReadField(r: Reader, p: Property, value: string): Reader {
    match r.current
    case None =>
      if p == BEGIN && value == "VEVENT" then r.(current := Some(NOTHING))
      else if p == X_WR_CALNAME then r.(feed := r.feed.(name := Unescape(value)))
      else r
    case Some(e) =>
      if p == END && value == "VEVENT" then Reader(r.feed.(entries := r.feed.entries + [e]), None)
      else r.(current := Some(WithField(e, p, value)))
  }

  function ReadLine(r: Reader, line: string): Reader {
    match PropertyOf(NameOf(line))
    case None => r
    case Some(p) => ReadField(r, p, ValueOf(line))
  }

  function LineStep(): (Reader, string) -> Reader {
    (r: Reader, line: string) => ReadLine(r, line)
  }

  function ReadLines(r: Reader, lines: seq<string>): Reader {
    Fold(LineStep(), r, lines)
  }

  const EMPTY_READER := Reader(Feed("", []), None)

  function Read(text: string): Feed {
    ReadLines(EMPTY_READER, Split(Unfold(text))).feed
  }

  /** Printed fields, read one by one. */
  datatype Field = Field(name: Property, value: string)

  function Print(fields: seq<Field>): (lines: seq<string>)
    ensures |lines| == |fields| && forall i :: 0 <= i < |fields| ==> lines[i] == Line(NameText(fields[i].name), fields[i].value)
  {
    seq(|fields|, i requires 0 <= i < |fields| => Line(NameText(fields[i].name), fields[i].value))
  }

  function Step(): (Reader, Field) -> Reader {
    (r: Reader, f: Field) => ReadField(r, f.name, f.value)
  }

  function ReadFields(r: Reader, fields: seq<Field>): Reader {
    Fold(Step(), r, fields)
  }

  lemma {:induction false} PrintedFieldsRead(r: Reader, fields: seq<Field>)
    ensures ReadLines(r, Print(fields)) == ReadFields(r, fields)
    decreases |fields|
  {
    if fields != [] {
      NamesAreDistinct(fields[0].name);
      NamesAreNames(fields[0].name);
      LineReads(NameText(fields[0].name), fields[0].value);
      assert Print(fields)[1..] == Print(fields[1..]);
      assert LineStep()(r, Print(fields)[0]) == ReadLine(r, Print(fields)[0]);
      assert Step()(r, fields[0]) == ReadField(r, fields[0].name, fields[0].value);
      PrintedFieldsRead(ReadField(r, fields[0].name, fields[0].value), fields[1..]);
    }
  }

  predicate Printable(fields: seq<Field>) {
    forall i :: 0 <= i < |fields| ==> NoLF(fields[i].value)
  }

  lemma PrintableAppend(a: seq<Field>, b: seq<Field>)
    requires Printable(a) && Printable(b)
    ensures Printable(a + b)
  {
  }

  lemma PrintableThree(a: Field, b: Field, c: Field)
    requires NoLF(a.value) && NoLF(b.value) && NoLF(c.value)
    ensures Printable([a, b, c])
  {
  }

  lemma PrintedAtMargin(fields: seq<Field>)
    requires Printable(fields)
    ensures forall i :: 0 <= i < |fields| ==> AtMargin(Print(fields)[i])
  {
    forall i | 0 <= i < |fields|
      ensures AtMargin(Print(fields)[i])
    {
      NamesAreNames(fields[i].name);
      LineReads(NameText(fields[i].name), fields[i].value);
    }
  }

  /** Fields printed on lines of their own are read back as they are. */
  lemma PrintedTextReads(fields: seq<Field>)
    requires fields != [] && Printable(fields)
    ensures Read(Join(Print(fields))) == ReadFields(EMPTY_READER, fields).feed
  {
    PrintedAtMargin(fields);
    UnfoldJoin(Print(fields));
    SplitJoin(Print(fields));
    PrintedFieldsRead(EMPTY_READER, fields);
  }

  // ---------- the feed ----------

  /** Instants are already formatted: only that the text has no line feed matters. */
  datatype FeedAppointment = FeedAppointment(id: string, starts: string, ends: string, service: string, client: string,
                                             provider: string, cancelled: bool)

  function EventFields(a: FeedAppointment, stamp: string): seq<Field> {
    [Field(BEGIN, "VEVENT"), Field(UID, a.id + "@pulse.app"), Field(DTSTAMP, stamp)]
    + [Field(DTSTART, a.starts), Field(DTEND, a.ends), Field(SUMMARY, Esc(a.service + " — " + a.client))]
    + [Field(DESCRIPTION, "Provider: " + Esc(a.provider)),
       Field(STATUS, if a.cancelled then "CANCELLED" else "CONFIRMED"), Field(END, "VEVENT")]
  }

  function HeaderFields(calName: string): seq<Field> {
    [Field(BEGIN, "VCALENDAR"),
     Field(VERSION, "2.0"),
     Field(PRODID, "-//Pulse//Feed//EN"),
     Field(CALSCALE, "GREGORIAN"),
     Field(METHOD, "PUBLISH"),
     Field(X_WR_CALNAME, Esc(calName)),
     Field(X_WR_TIMEZONE, "UTC")]
  }

  const FOOTER := [Field(END, "VCALENDAR")]

  function EventText(a: FeedAppointment, stamp: string): string {
    Join(Print(EventFields(a, stamp)))
  }

  function EventTexts(apts: seq<FeedAppointment>, stamp: string): seq<string> {
    Map(apts, a => EventText(a, stamp))
  }

  lemma EventTextsNext(apts: seq<FeedAppointment>, stamp: string)
    requires apts != []
    ensures EventTexts(apts, stamp) == [EventText(apts[0], stamp)] + EventTexts(apts[1..], stamp)
  {
  }

  /** `generateICalFeed`: each event joined on its own, then everything joined. */
  function GenerateFeed(apts: seq<FeedAppointment>, calName: string, stamp: string): string {
    Join(Print(HeaderFields(calName)) + EventTexts(apts, stamp) + Print(FOOTER))
  }

  /** All the fields of the feed, in order. */
  function BodyFields(apts: seq<FeedAppointment>, stamp: string): seq<Field> {
    if apts == [] then FOOTER else EventFields(apts[0], stamp) + BodyFields(apts[1..], stamp)
  }

  lemma PrintAppend(a: seq<Field>, b: seq<Field>)
    ensures Print(a + b) == Print(a) + Print(b)
  {
  }

  lemma {:induction false} BodyJoins(apts: seq<FeedAppointment>, stamp: string)
    ensures Join(EventTexts(apts, stamp) + Print(FOOTER)) == Join(Print(BodyFields(apts, stamp)))
    decreases |apts|
  {
    if apts == [] {
      assert EventTexts(apts, stamp) + Print(FOOTER) == Print(FOOTER);
    } else {
      var first, rest := EventFields(apts[0], stamp), EventTexts(apts[1..], stamp) + Print(FOOTER);
      BodyJoins(apts[1..], stamp);
      EventTextsNext(apts, stamp);
      assert EventTexts(apts, stamp) + Print(FOOTER) == [EventText(apts[0], stamp)] + rest;
      JoinAppend([EventText(apts[0], stamp)], rest);
      PrintAppend(first, BodyFields(apts[1..], stamp));
      JoinAppend(Print(first), Print(BodyFields(apts[1..], stamp)));
    }
  }

  lemma FeedIsPrinted(apts: seq<FeedAppointment>, calName: string, stamp: string)
    ensures GenerateFeed(apts, calName, stamp) == Join(Print(HeaderFields(calName) + BodyFields(apts, stamp)))
  {
    var header, body := Print(HeaderFields(calName)), EventTexts(apts, stamp) + Print(FOOTER);
    assert header + EventTexts(apts, stamp) + Print(FOOTER) == header + body;
    JoinAppend(header, body);
    BodyJoins(apts, stamp);
    PrintAppend(HeaderFields(calName), BodyFields(apts, stamp));
    JoinAppend(header, Print(BodyFields(apts, stamp)));
  }

  predicate CleanAppointment(a: FeedAppointment) {
    NoLF(a.id) && NoLF(a.starts) && NoLF(a.ends)
  }

  function Entries(apts: seq<FeedAppointment>): seq<Entry> {
    Map(apts, a => EntryOf(a))
  }

  lemma EntriesNext(apts: seq<FeedAppointment>)
    requires apts != []
    ensures Entries(apts) == [EntryOf(apts[0])] + Entries(apts[1..])
  {
  }

  function EntryOf(a: FeedAppointment): Entry {
    Entry(a.id + "@pulse.app", a.starts, a.ends, a.service + " — " + a.client, "Provider: " + a.provider, "",
          if a.cancelled then "CANCELLED" else "CONFIRMED")
  }

  lemma PrefixedText(prefix: string, s: string)
    requires Plain(prefix)
    ensures prefix + Esc(s) == Esc(prefix + s) && Unescape(prefix + Esc(s)) == prefix + s
  {
    EscPlain(prefix);
    EscConcat(prefix, s);
    EscRoundTrip(prefix + s);
  }

  function WithEntries(r: Reader, more: seq<Entry>): Reader {
    r.(feed := r.feed.(entries := r.feed.entries + more))
  }

  lemma EventFieldsRead(r: Reader, uid: string, stamp: string, starts: string, ends: string, summary: string,
                        description: string, status: string)
    requires r.current == None
    ensures ReadFields(r, [Field(BEGIN, "VEVENT"), Field(UID, uid), Field(DTSTAMP, stamp)]
                          + [Field(DTSTART, starts), Field(DTEND, ends), Field(SUMMARY, summary)]
                          + [Field(DESCRIPTION, description), Field(STATUS, status), Field(END, "VEVENT")])
      == WithEntries(r, [Entry(uid, starts, ends, Unescape(summary), Unescape(description), "", status)])
  {
    var f1 := [Field(BEGIN, "VEVENT"), Field(UID, uid), Field(DTSTAMP, stamp)];
    var f2 := [Field(DTSTART, starts), Field(DTEND, ends), Field(SUMMARY, summary)];
    var f3 := [Field(DESCRIPTION, description), Field(STATUS, status), Field(END, "VEVENT")];
    FoldAppend(Step(), r, f1 + f2, f3);
    FoldAppend(Step(), r, f1, f2);
    FoldThree(Step(), r, f1[0], f1[1], f1[2]);
    var e1 := NOTHING.(uid := uid);
    var r1 := r.(current := Some(e1));
    assert ReadFields(r, f1) == r1;
    FoldThree(Step(), r1, f2[0], f2[1], f2[2]);
    var e2 := e1.(starts := starts, ends := ends, summary := Unescape(summary));
    var r2 := r.(current := Some(e2));
    assert ReadFields(r1, f2) == r2;
    FoldThree(Step(), r2, f3[0], f3[1], f3[2]);
  }

  lemma EventReads(r: Reader, a: FeedAppointment, stamp: string)
    requires r.current == None
    ensures ReadFields(r, EventFields(a, stamp)) == WithEntries(r, [EntryOf(a)])
  {
    EscRoundTrip(a.service + " — " + a.client);
    PrefixedText("Provider: ", a.provider);
    EventFieldsRead(r, a.id + "@pulse.app", stamp, a.starts, a.ends, Esc(a.service + " — " + a.client),
                    "Provider: " + Esc(a.provider), if a.cancelled then "CANCELLED" else "CONFIRMED");
  }

  lemma FooterReads(r: Reader)
    requires r.current == None
    ensures ReadFields(r, FOOTER) == r
  {
    assert FOOTER[1..] == [] && Step()(r, FOOTER[0]) == r;
  }

  lemma MoreEntries(r: Reader, first: Entry, rest: seq<Entry>)
    ensures WithEntries(WithEntries(r, [first]), rest) == WithEntries(r, [first] + rest)
    ensures WithEntries(r, []) == r
  {
    assert r.feed.entries + [first] + rest == r.feed.entries + ([first] + rest);
  }

  lemma {:induction false} BodyReads(r: Reader, apts: seq<FeedAppointment>, stamp: string)
    requires r.current == None
    ensures ReadFields(r, BodyFields(apts, stamp)) == WithEntries(r, Entries(apts))
    decreases |apts|
  {
    if apts == [] {
      FooterReads(r);
      assert Entries(apts) == [] && WithEntries(r, []) == r;
    } else {
      var a, rest := apts[0], apts[1..];
      FoldAppend(Step(), r, EventFields(a, stamp), BodyFields(rest, stamp));
      EventReads(r, a, stamp);
      BodyReads(WithEntries(r, [EntryOf(a)]), rest, stamp);
      EntriesNext(apts);
      MoreEntries(r, EntryOf(a), Entries(rest));
    }
  }

  lemma HeaderReads(calName: string)
    ensures ReadFields(EMPTY_READER, HeaderFields(calName)) == Reader(Feed(calName, []), None)
  {
    EscRoundTrip(calName);
    var f := HeaderFields(calName);
    FoldAppend(Step(), EMPTY_READER, f[..3] + f[3..6], f[6..]);
    FoldAppend(Step(), EMPTY_READER, f[..3], f[3..6]);
    FoldThree(Step(), EMPTY_READER, f[0], f[1], f[2]);
    assert f[..3] == [f[0], f[1], f[2]];
    assert ReadFields(EMPTY_READER, f[..3]) == EMPTY_READER;
    FoldThree(Step(), EMPTY_READER, f[3], f[4], f[5]);
    assert f[3..6] == [f[3], f[4], f[5]];
    var named := Reader(Feed(calName, []), None);
    assert ReadFields(EMPTY_READER, f[3..6]) == named;
    assert f[6..] == [f[6]] && f == f[..3] + f[3..6] + f[6..];
    assert Step()(named, f[6]) == named;
  }

  lemma NineFieldsPrintable(uid: string, stamp: string, starts: string, ends: string, summary: string,
                            description: string, status: string)
    requires NoLF(uid) && NoLF(stamp) && NoLF(starts) && NoLF(ends) && NoLF(summary) && NoLF(description) && NoLF(status)
    ensures Printable([Field(BEGIN, "VEVENT"), Field(UID, uid), Field(DTSTAMP, stamp)]
                      + [Field(DTSTART, starts), Field(DTEND, ends), Field(SUMMARY, summary)]
                      + [Field(DESCRIPTION, description), Field(STATUS, status), Field(END, "VEVENT")])
  {
    var f1 := [Field(BEGIN, "VEVENT"), Field(UID, uid), Field(DTSTAMP, stamp)];
    var f2 := [Field(DTSTART, starts), Field(DTEND, ends), Field(SUMMARY, summary)];
    var f3 := [Field(DESCRIPTION, description), Field(STATUS, status), Field(END, "VEVENT")];
    PrintableThree(f1[0], f1[1], f1[2]);
    PrintableThree(f2[0], f2[1], f2[2]);
    PrintableThree(f3[0], f3[1], f3[2]);
    PrintableAppend(f1, f2);
    PrintableAppend(f1 + f2, f3);
  }

  lemma EventPrintable(a: FeedAppointment, stamp: string)
    requires CleanAppointment(a) && NoLF(stamp)
    ensures Printable(EventFields(a, stamp))
  {
    EscNoLF(a.service + " — " + a.client);
    EscNoLF(a.provider);
    NineFieldsPrintable(a.id + "@pulse.app", stamp, a.starts, a.ends, Esc(a.service + " — " + a.client),
                        "Provider: " + Esc(a.provider), if a.cancelled then "CANCELLED" else "CONFIRMED");
  }

  lemma {:induction false} BodyPrintable(apts: seq<FeedAppointment>, stamp: string)
    requires NoLF(stamp) && forall i :: 0 <= i < |apts| ==> CleanAppointment(apts[i])
    ensures Printable(BodyFields(apts, stamp))
    decreases |apts|
  {
    if apts != [] {
      EventPrintable(apts[0], stamp);
      BodyPrintable(apts[1..], stamp);
    }
  }

  lemma HeaderPrintable(calName: string)
    ensures Printable(HeaderFields(calName))
  {
    EscNoLF(calName);
  }

  /** Reading the feed back gives the calendar name and every appointment's id, times,
      summary, provider and status, in order, whatever the names contain. */
  lemma FeedRoundTrip(apts: seq<FeedAppointment>, calName: string, stamp: string)
    requires NoLF(stamp) && forall i :: 0 <= i < |apts| ==> CleanAppointment(apts[i])
    ensures Read(GenerateFeed(apts, calName, stamp)) == Feed(calName, Entries(apts))
  {
    var header, body := HeaderFields(calName), BodyFields(apts, stamp);
    FeedIsPrinted(apts, calName, stamp);
    HeaderPrintable(calName);
    BodyPrintable(apts, stamp);
    PrintedTextReads(header + body);
    FoldAppend(Step(), EMPTY_READER, header, body);
    HeaderReads(calName);
    BodyReads(Reader(Feed(calName, []), None), apts, stamp);
    assert [] + Entries(apts) == Entries(apts);
  }

  // ---------- the invite ----------

  /** `minutes` is the service duration in digits; a missing text is None. */
  datatype Invitation = Invitation(id: string, starts: string, ends: string, service: string, minutes: string, provider: string,
                                   business: string, businessEmail: Option<string>, address: Option<string>,
                                   client: string, clientEmail: Option<string>, notes: Option<string>,
                                   mode: string, meetingUrl: Option<string>, customerAddress: Option<string>)

  function OrElse(s: Option<string>, otherwise: string): string {
    if s.Some? then s.value else otherwise
  }

  predicate Given(s: Option<string>) {
    s.Some? && s.value != ""
  }

  function LocationOf(a: Invitation): string {
    if a.mode == "VIRTUAL" then OrElse(a.meetingUrl, "Online video call")
    else if a.mode == "CUSTOMER" then OrElse(a.customerAddress, "")
    else if a.mode == "PHONE" then "Phone call"
    else OrElse(a.address, "")
  }

  function DescriptionLines(a: Invitation): seq<string> {
    ["Service: " + a.service + (" (" + a.minutes + " min)"), "Provider: " + a.provider]
    + (if a.mode == "VIRTUAL" && Given(a.meetingUrl) then ["Join: " + a.meetingUrl.value] else [])
    + (if Given(a.notes) then ["Notes: " + a.notes.value] else [])
  }

  function JoinWith(parts: seq<string>, separator: string): string {
    if parts == [] then "" else if |parts| == 1 then parts[0] else parts[0] + separator + JoinWith(parts[1..], separator)
  }

  predicate EscapedFrom(escaped: seq<string>, parts: seq<string>) {
    |escaped| == |parts| && forall i :: 0 <= i < |parts| ==> escaped[i] == Esc(parts[i])
  }

  /** Escaped lines joined by an escaped line feed are the escaped joined lines. */
  lemma {:induction false} EscJoinWith(escaped: seq<string>, parts: seq<string>)
    requires EscapedFrom(escaped, parts)
    ensures JoinWith(escaped, "\\n") == Esc(JoinWith(parts, "\n"))
  {
    if parts == [] {
      EscPlain("");
    } else if |parts| > 1 {
      EscJoinWith(escaped[1..], parts[1..]);
      EscOne('\n');
      EscConcat(parts[0], "\n");
      EscConcat(parts[0] + "\n", JoinWith(parts[1..], "\n"));
    }
  }

  lemma ServiceLine(service: string, minutes: string)
    requires Plain(minutes)
    ensures "Service: " + Esc(service) + (" (" + minutes + " min)") == Esc("Service: " + service + (" (" + minutes + " min)"))
  {
    PrefixedText("Service: ", service);
    EscPlain(" (" + minutes + " min)");
    EscConcat("Service: " + service, " (" + minutes + " min)");
  }

  lemma EscapedMore(escaped: seq<string>, parts: seq<string>, prefix: string, text: string)
    requires EscapedFrom(escaped, parts) && Plain(prefix)
    ensures EscapedFrom(escaped + [prefix + Esc(text)], parts + [prefix + text])
  {
    PrefixedText(prefix, text);
  }

  /** The `desc` list of the program: each piece escaped on its own. */
  method Describe(a: Invitation) returns (desc: string)
    requires Plain(a.minutes)
    ensures desc == Esc(JoinWith(DescriptionLines(a), "\n"))
  {
    var parts := ["Service: " + Esc(a.service) + (" (" + a.minutes + " min)")];
    ghost var raw := ["Service: " + a.service + (" (" + a.minutes + " min)")];
    ServiceLine(a.service, a.minutes);
    EscapedMore(parts, raw, "Provider: ", a.provider);
    parts, raw := parts + ["Provider: " + Esc(a.provider)], raw + ["Provider: " + a.provider];
    if a.mode == "VIRTUAL" && Given(a.meetingUrl) {
      EscapedMore(parts, raw, "Join: ", a.meetingUrl.value);
      parts, raw := parts + ["Join: " + Esc(a.meetingUrl.value)], raw + ["Join: " + a.meetingUrl.value];
    }
    if Given(a.notes) {
      EscapedMore(parts, raw, "Notes: ", a.notes.value);
      parts, raw := parts + ["Notes: " + Esc(a.notes.value)], raw + ["Notes: " + a.notes.value];
    }
    assert raw == DescriptionLines(a);
    EscJoinWith(parts, raw);
    desc := JoinWith(parts, "\\n");
  }

  function InviteEntry(a: Invitation): Entry {
    Entry(a.id + "@pulse.app", a.starts, a.ends, a.service + " at " + a.business, JoinWith(DescriptionLines(a), "\n"),
          LocationOf(a), "CONFIRMED")
  }

  /** A line the reader passes over. */
  predicate Ignored(line: string) {
    AtMargin(line) && PropertyOf(NameOf(line)) == None
  }

  lemma {:induction false} IgnoredLines(r: Reader, lines: seq<string>)
    requires forall i :: 0 <= i < |lines| ==> Ignored(lines[i])
    ensures ReadLines(r, lines) == r
  {
    if lines != [] {
      assert LineStep()(r, lines[0]) == ReadLine(r, lines[0]) == r;
      IgnoredLines(r, lines[1..]);
    }
  }

  lemma PersonIgnored(property: string, parameters: string)
    requires property == "ORGANIZER" || property == "ATTENDEE"
    requires NoLF(parameters)
    ensures Ignored(property + ";" + parameters)
  {
    NameStops(property, ';', parameters);
    assert property + [';'] + parameters == property + ";" + parameters;
  }

  function IsOther(): string -> bool {
    (line: string) => PropertyOf(NameOf(line)) == None
  }

  /** The lines of a text that the reader passes over, as they are. */
  function OtherLines(text: string): seq<string> {
    Filter(Split(Unfold(text)), IsOther())
  }

  lemma FieldsAreNotOther(fields: seq<Field>)
    ensures Filter(Print(fields), IsOther()) == []
  {
    forall line | line in Print(fields)
      ensures !IsOther()(line)
    {
      var i :| 0 <= i < |fields| && Print(fields)[i] == line;
      NamesAreDistinct(fields[i].name);
      NamesAreNames(fields[i].name);
      LineReads(NameText(fields[i].name), fields[i].value);
    }
    FilterNone(Print(fields), IsOther());
  }

  lemma MixedTextSplits(head: seq<Field>, between: seq<string>, tail: seq<Field>)
    requires Printable(head) && Printable(tail) && head != []
    requires forall i :: 0 <= i < |between| ==> Ignored(between[i])
    ensures var lines := Print(head) + between + Print(tail);
      Split(Unfold(Join(lines))) == lines
  {
    var lines := Print(head) + between + Print(tail);
    PrintedAtMargin(head);
    PrintedAtMargin(tail);
    UnfoldJoin(lines);
    SplitJoin(lines);
  }

  lemma MixedTextOthers(head: seq<Field>, between: seq<string>, tail: seq<Field>)
    requires Printable(head) && Printable(tail) && head != []
    requires forall i :: 0 <= i < |between| ==> Ignored(between[i])
    ensures OtherLines(Join(Print(head) + between + Print(tail))) == between
  {
    MixedTextSplits(head, between, tail);
    FieldsAreNotOther(head);
    FieldsAreNotOther(tail);
    FilterAll(between, IsOther());
    FilterBetween(Print(head), between, Print(tail), IsOther());
  }

  /** Lines printed from fields around lines to pass over. */
  lemma MixedTextReads(head: seq<Field>, between: seq<string>, tail: seq<Field>)
    requires Printable(head) && Printable(tail) && head != []
    requires forall i :: 0 <= i < |between| ==> Ignored(between[i])
    ensures Read(Join(Print(head) + between + Print(tail))) == ReadFields(EMPTY_READER, head + tail).feed
  {
    MixedTextSplits(head, between, tail);
    FoldAppend(LineStep(), EMPTY_READER, Print(head) + between, Print(tail));
    FoldAppend(LineStep(), EMPTY_READER, Print(head), between);
    PrintedFieldsRead(EMPTY_READER, head);
    IgnoredLines(ReadFields(EMPTY_READER, head), between);
    PrintedFieldsRead(ReadFields(EMPTY_READER, head), tail);
    FoldAppend(Step(), EMPTY_READER, head, tail);
  }

  const INVITE_HEADER := [Field(BEGIN, "VCALENDAR"), Field(VERSION, "2.0"), Field(PRODID, "-//Pulse//Appointments//EN")]
    + [Field(CALSCALE, "GREGORIAN"), Field(METHOD, "REQUEST"), Field(BEGIN, "VEVENT")]

  function InviteFields(uid: string, stamp: string, starts: string, ends: string, summary: string, description: string): seq<Field> {
    INVITE_HEADER + [Field(UID, uid), Field(DTSTAMP, stamp), Field(DTSTART, starts)]
    + [Field(DTEND, ends), Field(SUMMARY, summary), Field(DESCRIPTION, description)]
  }

  const INVITE_FOOTER := [Field(STATUS, "CONFIRMED"), Field(SEQUENCE, "0"), Field(END, "VEVENT")] + [Field(END, "VCALENDAR")]

  lemma InviteHeaderReads()
    ensures ReadFields(EMPTY_READER, INVITE_HEADER) == EMPTY_READER.(current := Some(NOTHING))
  {
    var f1 := [Field(BEGIN, "VCALENDAR"), Field(VERSION, "2.0"), Field(PRODID, "-//Pulse//Appointments//EN")];
    var f2 := [Field(CALSCALE, "GREGORIAN"), Field(METHOD, "REQUEST"), Field(BEGIN, "VEVENT")];
    FoldAppend(Step(), EMPTY_READER, f1, f2);
    FoldThree(Step(), EMPTY_READER, f1[0], f1[1], f1[2]);
    FoldThree(Step(), EMPTY_READER, f2[0], f2[1], f2[2]);
  }

  lemma InviteFieldsRead(uid: string, stamp: string, starts: string, ends: string, summary: string, description: string)
    ensures ReadFields(EMPTY_READER, InviteFields(uid, stamp, starts, ends, summary, description))
      == EMPTY_READER.(current := Some(Entry(uid, starts, ends, Unescape(summary), Unescape(description), "", "")))
  {
    var f1 := [Field(UID, uid), Field(DTSTAMP, stamp), Field(DTSTART, starts)];
    var f2 := [Field(DTEND, ends), Field(SUMMARY, summary), Field(DESCRIPTION, description)];
    FoldAppend(Step(), EMPTY_READER, INVITE_HEADER + f1, f2);
    FoldAppend(Step(), EMPTY_READER, INVITE_HEADER, f1);
    InviteHeaderReads();
    FirstFieldsRead(uid, stamp, starts);
    LastFieldsRead(NOTHING.(uid := uid, starts := starts), ends, summary, description);
  }

  lemma FirstFieldsRead(uid: string, stamp: string, starts: string)
    ensures ReadFields(EMPTY_READER.(current := Some(NOTHING)), [Field(UID, uid), Field(DTSTAMP, stamp), Field(DTSTART, starts)])
      == EMPTY_READER.(current := Some(NOTHING.(uid := uid, starts := starts)))
  {
    FoldThree(Step(), EMPTY_READER.(current := Some(NOTHING)), Field(UID, uid), Field(DTSTAMP, stamp), Field(DTSTART, starts));
  }

  lemma LastFieldsRead(e: Entry, ends: string, summary: string, description: string)
    ensures ReadFields(EMPTY_READER.(current := Some(e)), [Field(DTEND, ends), Field(SUMMARY, summary), Field(DESCRIPTION, description)])
      == EMPTY_READER.(current := Some(e.(ends := ends, summary := Unescape(summary), description := Unescape(description))))
  {
    FoldThree(Step(), EMPTY_READER.(current := Some(e)), Field(DTEND, ends), Field(SUMMARY, summary), Field(DESCRIPTION, description));
  }

  lemma InviteFooterReads(e: Entry)
    ensures ReadFields(EMPTY_READER.(current := Some(e)), INVITE_FOOTER).feed == Feed("", [e.(status := "CONFIRMED")])
  {
    var f := [Field(STATUS, "CONFIRMED"), Field(SEQUENCE, "0"), Field(END, "VEVENT")];
    var r := EMPTY_READER.(current := Some(e));
    FoldAppend(Step(), r, f, [Field(END, "VCALENDAR")]);
    FoldThree(Step(), r, f[0], f[1], f[2]);
    FooterReads(Reader(Feed("", [e.(status := "CONFIRMED")]), None));
  }

  predicate CleanInvitation(a: Invitation) {
    && NoLF(a.id) && NoLF(a.starts) && NoLF(a.ends) && Plain(a.minutes)
    && (a.businessEmail.Some? ==> NoLF(a.businessEmail.value))
    && (a.clientEmail.Some? ==> NoLF(a.clientEmail.value))
  }

  /** The fields that are read back, with or without a location. */
  function LocationFields(location: string): seq<Field> {
    if location == "" then [] else [Field(LOCATION, Esc(location))]
  }

  lemma InviteReads(a: Invitation, stamp: string)
    ensures ReadFields(EMPTY_READER,
              InviteFields(a.id + "@pulse.app", stamp, a.starts, a.ends, Esc(a.service + " at " + a.business),
                           Esc(JoinWith(DescriptionLines(a), "\n"))) + LocationFields(LocationOf(a)) + INVITE_FOOTER).feed
      == Feed("", [InviteEntry(a)])
  {
    var summary, description, location := a.service + " at " + a.business, JoinWith(DescriptionLines(a), "\n"), LocationOf(a);
    var fields := InviteFields(a.id + "@pulse.app", stamp, a.starts, a.ends, Esc(summary), Esc(description));
    var extra := LocationFields(location);
    EscRoundTrip(summary);
    EscRoundTrip(description);
    EscRoundTrip(location);
    FoldAppend(Step(), EMPTY_READER, fields + extra, INVITE_FOOTER);
    FoldAppend(Step(), EMPTY_READER, fields, extra);
    InviteFieldsRead(a.id + "@pulse.app", stamp, a.starts, a.ends, Esc(summary), Esc(description));
    var e := InviteEntry(a).(status := "");
    LocationReads(e.(location := ""), location);
    InviteFooterReads(e);
  }

  lemma LocationReads(e: Entry, location: string)
    requires e.location == ""
    ensures ReadFields(EMPTY_READER.(current := Some(e)), LocationFields(location)) == EMPTY_READER.(current := Some(e.(location := location)))
  {
    EscRoundTrip(location);
    var r := EMPTY_READER.(current := Some(e));
    if location == "" {
      assert e.(location := location) == e;
      assert ReadFields(r, LocationFields(location)) == r;
    } else {
      var f := Field(LOCATION, Esc(location));
      assert LocationFields(location) == [f] && [f][1..] == [];
      assert Step()(r, f) == ReadField(r, LOCATION, Esc(location));
      assert Fold(Step(), r, [f]) == Step()(r, f);
    }
  }

  /** A person is named in a quoted parameter; what follows ends in the address. */
  function PersonLine(property: string, name: string, after: string): string {
    property + ";" + ("CN=" + "\"" + Esc(name) + "\"" + after)
  }

  function Organizer(a: Invitation): seq<string> {
    if Given(a.businessEmail) then [PersonLine("ORGANIZER", a.business, ":mailto:" + a.businessEmail.value)] else []
  }

  function Attendee(a: Invitation): seq<string> {
    if Given(a.clientEmail)
    then [PersonLine("ATTENDEE", a.client, ";ROLE=REQ-PARTICIPANT;RSVP=TRUE" + ":mailto:" + a.clientEmail.value)]
    else []
  }

  lemma PeopleIgnored(a: Invitation)
    requires CleanInvitation(a)
    ensures forall i :: 0 <= i < |Organizer(a) + Attendee(a)| ==> Ignored((Organizer(a) + Attendee(a))[i])
  {
    if Given(a.businessEmail) {
      EscNoLF(a.business);
      PersonIgnored("ORGANIZER", "CN=" + "\"" + Esc(a.business) + "\"" + (":mailto:" + a.businessEmail.value));
    }
    if Given(a.clientEmail) {
      EscNoLF(a.client);
      PersonIgnored("ATTENDEE", "CN=" + "\"" + Esc(a.client) + "\"" + (";ROLE=REQ-PARTICIPANT;RSVP=TRUE" + ":mailto:" + a.clientEmail.value));
    }
  }

  lemma InvitePrintable(a: Invitation, stamp: string, description: string)
    requires CleanInvitation(a) && NoLF(stamp) && NoLF(description)
    ensures Printable(InviteTop(a, stamp, description))
  {
    EscNoLF(a.service + " at " + a.business);
    EscNoLF(LocationOf(a));
    FieldsPrintable(a.id + "@pulse.app", stamp, a.starts, a.ends, Esc(a.service + " at " + a.business), description);
  }

  lemma FieldsPrintable(uid: string, stamp: string, starts: string, ends: string, summary: string, description: string)
    requires NoLF(uid) && NoLF(stamp) && NoLF(starts) && NoLF(ends) && NoLF(summary) && NoLF(description)
    ensures Printable(InviteFields(uid, stamp, starts, ends, summary, description))
  {
    var f1 := [Field(UID, uid), Field(DTSTAMP, stamp), Field(DTSTART, starts)];
    var f2 := [Field(DTEND, ends), Field(SUMMARY, summary), Field(DESCRIPTION, description)];
    InviteHeaderPrintable();
    PrintableThree(f1[0], f1[1], f1[2]);
    PrintableThree(f2[0], f2[1], f2[2]);
    PrintableAppend(INVITE_HEADER, f1);
    PrintableAppend(INVITE_HEADER + f1, f2);
  }

  lemma InviteHeaderPrintable()
    ensures Printable(INVITE_HEADER)
  {
    var f1 := [Field(BEGIN, "VCALENDAR"), Field(VERSION, "2.0"), Field(PRODID, "-//Pulse//Appointments//EN")];
    var f2 := [Field(CALSCALE, "GREGORIAN"), Field(METHOD, "REQUEST"), Field(BEGIN, "VEVENT")];
    PrintableThree(f1[0], f1[1], f1[2]);
    PrintableThree(f2[0], f2[1], f2[2]);
    PrintableAppend(f1, f2);
  }

  /** Everything above the people: the fields the reader takes over. */
  function InviteTop(a: Invitation, stamp: string, desc: string): seq<Field> {
    InviteFields(a.id + "@pulse.app", stamp, a.starts, a.ends, Esc(a.service + " at " + a.business), desc)
    + LocationFields(LocationOf(a))
  }

  lemma LocationLine(location: string)
    ensures Print(LocationFields(location)) == if location == "" then [] else [Line("LOCATION", Esc(location))]
  {
  }

  /** The `lines` list of the program, grown one push after the other. */
  method CollectLines(a: Invitation, stamp: string, desc: string) returns (lines: seq<string>)
    ensures lines == Print(InviteTop(a, stamp, desc)) + (Organizer(a) + Attendee(a)) + Print(INVITE_FOOTER)
  {
    var location := LocationOf(a);
    var fields := InviteFields(a.id + "@pulse.app", stamp, a.starts, a.ends, Esc(a.service + " at " + a.business), desc);
    lines := Print(fields);
    LocationLine(location);
    PrintAppend(fields, LocationFields(location));
    if location != "" {
      lines := lines + [Line("LOCATION", Esc(location))];
    }
    ghost var top := lines;
    lines := lines + Organizer(a);
    lines := lines + Attendee(a);
    assert lines == top + (Organizer(a) + Attendee(a));
    lines := lines + Print(INVITE_FOOTER);
  }

  /** The text of the invite. */
  function InviteText(a: Invitation, stamp: string): string {
    Join(Print(InviteTop(a, stamp, Esc(JoinWith(DescriptionLines(a), "\n")))) + (Organizer(a) + Attendee(a)) + Print(INVITE_FOOTER))
  }

  /** `generateICalEvent`.  Read back, the invite is one event with its summary,
      description and location as they were typed, and two lines about people. */
  method GenerateICalEvent(a: Invitation, stamp: string) returns (text: string)
    requires CleanInvitation(a) && NoLF(stamp)
    ensures Read(text) == Feed("", [InviteEntry(a)])
    ensures OtherLines(text) == Organizer(a) + Attendee(a) && text == InviteText(a, stamp)
  {
    var desc := Describe(a);
    var lines := CollectLines(a, stamp, desc);
    EscNoLF(JoinWith(DescriptionLines(a), "\n"));
    InvitePrintable(a, stamp, desc);
    PeopleIgnored(a);
    FooterPrintable();
    TopReads(a, stamp, desc);
    MixedTextOthers(InviteTop(a, stamp, desc), Organizer(a) + Attendee(a), INVITE_FOOTER);
    text := Join(lines);
  }

  lemma FooterPrintable()
    ensures Printable(INVITE_FOOTER)
  {
  }

  lemma TopReads(a: Invitation, stamp: string, desc: string)
    requires CleanInvitation(a) && desc == Esc(JoinWith(DescriptionLines(a), "\n"))
    requires Printable(InviteTop(a, stamp, desc)) && Printable(INVITE_FOOTER)
    requires forall i :: 0 <= i < |Organizer(a) + Attendee(a)| ==> Ignored((Organizer(a) + Attendee(a))[i])
    ensures Read(Join(Print(InviteTop(a, stamp, desc)) + (Organizer(a) + Attendee(a)) + Print(INVITE_FOOTER))) == Feed("", [InviteEntry(a)])
  {
    MixedTextReads(InviteTop(a, stamp, desc), Organizer(a) + Attendee(a), INVITE_FOOTER);
    InviteReads(a, stamp);
  }
}
