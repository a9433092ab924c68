/** The two lines of an invite that name people: what a reader of quoted parameters
    (RFC 5545 section 3.2) makes of them.  TEXT escapes are not interpreted there. */
module ICalPeople {
  import opened ICal

  function UpTo(s: string, stop: char): string {
    if s == "" || s[0] == stop then "" else [s[0]] + UpTo(s[1..], stop)
  }

  function After(s: string, stop: char): string {
    if s == "" then "" else if s[0] == stop then s[1..] else After(s[1..], stop)
  }

  /** The first quoted string of a line. */
  function QuotedOf(line: string): string {
    UpTo(After(line, '"'), '"')
  }

  /** What follows the first colon outside quotes: the value of the line. */
  function AfterColon(s: string, quoted: bool): string {
    if s == "" then ""
    else if s[0] == ':' && !quoted then s[1..]
    else AfterColon(s[1..], if s[0] == '"' then !quoted else quoted)
  }

  lemma {:induction false} AfterSkips(s: string, stop: char, rest: string)
    requires stop !in s
    ensures After(s + [stop] + rest, stop) == rest
  {
    var t := s + [stop] + rest;
    if s == "" {
      assert t[1..] == rest;
    } else {
      assert t[1..] == s[1..] + [stop] + rest;
      AfterSkips(s[1..], stop, rest);
    }
  }

  lemma {:induction false} UpToStops(s: string, stop: char, rest: string)
    ensures stop !in s ==> UpTo(s + [stop] + rest, stop) == s
    ensures stop in s ==> UpTo(s + [stop] + rest, stop) != s
  {
    var t := s + [stop] + rest;
    if s != "" {
      assert t[1..] == s[1..] + [stop] + rest;
      UpToStops(s[1..], stop, rest);
      if stop in s && s[0] != stop {
        assert stop in s[1..];
        assert UpTo(t, stop)[1..] == UpTo(t[1..], stop);
      }
    }
  }

  lemma {:induction false} UpToHasNone(s: string, stop: char)
    ensures stop !in UpTo(s, stop)
  {
    if s != "" {
      UpToHasNone(s[1..], stop);
    }
  }

  /** Reading s leaves the quotes closed at its end and meets no colon outside them: from
      inside quotes if `quoted`, and then seen from the quote that follows s. */
  predicate Closes(s: string, quoted: bool) {
    if s == "" then quoted
    else if s[0] == ':' && !quoted then false
    else Closes(s[1..], if s[0] == '"' then !quoted else quoted)
  }

  lemma {:induction false} ColonSkips(s: string, rest: string, quoted: bool)
    requires '"' !in s && (quoted || ':' !in s)
    ensures AfterColon(s + rest, quoted) == AfterColon(rest, quoted)
  {
    if s == "" {
      assert s + rest == rest;
    } else {
      assert (s + rest)[1..] == s[1..] + rest;
      ColonSkips(s[1..], rest, quoted);
    }
  }

  lemma {:induction false} EscapingShows(s: string)
    ensures |EscapeEach(s)| >= |s|
    ensures |EscapeEach(s)| == |s| ==> Plain(s)
    ensures '"' in EscapeEach(s) <==> '"' in s
  {
    if s != "" {
      EscapingShows(s[1..]);
      assert s == [s[0]] + s[1..];
    }
  }

  /** The parts of a person line around its quotes. */
  lemma PersonLineParts(property: string, name: string, after: string)
    requires '"' !in property && ':' !in property
    ensures var before := property + ";" + "CN=";
      && PersonLine(property, name, after) == before + (['"'] + (Esc(name) + (['"'] + after)))
      && '"' !in before && ':' !in before
  {
  }

  /** The name is read as it was typed exactly if it has no backslash, comma, semicolon,
      line feed or double quote. */
  lemma NameReadsExactly(property: string, name: string, after: string)
    requires '"' !in property && ':' !in property
    ensures QuotedOf(PersonLine(property, name, after)) == name <==> Plain(name) && '"' !in name
  {
    var before := property + ";" + "CN=";
    var rest := Esc(name) + (['"'] + after);
    PersonLineParts(property, name, after);
    FourPassesAreOne(name);
    EscapingShows(name);
    assert before + (['"'] + rest) == before + ['"'] + rest;
    AfterSkips(before, '"', rest);
    assert rest == Esc(name) + ['"'] + after;
    UpToStops(Esc(name), '"', after);
    UpToHasNone(rest, '"');
    if Plain(name) {
      EscPlain(name);
    }
  }

  lemma Toggle(rest: string, quoted: bool)
    ensures AfterColon(['"'] + rest, quoted) == AfterColon(rest, !quoted)
  {
    assert (['"'] + rest)[1..] == rest;
  }

  /** Escaping adds neither quotes nor colons. */
  lemma {:induction false} EscapingKeepsCloses(s: string, quoted: bool)
    ensures Closes(EscapeEach(s), quoted) <==> Closes(s, quoted)
  {
    if s != "" {
      var e, rest := EscapeChar(s[0]), EscapeEach(s[1..]);
      EscapingKeepsCloses(s[1..], if s[0] == '"' then !quoted else quoted);
      if |e| == 2 {
        assert (e + rest)[1..] == [e[1]] + rest && ([e[1]] + rest)[1..] == rest;
      } else {
        assert (e + rest)[1..] == rest;
      }
    }
  }

  lemma {:induction false} AfterColonShortens(s: string, quoted: bool)
    ensures |AfterColon(s, quoted)| <= |s|
    ensures s != "" ==> |AfterColon(s, quoted)| < |s|
  {
    if s != "" {
      AfterColonShortens(s[1..], if s[0] == '"' then !quoted else quoted);
    }
  }

  /** What follows the closing quote of a person line. */
  function Tail(parameters: string, value: string): string {
    ['"'] + (parameters + ([':'] + value))
  }

  lemma TailReads(parameters: string, value: string)
    requires '"' !in parameters && ':' !in parameters
    ensures AfterColon(Tail(parameters, value), true) == value
    ensures '"' !in value ==> AfterColon(Tail(parameters, value), false) == ""
    ensures value != "" ==> AfterColon(Tail(parameters, value), false) != value
  {
    Toggle(parameters + ([':'] + value), true);
    Toggle(parameters + ([':'] + value), false);
    ColonSkips(parameters, [':'] + value, false);
    ColonSkips(parameters, [':'] + value, true);
    assert ([':'] + value)[1..] == value;
    AfterColonShortens(value, true);
    if '"' !in value {
      NothingOutside(value);
    }
  }

  /** Scanning a name inside the quotes: the value is found exactly if the name closes. */
  lemma {:induction false} ScanExactly(name: string, quoted: bool, parameters: string, value: string)
    requires '"' !in parameters && ':' !in parameters && value != ""
    ensures AfterColon(name + Tail(parameters, value), quoted) == value <==> Closes(name, quoted)
  {
    var s := name + Tail(parameters, value);
    if name == "" {
      assert s == Tail(parameters, value);
      TailReads(parameters, value);
    } else {
      assert s[1..] == name[1..] + Tail(parameters, value);
      if s[0] == ':' && !quoted {
        assert |s[1..]| > |value|;
      } else {
        ScanExactly(name[1..], if name[0] == '"' then !quoted else quoted, parameters, value);
      }
    }
  }

  /** The address is read exactly if the name's own double quotes pair up with no colon
      between the quotes of the line. */
  lemma AddressReadsExactly(property: string, name: string, parameters: string, value: string)
    requires '"' !in property && ':' !in property && '"' !in parameters && ':' !in parameters && value != ""
    ensures AfterColon(PersonLine(property, name, parameters + ":" + value), false) == value <==> Closes(name, true)
  {
    var before := property + ";" + "CN=";
    assert parameters + ":" + value == parameters + ([':'] + value);
    PersonLineParts(property, name, parameters + ":" + value);
    ColonSkips(before, ['"'] + (Esc(name) + Tail(parameters, value)), false);
    Toggle(Esc(name) + Tail(parameters, value), false);
    ScanExactly(Esc(name), true, parameters, value);
    FourPassesAreOne(name);
    EscapingKeepsCloses(name, true);
  }

  lemma {:induction false} UnquotedCloses(name: string)
    requires '"' !in name
    ensures Closes(name, true) && Closes(name, false) == false
  {
    if name != "" {
      UnquotedCloses(name[1..]);
    }
  }

  lemma {:induction false} NothingOutside(s: string)
    requires '"' !in s
    ensures AfterColon(s, true) == ""
  {
    if s != "" {
      NothingOutside(s[1..]);
    }
  }

  /** Whatever else a name contains, without a double quote it cannot hide the address. */
  lemma AddressReads(property: string, name: string, parameters: string, value: string)
    requires '"' !in property && ':' !in property && '"' !in parameters && ':' !in parameters && value != ""
    requires '"' !in name
    ensures AfterColon(PersonLine(property, name, parameters + ":" + value), false) == value
  {
    UnquotedCloses(name);
    AddressReadsExactly(property, name, parameters, value);
  }

  lemma {:induction false} ClosesSkips(s: string, rest: string, quoted: bool)
    requires '"' !in s && (quoted || ':' !in s)
    ensures Closes(s + rest, quoted) <==> Closes(rest, quoted)
  {
    if s == "" {
      assert s + rest == rest;
    } else {
      assert (s + rest)[1..] == s[1..] + rest;
      ClosesSkips(s[1..], rest, quoted);
    }
  }

  lemma ClosesToggles(rest: string, quoted: bool)
    ensures Closes(['"'] + rest, quoted) <==> Closes(rest, !quoted)
  {
    assert (['"'] + rest)[1..] == rest;
  }

  /** A name with one double quote hides the address. */
  lemma OneQuoteHidesTheAddress(property: string, x: string, y: string, parameters: string, value: string)
    requires '"' !in property && ':' !in property && '"' !in parameters && ':' !in parameters && value != ""
    requires '"' !in x && '"' !in y
    ensures AfterColon(PersonLine(property, x + (['"'] + y), parameters + ":" + value), false) != value
  {
    ClosesSkips(x, ['"'] + y, true);
    ClosesToggles(y, true);
    UnquotedCloses(y);
    AddressReadsExactly(property, x + (['"'] + y), parameters, value);
  }

  /** So does a colon after the first of any number of quotes. */
  lemma AColonOutsideHidesTheAddress(property: string, x: string, y: string, z: string, parameters: string, value: string)
    requires '"' !in property && ':' !in property && '"' !in parameters && ':' !in parameters && value != ""
    requires '"' !in x && '"' !in y && ':' !in y
    ensures AfterColon(PersonLine(property, x + (['"'] + (y + ([':'] + z))), parameters + ":" + value), false) != value
  {
    ClosesSkips(x, ['"'] + (y + ([':'] + z)), true);
    ClosesToggles(y + ([':'] + z), true);
    ClosesSkips(y, [':'] + z, false);
    AddressReadsExactly(property, x + (['"'] + (y + ([':'] + z))), parameters, value);
  }

  /** A pair of quotes around anything without a colon does no harm to the address. */
  lemma PairedQuotesRead(property: string, x: string, y: string, z: string, parameters: string, value: string)
    requires '"' !in property && ':' !in property && '"' !in parameters && ':' !in parameters && value != ""
    requires '"' !in x && '"' !in y && ':' !in y && '"' !in z
    ensures AfterColon(PersonLine(property, x + (['"'] + (y + (['"'] + z))), parameters + ":" + value), false) == value
  {
    ClosesSkips(x, ['"'] + (y + (['"'] + z)), true);
    ClosesToggles(y + (['"'] + z), true);
    ClosesSkips(y, ['"'] + z, false);
    ClosesToggles(z, false);
    UnquotedCloses(z);
    AddressReadsExactly(property, x + (['"'] + (y + (['"'] + z))), parameters, value);
  }

  /** `O"Neil` and `O"A:B"` hide `mailto:x`. */
  lemma TwoNamesThatHideTheAddress()
    ensures AfterColon(PersonLine("ORGANIZER", "O" + (['"'] + "Neil"), "" + ":" + "mailto:x"), false) != "mailto:x"
    ensures AfterColon(PersonLine("ORGANIZER", "O" + (['"'] + ("A" + ([':'] + "B\""))), "" + ":" + "mailto:x"), false) != "mailto:x"
  {
    OneQuoteHidesTheAddress("ORGANIZER", "O", "Neil", "", "mailto:x");
    AColonOutsideHidesTheAddress("ORGANIZER", "O", "A", "B\"", "", "mailto:x");
  }
}
