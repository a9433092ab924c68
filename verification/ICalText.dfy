/** The calendar files line by line, as they leave the server: the exact text of the feed
    and of the invite, and what the invite says where, when and with whom. */
module ICalText {
  import opened Prelude
  import opened ICal

  // ---------- the feed ----------

  function FeedTop(calName: string): seq<string> {
    [Line("BEGIN", "VCALENDAR"), Line("VERSION", "2.0"), Line("PRODID", "-//Pulse//Feed//EN"), Line("CALSCALE", "GREGORIAN"), Line("METHOD", "PUBLISH"),
     Line("X-WR-CALNAME", EscapeEach(calName)), Line("X-WR-TIMEZONE", "UTC")]
  }

  function FeedEvent(a: FeedAppointment, stamp: string): seq<string> {
    [Line("BEGIN", "VEVENT"), Line("UID", a.id + "@pulse.app"), Line("DTSTAMP", stamp), Line("DTSTART", a.starts), Line("DTEND", a.ends),
     Line("SUMMARY", EscapeEach(a.service + " — " + a.client)), Line("DESCRIPTION", "Provider: " + EscapeEach(a.provider)),
     Line("STATUS", if a.cancelled then "CANCELLED" else "CONFIRMED"), Line("END", "VEVENT")]
  }

  /** Nine lines for each appointment, in order, inside one calendar. */
  function FeedEvents(apts: seq<FeedAppointment>, stamp: string): seq<string> {
    if apts == [] then [] else FeedEvent(apts[0], stamp) + FeedEvents(apts[1..], stamp)
  }

  function FeedLines(apts: seq<FeedAppointment>, calName: string, stamp: string): seq<string> {
    FeedTop(calName) + FeedEvents(apts, stamp) + [Line("END", "VCALENDAR")]
  }

  lemma TopIsPrinted(calName: string)
    ensures Print(HeaderFields(calName)) == FeedTop(calName)
  {
    FourPassesAreOne(calName);
  }

  lemma EventIsPrinted(a: FeedAppointment, stamp: string)
    ensures Print(EventFields(a, stamp)) == FeedEvent(a, stamp)
  {
    FourPassesAreOne(a.service + " — " + a.client);
    FourPassesAreOne(a.provider);
  }

  lemma {:induction false} BodyIsPrinted(apts: seq<FeedAppointment>, stamp: string)
    ensures Print(BodyFields(apts, stamp)) == FeedEvents(apts, stamp) + [Line("END", "VCALENDAR")]
  {
    if apts != [] {
      BodyIsPrinted(apts[1..], stamp);
      EventIsPrinted(apts[0], stamp);
      PrintAppend(EventFields(apts[0], stamp), BodyFields(apts[1..], stamp));
    }
  }

  /** The whole feed, for every list of appointments. */
  lemma FeedIsTheseLines(apts: seq<FeedAppointment>, calName: string, stamp: string)
    ensures GenerateFeed(apts, calName, stamp) == Join(FeedLines(apts, calName, stamp))
  {
    FeedIsPrinted(apts, calName, stamp);
    PrintAppend(HeaderFields(calName), BodyFields(apts, stamp));
    TopIsPrinted(calName);
    BodyIsPrinted(apts, stamp);
    assert FeedTop(calName) + (FeedEvents(apts, stamp) + [Line("END", "VCALENDAR")]) == FeedLines(apts, calName, stamp);
  }

  // ---------- the invite ----------

  /** Where the appointment takes place: the link of a call, the client's address, the
      telephone, or the business. */
  ghost predicate IsPlace(a: Invitation, place: string) {
    && (a.mode == "VIRTUAL" ==> if a.meetingUrl == None then place == "Online video call" else a.meetingUrl == Some(place))
    && (a.mode == "CUSTOMER" ==> if a.customerAddress == None then place == "" else a.customerAddress == Some(place))
    && (a.mode == "PHONE" ==> place == "Phone call")
    && (a.mode !in {"VIRTUAL", "CUSTOMER", "PHONE"} ==> if a.address == None then place == "" else a.address == Some(place))
  }

  predicate Missing(text: Option<string>) {
    text == None || text.value == ""
  }

  /** The description before escaping: two lines or up to four. */
  function PlainDescription(a: Invitation): string {
    var two := "Service: " + a.service + (" (" + a.minutes + " min)") + "\n" + ("Provider: " + a.provider);
    var three := if a.mode != "VIRTUAL" || Missing(a.meetingUrl) then two else two + ("\n" + ("Join: " + a.meetingUrl.value));
    if Missing(a.notes) then three else three + ("\n" + ("Notes: " + a.notes.value))
  }

  function InviteTopLines(a: Invitation, stamp: string): seq<string> {
    [Line("BEGIN", "VCALENDAR"), Line("VERSION", "2.0"), Line("PRODID", "-//Pulse//Appointments//EN"), Line("CALSCALE", "GREGORIAN"),
     Line("METHOD", "REQUEST"), Line("BEGIN", "VEVENT"),
     Line("UID", a.id + "@pulse.app"), Line("DTSTAMP", stamp), Line("DTSTART", a.starts), Line("DTEND", a.ends),
     Line("SUMMARY", EscapeEach(a.service + " at " + a.business)), Line("DESCRIPTION", EscapeEach(PlainDescription(a)))]
  }

  function PlaceLines(place: string): seq<string> {
    if place == "" then [] else [Line("LOCATION", EscapeEach(place))]
  }

  /** A line about a person, if there is an address. */
  function PersonLines(property: string, name: string, before: string, email: Option<string>): seq<string> {
    match email
    case None => []
    case Some(address) => if address == "" then [] else [property + ";" + ("CN=" + "\"" + EscapeEach(name) + "\"" + (before + ":mailto:" + address))]
  }

  function InviteLines(a: Invitation, stamp: string, place: string): seq<string> {
    InviteTopLines(a, stamp) + PlaceLines(place)
    + PersonLines("ORGANIZER", a.business, "", a.businessEmail)
    + PersonLines("ATTENDEE", a.client, ";ROLE=REQ-PARTICIPANT;RSVP=TRUE", a.clientEmail)
    + [Line("STATUS", "CONFIRMED"), Line("SEQUENCE", "0"), Line("END", "VEVENT"), Line("END", "VCALENDAR")]
  }

  lemma {:induction false} JoinOneMore(parts: seq<string>, last: string)
    requires parts != []
    ensures JoinWith(parts + [last], "\n") == JoinWith(parts, "\n") + ("\n" + last)
  {
    if |parts| == 1 {
      assert (parts + [last])[1..] == [last];
    } else {
      assert (parts + [last])[1..] == parts[1..] + [last];
      JoinOneMore(parts[1..], last);
    }
  }

  lemma DescriptionIs(a: Invitation)
    ensures JoinWith(DescriptionLines(a), "\n") == PlainDescription(a)
  {
    var two := ["Service: " + a.service + (" (" + a.minutes + " min)"), "Provider: " + a.provider];
    assert two[1..] == [two[1]];
    assert JoinWith(two, "\n") == two[0] + "\n" + two[1];
    var plain := "Service: " + a.service + (" (" + a.minutes + " min)") + "\n" + ("Provider: " + a.provider);
    assert JoinWith(two, "\n") == plain;
    var three := if a.mode == "VIRTUAL" && Given(a.meetingUrl) then two + ["Join: " + a.meetingUrl.value] else two;
    if a.mode == "VIRTUAL" && Given(a.meetingUrl) {
      JoinOneMore(two, "Join: " + a.meetingUrl.value);
    }
    if Given(a.notes) {
      JoinOneMore(three, "Notes: " + a.notes.value);
    }
    assert DescriptionLines(a) == if Given(a.notes) then three + ["Notes: " + a.notes.value] else three;
  }

  lemma PeopleAre(a: Invitation)
    ensures Organizer(a) == PersonLines("ORGANIZER", a.business, "", a.businessEmail)
    ensures Attendee(a) == PersonLines("ATTENDEE", a.client, ";ROLE=REQ-PARTICIPANT;RSVP=TRUE", a.clientEmail)
  {
    FourPassesAreOne(a.business);
    FourPassesAreOne(a.client);
    if Given(a.businessEmail) {
      assert "" + ":mailto:" + a.businessEmail.value == ":mailto:" + a.businessEmail.value;
    }
  }

  lemma FieldsArePrinted(a: Invitation, stamp: string)
    ensures Print(InviteFields(a.id + "@pulse.app", stamp, a.starts, a.ends, Esc(a.service + " at " + a.business), Esc(PlainDescription(a))))
      == InviteTopLines(a, stamp)
  {
    var summary, description := a.service + " at " + a.business, PlainDescription(a);
    FourPassesAreOne(summary);
    FourPassesAreOne(description);
    FieldLines(a.id + "@pulse.app", stamp, a.starts, a.ends, Esc(summary), Esc(description));
  }

  lemma FieldLines(uid: string, stamp: string, starts: string, ends: string, summary: string, description: string)
    ensures Print(InviteFields(uid, stamp, starts, ends, summary, description)) ==
      [Line("BEGIN", "VCALENDAR"), Line("VERSION", "2.0"), Line("PRODID", "-//Pulse//Appointments//EN"), Line("CALSCALE", "GREGORIAN"),
       Line("METHOD", "REQUEST"), Line("BEGIN", "VEVENT"),
       Line("UID", uid), Line("DTSTAMP", stamp), Line("DTSTART", starts), Line("DTEND", ends),
       Line("SUMMARY", summary), Line("DESCRIPTION", description)]
  {
    var f1 := [Field(UID, uid), Field(DTSTAMP, stamp), Field(DTSTART, starts)];
    var f2 := [Field(DTEND, ends), Field(SUMMARY, summary), Field(DESCRIPTION, description)];
    HeaderLines();
    PrintAppend(INVITE_HEADER, f1);
    PrintAppend(INVITE_HEADER + f1, f2);
    assert Print(f1) == [Line("UID", uid), Line("DTSTAMP", stamp), Line("DTSTART", starts)];
    assert Print(f2) == [Line("DTEND", ends), Line("SUMMARY", summary), Line("DESCRIPTION", description)];
  }

  lemma HeaderLines()
    ensures Print(INVITE_HEADER) ==
      [Line("BEGIN", "VCALENDAR"), Line("VERSION", "2.0"), Line("PRODID", "-//Pulse//Appointments//EN"), Line("CALSCALE", "GREGORIAN"),
       Line("METHOD", "REQUEST"), Line("BEGIN", "VEVENT")]
  {
  }

  lemma TopLinesArePrinted(a: Invitation, stamp: string, place: string)
    requires place == LocationOf(a)
    ensures Print(InviteTop(a, stamp, Esc(PlainDescription(a)))) == InviteTopLines(a, stamp) + PlaceLines(place)
  {
    var fields := InviteFields(a.id + "@pulse.app", stamp, a.starts, a.ends, Esc(a.service + " at " + a.business), Esc(PlainDescription(a)));
    PrintAppend(fields, LocationFields(place));
    FieldsArePrinted(a, stamp);
    FourPassesAreOne(place);
    LocationLine(place);
  }

  lemma PlaceIs(a: Invitation, place: string)
    ensures IsPlace(a, place) <==> place == LocationOf(a)
  {
  }

  /** The whole invite, for every appointment. */
  lemma InviteIsTheseLines(a: Invitation, stamp: string, place: string)
    requires IsPlace(a, place)
    ensures InviteText(a, stamp) == Join(InviteLines(a, stamp, place))
  {
    PlaceIs(a, place);
    DescriptionIs(a);
    PeopleAre(a);
    TopLinesArePrinted(a, stamp, place);
    assert Print(INVITE_FOOTER) == [Line("STATUS", "CONFIRMED"), Line("SEQUENCE", "0"), Line("END", "VEVENT"), Line("END", "VCALENDAR")];
    assert InviteLines(a, stamp, place) ==
      Print(InviteTop(a, stamp, Esc(PlainDescription(a)))) + (Organizer(a) + Attendee(a)) + Print(INVITE_FOOTER);
  }
}
