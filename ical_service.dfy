/**
 * `ICalService.sendAppointment`: builds the VEVENT of an appointment on top of
 * the calendar read from the server's time-zone file and hands the calendar
 * to the mail transport. The attendee lists are split with a
 * `StringTokenizer`; each address becomes a `MAILTO:` ATTENDEE. The
 * description is folded (`ICalFolding`), and an X-ALT-DESC carrying it as
 * text/html is added when it looks like HTML.
 *
 * Reading the time-zone file, the time-zone registry and URI parsing are
 * parameters of the model (`ICalSettings`).
 */
module ICalService {
  import opened Wrappers
  import opened Sequences
  import opened Text
  import opened Tokenizer
  import opened ICalModel
  import opened ICalFolding
  import opened Domain
  import opened Transport

  const MailTo: string := "MAILTO:"
  /** Default of the `mail.list.separator` property. */
  const DefaultListSeparator: string := ";"
  const AltDescriptionName: string := "X-ALT-DESC"
  const HtmlFormatType: XParameter := XParameter("FMTTYPE", "text/html")

  /** What reading the time-zone file gives: the file is missing, it cannot be
      read or parsed, or it is parsed into a calendar whose registry resolves
      the time zones in `knownZones`. */
  datatype TimeZoneFile =
    | FileNotFound
    | FormatProblem
    | Parsed(calendar: CalendarDoc, knownZones: set<string>)

  /** The configuration and the environment the encoder reads. `validUri`
      tells whether a string parses as a URI. */
  datatype ICalSettings = ICalSettings(
    listSeparator: Option<string>,
    prodId: Option<string>,
    defaultTimeZone: Option<string>,
    timeZoneFile: TimeZoneFile,
    validUri: string -> bool)

  /** The arguments of `sendAppointment`. */
  datatype Invitation = Invitation(
    attendees: Option<string>,
    optionalAttendees: Option<string>,
    subject: Option<string>,
    body: string,
    location: Option<string>,
    senderName: string,
    senderEmail: string,
    appointment: Appointment,
    create: bool)

  datatype AbortReason = TimeZoneFileNotFound | TimeZoneFileIncorrect

  /** The calendar mail was handed to the transport; or the time-zone file
      could not be used and nothing was sent; or an attendee address is not
      a URI and the `IllegalArgumentException` of `URI.create` escapes. */
  datatype SendOutcome = Sent(mail: MailCall) | Aborted(reason: AbortReason) | Raised

  // ---------------------------------------------------------------------------
  // The HTML test

  /** `\d` in a Java regular expression: an ASCII digit. */
  predicate IsDigit(c: char) {
    '0' <= c <= '9'
  }

  /** A `<` followed by a non-digit starts at `p`. */
  predicate OpeningTagAt(s: string, p: nat) {
    p + 1 < |s| && s[p] == '<' && !IsDigit(s[p + 1])
  }

  /** A `</` followed by a non-digit starts at `r`. */
  predicate ClosingTagAt(s: string, r: nat) {
    r + 2 < |s| && s[r] == '<' && s[r + 1] == '/' && !IsDigit(s[r + 2])
  }

  /** A `>` is at `q`. */
  predicate TagEndAt(s: string, q: nat) {
    q < |s| && s[q] == '>'
  }

  /** An opening tag starts at `p` and is closed at `q`, and a closing tag
      starts at `r` and is closed at `t`. */
  predicate HtmlAt(s: string, p: nat, q: nat, r: nat, t: nat) {
    && OpeningTagAt(s, p) && p + 2 <= q && TagEndAt(s, q)
    && q < r && ClosingTagAt(s, r) && r + 3 <= t && TagEndAt(s, t)
  }

  /** `s` matches the pattern of `addAlternativeHtmlDescription`: an opening
      `<`, a non-digit, anything, `>`, then a `</`, a non-digit, anything, `>`;
      the shortest such text, `<a></a>`, has seven characters. */
  predicate LooksLikeHtml(s: string)
    ensures LooksLikeHtml(s) ==> |s| >= 7
  {
    exists p: nat, q: nat, r: nat, t: nat | p < |s| && q < |s| && r < |s| && t < |s| :: HtmlAt(s, p, q, r, t)
  }

  /** A paragraph element is HTML. */
  lemma ParagraphIsHtml()
    ensures LooksLikeHtml("<p>Bonjour</p>")
  {
    assert HtmlAt("<p>Bonjour</p>", 0, 2, 10, 13);
  }

  /** Text around an HTML fragment does not stop it being HTML. */
  lemma HtmlInContext(before: string, s: string, after: string)
    requires LooksLikeHtml(s)
    ensures LooksLikeHtml(before + s + after)
  {
    var p: nat, q: nat, r: nat, t: nat :| p < |s| && q < |s| && r < |s| && t < |s| && HtmlAt(s, p, q, r, t);
    var w := before + s + after;
    var n := |before|;
    assert forall k | 0 <= k < |s| :: w[n + k] == s[k];
    assert HtmlAt(w, n + p, n + q, n + r, n + t);
  }

  /** A tag name that starts with a digit does not count: `<1>` and `</2>` are not tags. */
  lemma WithoutTagsNotHtml(s: string)
    requires forall k | 0 <= k < |s| - 1 :: s[k] == '<' ==> IsDigit(s[k + 1])
    ensures !LooksLikeHtml(s)
  {
  }

  /** Without a `</` there is no closing tag, so no match, whatever opening
      tags the text holds. */
  lemma WithoutClosingTagNotHtml(s: string)
    requires forall r | 0 <= r < |s| - 1 :: !(s[r] == '<' && s[r + 1] == '/')
    ensures !LooksLikeHtml(s)
  {
  }

  /** A plain-text body with an unclosed bold tag is not HTML. */
  lemma UnclosedTagNotHtml()
    ensures !LooksLikeHtml("RDV <b>demain")
  {
    WithoutClosingTagNotHtml("RDV <b>demain");
  }

  function AltDescription(description: string): Property {
    XProperty(AltDescriptionName, [HtmlFormatType], description)
  }

  predicate IsAltDescription(p: Property) {
    p.XProperty? && p.name == AltDescriptionName
  }

  method AddAlternativeHtmlDescription(event: VEvent, description: string)
    modifies event
    ensures event.properties
            == old(event.properties) + (if LooksLikeHtml(description) then [AltDescription(description)] else [])
  {
    if LooksLikeHtml(description) {
      event.AddProperty(AltDescription(description));
    }
  }

  // ---------------------------------------------------------------------------
  // Attendees

  function AttendeeProperty(email: string, required: bool): Property {
    Attendee(MailTo + email, if required then ReqParticipant else OptParticipant, NeedsAction, false)
  }

  predicate IsAttendee(p: Property) {
    p.Attendee?
  }

  /** The ATTENDEE properties for `tokens`, in order. */
  function AttendeeProperties(tokens: seq<string>, required: bool): seq<Property> {
    seq(|tokens|, k requires 0 <= k < |tokens| => AttendeeProperty(tokens[k], required))
  }

  /** Every address of `tokens` gives a valid URI once prefixed with `MAILTO:`. */
  predicate AllAddressesValid(tokens: seq<string>, validUri: string -> bool) {
    tokens == [] ||
    (AllAddressesValid(tokens[..|tokens| - 1], validUri) && validUri(MailTo + tokens[|tokens| - 1]))
  }

  lemma {:induction false} AllAddressesValidMeans(tokens: seq<string>, validUri: string -> bool)
    ensures AllAddressesValid(tokens, validUri) <==> forall k | 0 <= k < |tokens| :: validUri(MailTo + tokens[k])
  {
    if tokens != [] {
      var init := tokens[..|tokens| - 1];
      AllAddressesValidMeans(init, validUri);
      assert forall k | 0 <= k < |init| :: init[k] == tokens[k];
    }
  }

  /** The addresses of a list: none when it is null or empty. */
  function ListTokens(list: Option<string>, separator: string): seq<string> {
    if IsEmpty(list) then [] else Tokens(list.value, separator)
  }

  /** `addAttendee`; `ok` is false when `URI.create` rejects the address, and
      then the event is left as it was. */
  method AddAttendee(event: VEvent, email: string, required: bool, validUri: string -> bool) returns (ok: bool)
    modifies event
    ensures ok == validUri(MailTo + email)
    ensures event.properties == old(event.properties) + (if ok then [AttendeeProperty(email, required)] else [])
  {
    ok := validUri(MailTo + email);
    if ok {
      event.AddProperty(AttendeeProperty(email, required));
    }
  }

  lemma AttendeePropertiesAppend(tokens: seq<string>, token: string, required: bool)
    ensures AttendeeProperties(tokens + [token], required)
            == AttendeeProperties(tokens, required) + [AttendeeProperty(token, required)]
  {
    var r := AttendeeProperties(tokens + [token], required);
    assert forall k | 0 <= k < |tokens| :: r[k] == AttendeeProperty(tokens[k], required);
  }

  lemma AllAddressesValidAppend(tokens: seq<string>, token: string, validUri: string -> bool)
    requires AllAddressesValid(tokens, validUri) && validUri(MailTo + token)
    ensures AllAddressesValid(tokens + [token], validUri)
  {
    assert (tokens + [token])[..|tokens|] == tokens;
  }

  lemma {:induction false} InvalidAddressFound(all: seq<string>, before: seq<string>, token: string,
                                               after: seq<string>, validUri: string -> bool)
    requires all == before + [token] + after && !validUri(MailTo + token)
    ensures !AllAddressesValid(all, validUri)
    decreases |after|
  {
    if after == [] {
      assert all[..|all| - 1] == before;
    } else {
      var init := after[..|after| - 1];
      assert all[..|all| - 1] == before + [token] + init;
      InvalidAddressFound(all[..|all| - 1], before, token, init, validUri);
    }
  }

  /** What the loop below keeps: `consumed` are the tokens already returned,
      all valid, each added as an attendee after the properties `before`. */
  ghost predicate LoopKeeps(event: VEvent, tokens: StringTokenizer, all: seq<string>, consumed: seq<string>,
                            before: seq<Property>, required: bool, validUri: string -> bool)
    reads event, tokens
  {
    && tokens.Valid()
    && all == consumed + tokens.Remaining()
    && AllAddressesValid(consumed, validUri)
    && event.properties == before + AttendeeProperties(consumed, required)
  }

  /** One iteration: `addAttendee(event, st.nextToken(), required)`. */
  method AddNextAttendee(event: VEvent, tokens: StringTokenizer, required: bool, validUri: string -> bool,
                         ghost all: seq<string>, ghost consumed: seq<string>, ghost before: seq<Property>)
    returns (ok: bool, ghost next: seq<string>)
    requires LoopKeeps(event, tokens, all, consumed, before, required, validUri) && tokens.Remaining() != []
    modifies event, tokens
    ensures ok ==> LoopKeeps(event, tokens, all, next, before, required, validUri)
    ensures ok ==> |tokens.Remaining()| < |old(tokens.Remaining())|
    ensures !ok ==> !AllAddressesValid(all, validUri)
  {
    next := consumed;
    ghost var pending := tokens.Remaining();
    var token := tokens.NextToken();
    assert pending == [token] + tokens.Remaining();
    ok := AddAttendee(event, token, required, validUri);
    if !ok {
      InvalidAddressFound(all, consumed, token, tokens.Remaining(), validUri);
      return;
    }
    AllAddressesValidAppend(consumed, token, validUri);
    AttendeePropertiesAppend(consumed, token, required);
    next := consumed + [token];
  }

  /** The `while (st.hasMoreTokens())` loop: adds one attendee per remaining
      token, and stops early when `URI.create` rejects one. */
  method AddRemainingAttendees(event: VEvent, tokens: StringTokenizer, required: bool, validUri: string -> bool)
    returns (ok: bool)
    requires tokens.Valid()
    modifies event, tokens
    ensures ok <==> AllAddressesValid(old(tokens.Remaining()), validUri)
    ensures ok ==> event.properties == old(event.properties) + AttendeeProperties(old(tokens.Remaining()), required)
  {
    ghost var all := tokens.Remaining();
    ghost var before := event.properties;
    ghost var consumed: seq<string> := [];
    assert all == consumed + all;
    var more := tokens.HasMoreTokens();
    while more
      invariant LoopKeeps(event, tokens, all, consumed, before, required, validUri)
      invariant more <==> tokens.Remaining() != []
      decreases |tokens.Remaining()|
    {
      ok, consumed := AddNextAttendee(event, tokens, required, validUri, all, consumed, before);
      if !ok {
        return;
      }
      more := tokens.HasMoreTokens();
    }
    assert all == consumed + [] == consumed;
    ok := true;
  }

  /** One attendee list of `sendAppointment`: nothing when it is empty, else
      its tokens. It completes exactly when every address is valid. */
  method AddAttendees(event: VEvent, list: Option<string>, separator: string, required: bool,
                      validUri: string -> bool) returns (ok: bool)
    modifies event
    ensures ok <==> AllAddressesValid(ListTokens(list, separator), validUri)
    ensures ok ==> event.properties == old(event.properties) + AttendeeProperties(ListTokens(list, separator), required)
  {
    if IsEmpty(list) {
      assert AttendeeProperties(ListTokens(list, separator), required) == [];
      assert old(event.properties) + [] == event.properties;
      return true;
    }
    var tokens := new StringTokenizer(list.value, separator);
    ok := AddRemainingAttendees(event, tokens, required, validUri);
  }

  // ---------------------------------------------------------------------------
  // The invitation

  /** `Appointment.APPOINTMENT_RESOURCE_TYPE + appointment.getIdAppointment()`. */
  function UidFor(idAppointment: int): string {
    AppointmentResourceType + IntToString(idAppointment)
  }

  /** Two appointments never share a UID. */
  lemma DistinctUids(a: int, b: int)
    requires a != b
    ensures UidFor(a) != UidFor(b)
  {
    if UidFor(a) == UidFor(b) {
      var n := |AppointmentResourceType|;
      assert UidFor(a)[n..] == IntToString(a);
      assert UidFor(b)[n..] == IntToString(b);
      IntToStringInjective(a, b);
    }
  }

  function Separator(settings: ICalSettings): string {
    settings.listSeparator.GetOr(DefaultListSeparator)
  }

  /** `registry.getTimeZone(id)`: the zone when the registry knows it, else none. */
  function ResolveTimeZone(knownZones: set<string>, id: Option<string>): Option<string> {
    if id.Some? && id.value in knownZones then id else None
  }

  function MethodFor(create: bool): MethodKind {
    if create then Request else Cancel
  }

  /** The properties every event starts with. */
  function EventHead(inv: Invitation, timeZone: Option<string>): seq<Property> {
    [DtStart(inv.appointment.start, timeZone), DtEnd(inv.appointment.end, timeZone),
     Summary(inv.subject.GetOr("")), Uid(UidFor(inv.appointment.id))]
  }

  /** The properties added after the attendees. When the organizer's address
      is not a URI the `URISyntaxException` is caught and there are none. */
  function EventTail(inv: Invitation, folded: string, validUri: string -> bool): seq<Property> {
    if validUri(inv.senderEmail) then
      [Organizer(inv.senderEmail, inv.senderName), Location(inv.location), Description(folded)]
      + (if LooksLikeHtml(folded) then [AltDescription(folded)] else [])
    else []
  }

  /** The properties of the VEVENT. */
  function InviteEvent(inv: Invitation, separator: string, timeZone: Option<string>,
                       validUri: string -> bool): seq<Property>
  {
    EventHead(inv, timeZone)
    + AttendeeProperties(ListTokens(inv.attendees, separator), true)
    + AttendeeProperties(ListTokens(inv.optionalAttendees, separator), false)
    + EventTail(inv, FoldedDescription(inv.body), validUri)
  }

  predicate AttendeesValid(inv: Invitation, settings: ICalSettings) {
    && AllAddressesValid(ListTokens(inv.attendees, Separator(settings)), settings.validUri)
    && AllAddressesValid(ListTokens(inv.optionalAttendees, Separator(settings)), settings.validUri)
  }

  /** What `sendAppointment` does for `inv`. */
  function Invite(inv: Invitation, settings: ICalSettings): SendOutcome {
    match settings.timeZoneFile
    case FileNotFound => Aborted(TimeZoneFileNotFound)
    case FormatProblem => Aborted(TimeZoneFileIncorrect)
    case Parsed(parsed, knownZones) =>
      if !AttendeesValid(inv, settings) then Raised
      else
        var event := InviteEvent(inv, Separator(settings), ResolveTimeZone(knownZones, settings.defaultTimeZone),
                                 settings.validUri);
        var calendar := CalendarDoc(
          parsed.properties + [Method(MethodFor(inv.create)), ProdId(settings.prodId), Version("2.0"), CalScale("GREGORIAN")],
          parsed.components + [EventComponent(event)]);
        Sent(CalendarMail(inv.attendees, inv.optionalAttendees, None, inv.senderName, inv.senderEmail,
                          inv.subject.GetOr(""), inv.body, calendar, inv.create))
  }

  /** The statements of the `try` block after the attendees. */
  method AddOrganizerAndDescription(event: VEvent, inv: Invitation, formatted: string, validUri: string -> bool)
    modifies event
    ensures event.properties == old(event.properties) + EventTail(inv, formatted, validUri)
  {
    if validUri(inv.senderEmail) {
      event.AddProperty(Organizer(inv.senderEmail, inv.senderName));
      event.AddProperty(Location(inv.location));
      event.AddProperty(Description(formatted));
      AddAlternativeHtmlDescription(event, formatted);
    }
  }

  /** Builds the VEVENT; `ok` is false when `URI.create` rejected an attendee. */
  method BuildEvent(inv: Invitation, separator: string, timeZone: Option<string>, validUri: string -> bool)
    returns (event: VEvent, ok: bool)
    ensures fresh(event)
    ensures ok <==> && AllAddressesValid(ListTokens(inv.attendees, separator), validUri)
                    && AllAddressesValid(ListTokens(inv.optionalAttendees, separator), validUri)
    ensures ok ==> event.properties == InviteEvent(inv, separator, timeZone, validUri)
  {
    event := new VEvent();
    event.AddProperty(DtStart(inv.appointment.start, timeZone));
    event.AddProperty(DtEnd(inv.appointment.end, timeZone));
    event.AddProperty(Summary(inv.subject.GetOr("")));
    var formatted := FormatICalendarDescription(inv.body);
    event.AddProperty(Uid(UidFor(inv.appointment.id)));
    assert event.properties == EventHead(inv, timeZone);
    ghost var required := AttendeeProperties(ListTokens(inv.attendees, separator), true);
    ghost var optional := AttendeeProperties(ListTokens(inv.optionalAttendees, separator), false);
    ok := AddAttendees(event, inv.attendees, separator, true, validUri);
    if !ok {
      return;
    }
    ok := AddAttendees(event, inv.optionalAttendees, separator, false, validUri);
    if !ok {
      return;
    }
    assert event.properties == EventHead(inv, timeZone) + required + optional;
    AddOrganizerAndDescription(event, inv, formatted, validUri);
  }

  method SendAppointment(inv: Invitation, settings: ICalSettings) returns (outcome: SendOutcome)
    ensures outcome == Invite(inv, settings)
  {
    if settings.timeZoneFile.FileNotFound? {
      return Aborted(TimeZoneFileNotFound);
    } else if settings.timeZoneFile.FormatProblem? {
      return Aborted(TimeZoneFileIncorrect);
    }
    var calendar := new Calendar(settings.timeZoneFile.calendar);
    var timeZone := ResolveTimeZone(settings.timeZoneFile.knownZones, settings.defaultTimeZone);
    var event, ok := BuildEvent(inv, Separator(settings), timeZone, settings.validUri);
    if !ok {
      return Raised;
    }
    ghost var parsed := settings.timeZoneFile.calendar;
    calendar.AddProperty(Method(MethodFor(inv.create)));
    calendar.AddProperty(ProdId(settings.prodId));
    calendar.AddProperty(Version("2.0"));
    calendar.AddProperty(CalScale("GREGORIAN"));
    calendar.AddComponent(EventComponent(event.properties));
    assert calendar.properties
        == parsed.properties + [Method(MethodFor(inv.create)), ProdId(settings.prodId), Version("2.0"), CalScale("GREGORIAN")];
    outcome := Sent(CalendarMail(inv.attendees, inv.optionalAttendees, None, inv.senderName, inv.senderEmail,
                                 inv.subject.GetOr(""), inv.body, calendar.Document(), inv.create));
  }

  // ---------------------------------------------------------------------------
  // Properties of the invitation

  /** Nothing is sent when the time-zone file cannot be used, the exception
      escapes exactly when an attendee address is not a URI, and otherwise one
      calendar mail goes to the attendees with the optional attendees in copy
      and no blind copy. */
  lemma InviteOutcomes(inv: Invitation, settings: ICalSettings)
    ensures Invite(inv, settings).Aborted? <==> !settings.timeZoneFile.Parsed?
    ensures Invite(inv, settings).Raised? <==> settings.timeZoneFile.Parsed? && !AttendeesValid(inv, settings)
    ensures Invite(inv, settings).Sent? ==>
              var mail := Invite(inv, settings).mail;
              && mail.CalendarMail?
              && mail.to == inv.attendees && mail.cc == inv.optionalAttendees && mail.bcc == None
              && mail.subject == inv.subject.GetOr("") && mail.body == inv.body && mail.create == inv.create
  {
  }

  /** The event begins with the start, the end, the summary and the UID of the appointment. */
  lemma InviteEventHead(inv: Invitation, separator: string, timeZone: Option<string>, validUri: string -> bool)
    ensures var e := InviteEvent(inv, separator, timeZone, validUri);
            && |e| >= 4
            && e[0] == DtStart(inv.appointment.start, timeZone)
            && e[1] == DtEnd(inv.appointment.end, timeZone)
            && e[2] == Summary(inv.subject.GetOr(""))
            && e[3] == Uid(UidFor(inv.appointment.id))
  {
  }

  /** The attendees of the event are the required addresses, then the optional ones. */
  lemma InviteAttendees(inv: Invitation, separator: string, timeZone: Option<string>, validUri: string -> bool)
    ensures Filter(InviteEvent(inv, separator, timeZone, validUri), IsAttendee)
            == AttendeeProperties(ListTokens(inv.attendees, separator), true)
               + AttendeeProperties(ListTokens(inv.optionalAttendees, separator), false)
  {
    FilterAttendeesOfParts(EventHead(inv, timeZone),
                           ListTokens(inv.attendees, separator), ListTokens(inv.optionalAttendees, separator),
                           EventTail(inv, FoldedDescription(inv.body), validUri));
  }

  lemma FilterAttendeesOfParts(head: seq<Property>, required: seq<string>, optional: seq<string>, tail: seq<Property>)
    requires forall k | 0 <= k < |head| :: !IsAttendee(head[k])
    requires forall k | 0 <= k < |tail| :: !IsAttendee(tail[k])
    ensures Filter(head + AttendeeProperties(required, true) + AttendeeProperties(optional, false) + tail, IsAttendee)
            == AttendeeProperties(required, true) + AttendeeProperties(optional, false)
  {
    FilterSelectsMiddle(head, AttendeeProperties(required, true), AttendeeProperties(optional, false), tail, IsAttendee);
  }

  lemma AttendeesAreNotAlternatives(tokens: seq<string>, required: bool)
    ensures Filter(AttendeeProperties(tokens, required), IsAltDescription) == []
  {
    FilterDropsAll(AttendeeProperties(tokens, required), IsAltDescription);
  }

  /** The event carries the HTML alternative of its description exactly when
      the organizer was added and the folded description looks like HTML. */
  lemma InviteAltDescription(inv: Invitation, separator: string, timeZone: Option<string>, validUri: string -> bool)
    ensures var alternatives := Filter(InviteEvent(inv, separator, timeZone, validUri), IsAltDescription);
            var folded := FoldedDescription(inv.body);
            alternatives == (if validUri(inv.senderEmail) && LooksLikeHtml(folded) then [AltDescription(folded)] else [])
  {
    var folded := FoldedDescription(inv.body);
    var required := AttendeeProperties(ListTokens(inv.attendees, separator), true);
    var optional := AttendeeProperties(ListTokens(inv.optionalAttendees, separator), false);
    var tail := EventTail(inv, folded, validUri);
    assert InviteEvent(inv, separator, timeZone, validUri) == EventHead(inv, timeZone) + required + optional + tail;
    FilterOfParts(EventHead(inv, timeZone), required, optional, tail, IsAltDescription);
    FilterDropsAll(EventHead(inv, timeZone), IsAltDescription);
    AttendeesAreNotAlternatives(ListTokens(inv.attendees, separator), true);
    AttendeesAreNotAlternatives(ListTokens(inv.optionalAttendees, separator), false);
    TailAlternatives(inv, folded, validUri);
    assert Filter(InviteEvent(inv, separator, timeZone, validUri), IsAltDescription)
        == Filter(tail, IsAltDescription);
  }

  lemma TailAlternatives(inv: Invitation, folded: string, validUri: string -> bool)
    ensures Filter(EventTail(inv, folded, validUri), IsAltDescription)
            == (if validUri(inv.senderEmail) && LooksLikeHtml(folded) then [AltDescription(folded)] else [])
  {
    if validUri(inv.senderEmail) {
      var fixed := [Organizer(inv.senderEmail, inv.senderName), Location(inv.location), Description(folded)];
      var alt := if LooksLikeHtml(folded) then [AltDescription(folded)] else [];
      FilterAppend(fixed, alt, IsAltDescription);
      FilterDropsAll(fixed, IsAltDescription);
      FilterKeepsAll(alt, IsAltDescription);
    }
  }

  predicate IsEvent(c: Component) {
    c.EventComponent?
  }

  /** A sent calendar is the parsed one with METHOD, PRODID, VERSION:2.0 and
      CALSCALE:GREGORIAN appended, and exactly one more VEVENT: the invitation's. */
  lemma InviteCalendar(inv: Invitation, settings: ICalSettings)
    requires settings.timeZoneFile.Parsed? && AttendeesValid(inv, settings)
    ensures var parsed := settings.timeZoneFile.calendar;
            var calendar := Invite(inv, settings).mail.calendar;
            var n := |parsed.properties|;
            && calendar.properties[..n] == parsed.properties
            && calendar.properties[n..] == [Method(MethodFor(inv.create)), ProdId(settings.prodId), Version("2.0"), CalScale("GREGORIAN")]
            && calendar.components[..|parsed.components|] == parsed.components
            && |Filter(calendar.components, IsEvent)| == |Filter(parsed.components, IsEvent)| + 1
            && LastComponent(calendar.components).EventComponent?
            && LastComponent(calendar.components).properties[3] == Uid(UidFor(inv.appointment.id))
  {
    var parsed := settings.timeZoneFile.calendar;
    var timeZone := ResolveTimeZone(settings.timeZoneFile.knownZones, settings.defaultTimeZone);
    var event := InviteEvent(inv, Separator(settings), timeZone, settings.validUri);
    InviteEventHead(inv, Separator(settings), timeZone, settings.validUri);
    FilterAppend(parsed.components, [EventComponent(event)], IsEvent);
  }

  /** A cancellation carries the very event of the creation, UID included, and
      differs from it only by METHOD:CANCEL in place of METHOD:REQUEST. */
  lemma CreateAndCancelShareEvent(inv: Invitation, settings: ICalSettings)
    ensures var create := Invite(inv.(create := true), settings);
            var cancel := Invite(inv.(create := false), settings);
            && create.Sent? == cancel.Sent?
            && (create.Sent? ==>
                  var n := |settings.timeZoneFile.calendar.properties|;
                  && create.mail.calendar.components == cancel.mail.calendar.components
                  && create.mail.calendar.properties[n] == Method(Request)
                  && cancel.mail.calendar.properties[n] == Method(Cancel)
                  && create.mail.calendar.properties[..n] == cancel.mail.calendar.properties[..n]
                  && create.mail.calendar.properties[n + 1..] == cancel.mail.calendar.properties[n + 1..])
  {
  }

  function LastComponent(components: seq<Component>): Component
    requires components != []
  {
    components[|components| - 1]
  }
}
