/**
 * The part of the iCalendar object model (RFC 5545) that the calendar encoder
 * builds: properties with their parameters, the event and time-zone
 * components, and the calendar object. `VEvent` and `Calendar` are objects
 * whose property and component lists are appended to in place, as ical4j's
 * `getProperties().add(...)` and `getComponents().add(...)` do.
 */
module ICalModel {
  import opened Wrappers

  /** ROLE parameter of an ATTENDEE. */
  datatype Role = ReqParticipant | OptParticipant | Chair | NonParticipant

  /** PARTSTAT parameter of an ATTENDEE. */
  datatype PartStat = NeedsAction | Accepted | Declined | Tentative | Delegated

  /** METHOD property of a calendar (RFC 5546). */
  datatype MethodKind = Request | Cancel

  /** A non-standard parameter, such as FMTTYPE=text/html. */
  datatype XParameter = XParameter(name: string, value: string)

  /** A property of an event or a calendar. Date-times are opaque epoch
      milliseconds; a time zone is referred to by its identifier, if resolved. */
  datatype Property =
    | DtStart(instant: int, timeZone: Option<string>)
    | DtEnd(instant: int, timeZone: Option<string>)
    | Summary(text: string)
    | Uid(text: string)
    | Attendee(address: string, role: Role, partStat: PartStat, rsvp: bool)
    | Organizer(address: string, commonName: string)
    | Location(place: Option<string>)
    | Description(text: string)
    | XProperty(name: string, parameters: seq<XParameter>, value: string)
    | Method(kind: MethodKind)
    | ProdId(identifier: Option<string>)
    | Version(text: string)
    | CalScale(text: string)
    | OtherProperty(name: string, value: string)

  /** A calendar component: a VTIMEZONE read from the time-zone file, or a VEVENT. */
  datatype Component =
    | TimeZoneComponent(timeZoneId: string, properties: seq<Property>)
    | EventComponent(properties: seq<Property>)

  /** The content of a calendar object, as handed to the transport. */
  datatype CalendarDoc = CalendarDoc(properties: seq<Property>, components: seq<Component>)

  /** An event being built. */
  class VEvent {
    var properties: seq<Property>

    constructor ()
      ensures properties == []
    {
      properties := [];
    }

    method AddProperty(p: Property)
      modifies this
      ensures properties == old(properties) + [p]
    {
      properties := properties + [p];
    }
  }

  /** A calendar object being built on top of the one parsed from the time-zone file. */
  class Calendar {
    var properties: seq<Property>
    var components: seq<Component>

    constructor (parsed: CalendarDoc)
      ensures properties == parsed.properties && components == parsed.components
    {
      properties := parsed.properties;
      components := parsed.components;
    }

    function Document(): CalendarDoc
      reads this
    {
      CalendarDoc(properties, components)
    }

    method AddProperty(p: Property)
      modifies this
      ensures properties == old(properties) + [p]
      ensures components == old(components)
    {
      properties := properties + [p];
    }

    method AddComponent(c: Component)
      modifies this
      ensures components == old(components) + [c]
      ensures properties == old(properties)
    {
      components := components + [c];
    }
  }
}
