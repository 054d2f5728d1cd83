/** The event record shared by the create form (src/components/events/CreateEvent.jsx) and
    the list editor (src/components/events/ViewAllEvents.jsx), with its text fields. */
module EventRecord {

  /** An event's editable content; an event as stored adds its server id. */
  datatype EventDetails = EventDetails(
    eventTitle: string,
    description: string,
    ticketUrl: string,
    city: string,
    state: string,
    startTime: string,
    endTime: string,
    isEdibleMamiHosted: bool,
    imageId: string)

  /** The text inputs of both forms, named as their `name` attribute or `handleChange` key. */
  datatype EventField = EventTitle | Description | TicketUrl | City | State | StartTime | EndTime

  function Get(d: EventDetails, f: EventField): string
  {
    match f
    case EventTitle => d.eventTitle
    case Description => d.description
    case TicketUrl => d.ticketUrl
    case City => d.city
    case State => d.state
    case StartTime => d.startTime
    case EndTime => d.endTime
  }

  /** `{ ...event, [field]: value }` and `updated[index][field] = value`. */
  function WithField(d: EventDetails, f: EventField, v: string): (r: EventDetails)
    ensures Get(r, f) == v
    ensures forall g :: g != f ==> Get(r, g) == Get(d, g)
    ensures r.isEdibleMamiHosted == d.isEdibleMamiHosted && r.imageId == d.imageId
  {
    match f
    case EventTitle => d.(eventTitle := v)
    case Description => d.(description := v)
    case TicketUrl => d.(ticketUrl := v)
    case City => d.(city := v)
    case State => d.(state := v)
    case StartTime => d.(startTime := v)
    case EndTime => d.(endTime := v)
  }

  /** Setting a field to the value it already holds changes nothing. */
  lemma WithOwnValue(d: EventDetails, f: EventField)
    ensures WithField(d, f, Get(d, f)) == d
  {
  }

  /** A second write to the same field overrides the first. */
  lemma WithFieldTwice(d: EventDetails, f: EventField, v: string, w: string)
    ensures WithField(WithField(d, f, v), f, w) == WithField(d, f, w)
  {
  }
}
