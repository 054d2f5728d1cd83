/** The event list editor of src/components/events/ViewAllEvents.jsx: per-row field edits,
    the guarded delete, the image shown for a row and the value of its time inputs. */
module ViewAllEvents {
  import opened Common
  import opened EventRecord
  import DeleteGuard

  /** An event as the API returns it: its id and its content. */
  datatype Event = Event(id: string, details: EventDetails)

  const PLACEHOLDER := "/pizza.png"
  const LOAD_FAILED := "\U{274C} Failed to load events."
  const DELETED := "\U{1F5D1} Event deleted!"
  const DELETE_FAILED := "\U{274C} Failed to delete."

  /** The `src` of a row's image: the placeholder for a hosted event or one without an image,
      otherwise the image endpoint for the event's `imageId`. */
  function ImageSrc(e: Event, apiBase: string): (src: string)
    ensures src == PLACEHOLDER <==> e.details.isEdibleMamiHosted || e.details.imageId == ""
    ensures src != PLACEHOLDER ==> src == apiBase + "/api/images/" + e.details.imageId
  {
    if e.details.isEdibleMamiHosted || e.details.imageId == "" then PLACEHOLDER
    else apiBase + "/api/images/" + e.details.imageId
  }

  /** `time.slice(0, 16)`: what a `datetime-local` input shows of a stored time. */
  function TimeInputValue(stored: string): (shown: string)
    ensures |shown| == if |stored| < 16 then |stored| else 16
    ensures shown == stored[..|shown|]
  {
    if |stored| < 16 then stored else stored[..16]
  }

  /** Showing a shown value again changes nothing. */
  lemma TimeInputValueIdempotent(stored: string)
    ensures TimeInputValue(TimeInputValue(stored)) == TimeInputValue(stored)
  {
  }

  /** The event at `index` with one field set; its id and every other field are kept. */
  function WithEventField(e: Event, field: EventField, value: string): (r: Event)
    ensures r.id == e.id && Get(r.details, field) == value
    ensures forall g :: g != field ==> Get(r.details, g) == Get(e.details, g)
    ensures r.details.isEdibleMamiHosted == e.details.isEdibleMamiHosted
    ensures r.details.imageId == e.details.imageId
  {
    Event(e.id, WithField(e.details, field, value))
  }

  class EventList {
    var events: seq<Event>
    var effects: seq<Effect>

    constructor ()
      ensures events == [] && effects == []
    {
      events := [];
      effects := [];
    }

    /** The mount-time fetch: the response body, or None when the GET failed. */
    method FetchEvents(response: Option<seq<Event>>)
      modifies this
      ensures response.Some? ==> events == response.value && effects == old(effects)
      ensures response.None? ==> events == old(events) && effects == old(effects) + [Toast(LOAD_FAILED)]
    {
      if response.Some? {
        events := response.value;
      } else {
        effects := effects + [Toast(LOAD_FAILED)];
      }
    }

    /** `handleChange(index, field, value)`: only that field of that row changes. */
    method HandleChange(index: nat, field: EventField, value: string)
      requires index < |events|
      modifies this
      ensures |events| == |old(events)|
      ensures events == old(events)[index := WithEventField(old(events[index]), field, value)]
      ensures effects == old(effects)
    {
      events := events[index := WithEventField(events[index], field, value)];
    }

    /** `handleDelete(id, index)`: the guard with its default minimum of zero; the callback
        sends the DELETE (success given by `deleteOk`) and on success splices the row out. The
        guard's own report toast comes before the callback's outcome, which is awaited. */
    method HandleDelete(id: string, index: nat, confirmAnswer: bool, deleteOk: bool)
      returns (deleteCalled: bool, request: Option<string>)
      modifies this
      ensures deleteCalled <==> 0 < |old(events)| && confirmAnswer
      ensures request == if deleteCalled then Some(id) else None
      ensures events == if deleteCalled && deleteOk then SpliceOut(old(events), index) else old(events)
      ensures effects == old(effects) + DeleteGuard.GuardEffects("event", 0, |old(events)|, confirmAnswer)
                         + (if !deleteCalled then [] else if deleteOk then [Toast(DELETED)] else [Toast(DELETE_FAILED)])
    {
      var trace;
      deleteCalled, trace := DeleteGuard.ConfirmAndDelete(confirmAnswer, itemLabel := "event", total := |events|);
      effects := effects + trace;
      request := None;
      if deleteCalled {
        request := Some(id);
        if deleteOk {
          events := SpliceOut(events, index);
          effects := effects + [Toast(DELETED)];
        } else {
          effects := effects + [Toast(DELETE_FAILED)];
        }
      }
    }
  }
}
