/** The event-creation form of src/components/events/CreateEvent.jsx: the form record, the
    "hosted" toggle, the image choice on submit and the reset after a successful create. */
module CreateEvent {
  import opened Common
  import opened EventRecord

  /** The record the form starts from and returns to after a create. */
  const InitialEvent := EventDetails("", "", "", "", "", "", "", false, "")

  const CREATED := "\U{2705} Event created!"
  const CREATE_FAILED := "\U{274C} Failed to create event."

  /** The `imageId` a submit sends: empty for a hosted event; otherwise the upload's id, or
      empty when no file is pending (the upload helper then returns nothing). None means the
      upload threw, which aborts the submit. */
  function ChooseImageId(hosted: bool, imageFile: Option<FileRef>, upload: Upload): (r: Option<string>)
    ensures hosted ==> r == Some("")
    ensures !hosted && imageFile.None? ==> r == Some("")
    ensures r.None? <==> !hosted && imageFile.Some? && upload.UploadFailed?
    ensures !hosted && imageFile.Some? && upload.Uploaded? ==> r == Some(upload.id)
    ensures r.Some? && r.value != "" ==> !hosted && imageFile.Some? && upload == Uploaded(r.value)
  {
    if hosted then Some("")
    else if imageFile.None? then Some("")
    else match upload
      case UploadFailed => None
      case Uploaded(id) => Some(id)
  }

  /** `{ ...event, imageId, startTime: <ISO start>, endTime: <ISO end> }`. */
  function Payload(event: EventDetails, imageId: string, startIso: string, endIso: string): (p: EventDetails)
    ensures p.imageId == imageId && p.startTime == startIso && p.endTime == endIso
    ensures forall f :: f != StartTime && f != EndTime ==> Get(p, f) == Get(event, f)
    ensures p.isEdibleMamiHosted == event.isEdibleMamiHosted
  {
    event.(imageId := imageId, startTime := startIso, endTime := endIso)
  }

  class EventForm {
    var event: EventDetails
    var imageFile: Option<FileRef>
    var effects: seq<Effect>

    constructor ()
      ensures event == InitialEvent && imageFile == None && effects == []
    {
      event := InitialEvent;
      imageFile := None;
      effects := [];
    }

    /** `handleChange`: one text input changed. */
    method HandleChange(name: EventField, value: string)
      modifies this
      ensures event == WithField(old(event), name, value)
      ensures imageFile == old(imageFile) && effects == old(effects)
    {
      event := WithField(event, name, value);
    }

    /** `handleCheckbox`: switching to hosted drops the picked file and the image id;
        switching back keeps both as they are. */
    method HandleCheckbox()
      modifies this
      ensures event.isEdibleMamiHosted == !old(event.isEdibleMamiHosted)
      ensures !old(event.isEdibleMamiHosted) ==>
                event == old(event).(isEdibleMamiHosted := true, imageId := "") && imageFile == None
      ensures old(event.isEdibleMamiHosted) ==>
                event == old(event).(isEdibleMamiHosted := false) && imageFile == old(imageFile)
      ensures effects == old(effects)
    {
      var wasHosted := event.isEdibleMamiHosted;
      event := event.(isEdibleMamiHosted := !wasHosted);
      if !wasHosted {
        imageFile := None;
        event := event.(imageId := "");
      }
    }

    /** The file input's `onChange`. */
    method SelectImage(file: Option<FileRef>)
      modifies this
      ensures imageFile == file && event == old(event) && effects == old(effects)
    {
      imageFile := file;
    }

    /** `handleSubmit`. The parameters stand for the foreign calls in the order they happen:
        the image upload (consulted only for a not-hosted event with a pending file), the two
        `toISOString` conversions (None: the date is invalid and the conversion throws) and
        whether the POST succeeded. Returns the payload posted, if the POST was reached. */
    method HandleSubmit(upload: Upload, startIso: Option<string>, endIso: Option<string>, postOk: bool)
      returns (posted: Option<EventDetails>)
      modifies this
      ensures posted.Some? <==> ChooseImageId(old(event.isEdibleMamiHosted), old(imageFile), upload).Some?
                                && startIso.Some? && endIso.Some?
      ensures posted.Some? ==> posted.value == Payload(old(event),
                ChooseImageId(old(event.isEdibleMamiHosted), old(imageFile), upload).value,
                startIso.value, endIso.value)
      ensures posted.Some? && postOk ==>
                event == InitialEvent && imageFile == None && effects == old(effects) + [Toast(CREATED)]
      ensures !(posted.Some? && postOk) ==>
                event == old(event) && imageFile == old(imageFile) && effects == old(effects) + [Toast(CREATE_FAILED)]
    {
      var imageId := ChooseImageId(event.isEdibleMamiHosted, imageFile, upload);
      if imageId.None? || startIso.None? || endIso.None? {
        effects := effects + [Toast(CREATE_FAILED)];
        return None;
      }
      var payload := Payload(event, imageId.value, startIso.value, endIso.value);
      posted := Some(payload);
      if !postOk {
        effects := effects + [Toast(CREATE_FAILED)];
        return;
      }
      effects := effects + [Toast(CREATED)];
      event := InitialEvent;
      imageFile := None;
    }
  }

  /** Toggling "hosted" on and then off again, from any form that is not hosted, ends not
      hosted with no image id and no file: the first toggle's clearing is not undone. Every
      other field and the log are as they were. */
  method ToggleTwice(form: EventForm)
    requires !form.event.isEdibleMamiHosted
    modifies form
    ensures form.event == old(form.event).(imageId := "")
    ensures form.imageFile == None && form.effects == old(form.effects)
  {
    form.HandleCheckbox();
    form.HandleCheckbox();
  }

  /** Submitting a hosted event posts an empty image id, whatever file is pending and whatever
      the upload would have answered, and every other field as the form holds it. */
  method HostedSendsNoImage(form: EventForm, upload: Upload, startIso: Option<string>,
                            endIso: Option<string>, postOk: bool)
    returns (posted: Option<EventDetails>)
    requires form.event.isEdibleMamiHosted
    modifies form
    ensures posted.Some? <==> startIso.Some? && endIso.Some?
    ensures posted.Some? ==> posted.value.imageId == "" && posted.value.isEdibleMamiHosted
    ensures posted.Some? ==> forall f :: f != StartTime && f != EndTime ==> Get(posted.value, f) == Get(old(form.event), f)
  {
    posted := form.HandleSubmit(upload, startIso, endIso, postOk);
  }
}
