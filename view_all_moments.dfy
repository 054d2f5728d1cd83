/** The moment list of src/components/moments/ViewAllMoments.jsx: the defensive normalisation
    of the fetched list, the single-row edit mode and the guarded delete. */
module ViewAllMoments {
  import opened Common
  import DeleteGuard

  datatype Moment = Moment(id: string, title: string, description: string, imageId: string)

  /** The edit buffer `editData`: a moment's fields, each possibly absent (`{}` has none). */
  datatype Draft = Draft(id: Option<string>, title: Option<string>,
                         description: Option<string>, imageId: Option<string>)

  const EmptyDraft := Draft(None, None, None, None)

  function DraftOf(m: Moment): Draft
  {
    Draft(Some(m.id), Some(m.title), Some(m.description), Some(m.imageId))
  }

  /** The shapes a response body can have, as far as `fetchMoments` tells them apart: an array;
      an object whose `moments` property is an array (Some) or is not (None); null or
      undefined, on which reading `.moments` throws; any other value. */
  datatype Body = ArrayBody(elements: seq<Moment>)
                | ObjectBody(moments: Option<seq<Moment>>)
                | NullBody
                | OtherBody

  /** The GET either failed or returned a body. */
  datatype Response = RequestFailed | Received(data: Body)

  const UPDATED := "\U{2705} Moment updated!"

  /** The list `fetchMoments` stores: `data.moments` if it is an array, else `data` if it is
      an array, else the empty list; a failed request or a throwing read gives the empty list. */
  function Normalise(r: Response): (ms: seq<Moment>)
    ensures r.Received? && r.data.ObjectBody? && r.data.moments.Some? ==> ms == r.data.moments.value
    ensures r.Received? && r.data.ArrayBody? ==> ms == r.data.elements
    ensures !(r.Received? && (r.data.ArrayBody? || (r.data.ObjectBody? && r.data.moments.Some?))) ==> ms == []
  {
    match r
    case RequestFailed => []
    case Received(data) =>
      match data
      case ObjectBody(moments) => if moments.Some? then moments.value else []
      case ArrayBody(elements) => elements
      case NullBody => []
      case OtherBody => []
  }

  /** Both shapes the API may use for a list give the same moments. */
  lemma NormaliseShapesAgree(ms: seq<Moment>)
    ensures Normalise(Received(ObjectBody(Some(ms)))) == Normalise(Received(ArrayBody(ms)))
  {
  }

  /** Moment ids are unique in a list the API returns. */
  predicate UniqueIds(ms: seq<Moment>)
  {
    forall i, j :: 0 <= i < j < |ms| ==> ms[i].id != ms[j].id
  }

  class MomentList {
    var moments: seq<Moment>
    var editId: Option<string>
    var editData: Draft
    var effects: seq<Effect>

    constructor ()
      ensures moments == [] && editId == None && editData == EmptyDraft && effects == []
    {
      moments := [];
      editId := None;
      editData := EmptyDraft;
      effects := [];
    }

    /** Whether the card of `m` shows the edit inputs (`editId === moment.id`). */
    predicate InEditMode(m: Moment)
      reads this
    {
      editId == Some(m.id)
    }

    /** `fetchMoments`, given what the GET produced. */
    method FetchMoments(response: Response)
      modifies this
      ensures moments == Normalise(response)
      ensures editId == old(editId) && editData == old(editData) && effects == old(effects)
    {
      match response
      case RequestFailed =>
        moments := [];
      case Received(data) =>
        if data.ObjectBody? && data.moments.Some? {
          moments := data.moments.value;
        } else if data.ArrayBody? {
          moments := data.elements;
        } else {
          moments := [];
        }
    }

    /** `startEdit(moment)`. */
    method StartEdit(m: Moment)
      modifies this
      ensures editId == Some(m.id) && editData == DraftOf(m)
      ensures moments == old(moments) && effects == old(effects)
      ensures forall k :: 0 <= k < |moments| ==> (InEditMode(moments[k]) <==> moments[k].id == m.id)
    {
      editId := Some(m.id);
      editData := DraftOf(m);
    }

    /** `cancelEdit`. */
    method CancelEdit()
      modifies this
      ensures editId == None && editData == EmptyDraft
      ensures moments == old(moments) && effects == old(effects)
      ensures forall k :: 0 <= k < |moments| ==> !InEditMode(moments[k])
    {
      editId := None;
      editData := EmptyDraft;
    }

    /** The title input's `onChange` in edit mode. */
    method EditTitle(value: string)
      modifies this
      ensures editData == old(editData).(title := Some(value))
      ensures moments == old(moments) && editId == old(editId) && effects == old(effects)
    {
      editData := editData.(title := Some(value));
    }

    /** The description input's `onChange` in edit mode. */
    method EditDescription(value: string)
      modifies this
      ensures editData == old(editData).(description := Some(value))
      ensures moments == old(moments) && editId == old(editId) && effects == old(effects)
    {
      editData := editData.(description := Some(value));
    }

    /** `saveEdit`: sends `editData` for `editId`. When the PUT fails the rejection is not
        handled and nothing else happens; otherwise a toast, edit mode ends (the buffer is kept)
        and the list is fetched again with outcome `refetch`. */
    method SaveEdit(putOk: bool, refetch: Response) returns (sentId: Option<string>, sentBody: Draft)
      modifies this
      ensures sentId == old(editId) && sentBody == old(editData)
      ensures !putOk ==> moments == old(moments) && editId == old(editId) && effects == old(effects)
      ensures putOk ==> editId == None && moments == Normalise(refetch) && effects == old(effects) + [Toast(UPDATED)]
      ensures editData == old(editData)
    {
      sentId, sentBody := editId, editData;
      if !putOk {
        return;
      }
      effects := effects + [Toast(UPDATED)];
      editId := None;
      FetchMoments(refetch);
    }

    /** `onDelete(id)`: the guard with a minimum of zero over the whole list; the callback
        sends the DELETE for `id` (returned as `request`) and, when it succeeds, fetches the list again with outcome `refetch`. */
    method OnDelete(id: string, confirmAnswer: bool, deleteOk: bool, refetch: Response)
      returns (deleteCalled: bool, request: Option<string>)
      modifies this
      ensures deleteCalled <==> 0 < |old(moments)| && confirmAnswer
      ensures request == if deleteCalled then Some(id) else None
      ensures moments == if deleteCalled && deleteOk then Normalise(refetch) else old(moments)
      ensures editId == old(editId) && editData == old(editData)
      ensures effects == old(effects) + DeleteGuard.GuardEffects("moment", 0, |old(moments)|, confirmAnswer)
    {
      var trace;
      deleteCalled, trace := DeleteGuard.ConfirmAndDelete(confirmAnswer, itemLabel := "moment",
                                                          total := |moments|, protectIfOnly := 0);
      effects := effects + trace;
      request := if deleteCalled then Some(id) else None;
      if deleteCalled && deleteOk {
        FetchMoments(refetch);
      }
    }
  }

  /** In a list with unique ids, starting to edit the moment at `k` puts exactly that card in
      edit mode and leaves the list as it was. */
  method ExactlyOneInEditMode(l: MomentList, k: nat)
    requires k < |l.moments| && UniqueIds(l.moments)
    modifies l
    ensures l.moments == old(l.moments)
    ensures forall j :: 0 <= j < |l.moments| ==> (l.InEditMode(l.moments[j]) <==> j == k)
  {
    l.StartEdit(l.moments[k]);
  }
}
