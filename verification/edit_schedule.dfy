/**
 * The admin's schedule editor: local edits of each area's collection
 * details, and saving, adding and deleting schedules on the server.
 */
module EditSchedule {
  import opened Api

  datatype Schedule = Schedule(id: string, area: string, collection: string)

  /** The two editable properties: `'area'` (the input) and `'collection'` (the textarea). */
  datatype Field = Area | Collection

  /** `{ ...s, [field]: value }`. */
  function WithField(s: Schedule, field: Field, value: string): Schedule {
    match field
    case Area => s.(area := value)
    case Collection => s.(collection := value)
  }

  /** `handleChange`: `schedules.map(s => s._id === id ? { ...s, [field]: value } : s)`. */
  function ChangeField(schedules: seq<Schedule>, id: string, field: Field, value: string): seq<Schedule> {
    if schedules == [] then []
    else
      [if schedules[0].id == id then WithField(schedules[0], field, value) else schedules[0]]
      + ChangeField(schedules[1..], id, field, value)
  }

  /** The value of one field of a schedule. */
  function FieldOf(s: Schedule, field: Field): string {
    match field
    case Area => s.area
    case Collection => s.collection
  }

  /**
   * Position by position: a schedule with the id has `field` set to the
   * value, and its id and other field unchanged; every other schedule is
   * unchanged.
   */
  lemma {:induction false} ChangeFieldSpec(schedules: seq<Schedule>, id: string, field: Field, value: string)
    ensures |ChangeField(schedules, id, field, value)| == |schedules|
    ensures forall k :: 0 <= k < |schedules| ==> ChangeField(schedules, id, field, value)[k].id == schedules[k].id
    ensures forall k :: 0 <= k < |schedules| && schedules[k].id == id ==>
              FieldOf(ChangeField(schedules, id, field, value)[k], field) == value
    ensures forall k, other: Field :: 0 <= k < |schedules| && other != field ==>
              FieldOf(ChangeField(schedules, id, field, value)[k], other) == FieldOf(schedules[k], other)
    ensures forall k :: 0 <= k < |schedules| && schedules[k].id != id ==>
              ChangeField(schedules, id, field, value)[k] == schedules[k]
  {
    if schedules != [] {
      ChangeFieldSpec(schedules[1..], id, field, value);
      var r := ChangeField(schedules, id, field, value);
      assert forall k :: 1 <= k < |schedules| ==> r[k] == ChangeField(schedules[1..], id, field, value)[k - 1];
    }
  }

  /** Making the same change twice is the same as making it once. */
  lemma ChangeFieldIdempotent(schedules: seq<Schedule>, id: string, field: Field, value: string)
    ensures ChangeField(ChangeField(schedules, id, field, value), id, field, value)
            == ChangeField(schedules, id, field, value)
  {
    var once := ChangeField(schedules, id, field, value);
    ChangeFieldSpec(schedules, id, field, value);
    ChangeFieldSpec(once, id, field, value);
    var twice := ChangeField(once, id, field, value);
    forall k | 0 <= k < |schedules|
      ensures twice[k] == once[k]
    {
      if schedules[k].id == id {
        match field {
          case Area => assert twice[k].area == once[k].area;
          case Collection => assert twice[k].collection == once[k].collection;
        }
      }
    }
  }

  /** Edits of different schedules, or of different fields, can be made in either order. */
  lemma ChangeFieldCommutes(schedules: seq<Schedule>, id1: string, f1: Field, v1: string,
                            id2: string, f2: Field, v2: string)
    requires id1 != id2 || f1 != f2
    ensures ChangeField(ChangeField(schedules, id1, f1, v1), id2, f2, v2)
            == ChangeField(ChangeField(schedules, id2, f2, v2), id1, f1, v1)
  {
    var a := ChangeField(schedules, id1, f1, v1);
    var b := ChangeField(schedules, id2, f2, v2);
    ChangeFieldSpec(schedules, id1, f1, v1);
    ChangeFieldSpec(schedules, id2, f2, v2);
    ChangeFieldSpec(a, id2, f2, v2);
    ChangeFieldSpec(b, id1, f1, v1);
    var ab := ChangeField(a, id2, f2, v2);
    var ba := ChangeField(b, id1, f1, v1);
    forall k | 0 <= k < |schedules|
      ensures ab[k] == ba[k]
    {
      assert FieldOf(ab[k], Area) == FieldOf(ba[k], Area);
      assert FieldOf(ab[k], Collection) == FieldOf(ba[k], Collection);
    }
  }

  /** `schedules.find(s => s._id === id)`: the first schedule with that id, if any. */
  function FindSchedule(schedules: seq<Schedule>, id: string): (r: Option<Schedule>)
    ensures r.None? <==> forall k :: 0 <= k < |schedules| ==> schedules[k].id != id
    ensures r.Some? ==> exists k :: 0 <= k < |schedules| && schedules[k] == r.value && r.value.id == id
                          && forall j :: 0 <= j < k ==> schedules[j].id != id
  {
    if schedules == [] then None
    else if schedules[0].id == id then Some(schedules[0])
    else
      var r := FindSchedule(schedules[1..], id);
      assert forall k :: 1 <= k < |schedules| ==> schedules[k] == schedules[1..][k - 1];
      r
  }

  /** After an edit, saving that schedule sends the edited value. */
  lemma SaveSendsEdit(schedules: seq<Schedule>, id: string, field: Field, value: string)
    requires FindSchedule(schedules, id).Some?
    ensures FindSchedule(ChangeField(schedules, id, field, value), id).Some?
    ensures FieldOf(FindSchedule(ChangeField(schedules, id, field, value), id).value, field) == value
  {
    ChangeFieldSpec(schedules, id, field, value);
    var edited := ChangeField(schedules, id, field, value);
    var found := FindSchedule(edited, id);
    var k :| 0 <= k < |edited| && edited[k] == found.value && found.value.id == id;
    assert schedules[k].id == id;
  }

  /** `Successfully saved changes for "<area>".` */
  function SavedMessage(area: string): (m: string)
    ensures |m| == |area| + 34
    ensures m[32..32 + |area|] == area
  {
    "Successfully saved changes for \"" + area + "\"."
  }

  const LoadError := "Failed to load schedules."
  const SaveError := "Failed to save schedule."
  const AddError := "Failed to add new schedule."
  const DeleteError := "Failed to delete schedule."

  /** The body of the save request. */
  datatype SavePayload = SavePayload(area: string, collection: string)

  /** What the panel renders. */
  datatype View = LoadingView | ErrorView(message: string) | EditorView(schedules: seq<Schedule>, banner: Option<string>)

  function Render(loading: bool, error: string, success: string, schedules: seq<Schedule>): (v: View)
    ensures loading <==> v.LoadingView?
    ensures v.ErrorView? <==> !loading && error != ""
    ensures v.EditorView? ==> v.schedules == schedules && (v.banner.Some? <==> success != "")
  {
    if loading then LoadingView
    else if error != "" then ErrorView(error)
    else EditorView(schedules, if success != "" then Some(success) else None)
  }

  class EditSchedulePanel {
    var schedules: seq<Schedule>
    var loading: bool
    var error: string
    var success: string

    constructor ()
      ensures schedules == [] && loading && error == "" && success == ""
    {
      schedules, loading, error, success := [], true, "", "";
    }

    /**
     * `fetchSchedules`: the list is replaced, or the load error set; loading
     * ends either way. A successful load does not clear an earlier error.
     */
    method FetchSchedules(response: Outcome<seq<Schedule>>)
      modifies this
      ensures !loading && success == old(success)
      ensures response.Resolved? ==> schedules == response.data && error == old(error)
      ensures response.Rejected? ==> schedules == old(schedules) && error == LoadError
    {
      loading := true;
      match response {
        case Resolved(data) => schedules := data;
        case Rejected(_) => error := LoadError;
      }
      loading := false;
    }

    method HandleChange(id: string, field: Field, value: string)
      modifies this
      ensures schedules == ChangeField(old(schedules), id, field, value)
      ensures loading == old(loading) && error == old(error) && success == old(success)
    {
      schedules := ChangeField(schedules, id, field, value);
    }

    /**
     * `handleSave`: the success message is cleared first. An unknown id
     * fails before any request (reading `area` of `undefined` throws, and the
     * `catch` reports a save error); otherwise exactly the found schedule's
     * area and collection are sent.
     */
    method HandleSave(id: string, put: Outcome<()>) returns (sent: Option<SavePayload>)
      modifies this
      ensures schedules == old(schedules) && loading == old(loading)
      ensures FindSchedule(old(schedules), id).None? ==> sent == None && success == "" && error == SaveError
      ensures FindSchedule(old(schedules), id).Some? ==>
                sent == Some(SavePayload(FindSchedule(old(schedules), id).value.area,
                                         FindSchedule(old(schedules), id).value.collection))
      ensures sent.Some? && put.Resolved? ==> success == SavedMessage(sent.value.area) && error == old(error)
      ensures sent.Some? && put.Rejected? ==> success == "" && error == SaveError
    {
      var scheduleToUpdate := FindSchedule(schedules, id);
      success := "";
      if scheduleToUpdate.None? {
        error := SaveError;
        return None;
      }
      sent := Some(SavePayload(scheduleToUpdate.value.area, scheduleToUpdate.value.collection));
      if put.Resolved? {
        success := SavedMessage(scheduleToUpdate.value.area);
      } else {
        error := SaveError;
      }
    }

    /** `handleAdd`: the server creates a default schedule, then the list is reloaded. */
    method HandleAdd(post: Outcome<()>, reload: Outcome<seq<Schedule>>)
      modifies this
      ensures success == ""
      ensures post.Rejected? ==> schedules == old(schedules) && loading == old(loading) && error == AddError
      ensures post.Resolved? && reload.Resolved? ==> schedules == reload.data && !loading && error == old(error)
      ensures post.Resolved? && reload.Rejected? ==> schedules == old(schedules) && !loading && error == LoadError
    {
      success := "";
      if post.Resolved? {
        FetchSchedules(reload);
      } else {
        error := AddError;
      }
    }

    /** `handleDelete`: nothing at all happens unless the admin confirms. */
    method HandleDelete(id: string, confirmed: bool, del: Outcome<()>, reload: Outcome<seq<Schedule>>)
      modifies this
      ensures !confirmed ==> schedules == old(schedules) && loading == old(loading)
                             && error == old(error) && success == old(success)
      ensures confirmed ==> success == ""
      ensures confirmed && del.Rejected? ==> schedules == old(schedules) && loading == old(loading) && error == DeleteError
      ensures confirmed && del.Resolved? && reload.Resolved? ==> schedules == reload.data && !loading && error == old(error)
      ensures confirmed && del.Resolved? && reload.Rejected? ==> schedules == old(schedules) && !loading && error == LoadError
    {
      if confirmed {
        success := "";
        if del.Resolved? {
          FetchSchedules(reload);
        } else {
          error := DeleteError;
        }
      }
    }
  }

  /** Once an error is set, reloading successfully still shows the error view. */
  lemma ErrorOutlivesReload(error: string, success: string, schedules: seq<Schedule>)
    requires error != ""
    ensures Render(false, error, success, schedules) == ErrorView(error)
  {
  }
}
