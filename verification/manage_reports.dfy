/**
 * The admin's report table: loading the community reports, changing a
 * report's status, deleting a report and mailing a summary.
 */
module ManageReports {
  import opened Api

  /** A community report as the table uses it; `user` is the reporter's name, when the report has a user. */
  datatype Report = Report(id: string, description: string, user: Option<string>, status: string, imageUrl: string)

  /** `reports.map(r => r._id === id ? { ...r, status } : r)`. */
  function SetStatus(reports: seq<Report>, id: string, status: string): seq<Report> {
    if reports == [] then []
    else
      [if reports[0].id == id then reports[0].(status := status) else reports[0]]
      + SetStatus(reports[1..], id, status)
  }

  /**
   * Position by position: a report with the id gets the new status and keeps
   * every other field; every other report is unchanged. Length, order and
   * ids are therefore preserved.
   */
  lemma {:induction false} SetStatusSpec(reports: seq<Report>, id: string, status: string)
    ensures |SetStatus(reports, id, status)| == |reports|
    ensures forall k :: 0 <= k < |reports| && reports[k].id == id ==>
              SetStatus(reports, id, status)[k] == reports[k].(status := status)
    ensures forall k :: 0 <= k < |reports| && reports[k].id != id ==>
              SetStatus(reports, id, status)[k] == reports[k]
  {
    if reports != [] {
      SetStatusSpec(reports[1..], id, status);
      var r := SetStatus(reports, id, status);
      assert forall k :: 1 <= k < |reports| ==> r[k] == SetStatus(reports[1..], id, status)[k - 1];
    }
  }

  lemma SetStatusKeepsIds(reports: seq<Report>, id: string, status: string)
    ensures |SetStatus(reports, id, status)| == |reports|
    ensures forall k :: 0 <= k < |reports| ==> SetStatus(reports, id, status)[k].id == reports[k].id
    ensures forall k :: 0 <= k < |reports| ==>
              SetStatus(reports, id, status)[k].description == reports[k].description
              && SetStatus(reports, id, status)[k].user == reports[k].user
              && SetStatus(reports, id, status)[k].imageUrl == reports[k].imageUrl
  {
    SetStatusSpec(reports, id, status);
  }

  /** Applying the same change twice is the same as applying it once. */
  lemma SetStatusIdempotent(reports: seq<Report>, id: string, status: string)
    ensures SetStatus(SetStatus(reports, id, status), id, status) == SetStatus(reports, id, status)
  {
    var once := SetStatus(reports, id, status);
    SetStatusSpec(reports, id, status);
    SetStatusSpec(once, id, status);
  }

  /** An id that no report carries leaves the list as it was. */
  lemma SetStatusUnknownId(reports: seq<Report>, id: string, status: string)
    requires forall k :: 0 <= k < |reports| ==> reports[k].id != id
    ensures SetStatus(reports, id, status) == reports
  {
    SetStatusSpec(reports, id, status);
  }

  const NewStatus := "new"
  const InProgressStatus := "in progress"
  const ResolvedStatus := "resolved"

  /** The values of the status selector's options, in display order. */
  const StatusOptions := [NewStatus, InProgressStatus, ResolvedStatus]

  const YellowBadge := "bg-yellow-100 text-yellow-800"
  const BlueBadge := "bg-blue-100 text-blue-800"
  const GreenBadge := "bg-green-100 text-green-800"
  const GrayBadge := "bg-gray-100 text-gray-800"

  /** `getStatusColor`: a colour for each selectable status, gray for anything else. */
  function StatusColor(status: string): (c: string)
    ensures c == GrayBadge <==> status !in StatusOptions
    ensures status == NewStatus ==> c == YellowBadge
    ensures status == InProgressStatus ==> c == BlueBadge
    ensures status == ResolvedStatus ==> c == GreenBadge
  {
    match status
    case "new" => YellowBadge
    case "in progress" => BlueBadge
    case "resolved" => GreenBadge
    case _ => GrayBadge
  }

  /** Distinct selectable statuses get distinct colours. */
  lemma StatusColorsDistinct(s: string, t: string)
    requires s in StatusOptions && t in StatusOptions && s != t
    ensures StatusColor(s) != StatusColor(t)
  {
  }

  const LoadError := "Failed to load reports."
  const DeleteAlert := "Failed to delete report."
  const StatusAlert := "Failed to update status."
  const EmailSending := "Sending..."
  const EmailError := "Failed to send report."

  class ManageReportsPanel {
    var reports: seq<Report>
    var loading: bool
    var error: string
    var emailStatus: string

    constructor ()
      ensures reports == [] && loading && error == "" && emailStatus == ""
    {
      reports, loading, error, emailStatus := [], true, "", "";
    }

    /**
     * `fetchReports`: without a user nothing happens (and loading stays as
     * it is); otherwise the list is replaced or the load error set, and
     * loading ends.
     */
    method FetchReports(loggedIn: bool, response: Outcome<seq<Report>>)
      modifies this
      ensures emailStatus == old(emailStatus)
      ensures !loggedIn ==> reports == old(reports) && loading == old(loading) && error == old(error)
      ensures loggedIn ==> !loading
      ensures loggedIn && response.Resolved? ==> reports == response.data && error == old(error)
      ensures loggedIn && response.Rejected? ==> reports == old(reports) && error == LoadError
    {
      if !loggedIn {
        return;
      }
      match response {
        case Resolved(data) => reports := data;
        case Rejected(_) => error := LoadError;
      }
      if loading {
        loading := false;
      }
    }

    /**
     * `handleStatusChange`: the list changes only after the server accepted
     * the new status; a failure leaves it untouched and raises an alert.
     */
    method HandleStatusChange(id: string, status: string, put: Outcome<()>) returns (alert: Option<string>)
      modifies this
      ensures put.Resolved? ==> reports == SetStatus(old(reports), id, status) && alert == None
      ensures put.Rejected? ==> reports == old(reports) && alert == Some(StatusAlert)
      ensures loading == old(loading) && error == old(error) && emailStatus == old(emailStatus)
    {
      alert := None;
      if put.Resolved? {
        reports := SetStatus(reports, id, status);
      } else {
        alert := Some(StatusAlert);
      }
    }

    /**
     * `handleDelete`: only after confirmation; a successful delete reloads
     * the list from the server, a failed one raises an alert.
     */
    method HandleDelete(id: string, confirmed: bool, del: Outcome<()>, reload: Outcome<seq<Report>>)
      returns (alert: Option<string>)
      modifies this
      ensures emailStatus == old(emailStatus)
      ensures !confirmed || del.Rejected? ==>
                reports == old(reports) && loading == old(loading) && error == old(error)
      ensures confirmed && del.Rejected? ==> alert == Some(DeleteAlert)
      ensures !confirmed || del.Resolved? ==> alert == None
      ensures confirmed && del.Resolved? && reload.Resolved? ==>
                reports == reload.data && error == old(error) && !loading
      ensures confirmed && del.Resolved? && reload.Rejected? ==>
                reports == old(reports) && error == LoadError && !loading
    {
      alert := None;
      if confirmed {
        if del.Resolved? {
          FetchReports(true, reload);
        } else {
          alert := Some(DeleteAlert);
        }
      }
    }

    /** The synchronous start of `handleEmailReport`. */
    method BeginEmailReport()
      modifies this
      ensures emailStatus == EmailSending
      ensures reports == old(reports) && loading == old(loading) && error == old(error)
    {
      emailStatus := EmailSending;
    }

    /** The settled request: the server's message, or its error message, or the fallback text. */
    method FinishEmailReport(response: Outcome<string>)
      modifies this
      ensures response.Resolved? ==> emailStatus == response.data
      ensures response.Rejected? ==> emailStatus == MessageOr(response.serverMessage, EmailError)
      ensures reports == old(reports) && loading == old(loading) && error == old(error)
    {
      match response {
        case Resolved(message) => emailStatus := message;
        case Rejected(serverMessage) => emailStatus := MessageOr(serverMessage, EmailError);
      }
    }
  }
}
