/**
 * The "report an issue" page: a photo, a description and the reporter's
 * position, sent as a multipart form.
 */
module ReportIssue {
  import opened Api
  import opened Browser
  import opened GeoJson

  /** `{ type: 'Point', coordinates: [longitude, latitude] }`. */
  function BuildLocation(latitude: real, longitude: real): (g: Geometry)
    ensures g.kind == PointKind && |g.coordinates| == 2
    ensures g.coordinates[0] == longitude && g.coordinates[1] == latitude
  {
    Geometry(PointKind, [longitude, latitude])
  }

  /** One `formData.append(key, value)`; the location is sent as its JSON text. */
  datatype FormValue = FilePart(file: ImageFile) | TextPart(text: string) | JsonPart(geometry: Geometry)
  datatype FormEntry = FormEntry(key: string, value: FormValue)

  /** What the submit handler's position callback has captured: the file and description at submit time. */
  datatype PendingReport = PendingReport(file: ImageFile, description: string)

  const NoImageError := "Please upload an image."
  const LocationError := "Could not get your location. Please enable location services in your browser."
  const SubmitError := "Failed to submit report. Please try again."
  const SubmitSuccess := "Report submitted successfully! Thank you for your contribution."

  /** The form body: exactly the image, the description and the location, in that order. */
  method BuildFormData(file: ImageFile, description: string, location: Geometry) returns (form: seq<FormEntry>)
    ensures |form| == 3
    ensures form[0] == FormEntry("image", FilePart(file))
    ensures form[1] == FormEntry("description", TextPart(description))
    ensures form[2] == FormEntry("location", JsonPart(location))
  {
    form := [];
    form := form + [FormEntry("image", FilePart(file))];
    form := form + [FormEntry("description", TextPart(description))];
    form := form + [FormEntry("location", JsonPart(location))];
  }

  class ReportIssuePage {
    var description: string
    var file: Option<ImageFile>
    var loading: bool
    var error: string
    var success: string
    /** The navigation scheduled with `setTimeout` after a successful submission. */
    var redirect: Option<string>

    constructor ()
      ensures description == "" && file == None && !loading
      ensures error == "" && success == "" && redirect == None
    {
      description, file, loading := "", None, false;
      error, success, redirect := "", "", None;
    }

    method HandleFileChange(selected: Option<ImageFile>)
      modifies this
      ensures file == (if selected.Some? then selected else old(file))
      ensures description == old(description) && loading == old(loading)
      ensures error == old(error) && success == old(success) && redirect == old(redirect)
    {
      if selected.Some? {
        file := selected;
      }
    }

    /**
     * The synchronous part of `handleSubmit`: clear both messages and set
     * loading; without a file, report it and stop. Otherwise the position is
     * requested, and `pending` is what its callbacks will use.
     */
    method HandleSubmit() returns (pending: Option<PendingReport>)
      modifies this
      ensures success == "" && redirect == old(redirect)
      ensures file == old(file) && description == old(description)
      ensures old(file).None? ==> pending == None && error == NoImageError && !loading
      ensures old(file).Some? ==> pending == Some(PendingReport(old(file).value, old(description)))
                                  && error == "" && loading
    {
      loading := true;
      error := "";
      success := "";
      if file.None? {
        error := NoImageError;
        loading := false;
        return None;
      }
      pending := Some(PendingReport(file.value, description));
    }

    /**
     * The position callback: build the GeoJSON point and the form, post it,
     * and on every outcome clear loading.
     */
    method OnPosition(pending: PendingReport, latitude: real, longitude: real, post: Outcome<()>)
      returns (sent: seq<FormEntry>)
      modifies this
      ensures sent == [FormEntry("image", FilePart(pending.file)),
                       FormEntry("description", TextPart(pending.description)),
                       FormEntry("location", JsonPart(BuildLocation(latitude, longitude)))]
      ensures !loading
      ensures file == old(file) && description == old(description)
      ensures post.Resolved? ==> success == SubmitSuccess && redirect == Some("/") && error == old(error)
      ensures post.Rejected? ==> error == SubmitError && success == old(success) && redirect == old(redirect)
    {
      var location := BuildLocation(latitude, longitude);
      sent := BuildFormData(pending.file, pending.description, location);
      if post.Resolved? {
        success := SubmitSuccess;
        redirect := Some("/");
      } else {
        error := SubmitError;
      }
      loading := false;
    }

    /** The geolocation error callback: nothing is sent. */
    method OnPositionError()
      modifies this
      ensures error == LocationError && !loading
      ensures success == old(success) && redirect == old(redirect)
      ensures file == old(file) && description == old(description)
    {
      error := LocationError;
      loading := false;
    }
  }
}
