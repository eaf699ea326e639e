/**
 * The waste scanner: the custom image model's score vector is turned into a
 * category (first index of the highest score, looked up in the model's class
 * labels), a display configuration and a recyclability flag; around it, the
 * page's state while the model loads and an image is classified.
 *
 * The image preprocessing and the model's inference are floating-point
 * tensor operations of a foreign library: the scores are an input here.
 */
module Scanner {
  import opened Api
  import opened Browser
  import opened Auth

  // ---------------------------------------------------------------------
  // Resolving a score vector to a category
  // ---------------------------------------------------------------------

  /** `Math.max(...scores)` for a non-empty vector. */
  function Max(scores: seq<real>): (m: real)
    requires |scores| > 0
    ensures m in scores
    ensures forall k :: 0 <= k < |scores| ==> scores[k] <= m
  {
    if |scores| == 1 then scores[0]
    else
      var rest := Max(scores[1..]);
      if scores[0] >= rest then scores[0] else rest
  }

  /** `scores.indexOf(x)`: the first position holding `x`, or -1. */
  function IndexOf(scores: seq<real>, x: real): (k: int)
    ensures -1 <= k < |scores|
    ensures k == -1 <==> x !in scores
    ensures k >= 0 ==> scores[k] == x && forall j :: 0 <= j < k ==> scores[j] != x
  {
    if scores == [] then -1
    else if scores[0] == x then 0
    else
      var rest := IndexOf(scores[1..], x);
      if rest == -1 then -1 else rest + 1
  }

  /** The first position that holds the maximum score. */
  ghost predicate IsFirstMax(scores: seq<real>, k: int) {
    && 0 <= k < |scores|
    && (forall j :: 0 <= j < |scores| ==> scores[j] <= scores[k])
    && (forall j :: 0 <= j < k ==> scores[j] < scores[k])
  }

  /**
   * `predictions.indexOf(Math.max(...predictions))`. For an empty vector
   * `Math.max()` is `-Infinity`, which `indexOf` does not find: -1.
   */
  function TopIndex(scores: seq<real>): (k: int)
    ensures scores == [] <==> k == -1
    ensures scores != [] ==> IsFirstMax(scores, k)
  {
    if scores == [] then -1 else IndexOf(scores, Max(scores))
  }

  /** There is only one first maximum, so the chosen index is fully determined by the scores. */
  lemma FirstMaxUnique(scores: seq<real>, k: int)
    requires IsFirstMax(scores, k)
    ensures k == TopIndex(scores)
  {
    assert IsFirstMax(scores, TopIndex(scores));
  }

  const UnknownCategory := "Unknown"

  /**
   * `classNames[k] || 'Unknown'`: an index outside the labels gives
   * `undefined`, and an empty label is falsy; both fall back to 'Unknown'.
   */
  function Label(classNames: seq<string>, k: int): (category: string)
    ensures category != ""
    ensures 0 <= k < |classNames| && classNames[k] != "" ==> category == classNames[k]
    ensures !(0 <= k < |classNames|) || classNames[k] == "" ==> category == UnknownCategory
  {
    if 0 <= k < |classNames| && classNames[k] != "" then classNames[k] else UnknownCategory
  }

  /** The icon component shown on the result card. */
  datatype CategoryIcon = LeafIcon | RecycleIcon | WarningIcon | BiohazardIcon | ElectronicsIcon | UnknownIcon

  datatype CategoryConfig = CategoryConfig(styles: string, icon: CategoryIcon, description: string)

  /** The five category keys of the configuration table. */
  const WasteCategories: set<string> :=
    {"Wet Waste", "Dry Waste", "Hazardous Waste", "Biomedical Waste", "E-waste"}

  const UnknownConfig := CategoryConfig("bg-gray-100 border-gray-400 text-gray-700", UnknownIcon,
                                        "The waste category could not be determined.")

  /** `WASTE_CATEGORY_CONFIG`: one entry per category, plus the 'Unknown' fallback. */
  const ConfigTable: map<string, CategoryConfig> := map[
    "Wet Waste" := CategoryConfig("bg-green-50 border-green-500 text-green-800", LeafIcon,
                                  "This waste is organic and should be composted."),
    "Dry Waste" := CategoryConfig("bg-blue-50 border-blue-500 text-blue-800", RecycleIcon,
                                  "This item is typically recyclable. Please clean before disposal."),
    "Hazardous Waste" := CategoryConfig("bg-red-50 border-red-500 text-red-800", WarningIcon,
                                        "Handle with care. Do not mix with other waste."),
    "Biomedical Waste" := CategoryConfig("bg-pink-50 border-pink-500 text-pink-800", BiohazardIcon,
                                         "Requires special disposal. Contact local authorities."),
    "E-waste" := CategoryConfig("bg-gray-50 border-gray-500 text-gray-800", ElectronicsIcon,
                                "Electronic waste must be disposed of at designated collection points."),
    UnknownCategory := UnknownConfig
  ]

  /** `WASTE_CATEGORY_CONFIG[category] || WASTE_CATEGORY_CONFIG['Unknown']`. */
  function ConfigFor(category: string): CategoryConfig {
    if category in ConfigTable then ConfigTable[category] else ConfigTable[UnknownCategory]
  }

  /** A category gets its own entry exactly when it is one of the five; anything else gets the 'Unknown' entry. */
  lemma ConfigForSpec(category: string)
    ensures category in WasteCategories ==> ConfigFor(category) == ConfigTable[category]
    ensures ConfigFor(category) == UnknownConfig <==> category !in WasteCategories
    ensures ConfigFor(category).icon == UnknownIcon <==> category !in WasteCategories
  {
  }

  /** `RECYCLABLE_CATEGORIES`. */
  const RecyclableCategories: seq<string> := ["Dry Waste", "E-waste"]

  predicate IsRecyclable(category: string) {
    category in RecyclableCategories
  }

  /** Exactly dry waste and e-waste are recyclable; 'Unknown' never is. */
  lemma RecyclableSpec(category: string)
    ensures IsRecyclable(category) <==> category == "Dry Waste" || category == "E-waste"
    ensures IsRecyclable(category) ==> category in WasteCategories
    ensures !IsRecyclable(UnknownCategory)
  {
  }

  /** `finalResult`: the category with its configuration and recyclability. */
  datatype ScanResult = ScanResult(category: string, config: CategoryConfig, isRecyclable: bool)

  function Resolve(scores: seq<real>, classNames: seq<string>): ScanResult {
    var category := Label(classNames, TopIndex(scores));
    ScanResult(category, ConfigFor(category), IsRecyclable(category))
  }

  /**
   * The result's category is the non-empty label at the first maximum score,
   * or 'Unknown' when there is no score, no such label, or the label is empty;
   * its configuration and recyclability are those of that category.
   */
  lemma ResolveSpec(scores: seq<real>, classNames: seq<string>)
    ensures var r := Resolve(scores, classNames);
      && (r.category == UnknownCategory
          || exists k :: IsFirstMax(scores, k) && k < |classNames| && classNames[k] == r.category)
      && (scores == [] ==> r.category == UnknownCategory)
      && (forall k :: IsFirstMax(scores, k) && k < |classNames| && classNames[k] != "" ==>
            r.category == classNames[k])
      && (forall k :: IsFirstMax(scores, k) && (k >= |classNames| || classNames[k] == "") ==>
            r.category == UnknownCategory)
      && r.category != ""
      && r.config == ConfigFor(r.category)
      && (r.isRecyclable <==> r.category in {"Dry Waste", "E-waste"})
  {
    var r := Resolve(scores, classNames);
    forall k | IsFirstMax(scores, k) ensures k == TopIndex(scores) {
      FirstMaxUnique(scores, k);
    }
    RecyclableSpec(r.category);
  }

  /** The body of `POST /api/history` for a result. */
  datatype HistoryEntry = HistoryEntry(item: string, category: string)

  function HistoryFor(result: ScanResult): (h: HistoryEntry)
    ensures h.category == result.category
    ensures h.item == "Classified as " + result.category
  {
    HistoryEntry("Classified as " + result.category, result.category)
  }

  // ---------------------------------------------------------------------
  // The page's state
  // ---------------------------------------------------------------------

  const LoadingStatus := "Loading Custom AI Model..."
  const ReadyStatus := "Custom AI Model Ready!"
  const FailedStatus := "Failed to load Custom AI Model."
  const ModelLoadError := "Could not load the AI model. Please check the URL and refresh."
  const ClassifyError := "Could not classify the image. Please try another one."

  /**
   * How `loadModel` settles: the runtime or the model download throws (no
   * model), the label metadata download throws after the model was set, or
   * everything arrives.
   */
  datatype ModelLoad = ModelFailed | MetadataFailed | Loaded(labels: seq<string>)

  class ScannerPage {
    var file: Option<ImageFile>
    var result: Option<ScanResult>
    var loading: bool
    var modelStatus: string
    var error: string
    /** `model.current !== null`. */
    var modelLoaded: bool
    /** `classNames.current`. */
    var classNames: seq<string>

    /** The status is one of the three texts, and 'ready' is only shown once a model is held. */
    predicate Valid()
      reads this
    {
      && modelStatus in {LoadingStatus, ReadyStatus, FailedStatus}
      && (modelStatus == ReadyStatus ==> modelLoaded)
    }

    /** Whether the 'Classify Waste' button is shown and enabled. */
    predicate CanClassify()
      reads this
    {
      file.Some? && !loading && modelStatus == ReadyStatus
    }

    constructor ()
      ensures Valid()
      ensures file == None && result == None && !loading && error == ""
      ensures modelStatus == LoadingStatus && !modelLoaded && classNames == []
    {
      file, result, loading, error := None, None, false, "";
      modelStatus, modelLoaded, classNames := LoadingStatus, false, [];
    }

    /** The mount effect, run once while the status still says 'loading'; it ends ready or failed. */
    method LoadModel(outcome: ModelLoad)
      requires Valid() && modelStatus == LoadingStatus
      modifies this
      ensures Valid()
      ensures file == old(file) && result == old(result) && loading == old(loading)
      ensures outcome.Loaded? ==> modelStatus == ReadyStatus && modelLoaded
                                  && classNames == outcome.labels && error == old(error)
      ensures !outcome.Loaded? ==> modelStatus == FailedStatus && error == ModelLoadError
                                   && classNames == old(classNames)
      ensures modelLoaded == (outcome.Loaded? || outcome.MetadataFailed? || old(modelLoaded))
    {
      match outcome {
        case ModelFailed =>
          modelStatus := FailedStatus;
          error := ModelLoadError;
        case MetadataFailed =>
          modelLoaded := true;
          modelStatus := FailedStatus;
          error := ModelLoadError;
        case Loaded(labels) =>
          modelLoaded := true;
          classNames := labels;
          modelStatus := ReadyStatus;
      }
    }

    /** `handleFileChange`: a newly picked file clears the previous result and error. */
    method HandleFileChange(selected: Option<ImageFile>)
      requires Valid()
      modifies this
      ensures Valid()
      ensures selected.Some? ==> file == selected && result == None && error == ""
      ensures selected.None? ==> file == old(file) && result == old(result) && error == old(error)
      ensures loading == old(loading) && modelStatus == old(modelStatus)
      ensures modelLoaded == old(modelLoaded) && classNames == old(classNames)
    {
      if selected.Some? {
        file := selected;
        result := None;
        error := "";
      }
    }

    /**
     * `handleClassify` up to its first `await`: without a file or a model it
     * does nothing; otherwise it marks a classification in flight, which
     * disables the button.
     */
    method BeginClassify() returns (started: bool)
      requires Valid()
      modifies this
      ensures Valid()
      ensures started <==> old(file).Some? && old(modelLoaded)
      ensures old(CanClassify()) ==> started
      ensures started ==> loading && error == "" && !CanClassify()
      ensures !started ==> loading == old(loading) && error == old(error)
      ensures file == old(file) && result == old(result) && modelStatus == old(modelStatus)
      ensures modelLoaded == old(modelLoaded) && classNames == old(classNames)
    {
      if file.None? || !modelLoaded {
        return false;
      }
      loading := true;
      error := "";
      started := true;
    }

    /**
     * The rest of `handleClassify`. `inference` is the score vector, or None
     * when the tensor operations throw; `points` is how the add-points call
     * settles. For a logged-in user the points are awarded and, if that
     * succeeds, the returned history entry is posted; a failure there is only
     * logged. Loading is cleared on every path.
     */
    method FinishClassify(inference: Option<seq<real>>, auth: AuthProvider, points: Outcome<UserInfo>)
      returns (logged: Option<HistoryEntry>)
      requires Valid()
      modifies this, auth, auth.storage
      ensures Valid() && !loading
      ensures file == old(file) && modelStatus == old(modelStatus)
      ensures modelLoaded == old(modelLoaded) && classNames == old(classNames)
      ensures inference.None? ==> error == ClassifyError && result == old(result) && logged == None
      ensures inference.Some? ==> result == Some(Resolve(inference.value, classNames)) && error == old(error)
      ensures logged.Some? <==> inference.Some? && old(auth.userInfo).Some? && points.Resolved?
      ensures logged.Some? ==> logged.value == HistoryFor(result.value)
                               && auth.userInfo == Some(points.data) && auth.InSync()
      ensures logged.None? ==> auth.userInfo == old(auth.userInfo) && auth.storage.entry == old(auth.storage.entry)
    {
      logged := None;
      match inference {
        case None =>
          error := ClassifyError;
        case Some(scores) =>
          var finalResult := Resolve(scores, classNames);
          result := Some(finalResult);
          if auth.userInfo.Some? && points.Resolved? {
            auth.UpdateUser(points.data);
            logged := Some(HistoryFor(finalResult));
          }
      }
      loading := false;
    }

    /** The whole handler: the two halves above, back to back. */
    method HandleClassify(inference: Option<seq<real>>, auth: AuthProvider, points: Outcome<UserInfo>)
      returns (logged: Option<HistoryEntry>)
      requires Valid()
      modifies this, auth, auth.storage
      ensures Valid()
      ensures file == old(file) && modelStatus == old(modelStatus)
      ensures modelLoaded == old(modelLoaded) && classNames == old(classNames)
      ensures old(file).Some? && old(modelLoaded) ==> !loading
      ensures !(old(file).Some? && old(modelLoaded)) ==>
                loading == old(loading) && result == old(result) && error == old(error) && logged == None
                && auth.userInfo == old(auth.userInfo) && auth.storage.entry == old(auth.storage.entry)
      ensures old(file).Some? && old(modelLoaded) && inference.Some? ==>
                result == Some(Resolve(inference.value, old(classNames))) && error == ""
      ensures old(file).Some? && old(modelLoaded) && inference.None? ==>
                error == ClassifyError && result == old(result) && logged == None
      ensures logged.Some? <==>
                old(file).Some? && old(modelLoaded) && inference.Some? && old(auth.userInfo).Some? && points.Resolved?
      ensures logged.Some? ==> logged.value == HistoryFor(result.value)
                               && auth.userInfo == Some(points.data) && auth.InSync()
      ensures logged.None? ==> auth.userInfo == old(auth.userInfo) && auth.storage.entry == old(auth.storage.entry)
    {
      var started := BeginClassify();
      logged := None;
      if started {
        logged := FinishClassify(inference, auth, points);
      }
    }
  }
}
