/**
 * The profile page: per-category counts of the user's scan history, and the
 * colour classes of each history entry's category badge.
 */
module Profile {
  import opened Api
  import opened Text
  import Scanner

  datatype Scan = Scan(item: string, category: string)

  const TotalKey := "total"

  /** Number of scans with category `c`. */
  function Count(history: seq<Scan>, c: string): nat {
    if history == [] then 0
    else Count(history[..|history| - 1], c) + (if history[|history| - 1].category == c then 1 else 0)
  }

  /** `stats[key] || 0`: a missing key reads as 0. */
  function Shown(stats: map<string, nat>, key: string): nat {
    if key in stats then stats[key] else 0
  }

  /**
   * The `reduce` over the history. `total` and the categories share one
   * object, so a scan whose category is itself "total" adds to `total` twice.
   */
  ghost predicate IsStatsOf(stats: map<string, nat>, history: seq<Scan>) {
    && (history == [] ==> stats == map[])
    && (history != [] ==> TotalKey in stats && stats[TotalKey] == |history| + Count(history, TotalKey))
    && (forall c :: c != TotalKey ==> (c in stats <==> Count(history, c) > 0))
    && (forall c :: c in stats && c != TotalKey ==> stats[c] == Count(history, c))
  }

  method ComputeStats(history: seq<Scan>) returns (stats: map<string, nat>)
    ensures IsStatsOf(stats, history)
  {
    stats := map[];
    var i := 0;
    while i < |history|
      invariant 0 <= i <= |history|
      invariant IsStatsOf(stats, history[..i])
    {
      assert history[..i + 1][..i] == history[..i];
      var scan := history[i];
      stats := stats[TotalKey := Shown(stats, TotalKey) + 1];
      stats := stats[scan.category := Shown(stats, scan.category) + 1];
      i := i + 1;
    }
    assert history[..|history|] == history;
  }

  /** What the cards display: the total (0 for an empty history) and each category's count (0 when absent). */
  lemma DisplayedStats(stats: map<string, nat>, history: seq<Scan>, c: string)
    requires IsStatsOf(stats, history)
    requires c != TotalKey
    ensures Shown(stats, TotalKey) == |history| + Count(history, TotalKey)
    ensures Shown(stats, c) == Count(history, c)
  {
  }

  /** The categories of the history, each once, in order of first appearance. */
  function Categories(history: seq<Scan>): seq<string> {
    if history == [] then []
    else
      var earlier := Categories(history[..|history| - 1]);
      var c := history[|history| - 1].category;
      if c in earlier then earlier else earlier + [c]
  }

  /** Sum of the counts of the given categories. */
  function SumCounts(history: seq<Scan>, cs: seq<string>): nat {
    if cs == [] then 0 else Count(history, cs[0]) + SumCounts(history, cs[1..])
  }

  ghost predicate Distinct(cs: seq<string>) {
    forall i, j :: 0 <= i < j < |cs| ==> cs[i] != cs[j]
  }

  lemma {:induction false} CategoriesSpec(history: seq<Scan>)
    ensures Distinct(Categories(history))
    ensures forall c :: c in Categories(history) <==> Count(history, c) > 0
  {
    if history != [] {
      CategoriesSpec(history[..|history| - 1]);
    }
  }

  lemma {:induction false} SumCountsAppend(history: seq<Scan>, cs: seq<string>, c: string)
    ensures SumCounts(history, cs + [c]) == SumCounts(history, cs) + Count(history, c)
  {
    if cs != [] {
      assert (cs + [c])[1..] == cs[1..] + [c];
      SumCountsAppend(history, cs[1..], c);
    }
  }

  /** Adding a scan raises the sum over distinct categories by one exactly when its category is among them. */
  lemma {:induction false} SumCountsSnoc(history: seq<Scan>, cs: seq<string>)
    requires history != [] && Distinct(cs)
    ensures SumCounts(history, cs) ==
      SumCounts(history[..|history| - 1], cs) + (if history[|history| - 1].category in cs then 1 else 0)
  {
    if cs != [] {
      assert Distinct(cs[1..]);
      SumCountsSnoc(history, cs[1..]);
      assert cs[0] !in cs[1..];
      assert history[|history| - 1].category in cs <==>
        history[|history| - 1].category == cs[0] || history[|history| - 1].category in cs[1..];
    }
  }

  /** Every scan is counted under exactly one category. */
  lemma {:induction false} CountsSumToLength(history: seq<Scan>)
    ensures SumCounts(history, Categories(history)) == |history|
  {
    if history != [] {
      var earlier := history[..|history| - 1];
      var c := history[|history| - 1].category;
      CountsSumToLength(earlier);
      CategoriesSpec(earlier);
      if c in Categories(earlier) {
        SumCountsSnoc(history, Categories(earlier));
      } else {
        SumCountsAppend(history, Categories(earlier), c);
        SumCountsSnoc(history, Categories(earlier));
      }
    }
  }

  /** Sum of the displayed values of the given keys. */
  function SumShown(stats: map<string, nat>, cs: seq<string>): nat {
    if cs == [] then 0 else Shown(stats, cs[0]) + SumShown(stats, cs[1..])
  }

  lemma {:induction false} SumShownIsSumCounts(stats: map<string, nat>, history: seq<Scan>, cs: seq<string>)
    requires IsStatsOf(stats, history)
    requires TotalKey !in cs
    ensures SumShown(stats, cs) == SumCounts(history, cs)
  {
    if cs != [] {
      SumShownIsSumCounts(stats, history, cs[1..]);
    }
  }

  /**
   * When no scan is itself categorised "total", the per-category entries of
   * `stats` are exactly the history's categories and add up to `stats.total`.
   */
  lemma CategoryStatsSumToTotal(stats: map<string, nat>, history: seq<Scan>)
    requires IsStatsOf(stats, history)
    requires history != []
    requires forall k :: 0 <= k < |history| ==> history[k].category != TotalKey
    ensures stats.Keys == {TotalKey} + set c | c in Categories(history)
    ensures SumShown(stats, Categories(history)) == stats[TotalKey]
  {
    CategoriesSpec(history);
    CountsSumToLength(history);
    assert Count(history, TotalKey) == 0 by {
      if Count(history, TotalKey) > 0 {
        CategoryOccurs(history, TotalKey);
      }
    }
    assert TotalKey !in Categories(history);
    SumShownIsSumCounts(stats, history, Categories(history));
  }

  lemma {:induction false} CategoryOccurs(history: seq<Scan>, c: string)
    requires Count(history, c) > 0
    ensures exists k :: 0 <= k < |history| && history[k].category == c
  {
    var earlier := history[..|history| - 1];
    if history[|history| - 1].category != c {
      CategoryOccurs(earlier, c);
      var k :| 0 <= k < |earlier| && earlier[k].category == c;
      assert history[k].category == c;
    }
  }

  /** A scan whose category is "total" makes the displayed total exceed the number of scans. */
  lemma TotalCategoryCountsTwice(stats: map<string, nat>)
    requires IsStatsOf(stats, [Scan("Classified as total", TotalKey)])
    ensures Shown(stats, TotalKey) == 2
  {
    var h := [Scan("Classified as total", TotalKey)];
    assert h[..0] == [];
    assert Count(h, TotalKey) == 1;
  }

  // ---------------------------------------------------------------------
  // Category badge colours
  // ---------------------------------------------------------------------

  const WetClass := "bg-green-100 text-green-800"
  const DryClass := "bg-blue-100 text-blue-800"
  const EWasteClass := "bg-purple-100 text-purple-800"
  const HazardousClass := "bg-red-100 text-red-800"

  /**
   * The four independent tests of the badge's class string, as written:
   * the e-waste test spells its keyword 'E-Waste'.
   */
  function BadgeClasses(category: string): seq<string> {
    (if Contains(category, "Wet") then [WetClass] else [])
    + (if Contains(category, "Dry") then [DryClass] else [])
    + (if Contains(category, "E-Waste") then [EWasteClass] else [])
    + (if Contains(category, "Hazardous") then [HazardousClass] else [])
  }

  /** Each class is present exactly when its keyword occurs; the tests are independent, so classes accumulate. */
  lemma BadgeClassesSpec(category: string)
    ensures WetClass in BadgeClasses(category) <==> Contains(category, "Wet")
    ensures DryClass in BadgeClasses(category) <==> Contains(category, "Dry")
    ensures EWasteClass in BadgeClasses(category) <==> Contains(category, "E-Waste")
    ensures HazardousClass in BadgeClasses(category) <==> Contains(category, "Hazardous")
  {
  }

  /** The scanner records e-waste as 'E-waste', which none of the four tests matches: its badge is uncoloured. */
  lemma ScannerEWasteUncoloured()
    ensures BadgeClasses("E-waste") == []
  {
    MissingCharNotContained("E-waste", "Wet", 'W');
    MissingCharNotContained("E-waste", "Dry", 'D');
    MissingCharNotContained("E-waste", "E-Waste", 'W');
    MissingCharNotContained("E-waste", "Hazardous", 'H');
  }

  /** The badge classes with the e-waste test spelled as the scanner spells the category. */
  function BadgeClassesCorrected(category: string): seq<string> {
    (if Contains(category, "Wet") then [WetClass] else [])
    + (if Contains(category, "Dry") then [DryClass] else [])
    + (if Contains(category, "E-waste") then [EWasteClass] else [])
    + (if Contains(category, "Hazardous") then [HazardousClass] else [])
  }

  /** With the corrected spelling, the scanner's 'E-waste' gets exactly the purple class. */
  lemma CorrectedColoursScannerEWaste()
    ensures BadgeClassesCorrected("E-waste") == [EWasteClass]
    ensures forall c :: EWasteClass in BadgeClassesCorrected(c) <==> Contains(c, "E-waste")
  {
    MissingCharNotContained("E-waste", "Wet", 'W');
    MissingCharNotContained("E-waste", "Dry", 'D');
    MissingCharNotContained("E-waste", "Hazardous", 'H');
    ContainsInfix("", "E-waste", "");
    assert "" + "E-waste" + "" == "E-waste";
  }

  /**
   * The scanner records the result's category as the history category, so a
   * scan resolved to 'E-waste' shows an uncoloured badge on the profile, and a
   * purple one once the test is spelled as the scanner spells it.
   */
  lemma ScannedEWasteBadge(result: Scanner.ScanResult)
    requires result.category == "E-waste"
    ensures BadgeClasses(Scanner.HistoryFor(result).category) == []
    ensures BadgeClassesCorrected(Scanner.HistoryFor(result).category) == [EWasteClass]
  {
    ScannerEWasteUncoloured();
    CorrectedColoursScannerEWaste();
  }

  const HistoryError := "Failed to load your scan history."

  class ProfilePage {
    var history: seq<Scan>
    var loading: bool
    var error: string

    constructor ()
      ensures history == [] && loading && error == ""
    {
      history, loading, error := [], true, "";
    }

    /** `fetchHistory`: without a user nothing happens; otherwise the history or the error is set and loading ends. */
    method FetchHistory(loggedIn: bool, response: Outcome<seq<Scan>>)
      modifies this
      ensures !loggedIn ==> history == old(history) && loading == old(loading) && error == old(error)
      ensures loggedIn ==> !loading
      ensures loggedIn && response.Resolved? ==> history == response.data && error == old(error)
      ensures loggedIn && response.Rejected? ==> history == old(history) && error == HistoryError
    {
      if !loggedIn {
        return;
      }
      match response {
        case Resolved(data) => history := data;
        case Rejected(_) => error := HistoryError;
      }
      loading := false;
    }
  }
}
