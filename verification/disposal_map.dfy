/**
 * The disposal map: the marker icon and popup colour chosen for a
 * location's type, and where the marker is placed.
 */
module DisposalMap {
  import opened Api
  import opened Text
  import opened GeoJson
  import ReportIssue

  datatype MarkerIcon = GreenIcon | BlueIcon | GoldIcon | PurpleIcon | RedIcon | OrangeIcon

  /** `getIcon`: the first rule whose keyword occurs in the type decides; orange otherwise. */
  function GetIcon(locationType: string): MarkerIcon {
    if Contains(locationType, "General") || Contains(locationType, "Plastic")
       || Contains(locationType, "Organic") || Contains(locationType, "Scrap") then GreenIcon
    else if Contains(locationType, "E-Waste") then BlueIcon
    else if Contains(locationType, "Battery") then GoldIcon
    else if Contains(locationType, "Donation") then PurpleIcon
    else if Contains(locationType, "Chemical") || Contains(locationType, "Hazardous") then RedIcon
    else OrangeIcon
  }

  /** `getPopupTextColor`: the same tests, giving a CSS colour. */
  function GetPopupTextColor(locationType: string): string {
    if Contains(locationType, "General") || Contains(locationType, "Plastic")
       || Contains(locationType, "Organic") || Contains(locationType, "Scrap") then "#28a745"
    else if Contains(locationType, "E-Waste") then "#007bff"
    else if Contains(locationType, "Battery") then "#b8860b"
    else if Contains(locationType, "Donation") then "#8A2BE2"
    else if Contains(locationType, "Chemical") || Contains(locationType, "Hazardous") then "#DC143C"
    else "#FF8C00"
  }

  /** One row of the reference rule table. */
  datatype Rule = Rule(keywords: seq<string>, icon: MarkerIcon, color: string)

  /** The rules in the order they are tried; a type matching none gets `Fallback`. */
  const Rules: seq<Rule> := [
    Rule(["General", "Plastic", "Organic", "Scrap"], GreenIcon, "#28a745"),
    Rule(["E-Waste"], BlueIcon, "#007bff"),
    Rule(["Battery"], GoldIcon, "#b8860b"),
    Rule(["Donation"], PurpleIcon, "#8A2BE2"),
    Rule(["Chemical", "Hazardous"], RedIcon, "#DC143C")
  ]
  const Fallback := Rule([], OrangeIcon, "#FF8C00")

  predicate MatchesAny(locationType: string, keywords: seq<string>) {
    exists k :: 0 <= k < |keywords| && Contains(locationType, keywords[k])
  }

  /** Reference definition: the first rule of `rules` that matches, or `Fallback`. */
  function FirstMatch(locationType: string, rules: seq<Rule>): (r: Rule)
    ensures r == Fallback || r in rules
  {
    if rules == [] then Fallback
    else if MatchesAny(locationType, rules[0].keywords) then rules[0]
    else FirstMatch(locationType, rules[1..])
  }

  /** Both lookups follow the rule table rule for rule: icon and colour come from the same rule. */
  lemma LookupsFollowRules(locationType: string)
    ensures GetIcon(locationType) == FirstMatch(locationType, Rules).icon
    ensures GetPopupTextColor(locationType) == FirstMatch(locationType, Rules).color
  {
    var t := locationType;
    var r := Rules;
    assert MatchesAny(t, r[0].keywords) <==>
      Contains(t, "General") || Contains(t, "Plastic") || Contains(t, "Organic") || Contains(t, "Scrap") by {
      if Contains(t, "General") { assert r[0].keywords[0] == "General"; }
      if Contains(t, "Plastic") { assert r[0].keywords[1] == "Plastic"; }
      if Contains(t, "Organic") { assert r[0].keywords[2] == "Organic"; }
      if Contains(t, "Scrap") { assert r[0].keywords[3] == "Scrap"; }
    }
    assert MatchesAny(t, r[1].keywords) <==> Contains(t, "E-Waste") by {
      if Contains(t, "E-Waste") { assert r[1].keywords[0] == "E-Waste"; }
    }
    assert MatchesAny(t, r[2].keywords) <==> Contains(t, "Battery") by {
      if Contains(t, "Battery") { assert r[2].keywords[0] == "Battery"; }
    }
    assert MatchesAny(t, r[3].keywords) <==> Contains(t, "Donation") by {
      if Contains(t, "Donation") { assert r[3].keywords[0] == "Donation"; }
    }
    assert MatchesAny(t, r[4].keywords) <==> Contains(t, "Chemical") || Contains(t, "Hazardous") by {
      if Contains(t, "Chemical") { assert r[4].keywords[0] == "Chemical"; }
      if Contains(t, "Hazardous") { assert r[4].keywords[1] == "Hazardous"; }
    }
    assert r[1..][1..][1..][1..][1..] == [];
    assert FirstMatch(t, r[1..][1..][1..][1..]) ==
      if MatchesAny(t, r[4].keywords) then r[4] else Fallback;
    assert FirstMatch(t, r[1..][1..][1..]) ==
      if MatchesAny(t, r[3].keywords) then r[3] else FirstMatch(t, r[1..][1..][1..][1..]);
    assert FirstMatch(t, r[1..][1..]) ==
      if MatchesAny(t, r[2].keywords) then r[2] else FirstMatch(t, r[1..][1..][1..]);
    assert FirstMatch(t, r[1..]) ==
      if MatchesAny(t, r[1].keywords) then r[1] else FirstMatch(t, r[1..][1..]);
  }

  /** The popup colour paired with each marker icon. */
  function IconColor(icon: MarkerIcon): string {
    match icon
    case GreenIcon => "#28a745"
    case BlueIcon => "#007bff"
    case GoldIcon => "#b8860b"
    case PurpleIcon => "#8A2BE2"
    case RedIcon => "#DC143C"
    case OrangeIcon => "#FF8C00"
  }

  /** The colour is determined by the icon: green goes with '#28a745', red with '#DC143C', and so on. */
  lemma ColorAgreesWithIcon(locationType: string)
    ensures GetPopupTextColor(locationType) == IconColor(GetIcon(locationType))
    ensures GetPopupTextColor(locationType) in
      {"#28a745", "#007bff", "#b8860b", "#8A2BE2", "#DC143C", "#FF8C00"}
  {
  }

  /** A type containing no keyword of any rule gets the orange marker and '#FF8C00'. */
  lemma NoRuleIsOrange(locationType: string)
    requires forall i, k :: 0 <= i < |Rules| && 0 <= k < |Rules[i].keywords| ==>
               !Contains(locationType, Rules[i].keywords[k])
    ensures GetIcon(locationType) == OrangeIcon && GetPopupTextColor(locationType) == "#FF8C00"
  {
    assert Rules[0].keywords == ["General", "Plastic", "Organic", "Scrap"];
    assert !Contains(locationType, Rules[0].keywords[0]);
    assert !Contains(locationType, Rules[0].keywords[1]);
    assert !Contains(locationType, Rules[0].keywords[2]);
    assert !Contains(locationType, Rules[0].keywords[3]);
    assert !Contains(locationType, Rules[1].keywords[0]);
    assert !Contains(locationType, Rules[2].keywords[0]);
    assert !Contains(locationType, Rules[3].keywords[0]);
    assert !Contains(locationType, Rules[4].keywords[0]);
    assert !Contains(locationType, Rules[4].keywords[1]);
  }

  /**
   * Earlier rules dominate: the 'Battery' test comes before the 'Hazardous'
   * one, so a type naming 'Battery' and no earlier keyword is gold, whether
   * it also names 'Hazardous', before or after.
   */
  lemma BatteryBeforeHazardous(t: string)
    requires Contains(t, "Battery")
    requires !Contains(t, "General") && !Contains(t, "Plastic") && !Contains(t, "Organic")
    requires !Contains(t, "Scrap") && !Contains(t, "E-Waste")
    ensures GetIcon(t) == GoldIcon
    ensures GetPopupTextColor(t) == "#b8860b"
  {
  }

  /** Both orders of the two keywords select the battery rule. */
  lemma BatteryHazardousEitherOrder(pre: string, mid: string, post: string)
    requires !Contains(pre + "Hazardous" + mid + "Battery" + post, "General")
    requires !Contains(pre + "Hazardous" + mid + "Battery" + post, "Plastic")
    requires !Contains(pre + "Hazardous" + mid + "Battery" + post, "Organic")
    requires !Contains(pre + "Hazardous" + mid + "Battery" + post, "Scrap")
    requires !Contains(pre + "Hazardous" + mid + "Battery" + post, "E-Waste")
    ensures GetIcon(pre + "Hazardous" + mid + "Battery" + post) == GoldIcon
    ensures GetPopupTextColor(pre + "Hazardous" + mid + "Battery" + post) == "#b8860b"
  {
    ContainsInfix(pre + "Hazardous" + mid, "Battery", post);
    BatteryBeforeHazardous(pre + "Hazardous" + mid + "Battery" + post);
  }

  /** Any type that names 'Plastic' is green, whatever else it names (for example 'E-Waste'). */
  lemma PlasticAlwaysGreen(pre: string, post: string)
    ensures GetIcon(pre + "Plastic" + post) == GreenIcon
    ensures GetPopupTextColor(pre + "Plastic" + post) == "#28a745"
  {
    ContainsInfix(pre, "Plastic", post);
  }

  /** Every keyword starts with a capital letter, so a type written without capitals matches no rule. */
  lemma NoCapitalsIsOrange(t: string)
    requires forall i :: 0 <= i < |t| ==> !('A' <= t[i] <= 'Z')
    ensures GetIcon(t) == OrangeIcon && GetPopupTextColor(t) == "#FF8C00"
  {
    MissingCharNotContained(t, "General", 'G');
    MissingCharNotContained(t, "Plastic", 'P');
    MissingCharNotContained(t, "Organic", 'O');
    MissingCharNotContained(t, "Scrap", 'S');
    MissingCharNotContained(t, "E-Waste", 'W');
    MissingCharNotContained(t, "Battery", 'B');
    MissingCharNotContained(t, "Donation", 'D');
    MissingCharNotContained(t, "Chemical", 'C');
    MissingCharNotContained(t, "Hazardous", 'H');
  }

  /** Matching is case-sensitive: lower-case 'e-waste' does not select the E-Waste rule. */
  lemma LowerCaseEWasteIsOrange()
    ensures GetIcon("e-waste") == OrangeIcon
    ensures GetPopupTextColor("e-waste") == "#FF8C00"
  {
    NoCapitalsIsOrange("e-waste");
  }

  /** `coordinates[k]`: `undefined` past the end of the array. */
  function Coordinate(coordinates: seq<real>, k: nat): Option<real> {
    if k < |coordinates| then Some(coordinates[k]) else None
  }

  /**
   * The marker position `[coordinates[1], coordinates[0]]`: Leaflet wants
   * `[lat, lng]`, and GeoJSON stores `[lng, lat]`.
   */
  function MarkerPosition(geometry: Geometry): (pos: seq<Option<real>>)
    ensures |pos| == 2
    ensures |geometry.coordinates| >= 2 ==>
              pos == [Some(geometry.coordinates[1]), Some(geometry.coordinates[0])]
    ensures |geometry.coordinates| < 2 ==> pos[0] == None
    ensures |geometry.coordinates| == 1 ==> pos[1] == Some(geometry.coordinates[0])
    ensures |geometry.coordinates| == 0 ==> pos[1] == None
  {
    [Coordinate(geometry.coordinates, 1), Coordinate(geometry.coordinates, 0)]
  }

  /**
   * A point built by the report page, read back the way the map reads
   * positions, gives latitude then longitude: the two swaps cancel out.
   */
  lemma LocationRoundTrip(latitude: real, longitude: real)
    ensures MarkerPosition(ReportIssue.BuildLocation(latitude, longitude)) == [Some(latitude), Some(longitude)]
  {
  }
}
