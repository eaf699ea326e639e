/** The badge table: the single list of badges the app awards, and lookup by name. */
module Badges {
  import opened Api

  datatype Badge = Badge(name: string, points: nat, icon: string, color: string, description: string)

  const Table: seq<Badge> := [
    Badge("Recycling Rookie", 0, "\U{1F331}", "text-gray-500",
          "Awarded for starting your waste segregation journey."),
    Badge("Green Guardian", 100, "\U{1F6E1}\U{FE0F}", "text-green-500",
          "Awarded for reaching 100 points. You are a true protector of the environment!"),
    Badge("Eco Enthusiast", 250, "\U{1F31F}", "text-blue-500",
          "Awarded for reaching 250 points. Your dedication is inspiring!"),
    Badge("Waste Warrior", 500, "\U{1F3C6}", "text-yellow-500",
          "Awarded for reaching 500 points. You are a true champion for a cleaner planet!"),
    Badge("Biophile", 1000, "\U{1F3C6}\U{1F3C6}", "text-orange-500",
          "Awarded for reaching 1000 points. You are a true green lover and visionare for a cleaner planet!")
  ]

  predicate HasName(bs: seq<Badge>, name: string) {
    exists k :: 0 <= k < |bs| && bs[k].name == name
  }

  /** `bs.find(b => b.name === name)`: the first badge with exactly that name, if any. */
  function Find(bs: seq<Badge>, name: string): (r: Option<Badge>)
    ensures r.None? <==> !HasName(bs, name)
    ensures r.Some? ==> exists k :: 0 <= k < |bs| && bs[k] == r.value && r.value.name == name
                          && forall j :: 0 <= j < k ==> bs[j].name != name
  {
    if bs == [] then None
    else if bs[0].name == name then Some(bs[0])
    else
      var r := Find(bs[1..], name);
      assert HasName(bs, name) ==> bs[0].name == name || HasName(bs[1..], name) by {
        if HasName(bs, name) {
          var k :| 0 <= k < |bs| && bs[k].name == name;
          if k > 0 { assert bs[1..][k - 1].name == name; }
        }
      }
      r
  }

  /** `getBadgeDetails`: the badge with that name, or the first badge for an unknown name. */
  function GetBadgeDetails(badgeName: string): (b: Badge)
    ensures b in Table
    ensures HasName(Table, badgeName) ==> b.name == badgeName
    ensures !HasName(Table, badgeName) ==> b == Table[0]
  {
    match Find(Table, badgeName)
    case Some(found) => found
    case None => Table[0]
  }

  /** Names are pairwise distinct, so lookup by name is unambiguous. */
  lemma NamesDistinct()
    ensures forall i, j :: 0 <= i < j < |Table| ==> Table[i].name != Table[j].name
  {
  }

  /** Thresholds strictly increase along the list, from 0 to 1000. */
  lemma ThresholdsIncrease()
    ensures forall i, j :: 0 <= i < j < |Table| ==> Table[i].points < Table[j].points
    ensures Table[0].points == 0 && Table[|Table| - 1].points == 1000
  {
  }

  /** The default for unknown names is the rookie badge, worth 0 points. */
  lemma UnknownIsRookie(badgeName: string)
    requires forall k :: 0 <= k < |Table| ==> Table[k].name != badgeName
    ensures GetBadgeDetails(badgeName).name == "Recycling Rookie"
    ensures GetBadgeDetails(badgeName).points == 0
  {
  }

  /** Matching is exact and case-sensitive: a differently cased name is unknown. */
  lemma CaseSensitive()
    ensures GetBadgeDetails("green guardian") == Table[0]
    ensures GetBadgeDetails("Green Guardian").points == 100
  {
    assert Table[1].name == "Green Guardian";
  }
}
