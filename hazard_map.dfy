/**
 * The hazard map page (flood-sos/app/map/page.tsx): the hazard filter chips
 * and the list of district alerts they select from the mock data.
 */
module HazardMap {

  import opened Seqs

  datatype HazardFilter = All | Flood | Landslide

  datatype HazardKind = FloodMajor | FloodMinor | FloodAlert | LandslideHigh | LandslideModerate

  datatype DistrictStatus = DistrictStatus(
    id: string,
    district: string,
    hazard: HazardKind,
    severityLabel: string,
    description: string,
    peopleAffected: nat,
    lastUpdated: string)

  /** The string literal of each hazard kind. */
  function KindCode(h: HazardKind): string {
    match h
    case FloodMajor => "flood_major"
    case FloodMinor => "flood_minor"
    case FloodAlert => "flood_alert"
    case LandslideHigh => "landslide_high"
    case LandslideModerate => "landslide_moderate"
  }

  /** The string literal of each filter. */
  function FilterCode(f: HazardFilter): string {
    match f
    case All => "all"
    case Flood => "flood"
    case Landslide => "landslide"
  }

  /** `hazardFilterMatch`. */
  function HazardFilterMatch(filter: HazardFilter, hazard: HazardKind): (b: bool)
    ensures filter == All ==> b
    ensures filter == Flood ==> (b <==> hazard in {FloodMajor, FloodMinor, FloodAlert})
    ensures filter == Landslide ==> (b <==> hazard in {LandslideHigh, LandslideModerate})
  {
    if filter == All then true
    else if filter == Flood then hazard == FloodMajor || hazard == FloodMinor || hazard == FloodAlert
    else hazard == LandslideHigh || hazard == LandslideModerate
  }

  /**
   * An independent reading of the filter: a category chip matches exactly the
   * kinds whose literal is the chip's literal followed by an underscore.
   */
  lemma MatchIsCodePrefix(filter: HazardFilter, hazard: HazardKind)
    requires filter != All
    ensures HazardFilterMatch(filter, hazard) <==>
              (var p := FilterCode(filter) + "_"; |p| <= |KindCode(hazard)| && KindCode(hazard)[..|p|] == p)
  {
    var k := KindCode(hazard);
    if filter == Flood && !HazardFilterMatch(filter, hazard) {
      assert k[0] == 'l';
    }
    if filter == Landslide && !HazardFilterMatch(filter, hazard) {
      assert k[0] == 'f';
    }
  }

  /** Every kind is matched by exactly one of the two category chips. */
  lemma CategoriesExclusive(hazard: HazardKind)
    ensures HazardFilterMatch(Flood, hazard) != HazardFilterMatch(Landslide, hazard)
  {
  }

  /** The callback handed to `Array.prototype.filter`. */
  function Keeps(filter: HazardFilter): DistrictStatus -> bool {
    (s: DistrictStatus) => HazardFilterMatch(filter, s.hazard)
  }

  /** `filteredStatuses`: the alerts the chosen chip keeps, in list order. */
  function FilteredStatuses(filter: HazardFilter, statuses: seq<DistrictStatus>): (r: seq<DistrictStatus>)
    ensures forall s :: s in r <==> s in statuses && HazardFilterMatch(filter, s.hazard)
    ensures filter == All ==> r == statuses
  {
    var keep := Keeps(filter);
    FilterMembers(keep, statuses);
    if filter == All then FilterKeepsAll(keep, statuses); Filter(keep, statuses)
    else Filter(keep, statuses)
  }

  /** The list shown is the full list with some alerts dropped and the others in their order. */
  lemma FilteredStatusesIsSubsequence(filter: HazardFilter, statuses: seq<DistrictStatus>)
    ensures IsSubsequence(FilteredStatuses(filter, statuses), statuses)
  {
    FilterIsSubsequence(Keeps(filter), statuses);
  }

  /** The flood list and the landslide list split the full list between them. */
  lemma {:induction false} FloodLandslidePartition(statuses: seq<DistrictStatus>)
    ensures multiset(FilteredStatuses(Flood, statuses)) + multiset(FilteredStatuses(Landslide, statuses))
              == multiset(statuses)
    ensures |FilteredStatuses(Flood, statuses)| + |FilteredStatuses(Landslide, statuses)| == |statuses|
  {
    FilterPartition(Keeps(Flood), Keeps(Landslide), statuses);
  }

  // ------------------------------------------------------------ mock data

  const MockDistrictStatuses: seq<DistrictStatus> := [
    DistrictStatus("colombo-flood", "Colombo", FloodMajor, "Major Flood",
      "Kelani River over spill in several GN divisions.", 3500, "2025-11-30 09:30"),
    DistrictStatus("gampaha-flood", "Gampaha", FloodMinor, "Minor Flood",
      "Low-lying areas near Attanagalu Oya affected.", 1200, "2025-11-30 09:10"),
    DistrictStatus("kegalle-landslide", "Kegalle", LandslideHigh, "High Landslide Risk",
      "Soil saturation in hilly estates; evacuation advised.", 640, "2025-11-30 09:20"),
    DistrictStatus("ratnapura-flood", "Ratnapura", FloodAlert, "Flood Alert",
      "River levels rising; monitor closely.", 900, "2025-11-30 09:05"),
    DistrictStatus("nuwara-landslide", "Nuwara Eliya", LandslideModerate, "Moderate Landslide Risk",
      "Isolated slope failures possible in high rainfall areas.", 300, "2025-11-30 08:55")
  ]

  /** The count in the "District Alerts (n)" header. */
  function AlertCount(filter: HazardFilter): (n: nat)
    ensures n <= |MockDistrictStatuses|
    ensures filter == All ==> n == |MockDistrictStatuses|
  {
    |FilteredStatuses(filter, MockDistrictStatuses)|
  }

  /** What a filter keeps of a five-alert list, alert by alert. */
  lemma {:induction false} FilterOfFive(p: DistrictStatus -> bool, s: seq<DistrictStatus>)
    requires |s| == 5
    ensures Filter(p, s) == Keep(p, s[0]) + (Keep(p, s[1]) + (Keep(p, s[2]) + (Keep(p, s[3]) + Keep(p, s[4]))))
  {
    assert Filter(p, s[4..]) == Keep(p, s[4]) by {
      assert s[4..] == [s[4]] + [];
      FilterCons(p, s[4], []);
    }
    assert Filter(p, s[3..]) == Keep(p, s[3]) + Keep(p, s[4]) by {
      assert s[3..] == [s[3]] + s[4..];
      FilterCons(p, s[3], s[4..]);
    }
    assert Filter(p, s[2..]) == Keep(p, s[2]) + (Keep(p, s[3]) + Keep(p, s[4])) by {
      assert s[2..] == [s[2]] + s[3..];
      FilterCons(p, s[2], s[3..]);
    }
    assert Filter(p, s[1..]) == Keep(p, s[1]) + (Keep(p, s[2]) + (Keep(p, s[3]) + Keep(p, s[4]))) by {
      assert s[1..] == [s[1]] + s[2..];
      FilterCons(p, s[1], s[2..]);
    }
    assert s == [s[0]] + s[1..];
    FilterCons(p, s[0], s[1..]);
  }

  /** The one-alert list of `x` when the filter keeps it, the empty list otherwise. */
  function Keep(p: DistrictStatus -> bool, x: DistrictStatus): seq<DistrictStatus> {
    if p(x) then [x] else []
  }

  /** On the mock data the flood chip keeps the Colombo, Gampaha and Ratnapura alerts. */
  lemma MockFloodResults()
    ensures FilteredStatuses(Flood, MockDistrictStatuses) ==
              [MockDistrictStatuses[0], MockDistrictStatuses[1], MockDistrictStatuses[3]]
    ensures AlertCount(Flood) == 3
  {
    var m := MockDistrictStatuses;
    var p := Keeps(Flood);
    FilterOfFive(p, m);
    assert Keep(p, m[2]) == [] && Keep(p, m[4]) == [];
    assert Keep(p, m[0]) == [m[0]] && Keep(p, m[1]) == [m[1]] && Keep(p, m[3]) == [m[3]];
    assert Filter(p, m) == [m[0], m[1], m[3]];
  }

  /** On the mock data the landslide chip keeps the Kegalle and Nuwara Eliya alerts. */
  lemma MockLandslideResults()
    ensures FilteredStatuses(Landslide, MockDistrictStatuses) ==
              [MockDistrictStatuses[2], MockDistrictStatuses[4]]
    ensures AlertCount(Landslide) == 2
  {
    var m := MockDistrictStatuses;
    var p := Keeps(Landslide);
    FilterOfFive(p, m);
    assert Keep(p, m[0]) == [] && Keep(p, m[1]) == [] && Keep(p, m[3]) == [];
    assert Keep(p, m[2]) == [m[2]] && Keep(p, m[4]) == [m[4]];
    assert Filter(p, m) == [m[2], m[4]];
  }

  /** On the mock data the "All hazards" chip keeps all five alerts. */
  lemma MockAllResults()
    ensures AlertCount(All) == 5
  {
  }
}
