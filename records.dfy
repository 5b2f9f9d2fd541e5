/**
 * The backend's stored records (flood-sos-backend/flood_sos/sos/models.py):
 * field constraints, choice sets, defaults and display strings of
 * `SosRequest`, `HelpOffer` and `ReliefCamp`.
 */
module Records {

  import opened Wrappers
  import opened Text

  // ------------------------------------------------------------ choices

  /** The water levels of the form (flood-sos/types/sos.ts). */
  datatype WaterLevel = NoWater | Ankle | Knee | Waist | Chest | Roof

  datatype EmergencyType =
    | TrappedByFlood | EvacuationNeeded | MedicalEmergency | LandslideRisk | LandslideOccurred | Other

  /** The rescue status of a stored request. */
  datatype Status = New | Verified | InProgress | Resolved | Dismissed

  function WaterLevelCode(w: WaterLevel): string {
    match w
    case NoWater => "none"
    case Ankle => "ankle"
    case Knee => "knee"
    case Waist => "waist"
    case Chest => "chest"
    case Roof => "roof"
  }

  function EmergencyTypeCode(e: EmergencyType): string {
    match e
    case TrappedByFlood => "trapped_by_flood"
    case EvacuationNeeded => "evacuation_needed"
    case MedicalEmergency => "medical_emergency"
    case LandslideRisk => "landslide_risk"
    case LandslideOccurred => "landslide_occurred"
    case Other => "other"
  }

  function StatusCode(s: Status): string {
    match s
    case New => "new"
    case Verified => "verified"
    case InProgress => "in_progress"
    case Resolved => "resolved"
    case Dismissed => "dismissed"
  }

  /** The stored values of `WATER_LEVEL_CHOICES`. */
  const WaterLevelChoices: seq<string> := ["none", "ankle", "knee", "waist", "chest", "roof"]

  const EmergencyTypeChoices: seq<string> := [
    "trapped_by_flood", "evacuation_needed", "medical_emergency",
    "landslide_risk", "landslide_occurred", "other"]

  const StatusChoices: seq<string> := ["new", "verified", "in_progress", "resolved", "dismissed"]

  /**
   * The front end's enumerations and the backend's choice lists name the same
   * values: each code is a choice, each choice is the code of exactly one value.
   */
  lemma ChoicesMatchEnumerations()
    ensures forall w :: WaterLevelCode(w) in WaterLevelChoices
    ensures forall c :: c in WaterLevelChoices ==> exists w :: WaterLevelCode(w) == c
    ensures forall w, v :: WaterLevelCode(w) == WaterLevelCode(v) ==> w == v
    ensures forall e :: EmergencyTypeCode(e) in EmergencyTypeChoices
    ensures forall c :: c in EmergencyTypeChoices ==> exists e :: EmergencyTypeCode(e) == c
    ensures forall e, f :: EmergencyTypeCode(e) == EmergencyTypeCode(f) ==> e == f
    ensures forall s :: StatusCode(s) in StatusChoices
    ensures forall c :: c in StatusChoices ==> exists s :: StatusCode(s) == c
    ensures forall s, t :: StatusCode(s) == StatusCode(t) ==> s == t
  {
    assert WaterLevelCode(NoWater) == WaterLevelChoices[0];
    assert WaterLevelCode(Ankle) == WaterLevelChoices[1];
    assert WaterLevelCode(Knee) == WaterLevelChoices[2];
    assert WaterLevelCode(Waist) == WaterLevelChoices[3];
    assert WaterLevelCode(Chest) == WaterLevelChoices[4];
    assert WaterLevelCode(Roof) == WaterLevelChoices[5];
    assert EmergencyTypeCode(TrappedByFlood) == EmergencyTypeChoices[0];
    assert EmergencyTypeCode(EvacuationNeeded) == EmergencyTypeChoices[1];
    assert EmergencyTypeCode(MedicalEmergency) == EmergencyTypeChoices[2];
    assert EmergencyTypeCode(LandslideRisk) == EmergencyTypeChoices[3];
    assert EmergencyTypeCode(LandslideOccurred) == EmergencyTypeChoices[4];
    assert EmergencyTypeCode(Other) == EmergencyTypeChoices[5];
    assert StatusCode(New) == StatusChoices[0];
    assert StatusCode(Verified) == StatusChoices[1];
    assert StatusCode(InProgress) == StatusChoices[2];
    assert StatusCode(Resolved) == StatusChoices[3];
    assert StatusCode(Dismissed) == StatusChoices[4];
  }

  /** A `CharField(choices=..., blank=True)` value: empty or one of the choices. */
  predicate BlankOrChoice(s: string, choices: seq<string>) {
    s == "" || s in choices
  }

  // ------------------------------------------------------------ records

  /** A stored SOS request; timestamps are abstract instants. */
  datatype SosRequest = SosRequest(
    fullName: string,
    phoneNumber: string,
    alternatePhoneNumber: Option<string>,
    address: string,
    landmark: string,
    district: string,
    gpsLocation: string,
    waterLevel: string,
    safeHours: string,
    floorLevel: string,
    additionalInfo: string,
    needsFood: bool,
    needsMedicine: bool,
    needPower: bool,
    needWater: bool,
    phoneBatteryPercentage: Option<int>,
    emergencyType: string,
    numberOfPeople: int,
    hasChildren: bool,
    hasElderly: bool,
    hasDisabled: bool,
    hasMedical: bool,
    createdAt: int,
    updatedAt: int,
    status: string,
    internalNotes: string)

  datatype HelpOffer = HelpOffer(
    helperName: string,
    helperPhone: string,
    helperDistrict: string,
    supportDetails: string,
    preferredAreas: string,
    createdAt: int)

  datatype ReliefCamp = ReliefCamp(
    name: string,
    district: string,
    locationDescription: string,
    capacity: int,
    currentOccupancy: int,
    needs: string,
    createdAt: int,
    updatedAt: int,
    isActive: bool)

  /** The column names of `SosRequest`, with the implicit primary key. */
  const SosRequestFields: set<string> := {
    "id", "full_name", "phone_number", "alternate_phone_number", "address", "landmark",
    "district", "gps_location", "water_level", "safe_hours", "floor_level", "additional_info",
    "needs_food", "needs_medicine", "need_power", "need_water", "phone_battery_percentage",
    "emergency_type", "number_of_people", "has_children", "has_elderly", "has_disabled",
    "has_medical", "created_at", "updated_at", "status", "internal_notes"}

  const HelpOfferFields: set<string> := {
    "id", "helper_name", "helper_phone", "helper_district", "support_details",
    "preferred_areas", "created_at"}

  /** A `CharField` without `blank=True`: filled in and within its length. */
  predicate Required(s: string, maxLength: nat) {
    s != "" && |s| <= maxLength
  }

  /** The field validation of `SosRequest`. */
  predicate ValidSosRequest(r: SosRequest) {
    && Required(r.fullName, 200)
    && Required(r.phoneNumber, 15)
    && (r.alternatePhoneNumber.Some? ==> |r.alternatePhoneNumber.value| <= 15)
    && |r.landmark| <= 200
    && |r.district| <= 100
    && |r.gpsLocation| <= 100
    && BlankOrChoice(r.waterLevel, WaterLevelChoices)
    && |r.safeHours| <= 100
    && |r.floorLevel| <= 10
    && (r.phoneBatteryPercentage.Some? ==> r.phoneBatteryPercentage.value >= 0)
    && BlankOrChoice(r.emergencyType, EmergencyTypeChoices)
    && r.numberOfPeople >= 0
    && r.status in StatusChoices
  }

  /** The field validation of `HelpOffer`: four required fields, free preferred areas. */
  predicate ValidHelpOffer(o: HelpOffer) {
    && Required(o.helperName, 200)
    && Required(o.helperPhone, 32)
    && Required(o.helperDistrict, 100)
    && o.supportDetails != ""
  }

  predicate ValidReliefCamp(c: ReliefCamp) {
    && Required(c.name, 255)
    && Required(c.district, 100)
    && Required(c.locationDescription, 255)
    && c.capacity >= 0 && c.currentOccupancy >= 0
  }

  /**
   * A request created with only its required fields: every other field takes
   * its default (`None` for nullable fields, `""` for blank text, `False`
   * for flags, one person, status "new", both timestamps `now`).
   */
  function NewSosRequest(fullName: string, phoneNumber: string, now: int): (r: SosRequest)
    ensures r.status == StatusCode(New) && r.numberOfPeople == 1
    ensures !r.needsFood && !r.needsMedicine && !r.needPower && !r.needWater
    ensures !r.hasChildren && !r.hasElderly && !r.hasDisabled && !r.hasMedical
    ensures r.alternatePhoneNumber.None? && r.phoneBatteryPercentage.None?
    ensures r.createdAt == now
    ensures ValidSosRequest(r) <==> Required(fullName, 200) && Required(phoneNumber, 15)
  {
    SosRequest(
      fullName := fullName, phoneNumber := phoneNumber, alternatePhoneNumber := None,
      address := "", landmark := "", district := "", gpsLocation := "", waterLevel := "",
      safeHours := "", floorLevel := "", additionalInfo := "",
      needsFood := false, needsMedicine := false, needPower := false, needWater := false,
      phoneBatteryPercentage := None, emergencyType := "", numberOfPeople := 1,
      hasChildren := false, hasElderly := false, hasDisabled := false, hasMedical := false,
      createdAt := now, updatedAt := now, status := "new", internalNotes := "")
  }

  /** A camp created without saying whether it is active is active. */
  function NewReliefCamp(name: string, district: string, location: string, capacity: int,
                         occupancy: int, needs: string, now: int): (c: ReliefCamp)
    ensures c.isActive && c.createdAt == now
    ensures ValidReliefCamp(c) <==>
              Required(name, 255) && Required(district, 100) && Required(location, 255)
              && capacity >= 0 && occupancy >= 0
  {
    ReliefCamp(name, district, location, capacity, occupancy, needs, now, now, true)
  }

  // ---------------------------------------------------- display strings

  /** `"<name> (<district>)"`, the shape every `__str__` starts from. */
  function Labelled(name: string, district: string): string {
    name + " (" + district + ")"
  }

  /** `SosRequest.__str__`: `"<full_name> (<district>) – <emergency_type>"`, with an en dash. */
  function SosRequestStr(r: SosRequest): (s: string)
    ensures |s| == |r.fullName| + |r.district| + |r.emergencyType| + 6
  {
    Labelled(r.fullName, r.district) + " – " + r.emergencyType
  }

  /** `HelpOffer.__str__`. */
  function HelpOfferStr(o: HelpOffer): (s: string)
    ensures |s| == |o.helperName| + |o.helperDistrict| + 13
    ensures s[..10] == "Help from " && s[|s| - 1] == ')'
  {
    "Help from " + Labelled(o.helperName, o.helperDistrict)
  }

  /** `ReliefCamp.__str__`. */
  function ReliefCampStr(c: ReliefCamp): (s: string)
    ensures |s| == |c.name| + |c.district| + 3
    ensures s[..|c.name|] == c.name && s[|s| - 1] == ')'
  {
    Labelled(c.name, c.district)
  }

  /** Splits `"<name> (<district>)"` at the last opening parenthesis. */
  function ParseLabelled(s: string): Option<(string, string)> {
    if s == [] || s[|s| - 1] != ')' then None
    else
      var inner := s[..|s| - 1];
      match LastIndexOf(inner, '(')
      case None => None
      case Some(i) =>
        if i == 0 || inner[i - 1] != ' ' then None
        else Some((inner[..i - 1], inner[i + 1..]))
  }

  /** A label can be split back into name and district when the district has no parenthesis. */
  lemma {:induction false} LabelledRoundTrip(name: string, district: string)
    requires '(' !in district
    ensures ParseLabelled(Labelled(name, district)) == Some((name, district))
  {
    var s := Labelled(name, district);
    var inner := s[..|s| - 1];
    var k := |name| + 1;
    assert inner == name + " (" + district;
    assert inner[k] == '(';
    var r := LastIndexOf(inner, '(');
    assert r.Some?;
    if r.value > k {
      assert false;
    }
    assert r.value == k;
    assert inner[k - 1] == ' ';
    assert inner[..k - 1] == name;
    assert inner[k + 1..] == district;
  }

  /** Splits a `SosRequest` display string at the last en dash. */
  function ParseSosRequestStr(s: string): Option<(string, string, string)> {
    match LastIndexOf(s, '–')
    case None => None
    case Some(j) =>
      if j == 0 || j + 1 >= |s| || s[j - 1] != ' ' || s[j + 1] != ' ' then None
      else
        match ParseLabelled(s[..j - 1])
        case None => None
        case Some((name, district)) => Some((name, district, s[j + 2..]))
  }

  /** Name, district and emergency type can be read back from the display string. */
  lemma {:induction false} SosRequestStrRoundTrip(r: SosRequest)
    requires '(' !in r.district && '–' !in r.emergencyType
    ensures ParseSosRequestStr(SosRequestStr(r)) == Some((r.fullName, r.district, r.emergencyType))
  {
    var head := Labelled(r.fullName, r.district);
    var s := SosRequestStr(r);
    var k := |head| + 1;
    assert s == head + " – " + r.emergencyType;
    assert s[k] == '–';
    assert forall i :: k < i < |s| ==> s[i] != '–' by {
      forall i | k < i < |s|
        ensures s[i] != '–'
      {
        if i > k + 1 {
          assert s[i] == r.emergencyType[i - k - 2];
        }
      }
    }
    var j := LastIndexOf(s, '–');
    assert j.Some? && j.value == k;
    assert s[..k - 1] == head;
    assert s[k + 2..] == r.emergencyType;
    LabelledRoundTrip(r.fullName, r.district);
  }

  /** Helper name and district can be read back from a help offer's display string. */
  lemma {:induction false} HelpOfferStrRoundTrip(o: HelpOffer)
    requires '(' !in o.helperDistrict
    ensures |HelpOfferStr(o)| >= 10 && HelpOfferStr(o)[..10] == "Help from "
    ensures ParseLabelled(HelpOfferStr(o)[10..]) == Some((o.helperName, o.helperDistrict))
  {
    var s := HelpOfferStr(o);
    assert s[10..] == Labelled(o.helperName, o.helperDistrict);
    LabelledRoundTrip(o.helperName, o.helperDistrict);
  }

  /** No emergency-type choice contains an en dash, so every valid request's display string reads back. */
  lemma ChoicesHaveNoDash()
    ensures forall c :: c in EmergencyTypeChoices ==> '–' !in c
  {
  }
}
