/**
 * The submission adapter of the front end (flood-sos/lib/api.ts): the two
 * form records, the wire payloads they are turned into, and the
 * classification of the HTTP response. The `fetch` round trip itself is an
 * input of the model (an `Exchange`).
 */
module Api {

  import opened Wrappers
  import opened Text

  /** The SOS form as the page holds it (`SosFormData`). */
  datatype SosForm = SosForm(
    fullName: string,
    phoneNumber: string,
    alternatePhone: string,
    address: string,
    landmark: string,
    district: string,
    gpsLocation: Option<string>,
    waterLevel: string,
    safeHours: string,
    floorLevel: string,
    additionalInfo: string,
    needsFood: bool,
    needsWater: bool,
    needsPower: bool,
    phoneBatteryPercent: string,
    emergencyType: string,
    numberOfPeople: string,
    hasChildren: bool,
    hasElderly: bool,
    hasDisabled: bool,
    hasMedical: bool)

  /** The help-offer form (`HelpOfferForm`). */
  datatype HelpOfferForm = HelpOfferForm(
    helperName: string,
    helperPhone: string,
    helperDistrict: string,
    supportDetails: string,
    preferredAreas: string)

  /**
   * The JavaScript number `Number(text)` gives. Digit strings are evaluated;
   * any other text (a sign, a decimal point, an exponent, blanks, or text that
   * gives NaN) is kept as it was typed and not evaluated by the model.
   */
  datatype JsNumber = Int(n: nat) | Unevaluated(text: string)

  /** A JSON value of the request body. */
  datatype JsonValue = JString(s: string) | JNumber(n: JsNumber) | JBool(b: bool) | JNull

  /** The SOS request body; each field is named after its wire key. */
  datatype SosPayload = SosPayload(
    fullName: string,
    phoneNumber: string,
    alternatePhoneNumber: Option<string>,
    address: string,
    landmark: string,
    district: string,
    gpsLocation: string,
    waterLevel: string,
    safeHours: string,
    floorLevel: string,
    additionalInfo: string,
    needsFood: bool,
    needsMedicine: bool,
    needPower: bool,
    needWater: bool,
    phoneBatteryPercentage: Option<JsNumber>,
    emergencyType: string,
    numberOfPeople: JsNumber,
    hasChildren: bool,
    hasElderly: bool,
    hasDisabled: bool,
    hasMedical: bool)

  /** The help-offer request body. */
  datatype HelpOfferPayload = HelpOfferPayload(
    helperName: string,
    helperPhone: string,
    helperDistrict: string,
    supportDetails: string,
    preferredAreas: string)

  // ------------------------------------------------------ coercions

  /**
   * The longest digit string whose value `Number` holds exactly: every value
   * of at most 15 digits is below 2^53, so the double is the integer itself
   * and `JSON.stringify` writes it in plain digits.
   */
  const MaxExactDigits: nat := 15

  /** A digit string `Number` evaluates exactly (`Number("")` is 0). */
  predicate IsExactDigits(s: string) {
    IsDigits(s) && |s| <= MaxExactDigits
  }

  /**
   * `Number(s)`, evaluated on digit strings of at most 15 digits. Longer
   * digit strings (which the double rounds) and every other text stay
   * unevaluated.
   */
  function ToNumber(s: string): (r: JsNumber)
    ensures IsExactDigits(s) ==> r == Int(DecimalValue(s))
    ensures !IsExactDigits(s) ==> r == Unevaluated(s)
  {
    if IsExactDigits(s) then Int(DecimalValue(s)) else Unevaluated(s)
  }

  /** `s || ""`: the empty string is the only falsy string, so this is the identity. */
  function OrEmpty(s: string): (r: string)
    ensures r == s
  {
    if s == "" then "" else s
  }

  /** `s || null`. */
  function NullIfEmpty(s: string): (r: Option<string>)
    ensures r == None <==> s == ""
    ensures r.Some? ==> r.value == s
  {
    if s == "" then None else Some(s)
  }

  /** `g ?? ""`. */
  function EmptyIfNull(g: Option<string>): (r: string)
    ensures g.None? ==> r == ""
    ensures g.Some? ==> r == g.value
  {
    if g.None? then "" else g.value
  }

  /** `s ? Number(s) : null`. */
  function NumberOrNull(s: string): (r: Option<JsNumber>)
    ensures r == None <==> s == ""
    ensures s != "" ==> r == Some(ToNumber(s))
  {
    if s != "" then Some(ToNumber(s)) else None
  }

  /** `s ? Number(s) : 1`. */
  function NumberOrOne(s: string): (r: JsNumber)
    ensures s == "" ==> r == Int(1)
    ensures s != "" ==> r == ToNumber(s)
  {
    if s != "" then ToNumber(s) else Int(1)
  }

  // ----------------------------------------------------------- encoders

  /** The payload object built by `submitSosRequest`. */
  function EncodeSos(f: SosForm): (p: SosPayload)
    // copied verbatim, including the `|| ""` fields
    ensures p.fullName == f.fullName && p.phoneNumber == f.phoneNumber
    ensures p.address == f.address && p.landmark == f.landmark && p.district == f.district
    ensures p.waterLevel == f.waterLevel && p.safeHours == f.safeHours
    ensures p.floorLevel == f.floorLevel && p.additionalInfo == f.additionalInfo
    ensures p.emergencyType == f.emergencyType
    // `alternatePhone || null`
    ensures p.alternatePhoneNumber == None <==> f.alternatePhone == ""
    ensures p.alternatePhoneNumber.Some? ==> p.alternatePhoneNumber.value == f.alternatePhone
    // `gpsLocation ?? ""`
    ensures f.gpsLocation.None? ==> p.gpsLocation == ""
    ensures f.gpsLocation.Some? ==> p.gpsLocation == f.gpsLocation.value
    // flags, with two renames and one constant
    ensures p.needsFood == f.needsFood && p.needPower == f.needsPower && p.needWater == f.needsWater
    ensures !p.needsMedicine
    ensures p.hasChildren == f.hasChildren && p.hasElderly == f.hasElderly
    ensures p.hasDisabled == f.hasDisabled && p.hasMedical == f.hasMedical
    // numeric coercions
    ensures p.phoneBatteryPercentage == None <==> f.phoneBatteryPercent == ""
    ensures f.phoneBatteryPercent != "" && IsExactDigits(f.phoneBatteryPercent) ==>
              p.phoneBatteryPercentage == Some(Int(DecimalValue(f.phoneBatteryPercent)))
    ensures f.numberOfPeople == "" ==> p.numberOfPeople == Int(1)
    ensures f.numberOfPeople != "" && IsExactDigits(f.numberOfPeople) ==>
              p.numberOfPeople == Int(DecimalValue(f.numberOfPeople))
  {
    SosPayload(
      fullName := f.fullName,
      phoneNumber := f.phoneNumber,
      alternatePhoneNumber := NullIfEmpty(f.alternatePhone),
      address := f.address,
      landmark := f.landmark,
      district := f.district,
      gpsLocation := EmptyIfNull(f.gpsLocation),
      waterLevel := OrEmpty(f.waterLevel),
      safeHours := OrEmpty(f.safeHours),
      floorLevel := OrEmpty(f.floorLevel),
      additionalInfo := OrEmpty(f.additionalInfo),
      needsFood := f.needsFood,
      needsMedicine := false,
      needPower := f.needsPower,
      needWater := f.needsWater,
      phoneBatteryPercentage := NumberOrNull(f.phoneBatteryPercent),
      emergencyType := OrEmpty(f.emergencyType),
      numberOfPeople := NumberOrOne(f.numberOfPeople),
      hasChildren := f.hasChildren,
      hasElderly := f.hasElderly,
      hasDisabled := f.hasDisabled,
      hasMedical := f.hasMedical)
  }

  /** The payload object built by `submitHelpOffer`. */
  function EncodeHelpOffer(f: HelpOfferForm): (p: HelpOfferPayload)
    ensures p.helperName == f.helperName && p.helperPhone == f.helperPhone
    ensures p.helperDistrict == f.helperDistrict && p.supportDetails == f.supportDetails
    ensures p.preferredAreas == f.preferredAreas
  {
    HelpOfferPayload(f.helperName, f.helperPhone, f.helperDistrict, f.supportDetails,
                     OrEmpty(f.preferredAreas))
  }

  // ------------------------------------------------ the JSON objects sent

  /** The keys of the SOS request body, in the order the object literal lists them. */
  const SosPayloadKeys: seq<string> := [
    "full_name", "phone_number", "alternate_phone_number", "address", "landmark",
    "district", "gps_location", "water_level", "safe_hours", "floor_level",
    "additional_info", "needs_food", "needs_medicine", "need_power", "need_water",
    "phone_battery_percentage", "emergency_type", "number_of_people", "has_children",
    "has_elderly", "has_disabled", "has_medical"]

  const HelpOfferPayloadKeys: seq<string> := [
    "helper_name", "helper_phone", "helper_district", "support_details", "preferred_areas"]

  function NumberJson(n: Option<JsNumber>): JsonValue {
    if n.None? then JNull else JNumber(n.value)
  }

  function KeysOf(obj: seq<(string, JsonValue)>): (ks: seq<string>)
    ensures |ks| == |obj| && forall i :: 0 <= i < |obj| ==> ks[i] == obj[i].0
  {
    seq(|obj|, i requires 0 <= i < |obj| => obj[i].0)
  }

  /** The SOS body as the JSON object `JSON.stringify` serialises. */
  function SosJson(p: SosPayload): (obj: seq<(string, JsonValue)>)
    ensures KeysOf(obj) == SosPayloadKeys
    ensures obj[2].1 == JNull <==> p.alternatePhoneNumber.None?
    ensures obj[12].1 == JBool(p.needsMedicine)
    ensures obj[15].1 == JNull <==> p.phoneBatteryPercentage.None?
    // the JSON type of each value: text, nullable text, flag, nullable number or number
    ensures forall i :: (0 <= i <= 10 && i != 2) || i == 16 ==> obj[i].1.JString?
    ensures obj[2].1.JString? || obj[2].1.JNull?
    ensures forall i :: 11 <= i <= 14 || 18 <= i <= 21 ==> obj[i].1.JBool?
    ensures obj[15].1.JNumber? || obj[15].1.JNull?
    ensures obj[17].1 == JNumber(p.numberOfPeople)
    // the renamed flags carry their own values
    ensures obj[13].1 == JBool(p.needPower) && obj[14].1 == JBool(p.needWater)
  {
    [("full_name", JString(p.fullName)),
     ("phone_number", JString(p.phoneNumber)),
     ("alternate_phone_number",
        if p.alternatePhoneNumber.None? then JNull else JString(p.alternatePhoneNumber.value)),
     ("address", JString(p.address)),
     ("landmark", JString(p.landmark)),
     ("district", JString(p.district)),
     ("gps_location", JString(p.gpsLocation)),
     ("water_level", JString(p.waterLevel)),
     ("safe_hours", JString(p.safeHours)),
     ("floor_level", JString(p.floorLevel)),
     ("additional_info", JString(p.additionalInfo)),
     ("needs_food", JBool(p.needsFood)),
     ("needs_medicine", JBool(p.needsMedicine)),
     ("need_power", JBool(p.needPower)),
     ("need_water", JBool(p.needWater)),
     ("phone_battery_percentage", NumberJson(p.phoneBatteryPercentage)),
     ("emergency_type", JString(p.emergencyType)),
     ("number_of_people", JNumber(p.numberOfPeople)),
     ("has_children", JBool(p.hasChildren)),
     ("has_elderly", JBool(p.hasElderly)),
     ("has_disabled", JBool(p.hasDisabled)),
     ("has_medical", JBool(p.hasMedical))]
  }

  function HelpOfferJson(p: HelpOfferPayload): (obj: seq<(string, JsonValue)>)
    ensures KeysOf(obj) == HelpOfferPayloadKeys
    ensures forall i :: 0 <= i < |obj| ==> obj[i].1.JString?
  {
    [("helper_name", JString(p.helperName)),
     ("helper_phone", JString(p.helperPhone)),
     ("helper_district", JString(p.helperDistrict)),
     ("support_details", JString(p.supportDetails)),
     ("preferred_areas", JString(p.preferredAreas))]
  }

  /** No key appears twice in either body. */
  lemma PayloadKeysDistinct()
    ensures forall i, j :: 0 <= i < j < |SosPayloadKeys| ==> SosPayloadKeys[i] != SosPayloadKeys[j]
    ensures forall i, j :: 0 <= i < j < |HelpOfferPayloadKeys| ==> HelpOfferPayloadKeys[i] != HelpOfferPayloadKeys[j]
  {
  }

  // ------------------------------------------------ reading a body by key

  /** The value stored under key `k`: the first entry with that key, as a JSON parser keeps it. */
  function ValueAt(obj: seq<(string, JsonValue)>, k: string): (r: Option<JsonValue>)
    ensures r.None? <==> k !in KeysOf(obj)
  {
    if obj == [] then None
    else if obj[0].0 == k then Some(obj[0].1)
    else ValueAt(obj[1..], k)
  }

  /** An entry whose key no earlier entry has is what `ValueAt` finds. */
  lemma {:induction false} ValueAtFirst(obj: seq<(string, JsonValue)>, i: nat)
    requires i < |obj|
    requires forall j :: 0 <= j < i ==> obj[j].0 != obj[i].0
    ensures ValueAt(obj, obj[i].0) == Some(obj[i].1)
  {
    if i > 0 {
      ValueAtFirst(obj[1..], i - 1);
    }
  }

  /** In a body with distinct keys, every entry is found under its key. */
  lemma ValuesAtKeys(obj: seq<(string, JsonValue)>)
    requires forall i, j :: 0 <= i < j < |obj| ==> obj[i].0 != obj[j].0
    ensures forall i :: 0 <= i < |obj| ==> ValueAt(obj, obj[i].0) == Some(obj[i].1)
  {
    forall i | 0 <= i < |obj|
      ensures ValueAt(obj, obj[i].0) == Some(obj[i].1)
    {
      ValueAtFirst(obj, i);
    }
  }

  function AsText(v: JsonValue): Option<string> {
    if v.JString? then Some(v.s) else None
  }

  function AsFlag(v: JsonValue): Option<bool> {
    if v.JBool? then Some(v.b) else None
  }

  function AsNumber(v: JsonValue): Option<JsNumber> {
    if v.JNumber? then Some(v.n) else None
  }

  /** A text or null: `Some(None)` for null, `None` for any other type. */
  function AsNullableText(v: JsonValue): Option<Option<string>> {
    match v
    case JNull => Some(None)
    case JString(s) => Some(Some(s))
    case _ => None
  }

  /** A number or null, as `AsNullableText`. */
  function AsNullableNumber(v: JsonValue): Option<Option<JsNumber>> {
    match v
    case JNull => Some(None)
    case JNumber(n) => Some(Some(n))
    case _ => None
  }

  /** In a body whose keys are the distinct keys `ks`, each key finds the entry at its own position. */
  lemma KeysFindTheirEntries(obj: seq<(string, JsonValue)>, ks: seq<string>)
    requires KeysOf(obj) == ks
    requires forall i, j :: 0 <= i < j < |ks| ==> ks[i] != ks[j]
    ensures forall i :: 0 <= i < |obj| ==> ValueAt(obj, ks[i]) == Some(obj[i].1)
  {
    ValuesAtKeys(obj);
  }

  /**
   * The SOS payload a receiver reads from a body with exactly the SOS keys in
   * order, taking each field from the entry of its key (which is what a
   * lookup by that key finds, see `KeysFindTheirEntries`); `None` for any
   * other key list or a value of the wrong JSON type.
   */
  function SosPayloadOfJson(obj: seq<(string, JsonValue)>): Option<SosPayload> {
    if KeysOf(obj) != SosPayloadKeys then None
    else
      var fullName := AsText(obj[0].1);                 // full_name
      var phoneNumber := AsText(obj[1].1);              // phone_number
      var alternatePhoneNumber := AsNullableText(obj[2].1);  // alternate_phone_number
      var address := AsText(obj[3].1);                  // address
      var landmark := AsText(obj[4].1);                 // landmark
      var district := AsText(obj[5].1);                 // district
      var gpsLocation := AsText(obj[6].1);              // gps_location
      var waterLevel := AsText(obj[7].1);               // water_level
      var safeHours := AsText(obj[8].1);                // safe_hours
      var floorLevel := AsText(obj[9].1);               // floor_level
      var additionalInfo := AsText(obj[10].1);          // additional_info
      var needsFood := AsFlag(obj[11].1);               // needs_food
      var needsMedicine := AsFlag(obj[12].1);           // needs_medicine
      var needPower := AsFlag(obj[13].1);               // need_power
      var needWater := AsFlag(obj[14].1);               // need_water
      var phoneBatteryPercentage := AsNullableNumber(obj[15].1);  // phone_battery_percentage
      var emergencyType := AsText(obj[16].1);           // emergency_type
      var numberOfPeople := AsNumber(obj[17].1);        // number_of_people
      var hasChildren := AsFlag(obj[18].1);             // has_children
      var hasElderly := AsFlag(obj[19].1);              // has_elderly
      var hasDisabled := AsFlag(obj[20].1);             // has_disabled
      var hasMedical := AsFlag(obj[21].1);              // has_medical
      if && fullName.Some? && phoneNumber.Some? && alternatePhoneNumber.Some? && address.Some?
         && landmark.Some? && district.Some? && gpsLocation.Some? && waterLevel.Some?
         && safeHours.Some? && floorLevel.Some? && additionalInfo.Some? && needsFood.Some?
         && needsMedicine.Some? && needPower.Some? && needWater.Some?
         && phoneBatteryPercentage.Some? && emergencyType.Some? && numberOfPeople.Some?
         && hasChildren.Some? && hasElderly.Some? && hasDisabled.Some? && hasMedical.Some?
      then
        Some(SosPayload(
          fullName := fullName.value, phoneNumber := phoneNumber.value,
          alternatePhoneNumber := alternatePhoneNumber.value, address := address.value,
          landmark := landmark.value, district := district.value, gpsLocation := gpsLocation.value,
          waterLevel := waterLevel.value, safeHours := safeHours.value, floorLevel := floorLevel.value,
          additionalInfo := additionalInfo.value, needsFood := needsFood.value,
          needsMedicine := needsMedicine.value, needPower := needPower.value, needWater := needWater.value,
          phoneBatteryPercentage := phoneBatteryPercentage.value, emergencyType := emergencyType.value,
          numberOfPeople := numberOfPeople.value, hasChildren := hasChildren.value,
          hasElderly := hasElderly.value, hasDisabled := hasDisabled.value, hasMedical := hasMedical.value))
      else None
  }

  /** The help-offer payload a receiver reads from a body with exactly the help-offer keys in order. */
  function HelpOfferPayloadOfJson(obj: seq<(string, JsonValue)>): Option<HelpOfferPayload> {
    if KeysOf(obj) != HelpOfferPayloadKeys then None
    else
      var name := AsText(obj[0].1);      // helper_name
      var phone := AsText(obj[1].1);     // helper_phone
      var district := AsText(obj[2].1);  // helper_district
      var details := AsText(obj[3].1);   // support_details
      var areas := AsText(obj[4].1);     // preferred_areas
      if name.Some? && phone.Some? && district.Some? && details.Some? && areas.Some? then
        Some(HelpOfferPayload(name.value, phone.value, district.value, details.value, areas.value))
      else None
  }

  /** Reading the SOS body back gives the payload: every key carries the field of the same name. */
  lemma SosJsonReadsBack(p: SosPayload)
    ensures SosPayloadOfJson(SosJson(p)) == Some(p)
  {
  }

  /** A lookup by any key of the SOS body finds the entry `SosPayloadOfJson` reads for that key. */
  lemma SosJsonKeysFindTheirEntries(p: SosPayload)
    ensures forall i :: 0 <= i < |SosPayloadKeys| ==>
      ValueAt(SosJson(p), SosPayloadKeys[i]) == Some(SosJson(p)[i].1)
  {
    PayloadKeysDistinct();
    KeysFindTheirEntries(SosJson(p), SosPayloadKeys);
  }

  /** Every key of the help-offer body carries the payload field of the same name. */
  lemma HelpOfferJsonReadsBack(p: HelpOfferPayload)
    ensures HelpOfferPayloadOfJson(HelpOfferJson(p)) == Some(p)
    ensures forall i :: 0 <= i < |HelpOfferPayloadKeys| ==>
      ValueAt(HelpOfferJson(p), HelpOfferPayloadKeys[i]) == Some(HelpOfferJson(p)[i].1)
  {
    PayloadKeysDistinct();
    KeysFindTheirEntries(HelpOfferJson(p), HelpOfferPayloadKeys);
  }

  // ----------------------------------------------------------- decoders

  /** The text a number came from, when that text is a rendering. */
  function NumberText(n: JsNumber): string {
    match n
    case Int(v) => NatToDecimal(v)
    case Unevaluated(t) => t
  }

  /**
   * Reads a form back from an SOS payload: the inverse of `EncodeSos` on
   * canonical forms (see `RoundTripForm`).
   */
  function DecodeSos(p: SosPayload): SosForm {
    SosForm(
      fullName := p.fullName,
      phoneNumber := p.phoneNumber,
      alternatePhone := if p.alternatePhoneNumber.None? then "" else p.alternatePhoneNumber.value,
      address := p.address,
      landmark := p.landmark,
      district := p.district,
      gpsLocation := if p.gpsLocation == "" then None else Some(p.gpsLocation),
      waterLevel := p.waterLevel,
      safeHours := p.safeHours,
      floorLevel := p.floorLevel,
      additionalInfo := p.additionalInfo,
      needsFood := p.needsFood,
      needsWater := p.needWater,
      needsPower := p.needPower,
      phoneBatteryPercent :=
        if p.phoneBatteryPercentage.None? then "" else NumberText(p.phoneBatteryPercentage.value),
      emergencyType := p.emergencyType,
      numberOfPeople := NumberText(p.numberOfPeople),
      hasChildren := p.hasChildren,
      hasElderly := p.hasElderly,
      hasDisabled := p.hasDisabled,
      hasMedical := p.hasMedical)
  }

  /**
   * A number field survives `Number` and back: plain digits without a
   * leading zero, few enough for the double to hold them exactly.
   */
  predicate NumberTextRoundTrips(s: string) {
    IsCanonicalDecimal(s) && |s| <= MaxExactDigits
  }

  /**
   * The canonical forms, one for each class of forms `EncodeSos` sends alike:
   * a captured location is never the empty string, the people count is filled in, and both
   * numbers, when typed, are plain digits with no leading zero and at most
   * 15 of them.
   */
  predicate RoundTripForm(f: SosForm) {
    && f.gpsLocation != Some("")
    && (f.phoneBatteryPercent == "" || NumberTextRoundTrips(f.phoneBatteryPercent))
    && f.numberOfPeople != "" && NumberTextRoundTrips(f.numberOfPeople)
  }

  lemma NumberTextOfToNumber(s: string)
    requires s != "" && NumberTextRoundTrips(s)
    ensures NumberText(ToNumber(s)) == s
  {
    RenderingOfDecimal(s);
  }

  /** Decoding an encoded form gives the form back whenever the form is canonical. */
  lemma {:induction false} SosRoundTrip(f: SosForm)
    requires RoundTripForm(f)
    ensures DecodeSos(EncodeSos(f)) == f
  {
    var p := EncodeSos(f);
    var g := DecodeSos(p);
    NumberTextOfToNumber(f.numberOfPeople);
    assert g.numberOfPeople == f.numberOfPeople;
    if f.phoneBatteryPercent != "" {
      NumberTextOfToNumber(f.phoneBatteryPercent);
    }
    assert g.phoneBatteryPercent == f.phoneBatteryPercent;
    assert g.gpsLocation == f.gpsLocation;
    assert g.alternatePhone == f.alternatePhone;
  }

  /** The conflations the round trip excludes do happen: an empty people count encodes like "1". */
  lemma EmptyCountConflated(f: SosForm)
    ensures EncodeSos(f.(numberOfPeople := "")) == EncodeSos(f.(numberOfPeople := "1"))
  {
    assert NumberOrOne("") == NumberOrOne("1");
  }

  /** An empty captured location encodes like none. */
  lemma EmptyLocationConflated(f: SosForm)
    ensures EncodeSos(f.(gpsLocation := None)) == EncodeSos(f.(gpsLocation := Some("")))
  {
  }

  /** Leading zeros are lost. */
  lemma LeadingZeroConflated(f: SosForm)
    ensures EncodeSos(f.(phoneBatteryPercent := "42")) == EncodeSos(f.(phoneBatteryPercent := "042"))
  {
    assert "4"[..0] == "" && "0"[..0] == "";
    assert DecimalValue("4") == 4;
    assert DecimalValue("0") == 0;
    assert "42"[..1] == "4";
    assert DecimalValue("42") == DecimalValue("4") * 10 + 2 == 42;
    assert "04"[..1] == "0";
    assert DecimalValue("04") == DecimalValue("0") * 10 + 4 == 4;
    assert "042"[..2] == "04";
    assert DecimalValue("042") == DecimalValue("04") * 10 + 2 == 42;
    assert NumberOrNull("42") == NumberOrNull("042");
  }

  function DecodeHelpOffer(p: HelpOfferPayload): HelpOfferForm {
    HelpOfferForm(p.helperName, p.helperPhone, p.helperDistrict, p.supportDetails, p.preferredAreas)
  }

  /** The help-offer encoding loses nothing: it is a bijection with `DecodeHelpOffer` as inverse. */
  lemma HelpOfferRoundTrip(f: HelpOfferForm, p: HelpOfferPayload)
    ensures DecodeHelpOffer(EncodeHelpOffer(f)) == f
    ensures EncodeHelpOffer(DecodeHelpOffer(p)) == p
  {
  }

  // --------------------------------------------------- response handling

  /** An ok status, 200 to 299 (section 2.2.3 of the WHATWG Fetch Standard). */
  predicate IsOkStatus(status: nat) {
    200 <= status <= 299
  }

  /** What `handleResponse` resolves to: `null` for 204, otherwise the body handed to `res.json()`. */
  datatype Ack = NoContent | JsonBody(text: string)

  /** The message of the `Error` thrown for a status that is not ok. */
  function ApiErrorMessage(status: nat, detail: string): (m: string)
    ensures |m| > 4 + |detail| && m[..4] == "API "
    ensures m[|m| - |detail|..] == detail
  {
    "API " + NatToDecimal(status) + ": " + detail
  }

  /**
   * `handleResponse`: a status that is not ok fails with the status and the
   * body text, or the status text when the body is empty; 204 succeeds with
   * no body; any other ok status hands the body to `res.json()`, which
   * succeeds with it or rejects with `jsonError` when the body is not JSON.
   */
  function HandleResponse(status: nat, bodyText: string, statusText: string, jsonError: Option<string>)
    : (r: Result<Ack, string>)
    ensures r.Err? <==> !IsOkStatus(status) || (status != 204 && jsonError.Some?)
    ensures !IsOkStatus(status) && bodyText != "" ==>
              r.Err? && ParseApiError(r.error) == Some(ApiError(status, bodyText))
    ensures !IsOkStatus(status) && bodyText == "" ==>
              r.Err? && ParseApiError(r.error) == Some(ApiError(status, statusText))
    ensures r == Ok(NoContent) <==> status == 204
    ensures IsOkStatus(status) && status != 204 && jsonError.None? ==> r == Ok(JsonBody(bodyText))
    ensures IsOkStatus(status) && status != 204 && jsonError.Some? ==> r == Err(jsonError.value)
  {
    if !IsOkStatus(status) then
      var detail := if bodyText != "" then bodyText else statusText;
      ParseApiErrorOfMessage(status, detail);
      Err(ApiErrorMessage(status, detail))
    else if status == 204 then Ok(NoContent)
    else if jsonError.Some? then Err(jsonError.value)
    else Ok(JsonBody(bodyText))
  }

  /** The parts of an `API <status>: <detail>` message. */
  datatype ApiError = ApiError(status: nat, detail: string)

  /** The length of the longest prefix of `s` made of digits. */
  function DigitPrefixLength(s: string): (n: nat)
    ensures n <= |s| && IsDigits(s[..n])
    ensures n < |s| ==> !IsDigit(s[n])
    decreases |s|
  {
    if s == [] || !IsDigit(s[0]) then 0
    else
      var n := 1 + DigitPrefixLength(s[1..]);
      assert s[..n] == [s[0]] + s[1..][..n - 1];
      n
  }

  /** Reads an `API <status>: <detail>` message back into its status and detail. */
  function ParseApiError(msg: string): Option<ApiError> {
    if |msg| < 4 || msg[..4] != "API " then None
    else
      var rest := msg[4..];
      var n := DigitPrefixLength(rest);
      if n == 0 || |rest| < n + 2 || rest[n..n + 2] != ": " then None
      else Some(ApiError(DecimalValue(rest[..n]), rest[n + 2..]))
  }

  lemma {:induction false} DigitPrefixOfDigits(d: string, t: string)
    requires IsDigits(d) && (t == [] || !IsDigit(t[0]))
    ensures DigitPrefixLength(d + t) == |d|
    decreases |d|
  {
    if d != [] {
      assert (d + t)[1..] == d[1..] + t;
      DigitPrefixOfDigits(d[1..], t);
    }
  }

  /** `API <digits>: <detail>` reads back into the value of the digits and the detail. */
  lemma {:induction false} ParseApiErrorOfParts(digits: string, detail: string)
    requires IsDigits(digits) && digits != []
    ensures ParseApiError("API " + digits + ": " + detail) == Some(ApiError(DecimalValue(digits), detail))
  {
    var tail := ": " + detail;
    var rest := digits + tail;
    var msg := "API " + digits + ": " + detail;
    assert msg == "API " + rest;
    assert msg[..4] == "API ";
    assert msg[4..] == rest;
    assert tail[0] == ':';
    DigitPrefixOfDigits(digits, tail);
    var n := |digits|;
    assert rest[..n] == digits;
    assert rest[n..n + 2] == tail[..2] == ": ";
    assert rest[n + 2..] == tail[2..] == detail;
  }

  /** Every message `handleResponse` throws can be read back into its status and detail. */
  lemma {:induction false} ParseApiErrorOfMessage(status: nat, detail: string)
    ensures ParseApiError(ApiErrorMessage(status, detail)) == Some(ApiError(status, detail))
  {
    ParseApiErrorOfParts(NatToDecimal(status), detail);
    DecimalOfRendering(status);
  }

  // ------------------------------------------------------------ sending

  /** What a POST brings back: a response, or the `TypeError` a failed `fetch` rejects with. */
  datatype Exchange =
    | Responded(status: nat, bodyText: string, statusText: string, jsonError: Option<string>)
    | FetchFailed(message: string)

  /** How the promise returned by `submitSosRequest` or `submitHelpOffer` settles. */
  function Settle(x: Exchange): (r: Result<Ack, string>)
    ensures x.FetchFailed? ==> r == Err(x.message)
    ensures x.Responded? ==> r == HandleResponse(x.status, x.bodyText, x.statusText, x.jsonError)
  {
    match x
    case Responded(status, body, statusText, jsonError) => HandleResponse(status, body, statusText, jsonError)
    case FetchFailed(m) => Err(m)
  }

  /** The example exchanges of the adapter: 201 with a body resolves to it, 400 rejects naming status and body. */
  lemma SettleExamples()
    ensures Settle(Responded(201, "{\"id\": 7}", "Created", None)) == Ok(JsonBody("{\"id\": 7}"))
    ensures Settle(Responded(400, "bad district", "Bad Request", None)) == Err("API 400: bad district")
    ensures Settle(Responded(404, "", "Not Found", None)) == Err("API 404: Not Found")
    ensures Settle(Responded(204, "ignored", "No Content", Some("not JSON"))) == Ok(NoContent)
    ensures Settle(Responded(200, "", "OK", Some("Unexpected end of JSON input")))
            == Err("Unexpected end of JSON input")
  {
    assert NatToDecimal(4) == "4";
    assert NatToDecimal(40) == "40";
    assert NatToDecimal(400) == "400";
    assert NatToDecimal(404) == "404";
    assert "API " + "400" + ": " + "bad district" == "API 400: bad district";
    assert "API " + "404" + ": " + "Not Found" == "API 404: Not Found";
  }
}
