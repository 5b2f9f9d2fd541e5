/**
 * The contract between the front end's request bodies and the backend's
 * records: the keys the client sends are columns of the model, the server
 * strips the text it receives and fills in the rest with its defaults, and a
 * form within the model's limits passes the model's field validation exactly
 * when its name and phone hold something besides whitespace.
 */
module WireContract {

  import opened Wrappers
  import opened Text
  import opened Api
  import opened Records
  import SosPage

  /** The columns the client never sends: the key, the timestamps and the staff-only fields. */
  const ServerOnlySosFields: set<string> := {"id", "created_at", "updated_at", "status", "internal_notes"}

  /** Every key of the SOS body is a column of `SosRequest`. */
  lemma SosKeysAreModelFields()
    ensures forall k :: k in SosPayloadKeys ==> k in SosRequestFields && k !in ServerOnlySosFields
  {
  }

  /** Every key of the help-offer body is a column of `HelpOffer`. */
  lemma HelpOfferKeysAreModelFields()
    ensures forall k :: k in HelpOfferPayloadKeys ==> k in HelpOfferFields
  {
  }

  /** The SOS body sends every column except the server-only ones. */
  lemma SosBodyCoversModel()
    ensures forall k :: k in SosRequestFields ==> k in SosPayloadKeys || k in ServerOnlySosFields
  {
  }

  /** `number_of_people` and `phone_battery_percentage` as the server reads them; `None` for text that is not a digit string. */
  predicate NumbersEvaluated(p: SosPayload) {
    p.numberOfPeople.Int? && (p.phoneBatteryPercentage.Some? ==> p.phoneBatteryPercentage.value.Int?)
  }

  /**
   * A nullable text column: `null` stays `null`, text is trimmed, and text
   * that is all whitespace is stored as the empty string.
   */
  function TrimNullable(o: Option<string>): (r: Option<string>)
    ensures r.None? <==> o.None?
    ensures r.Some? ==> Unpadded(r.value) && |r.value| <= |o.value|
  {
    match o
    case None => None
    case Some(v) => Some(Trim(v))
  }

  /**
   * The record `SosRequestSerializer` builds from a request body received at
   * `now`. The model's text columns become serializer `CharField`s, which
   * strip surrounding whitespace before the blank and length checks; the
   * choice columns become `ChoiceField`s, which keep the value as sent. The
   * columns the body does not send take their model defaults.
   */
  function ReceiveSos(p: SosPayload, now: int): (r: Option<SosRequest>)
    ensures r.Some? <==> NumbersEvaluated(p)
    ensures r.Some? ==> r.value.status == StatusCode(New) && r.value.internalNotes == ""
    ensures r.Some? ==> r.value.createdAt == now && r.value.updatedAt == now
    // the `CharField` columns, stripped
    ensures r.Some? ==>
      && r.value.fullName == Trim(p.fullName) && r.value.phoneNumber == Trim(p.phoneNumber)
      && r.value.alternatePhoneNumber == TrimNullable(p.alternatePhoneNumber)
      && r.value.address == Trim(p.address) && r.value.landmark == Trim(p.landmark)
      && r.value.district == Trim(p.district) && r.value.gpsLocation == Trim(p.gpsLocation)
      && r.value.safeHours == Trim(p.safeHours) && r.value.floorLevel == Trim(p.floorLevel)
      && r.value.additionalInfo == Trim(p.additionalInfo)
    // the `ChoiceField` columns, as sent
    ensures r.Some? ==> r.value.waterLevel == p.waterLevel && r.value.emergencyType == p.emergencyType
    // the flags, copied
    ensures r.Some? ==>
      && r.value.needsFood == p.needsFood && r.value.needsMedicine == p.needsMedicine
      && r.value.needPower == p.needPower && r.value.needWater == p.needWater
      && r.value.hasChildren == p.hasChildren && r.value.hasElderly == p.hasElderly
      && r.value.hasDisabled == p.hasDisabled && r.value.hasMedical == p.hasMedical
    // the numbers, as integers
    ensures r.Some? ==>
      && (forall n: nat :: r.value.phoneBatteryPercentage == Some(n) <==> p.phoneBatteryPercentage == Some(Int(n)))
      && r.value.phoneBatteryPercentage.None? == p.phoneBatteryPercentage.None?
      && r.value.numberOfPeople == p.numberOfPeople.n
  {
    if !NumbersEvaluated(p) then None
    else
      Some(SosRequest(
        fullName := Trim(p.fullName), phoneNumber := Trim(p.phoneNumber),
        alternatePhoneNumber := TrimNullable(p.alternatePhoneNumber),
        address := Trim(p.address), landmark := Trim(p.landmark), district := Trim(p.district),
        gpsLocation := Trim(p.gpsLocation), waterLevel := p.waterLevel, safeHours := Trim(p.safeHours),
        floorLevel := Trim(p.floorLevel), additionalInfo := Trim(p.additionalInfo),
        needsFood := p.needsFood, needsMedicine := p.needsMedicine,
        needPower := p.needPower, needWater := p.needWater,
        phoneBatteryPercentage :=
          if p.phoneBatteryPercentage.None? then None else Some(p.phoneBatteryPercentage.value.n),
        emergencyType := p.emergencyType, numberOfPeople := p.numberOfPeople.n,
        hasChildren := p.hasChildren, hasElderly := p.hasElderly,
        hasDisabled := p.hasDisabled, hasMedical := p.hasMedical,
        createdAt := now, updatedAt := now, status := "new", internalNotes := ""))
  }

  /** The server stores the body: its numbers are integers and the record passes validation. */
  predicate AcceptedSos(p: SosPayload, now: int) {
    ReceiveSos(p, now).Some? && ValidSosRequest(ReceiveSos(p, now).value)
  }

  /** The district select of the SOS page. */
  const DistrictOptions: seq<string> := ["", "colombo", "gampaha", "kalutara"]

  /**
   * A form whose selects hold values from their option lists, whose typed
   * text is within the model's lengths, and whose people count and battery
   * text are digit strings of at most 15 digits (the battery input itself
   * accepts any text).
   */
  predicate WithinFormLimits(f: SosForm) {
    && |f.fullName| <= 200 && |f.phoneNumber| <= 15 && |f.alternatePhone| <= 15
    && |f.landmark| <= 200 && f.district in DistrictOptions
    && (f.gpsLocation.Some? ==> |f.gpsLocation.value| <= 100)
    && BlankOrChoice(f.waterLevel, WaterLevelChoices)
    && |f.safeHours| <= 100 && |f.floorLevel| <= 10
    && IsExactDigits(f.phoneBatteryPercent)
    && BlankOrChoice(f.emergencyType, EmergencyTypeChoices)
    && IsExactDigits(f.numberOfPeople)
  }

  /** The district options have no surrounding whitespace, so the server stores them as chosen. */
  lemma DistrictKeptAsChosen(d: string)
    requires d in DistrictOptions
    ensures Trim(d) == d
  {
    assert Unpadded(d) by {
      if d != "" {
        assert d[0] in "cgk" && d[|d| - 1] in "oa";
      }
    }
    TrimIdempotent(d);
  }

  /**
   * What the server makes of a form within the limits: the numbers parse,
   * the name and phone are stored trimmed, the selects and people count as
   * chosen, and every other column already fits its length.
   */
  lemma ReceivedForm(f: SosForm, now: int)
    requires WithinFormLimits(f)
    ensures ReceiveSos(EncodeSos(f), now).Some?
    ensures var r := ReceiveSos(EncodeSos(f), now).value;
      && r.fullName == Trim(f.fullName) && r.phoneNumber == Trim(f.phoneNumber)
      && r.district == f.district && r.emergencyType == f.emergencyType && r.waterLevel == f.waterLevel
      && (f.numberOfPeople != "" ==> r.numberOfPeople == DecimalValue(f.numberOfPeople))
    ensures var r := ReceiveSos(EncodeSos(f), now).value;
      && |r.fullName| <= 200 && |r.phoneNumber| <= 15
      && (r.alternatePhoneNumber.Some? ==> |r.alternatePhoneNumber.value| <= 15)
      && |r.landmark| <= 200 && |r.district| <= 100 && |r.gpsLocation| <= 100
      && |r.safeHours| <= 100 && |r.floorLevel| <= 10
      && (r.phoneBatteryPercentage.Some? ==> r.phoneBatteryPercentage.value >= 0)
      && r.numberOfPeople >= 0 && r.status in StatusChoices
  {
    var p := EncodeSos(f);
    assert NumbersEvaluated(p);
    DistrictKeptAsChosen(f.district);
  }

  /**
   * For forms within the limits, the server accepts the encoded body exactly
   * when name and phone hold something besides whitespace; what it accepts
   * the page's own check also lets through.
   */
  lemma ServerAcceptsFilledForms(f: SosForm, now: int)
    requires WithinFormLimits(f)
    ensures AcceptedSos(EncodeSos(f), now) <==> Trim(f.fullName) != "" && Trim(f.phoneNumber) != ""
    ensures AcceptedSos(EncodeSos(f), now) ==> SosPage.HasRequiredFields(f)
  {
    ReceivedForm(f, now);
  }

  /**
   * The page's check is weaker than the server's: a name of one space passes
   * the page and the browser, and the server rejects it as blank.
   */
  lemma BlankNamePassesPageOnly(now: int)
    ensures var f := SosPage.EmptyForm.(fullName := " ", phoneNumber := "0771234567");
      && WithinFormLimits(f) && SosPage.BrowserAllowsSubmit(f) && SosPage.HasRequiredFields(f)
      && !AcceptedSos(EncodeSos(f), now)
  {
    var f := SosPage.EmptyForm.(fullName := " ", phoneNumber := "0771234567");
    assert DecimalValue("1") == 1 by {
      assert "1"[..0] == "";
    }
    assert IsSpace(f.fullName[0]);
    ServerAcceptsFilledForms(f, now);
  }

  /**
   * A form left at its initial values except name and phone encodes to the
   * record the model creates from those two fields, trimmed: the client's
   * initial values and the server's defaults agree.
   */
  lemma EmptyFormIsDefaultRecord(name: string, phone: string, now: int)
    ensures ReceiveSos(EncodeSos(SosPage.EmptyForm.(fullName := name, phoneNumber := phone)), now)
            == Some(NewSosRequest(Trim(name), Trim(phone), now))
  {
    assert DecimalValue("1") == 1 by {
      assert "1"[..0] == "";
    }
  }

  /**
   * The record `HelpOfferSerializer` builds from a help-offer body received
   * at `now`: every column is a text column, stripped of surrounding whitespace.
   */
  function ReceiveHelpOffer(p: HelpOfferPayload, now: int): (o: HelpOffer)
    ensures o.createdAt == now
    ensures Unpadded(o.helperName) && Unpadded(o.helperPhone) && Unpadded(o.helperDistrict)
    ensures Unpadded(o.supportDetails) && Unpadded(o.preferredAreas)
    ensures o.helperName == Trim(p.helperName) && o.helperPhone == Trim(p.helperPhone)
    ensures o.helperDistrict == Trim(p.helperDistrict) && o.supportDetails == Trim(p.supportDetails)
    ensures o.preferredAreas == Trim(p.preferredAreas)
  {
    HelpOffer(Trim(p.helperName), Trim(p.helperPhone), Trim(p.helperDistrict),
              Trim(p.supportDetails), Trim(p.preferredAreas), now)
  }

  /**
   * The server accepts an offer exactly when name, phone, district and
   * details hold something besides whitespace and fit their lengths once
   * trimmed, whatever the preferred areas.
   */
  lemma HelpOfferAcceptance(f: HelpOfferForm, now: int)
    ensures ValidHelpOffer(ReceiveHelpOffer(EncodeHelpOffer(f), now)) <==>
      && Trim(f.helperName) != "" && |Trim(f.helperName)| <= 200
      && Trim(f.helperPhone) != "" && |Trim(f.helperPhone)| <= 32
      && Trim(f.helperDistrict) != "" && |Trim(f.helperDistrict)| <= 100
      && Trim(f.supportDetails) != ""
    ensures ReceiveHelpOffer(EncodeHelpOffer(f), now).preferredAreas == Trim(f.preferredAreas)
  {
  }
}
