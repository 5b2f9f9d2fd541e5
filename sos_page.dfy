/**
 * The SOS page (flood-sos/app/page.tsx): the form state holder, its
 * one-field update, and the submit handler with its in-flight flag and its
 * success and error messages.
 */
module SosPage {

  import opened Wrappers
  import opened Text
  import opened Api

  /** `EMPTY_FORM`: every text empty, no location, every flag off, one person. */
  const EmptyForm: SosForm := SosForm(
    fullName := "", phoneNumber := "", alternatePhone := "", address := "", landmark := "",
    district := "", gpsLocation := None, waterLevel := "", safeHours := "", floorLevel := "",
    additionalInfo := "", needsFood := false, needsWater := false, needsPower := false,
    phoneBatteryPercent := "", emergencyType := "", numberOfPeople := "1",
    hasChildren := false, hasElderly := false, hasDisabled := false, hasMedical := false)

  const MissingFieldsMessage: string := "Please fill in your name and phone number."
  const SentMessage: string := "Your emergency request has been sent to the coordination system."
  const FailurePrefix: string := "Failed to send request: "

  // ------------------------------------------------------ fields of the form

  /** The keys of `SosFormData`. */
  datatype Field =
    | FullName | PhoneNumber | AlternatePhone | Address | Landmark | District | GpsLocation
    | WaterLevel | SafeHours | FloorLevel | AdditionalInfo | NeedsFood | NeedsWater | NeedsPower
    | PhoneBatteryPercent | EmergencyType | NumberOfPeople | HasChildren | HasElderly
    | HasDisabled | HasMedical

  /** A value of some field: a string, a nullable string or a boolean. */
  datatype FieldValue = TextValue(s: string) | MaybeText(o: Option<string>) | Flag(b: bool)

  /** `value` has the type `SosFormData[key]`. */
  predicate Fits(key: Field, value: FieldValue) {
    match key
    case GpsLocation => value.MaybeText?
    case NeedsFood | NeedsWater | NeedsPower | HasChildren | HasElderly | HasDisabled | HasMedical =>
      value.Flag?
    case _ => value.TextValue?
  }

  /** `form[key]`. */
  function Get(f: SosForm, key: Field): (v: FieldValue)
    ensures Fits(key, v)
  {
    match key
    case FullName => TextValue(f.fullName)
    case PhoneNumber => TextValue(f.phoneNumber)
    case AlternatePhone => TextValue(f.alternatePhone)
    case Address => TextValue(f.address)
    case Landmark => TextValue(f.landmark)
    case District => TextValue(f.district)
    case GpsLocation => MaybeText(f.gpsLocation)
    case WaterLevel => TextValue(f.waterLevel)
    case SafeHours => TextValue(f.safeHours)
    case FloorLevel => TextValue(f.floorLevel)
    case AdditionalInfo => TextValue(f.additionalInfo)
    case NeedsFood => Flag(f.needsFood)
    case NeedsWater => Flag(f.needsWater)
    case NeedsPower => Flag(f.needsPower)
    case PhoneBatteryPercent => TextValue(f.phoneBatteryPercent)
    case EmergencyType => TextValue(f.emergencyType)
    case NumberOfPeople => TextValue(f.numberOfPeople)
    case HasChildren => Flag(f.hasChildren)
    case HasElderly => Flag(f.hasElderly)
    case HasDisabled => Flag(f.hasDisabled)
    case HasMedical => Flag(f.hasMedical)
  }

  /** `{ ...prev, [key]: value }`. */
  function Set(f: SosForm, key: Field, value: FieldValue): (r: SosForm)
    requires Fits(key, value)
    ensures Get(r, key) == value
  {
    match key
    case FullName => f.(fullName := value.s)
    case PhoneNumber => f.(phoneNumber := value.s)
    case AlternatePhone => f.(alternatePhone := value.s)
    case Address => f.(address := value.s)
    case Landmark => f.(landmark := value.s)
    case District => f.(district := value.s)
    case GpsLocation => f.(gpsLocation := value.o)
    case WaterLevel => f.(waterLevel := value.s)
    case SafeHours => f.(safeHours := value.s)
    case FloorLevel => f.(floorLevel := value.s)
    case AdditionalInfo => f.(additionalInfo := value.s)
    case NeedsFood => f.(needsFood := value.b)
    case NeedsWater => f.(needsWater := value.b)
    case NeedsPower => f.(needsPower := value.b)
    case PhoneBatteryPercent => f.(phoneBatteryPercent := value.s)
    case EmergencyType => f.(emergencyType := value.s)
    case NumberOfPeople => f.(numberOfPeople := value.s)
    case HasChildren => f.(hasChildren := value.b)
    case HasElderly => f.(hasElderly := value.b)
    case HasDisabled => f.(hasDisabled := value.b)
    case HasMedical => f.(hasMedical := value.b)
  }

  /** An update leaves every other field as it was. */
  lemma SetKeepsOtherFields(f: SosForm, key: Field, value: FieldValue, other: Field)
    requires Fits(key, value) && other != key
    ensures Get(Set(f, key, value), other) == Get(f, other)
  {
  }

  /** Two forms that agree column by column are the same form. */
  lemma EqualColumns(f: SosForm, g: SosForm)
    requires f.fullName == g.fullName && f.phoneNumber == g.phoneNumber && f.alternatePhone == g.alternatePhone
    requires f.address == g.address && f.landmark == g.landmark && f.district == g.district
    requires f.gpsLocation == g.gpsLocation && f.waterLevel == g.waterLevel && f.safeHours == g.safeHours
    requires f.floorLevel == g.floorLevel && f.additionalInfo == g.additionalInfo
    requires f.needsFood == g.needsFood && f.needsWater == g.needsWater && f.needsPower == g.needsPower
    requires f.phoneBatteryPercent == g.phoneBatteryPercent && f.emergencyType == g.emergencyType
    requires f.numberOfPeople == g.numberOfPeople && f.hasChildren == g.hasChildren
    requires f.hasElderly == g.hasElderly && f.hasDisabled == g.hasDisabled && f.hasMedical == g.hasMedical
    ensures f == g
  {
  }

  /** `Get` on the name, phone numbers and address. */
  lemma GetContact(f: SosForm)
    ensures Get(f, FullName) == TextValue(f.fullName)
    ensures Get(f, PhoneNumber) == TextValue(f.phoneNumber)
    ensures Get(f, AlternatePhone) == TextValue(f.alternatePhone)
    ensures Get(f, Address) == TextValue(f.address)
  {
  }

  /** `Get` on the landmark, district, location and water level. */
  lemma GetPlace(f: SosForm)
    ensures Get(f, Landmark) == TextValue(f.landmark)
    ensures Get(f, District) == TextValue(f.district)
    ensures Get(f, GpsLocation) == MaybeText(f.gpsLocation)
    ensures Get(f, WaterLevel) == TextValue(f.waterLevel)
  {
  }

  /** `Get` on the safe hours, floor and notes. */
  lemma GetConditions(f: SosForm)
    ensures Get(f, SafeHours) == TextValue(f.safeHours)
    ensures Get(f, FloorLevel) == TextValue(f.floorLevel)
    ensures Get(f, AdditionalInfo) == TextValue(f.additionalInfo)
  {
  }

  /** `Get` on the needs flags. */
  lemma GetNeeds(f: SosForm)
    ensures Get(f, NeedsFood) == Flag(f.needsFood)
    ensures Get(f, NeedsWater) == Flag(f.needsWater)
    ensures Get(f, NeedsPower) == Flag(f.needsPower)
  {
  }

  /** `Get` on battery, emergency type and head count. */
  lemma GetDetails(f: SosForm)
    ensures Get(f, PhoneBatteryPercent) == TextValue(f.phoneBatteryPercent)
    ensures Get(f, EmergencyType) == TextValue(f.emergencyType)
    ensures Get(f, NumberOfPeople) == TextValue(f.numberOfPeople)
  {
  }

  /** `Get` on the household flags. */
  lemma GetPeople(f: SosForm)
    ensures Get(f, HasChildren) == Flag(f.hasChildren)
    ensures Get(f, HasElderly) == Flag(f.hasElderly)
    ensures Get(f, HasDisabled) == Flag(f.hasDisabled)
    ensures Get(f, HasMedical) == Flag(f.hasMedical)
  {
  }

  /** A form is determined by its fields, so `Set`'s contract and the lemma above say all there is to say about it. */
  lemma {:induction false} FormsEqualByFields(f: SosForm, g: SosForm)
    requires forall key :: Get(f, key) == Get(g, key)
    ensures f == g
  {
    GetContact(f); GetContact(g);
    GetPlace(f); GetPlace(g);
    GetConditions(f); GetConditions(g);
    GetNeeds(f); GetNeeds(g);
    GetDetails(f); GetDetails(g);
    GetPeople(f); GetPeople(g);
    assert Get(f, FullName) == Get(g, FullName);
    assert Get(f, PhoneNumber) == Get(g, PhoneNumber);
    assert Get(f, AlternatePhone) == Get(g, AlternatePhone);
    assert Get(f, Address) == Get(g, Address);
    assert Get(f, Landmark) == Get(g, Landmark);
    assert Get(f, District) == Get(g, District);
    assert Get(f, GpsLocation) == Get(g, GpsLocation);
    assert Get(f, WaterLevel) == Get(g, WaterLevel);
    assert Get(f, SafeHours) == Get(g, SafeHours);
    assert Get(f, FloorLevel) == Get(g, FloorLevel);
    assert Get(f, AdditionalInfo) == Get(g, AdditionalInfo);
    assert Get(f, NeedsFood) == Get(g, NeedsFood);
    assert Get(f, NeedsWater) == Get(g, NeedsWater);
    assert Get(f, NeedsPower) == Get(g, NeedsPower);
    assert Get(f, PhoneBatteryPercent) == Get(g, PhoneBatteryPercent);
    assert Get(f, EmergencyType) == Get(g, EmergencyType);
    assert Get(f, NumberOfPeople) == Get(g, NumberOfPeople);
    assert Get(f, HasChildren) == Get(g, HasChildren);
    assert Get(f, HasElderly) == Get(g, HasElderly);
    assert Get(f, HasDisabled) == Get(g, HasDisabled);
    assert Get(f, HasMedical) == Get(g, HasMedical);
    EqualColumns(f, g);
  }

  /** What `EMPTY_FORM` holds, field by field. */
  lemma EmptyFormFields(key: Field)
    ensures key == NumberOfPeople ==> Get(EmptyForm, key) == TextValue("1")
    ensures key == GpsLocation ==> Get(EmptyForm, key) == MaybeText(None)
    ensures Get(EmptyForm, key).Flag? ==> !Get(EmptyForm, key).b
    ensures key != NumberOfPeople && Get(EmptyForm, key).TextValue? ==> Get(EmptyForm, key).s == ""
  {
  }

  // ---------------------------------------------------------- page state

  /** The four `useState` slots of the page. */
  datatype PageState = PageState(
    form: SosForm,
    loading: bool,
    successMsg: Option<string>,
    errorMsg: Option<string>)

  const InitialState: PageState := PageState(EmptyForm, false, None, None)

  /** The client-side check of `handleSubmit`: name and phone number are filled in. */
  predicate HasRequiredFields(f: SosForm) {
    f.fullName != "" && f.phoneNumber != ""
  }

  /**
   * The browser's own check of the form before it dispatches `submit`: the
   * people input is `type="number"` with `min={1}` and the default step, so
   * it may be left empty, and otherwise must hold a whole number of at least 1.
   * A digit string is checked by its value; other text (a sign, a decimal
   * point, an exponent) is taken as blocked.
   */
  predicate BrowserAllowsSubmit(f: SosForm) {
    f.numberOfPeople == "" || (IsDigits(f.numberOfPeople) && DecimalValue(f.numberOfPeople) >= 1)
  }

  /**
   * What the page keeps true between reactions: no message is shown while a
   * request is in flight, and the two messages are never shown together.
   */
  predicate Consistent(st: PageState) {
    && (st.loading ==> st.successMsg.None? && st.errorMsg.None?)
    && !(st.successMsg.Some? && st.errorMsg.Some?)
  }

  /**
   * `handleSubmit` up to its `await`, together with the payload it hands to
   * `submitSosRequest`. While `loading` the submit control is disabled, and
   * a people count the browser rejects cancels the submit before the
   * handler runs; either way a press changes nothing and sends nothing.
   */
  function AfterStart(st: PageState): (r: (PageState, Option<SosPayload>))
    ensures st.loading || !BrowserAllowsSubmit(st.form) ==> r == (st, None)
    ensures !st.loading && BrowserAllowsSubmit(st.form) ==> r.0.successMsg.None? && r.0.form == st.form
    ensures !st.loading && BrowserAllowsSubmit(st.form) && !HasRequiredFields(st.form) ==>
              r.1.None? && !r.0.loading && r.0.errorMsg == Some(MissingFieldsMessage)
    ensures !st.loading && BrowserAllowsSubmit(st.form) && HasRequiredFields(st.form) ==>
              r.1 == Some(EncodeSos(st.form)) && r.0.loading && r.0.errorMsg.None?
  {
    if st.loading || !BrowserAllowsSubmit(st.form) then (st, None)
    else
      var cleared := st.(successMsg := None, errorMsg := None);
      if !HasRequiredFields(st.form) then (cleared.(errorMsg := Some(MissingFieldsMessage)), None)
      else (cleared.(loading := true), Some(EncodeSos(st.form)))
  }

  /**
   * `handleSubmit` after its `await`: a success resets the form and shows
   * the success message, a failure keeps the form and shows the error, and
   * `finally` always clears `loading`.
   */
  function AfterFinish(st: PageState, outcome: Result<Ack, string>): (r: PageState)
    requires st.loading
    ensures !r.loading
    ensures outcome.Ok? ==>
              r.form == EmptyForm && r.successMsg == Some(SentMessage) && r.errorMsg == st.errorMsg
    ensures outcome.Err? ==>
              r.form == st.form && r.errorMsg == Some(FailurePrefix + outcome.error)
              && r.successMsg == st.successMsg
  {
    match outcome
    case Ok(_) => st.(successMsg := Some(SentMessage), form := EmptyForm, loading := false)
    case Err(m) => st.(errorMsg := Some(FailurePrefix + m), loading := false)
  }

  /** One whole press of the submit control, the send answered by `x`. */
  function AfterSubmit(st: PageState, x: Exchange): (r: (PageState, Option<SosPayload>))
    ensures r.1.Some? <==> !st.loading && BrowserAllowsSubmit(st.form) && HasRequiredFields(st.form)
    ensures r.1.Some? ==> r.1.value == EncodeSos(st.form) && !r.0.loading
  {
    var (started, sent) := AfterStart(st);
    if sent.None? then (started, sent) else (AfterFinish(started, Settle(x)), sent)
  }

  /** A press while a request is in flight is ignored: at most one request is in flight. */
  lemma SubmitWhileLoadingIgnored(st: PageState, x: Exchange)
    requires st.loading
    ensures AfterSubmit(st, x) == (st, None)
  {
  }

  /** A people count the browser rejects cancels the press: nothing changes and nothing is sent. */
  lemma SubmitBlockedByBrowser(st: PageState, x: Exchange)
    requires !BrowserAllowsSubmit(st.form)
    ensures AfterSubmit(st, x) == (st, None)
  {
  }

  /** A missing name or phone number is reported without sending, and the form is kept. */
  lemma {:induction false} SubmitRejectsMissingFields(st: PageState, x: Exchange)
    requires !st.loading && BrowserAllowsSubmit(st.form) && !HasRequiredFields(st.form)
    ensures AfterSubmit(st, x) == (PageState(st.form, false, None, Some(MissingFieldsMessage)), None)
  {
    var (started, sent) := AfterStart(st);
    assert sent.None? && started.form == st.form;
  }

  /** A successful send resets the form and shows only the success message. */
  lemma {:induction false} SubmitSucceeds(st: PageState, x: Exchange)
    requires !st.loading && BrowserAllowsSubmit(st.form) && HasRequiredFields(st.form) && Settle(x).Ok?
    ensures AfterSubmit(st, x) ==
              (PageState(EmptyForm, false, Some(SentMessage), None), Some(EncodeSos(st.form)))
  {
    var (started, sent) := AfterStart(st);
    assert started.loading && started.errorMsg.None?;
  }

  /** A failed send keeps the form and shows only the error. */
  lemma {:induction false} SubmitFails(st: PageState, x: Exchange)
    requires !st.loading && BrowserAllowsSubmit(st.form) && HasRequiredFields(st.form) && Settle(x).Err?
    ensures AfterSubmit(st, x) ==
              (PageState(st.form, false, None, Some(FailurePrefix + Settle(x).error)),
               Some(EncodeSos(st.form)))
  {
    var (started, sent) := AfterStart(st);
    assert started.loading && started.form == st.form && started.successMsg.None?;
  }

  /**
   * After every press `loading` is off again, and at most one message shows
   * once the handler has run (a cancelled press leaves the page as it was).
   */
  lemma SubmitEndsSettled(st: PageState, x: Exchange)
    requires !st.loading
    ensures !AfterSubmit(st, x).0.loading
    ensures BrowserAllowsSubmit(st.form) || Consistent(st) ==> Consistent(AfterSubmit(st, x).0)
  {
    if !BrowserAllowsSubmit(st.form) {
      SubmitBlockedByBrowser(st, x);
    } else if !HasRequiredFields(st.form) {
      SubmitRejectsMissingFields(st, x);
    } else if Settle(x).Ok? {
      SubmitSucceeds(st, x);
    } else {
      SubmitFails(st, x);
    }
  }

  /** Every reaction of the page keeps it consistent. */
  lemma ReactionsKeepConsistent(st: PageState, key: Field, value: FieldValue, outcome: Result<Ack, string>)
    requires Consistent(st)
    ensures Consistent(InitialState)
    ensures Fits(key, value) ==> Consistent(st.(form := Set(st.form, key, value)))
    ensures Consistent(AfterStart(st).0)
    ensures st.loading ==> Consistent(AfterFinish(st, outcome))
  {
  }

  // ---------------------------------------------------------------- page

  /** `HomePage`: its state slots as fields, its handlers as methods. */
  class HomePage {
    var form: SosForm
    var loading: bool
    var successMsg: Option<string>
    var errorMsg: Option<string>

    function State(): PageState
      reads this
    {
      PageState(form, loading, successMsg, errorMsg)
    }

    ghost predicate Valid()
      reads this
    {
      Consistent(State())
    }

    constructor ()
      ensures State() == InitialState && Valid()
    {
      form := EmptyForm;
      loading := false;
      successMsg := None;
      errorMsg := None;
    }

    /** `update(key, value)`. */
    method Update(key: Field, value: FieldValue)
      requires Valid() && Fits(key, value)
      modifies this
      ensures Valid()
      ensures form == Set(old(form), key, value)
      ensures loading == old(loading) && successMsg == old(successMsg) && errorMsg == old(errorMsg)
    {
      form := Set(form, key, value);
    }

    /** `handleSubmit` up to its `await`; `sent` is the payload handed to the adapter. */
    method StartSubmit() returns (sent: Option<SosPayload>)
      requires Valid()
      modifies this
      ensures Valid()
      ensures (State(), sent) == AfterStart(old(State()))
    {
      if loading || !BrowserAllowsSubmit(form) {
        // the submit control is disabled while a request is in flight, and
        // the browser cancels a submit whose people count it rejects
        return None;
      }
      successMsg := None;
      errorMsg := None;
      if form.fullName == "" || form.phoneNumber == "" {
        errorMsg := Some(MissingFieldsMessage);
        return None;
      }
      loading := true;
      sent := Some(EncodeSos(form));
    }

    /** `handleSubmit` after its `await`, once the adapter's promise has settled. */
    method FinishSubmit(outcome: Result<Ack, string>)
      requires Valid() && loading
      modifies this
      ensures Valid()
      ensures State() == AfterFinish(old(State()), outcome)
    {
      match outcome {
        case Ok(_) =>
          successMsg := Some(SentMessage);
          form := EmptyForm;
        case Err(m) =>
          errorMsg := Some(FailurePrefix + m);
      }
      loading := false;
    }

    /** One press of the submit control, with no other reaction during the request. */
    method HandleSubmit(x: Exchange) returns (sent: Option<SosPayload>)
      requires Valid()
      modifies this
      ensures Valid()
      ensures (State(), sent) == AfterSubmit(old(State()), x)
    {
      sent := StartSubmit();
      if sent.Some? {
        FinishSubmit(Settle(x));
      }
    }
  }
}
