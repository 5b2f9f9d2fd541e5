/**
 * The help page (flood-sos/app/help/page.tsx): the relief-camp list with
 * its district filter, and the offer-help form with its `submitting` and
 * `message` slots.
 */
module HelpPage {

  import opened Wrappers
  import opened Text
  import opened Seqs
  import opened Api

  datatype ReliefCamp = ReliefCamp(
    id: string,
    name: string,
    district: string,
    location: string,
    capacity: nat,
    currentlySheltered: nat,
    needs: seq<string>)

  const MockCamps: seq<ReliefCamp> := [
    ReliefCamp("camp-1", "Kaduwela Maha Vidyalaya Camp", "Colombo",
      "Kaduwela town, main school hall", 400, 260, ["Dry rations", "Drinking water", "Infant milk"]),
    ReliefCamp("camp-2", "Gampaha Community Centre Camp", "Gampaha",
      "Near main bus stand", 300, 190, ["Mattresses", "Bedsheets"]),
    ReliefCamp("camp-3", "Kegalle Temple Premises Camp", "Kegalle",
      "Temple hall, upper ground", 200, 140, ["Medical supplies", "Volunteers"])
  ]

  // ------------------------------------------------------- camp filter

  /** The filter callback: only the camp's district is lower-cased, the selection is taken as it is. */
  function InDistrict(selected: string): ReliefCamp -> bool {
    (c: ReliefCamp) => Lower(c.district) == selected
  }

  /** `filteredCamps`: every camp when nothing is selected, else the camps of the selected district. */
  function FilteredCamps(selected: string, camps: seq<ReliefCamp>): (r: seq<ReliefCamp>)
    ensures selected == "" ==> r == camps
    ensures selected != "" ==> forall c :: c in r <==> c in camps && Lower(c.district) == selected
  {
    if selected != "" then
      FilterMembers(InDistrict(selected), camps);
      Filter(InDistrict(selected), camps)
    else camps
  }

  /** The camps shown keep their order in the list. */
  lemma FilteredCampsIsSubsequence(selected: string, camps: seq<ReliefCamp>)
    ensures IsSubsequence(FilteredCamps(selected, camps), camps)
  {
    if selected != "" {
      FilterIsSubsequence(InDistrict(selected), camps);
    } else {
      SubsequenceReflexive(camps);
    }
  }

  /** Each camp of the selected district is listed as often as it occurs, and no other camp is. */
  lemma FilteredCampsCount(selected: string, camps: seq<ReliefCamp>)
    requires selected != ""
    ensures forall c ::
      multiset(FilteredCamps(selected, camps))[c] == if Lower(c.district) == selected then multiset(camps)[c] else 0
  {
    FilterCount(InDistrict(selected), camps);
  }

  lemma {:induction false} SubsequenceReflexive<T>(s: seq<T>)
    ensures IsSubsequence(s, s)
    decreases |s|
  {
    if s != [] {
      SubsequenceReflexive(s[1..]);
    }
  }

  /** A selection with an upper-case letter matches no camp, since only the camp side is lower-cased. */
  lemma UpperCaseSelectionMatchesNothing(selected: string, camps: seq<ReliefCamp>, k: nat)
    requires k < |selected| && IsUpperAscii(selected[k])
    ensures FilteredCamps(selected, camps) == []
  {
  }

  /** Each option of the district select shows exactly one mock camp. */
  lemma MockCampOptions()
    ensures FilteredCamps("colombo", MockCamps) == [MockCamps[0]]
    ensures FilteredCamps("gampaha", MockCamps) == [MockCamps[1]]
    ensures FilteredCamps("kegalle", MockCamps) == [MockCamps[2]]
  {
    var m := MockCamps;
    assert Lower("Colombo") == "colombo";
    assert Lower("Gampaha") == "gampaha";
    assert Lower("Kegalle") == "kegalle";
    assert FilteredCamps("colombo", m) == [m[0]] by {
      var p := InDistrict("colombo");
      FilterCons(p, m[2], []);
      FilterCons(p, m[1], m[2..]);
      FilterCons(p, m[0], m[1..]);
    }
    assert FilteredCamps("gampaha", m) == [m[1]] by {
      var p := InDistrict("gampaha");
      FilterCons(p, m[2], []);
      FilterCons(p, m[1], m[2..]);
      FilterCons(p, m[0], m[1..]);
    }
    assert FilteredCamps("kegalle", m) == [m[2]] by {
      var p := InDistrict("kegalle");
      FilterCons(p, m[2], []);
      FilterCons(p, m[1], m[2..]);
      FilterCons(p, m[0], m[1..]);
    }
  }

  /** No mock camp shelters more people than it holds. */
  lemma MockCampsWithinCapacity()
    ensures forall c :: c in MockCamps ==> c.currentlySheltered <= c.capacity
  {
  }

  // ------------------------------------------------------ offer-help form

  const ThanksMessage: string := "Thank you for your support. Your offer has been recorded (demo)."

  /** What the offer form's inputs hold after `reset()`. */
  const EmptyOffer: HelpOfferForm := HelpOfferForm("", "", "", "", "")

  /** The `submitting` and `message` slots, and what the form's uncontrolled inputs hold. */
  datatype OfferState = OfferState(submitting: bool, message: Option<string>, draft: HelpOfferForm)

  const InitialOffer: OfferState := OfferState(false, None, EmptyOffer)

  /**
   * `handleOfferHelp` up to its `await`: `submitting` set and `message`
   * cleared. While `submitting` the submit control is disabled, so a press
   * changes nothing.
   */
  function AfterOfferStart(st: OfferState): (r: OfferState)
    ensures st.submitting ==> r == st
    ensures !st.submitting ==> r.submitting && r.message.None? && r.draft == st.draft
  {
    if st.submitting then st else st.(submitting := true, message := None)
  }

  /**
   * `handleOfferHelp` after its `await`, as written: the message is set, then
   * `e.currentTarget.reset()` runs. `targetAttached` says whether the event
   * still names the form at that point; when it does not, `reset()` throws a
   * `TypeError` and the closing `setSubmitting(false)` never runs.
   */
  function AfterOfferFinishAsWritten(st: OfferState, targetAttached: bool): (r: OfferState)
    requires st.submitting
    ensures r.message == Some(ThanksMessage)
    ensures targetAttached ==> !r.submitting && r.draft == EmptyOffer
    ensures !targetAttached ==> r.submitting && r.draft == st.draft
  {
    var thanked := st.(message := Some(ThanksMessage));
    if targetAttached then thanked.(draft := EmptyOffer, submitting := false) else thanked
  }

  /**
   * React clears `currentTarget` once the handler has returned at its first
   * `await`, so the as-written handler always ends with `submitting` still
   * set: the submit control stays disabled and every later press is ignored.
   */
  lemma DetachedTargetLeavesOfferStuck(st: OfferState)
    requires !st.submitting
    ensures var done := AfterOfferFinishAsWritten(AfterOfferStart(st), false);
            done.submitting && done.message == Some(ThanksMessage) && AfterOfferStart(done) == done
  {
  }

  /**
   * `handleOfferHelp` after its `await`, with the form element taken before
   * the `await`: thank the helper, clear the inputs, and release the control.
   */
  function AfterOfferFinish(st: OfferState): (r: OfferState)
    requires st.submitting
    ensures !r.submitting && r.message == Some(ThanksMessage) && r.draft == EmptyOffer
  {
    st.(message := Some(ThanksMessage), draft := EmptyOffer, submitting := false)
  }

  /** With the correction, a completed offer leaves the form ready for the next one. */
  lemma OfferCompletes(st: OfferState)
    requires !st.submitting
    ensures var done := AfterOfferFinish(AfterOfferStart(st));
            done == OfferState(false, Some(ThanksMessage), EmptyOffer) && AfterOfferStart(done).submitting
  {
  }

  // ---------------------------------------------------------------- page

  /** `HelpPage`: the district selection, the offer slots and the offer inputs. */
  class HelpPage {
    var selectedDistrict: string
    var submitting: bool
    var message: Option<string>
    var draft: HelpOfferForm

    function Offer(): OfferState
      reads this
    {
      OfferState(submitting, message, draft)
    }

    /** The camps listed under the district select. */
    function Camps(): seq<ReliefCamp>
      reads this
    {
      FilteredCamps(selectedDistrict, MockCamps)
    }

    constructor ()
      ensures selectedDistrict == "" && Offer() == InitialOffer && Camps() == MockCamps
    {
      selectedDistrict := "";
      submitting := false;
      message := None;
      draft := EmptyOffer;
    }

    /** `setSelectedDistrict`, from the district select. */
    method SelectDistrict(district: string)
      modifies this
      ensures selectedDistrict == district && Offer() == old(Offer())
    {
      selectedDistrict := district;
    }

    /** Typing into the offer form's inputs. */
    method EnterOffer(values: HelpOfferForm)
      modifies this
      ensures draft == values
      ensures selectedDistrict == old(selectedDistrict) && submitting == old(submitting)
      ensures message == old(message)
    {
      draft := values;
    }

    /** `handleOfferHelp` up to its `await`. */
    method StartOfferHelp()
      modifies this
      ensures Offer() == AfterOfferStart(old(Offer())) && selectedDistrict == old(selectedDistrict)
    {
      if submitting {
        // the submit control is disabled while an offer is in progress
        return;
      }
      submitting := true;
      message := None;
    }

    /** `handleOfferHelp` after its `await`, the form element kept from before it. */
    method FinishOfferHelp()
      requires submitting
      modifies this
      ensures Offer() == AfterOfferFinish(old(Offer())) && selectedDistrict == old(selectedDistrict)
    {
      message := Some(ThanksMessage);
      draft := EmptyOffer;
      submitting := false;
    }

    /** One press of the offer control with nothing else happening meanwhile. */
    method HandleOfferHelp()
      requires !submitting
      modifies this
      ensures Offer() == OfferState(false, Some(ThanksMessage), EmptyOffer)
      ensures selectedDistrict == old(selectedDistrict)
    {
      StartOfferHelp();
      FinishOfferHelp();
    }
  }
}
