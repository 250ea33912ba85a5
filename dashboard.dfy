/** The dashboard: company selection, highlight muting, and the two forms that log a communication for
    the selected companies and schedule a company's next contact. */
module Dashboard {
  import opened Domain
  import opened Seqs
  import opened Card
  import ClientStore

  /** The log form. The date is None while the date field is empty. */
  datatype CommForm = CommForm(communicationType: string, communicationDate: Option<Date>, notes: string)

  /** The next-contact form. */
  datatype NextForm = NextForm(nextCommunicationType: string, nextCommunicationDate: Option<Date>)

  /** A call of the store's logCommunication. */
  datatype LogCall = LogCall(companyId: Id, data: ClientStore.CommunicationData)

  /** A call of the store's scheduleNextCommunication; the company is None when none was chosen. */
  datatype NextContactCall = NextContactCall(companyId: Option<Id>, communicationType: string, scheduledDate: Date)

  /** How a submit ended: accepted, or refused with one of the two alerts. */
  datatype Outcome = Submitted | FutureRejected | MissingRejected

  function Alert(o: Outcome): string
  {
    match o
    case Submitted => ""
    case FutureRejected => "Cannot log future communications. Use the Schedule feature instead."
    case MissingRejected => "Please fill in all required fields."
  }

  const BlankCommForm := CommForm("", None, "")
  const BlankNextForm := NextForm("", None)

  /** toggleHighlight: flips the company's flag, reading a missing flag as off. */
  function ToggleHighlight(highlightDisabled: map<Id, bool>, id: Id): (r: map<Id, bool>)
    ensures Muted(r, id) == !Muted(highlightDisabled, id)
    ensures forall k :: k != id ==> (k in r <==> k in highlightDisabled)
    ensures forall k :: k != id && k in r ==> r[k] == highlightDisabled[k]
  {
    highlightDisabled[id := !Muted(highlightDisabled, id)]
  }

  /** toggleCompanySelection: removes a selected id, appends an unselected one. */
  function ToggleSelection(selected: seq<Id>, id: Id): seq<Id>
  {
    if id in selected then Filter(selected, (x: Id) => x != id) else selected + [id]
  }

  /** Toggling twice restores every company's highlight. */
  lemma ToggleHighlightTwice(highlightDisabled: map<Id, bool>, id: Id)
    ensures forall k :: Muted(ToggleHighlight(ToggleHighlight(highlightDisabled, id), id), k) == Muted(highlightDisabled, k)
  {
  }

  /** A toggle flips the id's membership, keeps every other id's, and never introduces a duplicate. */
  lemma ToggleSelectionSpec(selected: seq<Id>, id: Id)
    ensures id in ToggleSelection(selected, id) <==> id !in selected
    ensures forall k :: k != id ==> (k in ToggleSelection(selected, id) <==> k in selected)
    ensures NoDuplicates(selected) ==> NoDuplicates(ToggleSelection(selected, id))
  {
    if id in selected && NoDuplicates(selected) {
      FilterNoDuplicates(selected, (x: Id) => x != id);
    }
  }

  /** Toggling twice gives back the same selection as a set; when the id was not selected, it gives back
      exactly the same list (a selected id comes back at the end). */
  lemma {:induction false} ToggleSelectionTwice(selected: seq<Id>, id: Id)
    ensures forall k :: k in ToggleSelection(ToggleSelection(selected, id), id) <==> k in selected
    ensures id !in selected ==> ToggleSelection(ToggleSelection(selected, id), id) == selected
  {
    ToggleSelectionSpec(selected, id);
    ToggleSelectionSpec(ToggleSelection(selected, id), id);
    if id !in selected {
      var p := (x: Id) => x != id;
      FilterConcat(selected, [id], p);
      FilterKeepsAll(selected, p);
      assert Filter([id], p) == [];
    }
  }

  class DashboardView {
    var highlightDisabled: map<Id, bool>
    var selectedCompanies: seq<Id>
    var showCommunicationModal: bool
    var communicationData: CommForm
    var showNextContactModal: bool
    var nextContactData: NextForm
    var selectedCompanyForNextContact: Option<Id>

    constructor ()
      ensures highlightDisabled == map[] && selectedCompanies == [] && selectedCompanyForNextContact.None?
      ensures !showCommunicationModal && !showNextContactModal
      ensures communicationData == BlankCommForm && nextContactData == BlankNextForm
    {
      highlightDisabled, selectedCompanies := map[], [];
      showCommunicationModal, showNextContactModal := false, false;
      communicationData, nextContactData := BlankCommForm, BlankNextForm;
      selectedCompanyForNextContact := None;
    }

    method ToggleHighlightOf(id: Id)
      modifies this`highlightDisabled
      ensures highlightDisabled == ToggleHighlight(old(highlightDisabled), id)
    {
      highlightDisabled := ToggleHighlight(highlightDisabled, id);
    }

    method ToggleCompanySelection(id: Id)
      modifies this`selectedCompanies
      ensures selectedCompanies == ToggleSelection(old(selectedCompanies), id)
    {
      selectedCompanies := ToggleSelection(selectedCompanies, id);
    }

    /** onScheduleNext: remembers the company and opens the next-contact modal. */
    method OpenNextContact(id: Id)
      modifies this`selectedCompanyForNextContact, this`showNextContactModal
      ensures selectedCompanyForNextContact == Some(id) && showNextContactModal
    {
      selectedCompanyForNextContact := Some(id);
      showNextContactModal := true;
    }

    /** handleCommunicationSubmit. A date after today is refused first; an empty date is not after today,
        so it reaches the required-fields check, which also refuses an empty type. An accepted form is
        logged once per selected company, in selection order, and mutes each of them; the modal closes,
        the form is blanked and the selection cleared. The calls carry no next-communication date. */
    method SubmitCommunication(today: Date) returns (outcome: Outcome, calls: seq<LogCall>)
      modifies this`highlightDisabled, this`showCommunicationModal, this`communicationData, this`selectedCompanies
      ensures var f := old(communicationData);
        outcome == (if f.communicationDate.Some? && f.communicationDate.value > today then FutureRejected
                    else if f.communicationType == "" || f.communicationDate.None? then MissingRejected
                    else Submitted)
      ensures outcome != Submitted ==> (calls == [] && highlightDisabled == old(highlightDisabled)
        && selectedCompanies == old(selectedCompanies) && communicationData == old(communicationData)
        && showCommunicationModal == old(showCommunicationModal))
      ensures outcome == Submitted ==> (|calls| == |old(selectedCompanies)|
        && (forall j :: 0 <= j < |calls| ==> calls[j] == LogCall(old(selectedCompanies)[j],
              ClientStore.CommunicationData(old(communicationData).communicationType,
                old(communicationData).communicationDate.value, old(communicationData).notes, None)))
        && (forall k :: k in old(selectedCompanies) ==> Muted(highlightDisabled, k))
        && (forall k :: k !in old(selectedCompanies) ==> (k in highlightDisabled <==> k in old(highlightDisabled)))
        && (forall k :: k !in old(selectedCompanies) && k in highlightDisabled ==> highlightDisabled[k] == old(highlightDisabled)[k])
        && !showCommunicationModal && communicationData == BlankCommForm && selectedCompanies == [])
    {
      var form := communicationData;
      if form.communicationDate.Some? && form.communicationDate.value > today {
        return FutureRejected, [];
      }
      if form.communicationType == "" || form.communicationDate.None? {
        return MissingRejected, [];
      }
      var data := ClientStore.CommunicationData(form.communicationType, form.communicationDate.value, form.notes, None);
      calls := [];
      var i := 0;
      while i < |selectedCompanies|
        invariant 0 <= i <= |selectedCompanies|
        invariant selectedCompanies == old(selectedCompanies) && communicationData == old(communicationData)
        invariant |calls| == i
        invariant forall j :: 0 <= j < i ==> calls[j] == LogCall(selectedCompanies[j], data)
        invariant forall k :: k in selectedCompanies[..i] ==> Muted(highlightDisabled, k)
        invariant forall k :: k !in selectedCompanies[..i] ==> (k in highlightDisabled <==> k in old(highlightDisabled))
        invariant forall k :: k !in selectedCompanies[..i] && k in highlightDisabled ==> highlightDisabled[k] == old(highlightDisabled)[k]
      {
        var companyId := selectedCompanies[i];
        assert selectedCompanies[..i + 1] == selectedCompanies[..i] + [companyId];
        calls := calls + [LogCall(companyId, data)];
        highlightDisabled := highlightDisabled[companyId := true];
        i := i + 1;
      }
      assert selectedCompanies[..i] == selectedCompanies;
      showCommunicationModal := false;
      communicationData := BlankCommForm;
      selectedCompanies := [];
      outcome := Submitted;
    }

    /** handleNextContactSubmit: an empty type or date schedules nothing; otherwise the chosen company is
        scheduled with the form's values, and the modal, the form and the chosen company are reset. */
    method SubmitNextContact() returns (outcome: Outcome, call: Option<NextContactCall>)
      modifies this`showNextContactModal, this`nextContactData, this`selectedCompanyForNextContact
      ensures var f := old(nextContactData);
        outcome == (if f.nextCommunicationType == "" || f.nextCommunicationDate.None? then MissingRejected else Submitted)
      ensures outcome == MissingRejected ==> (call.None? && nextContactData == old(nextContactData)
        && showNextContactModal == old(showNextContactModal)
        && selectedCompanyForNextContact == old(selectedCompanyForNextContact))
      ensures outcome == Submitted ==> (call == Some(NextContactCall(old(selectedCompanyForNextContact),
          old(nextContactData).nextCommunicationType, old(nextContactData).nextCommunicationDate.value))
        && !showNextContactModal && nextContactData == BlankNextForm && selectedCompanyForNextContact.None?)
    {
      var form := nextContactData;
      if form.nextCommunicationType == "" || form.nextCommunicationDate.None? {
        return MissingRejected, None;
      }
      call := Some(NextContactCall(selectedCompanyForNextContact, form.nextCommunicationType,
                                   form.nextCommunicationDate.value));
      showNextContactModal := false;
      nextContactData := BlankNextForm;
      selectedCompanyForNextContact := None;
      outcome := Submitted;
    }
  }
}
