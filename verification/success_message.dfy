/**
 * The confirmation page shown after a successful submission: what it tells
 * the customer about the stored request.
 */
module SuccessMessage {
  import opened Base
  import opened Types
  import PhoneModels
  import ConfirmationEmail
  import RepairForm

  /** The values the page renders. */
  datatype Summary = Summary(
    greetingName: string,
    device: string,
    email: string,
    priorityLabel: string,
    priorityColor: string,
    turnaround: string,
    description: Option<string>)

  /**
   * The device is the selector label of the stored model value, or the raw
   * value when the list has no such entry; priority and turnaround come from
   * the request's tier; the description section appears only for a non-empty
   * description; name and e-mail are echoed as stored.
   */
  function Summarize(r: RepairRequest): (s: Summary)
    ensures s.greetingName == r.fullName && s.email == r.email
    ensures PhoneModels.FindPhoneModel(r.phoneModel).Some? ==>
              s.device == PhoneModels.FindPhoneModel(r.phoneModel).value.displayLabel
    ensures PhoneModels.FindPhoneModel(r.phoneModel).None? ==> s.device == r.phoneModel
    ensures var row := PhoneModels.UrgencyLevels[PhoneModels.TierIndex(r.urgency)];
            s.priorityLabel == row.displayLabel && s.priorityColor == row.color && s.turnaround == row.turnaround
    ensures s.description.Some? <==> r.issueDescription.Some? && r.issueDescription.value != ""
    ensures s.description.Some? ==> s.description == r.issueDescription
  {
    var model := PhoneModels.FindPhoneModel(r.phoneModel);
    PhoneModels.LabelsNonEmpty(r.phoneModel);
    var level := PhoneModels.FindUrgencyLevel(r.urgency).value;
    var device := if model.Some? && model.value.displayLabel != "" then model.value.displayLabel else r.phoneModel;
    var shown := if r.issueDescription.Some? && r.issueDescription.value != "" then r.issueDescription else None;
    Summary(r.fullName, device, r.email, level.displayLabel, level.color, level.turnaround, shown)
  }

  /** The page promises the same turnaround as the confirmation e-mail for the same tier. */
  lemma SummaryAgreesWithEmail(r: RepairRequest)
    ensures Summarize(r).turnaround == ConfirmationEmail.UrgencyDetailsFor(r.urgency.Value()).turnaround
    ensures Summarize(r).priorityLabel == ConfirmationEmail.UrgencyDetailsFor(r.urgency.Value()).displayLabel
  {
    ConfirmationEmail.UrgencyTablesAgree(r.urgency);
  }

  /** A high-urgency request for an iPhone 15 shows its label and "24-48 hours". */
  lemma HighUrgencyExample(r: RepairRequest)
    requires r.urgency == High && r.phoneModel == "iphone-15"
    ensures Summarize(r).turnaround == "24-48 hours"
    ensures Summarize(r).priorityLabel == "High Priority"
    ensures Summarize(r).device == "iPhone 15"
  {
    assert PhoneModels.PhoneModels[2].value == r.phoneModel;
    assert PhoneModels.FindPhoneModel(r.phoneModel) == Some(PhoneModels.PhoneModels[2]);
  }

  /** A model value that no entry of the list carries is shown as typed. */
  lemma UnknownModelShownRaw(r: RepairRequest)
    requires forall k :: 0 <= k < |PhoneModels.PhoneModels| ==> PhoneModels.PhoneModels[k].value != r.phoneModel
    ensures Summarize(r).device == r.phoneModel
  {
    assert PhoneModels.FindPhoneModel(r.phoneModel).None?;
  }

  /**
   * For a row stored by the form, the description section appears exactly
   * when the customer typed a description, showing it as typed.
   */
  lemma SubmittedDescriptionShown(form: RepairForm.FormData, voiceUrl: string, photoUrl: string)
    ensures Summarize(RepairForm.BuildRecord(form, voiceUrl, photoUrl)).description.Some?
            <==> form.issueDescription != ""
    ensures form.issueDescription != "" ==>
              Summarize(RepairForm.BuildRecord(form, voiceUrl, photoUrl)).description == Some(form.issueDescription)
  {
  }

  /**
   * For a row the form stored, the confirmation e-mail and the confirmation
   * page name the same priority and promise the same turnaround.
   */
  lemma EmailAndPageAgree(form: RepairForm.FormData, row: RepairRequest)
    requires row.urgency == form.urgency
    requires form.fullName != "" && form.email != "" && form.phoneModel != "" && ConfirmationEmail.Truthy(row.id)
    ensures ConfirmationEmail.Compose(RepairForm.ConfirmationBody(form, row)).turnaround == Summarize(row).turnaround
    ensures ConfirmationEmail.Compose(RepairForm.ConfirmationBody(form, row)).priorityLabel == Summarize(row).priorityLabel
  {
    assert ConfirmationEmail.HasRequiredFields(RepairForm.ConfirmationBody(form, row));
    ConfirmationEmail.UrgencyTablesAgree(form.urgency);
  }
}
