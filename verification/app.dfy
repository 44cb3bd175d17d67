/**
 * The page shell: it shows the repair form until a submission succeeds, then
 * the confirmation page for that request until the customer starts over.
 */
module App {
  import opened Base
  import opened Types
  import RepairForm

  /** The shell's one piece of state, `submittedRequest`. */
  datatype AppState = AppState(submittedRequest: Option<RepairRequest>)

  /** What the main area shows: the form, or the confirmation page for one request. */
  datatype View = FormPage | SummaryPage(request: RepairRequest)

  const Initial := AppState(None)

  /** The main area for a state. */
  function Render(a: AppState): (v: View)
    ensures v.FormPage? <==> a.submittedRequest.None?
    ensures v.SummaryPage? ==> Some(v.request) == a.submittedRequest
  {
    match a.submittedRequest
    case None => FormPage
    case Some(r) => SummaryPage(r)
  }

  /** `handleSubmitSuccess(r)`. */
  function HandleSubmitSuccess(a: AppState, r: RepairRequest): (b: AppState)
    ensures Render(b) == SummaryPage(r)
  {
    AppState(Some(r))
  }

  /** `handleNewRequest`. */
  function HandleNewRequest(a: AppState): (b: AppState)
    ensures Render(b) == FormPage
  {
    AppState(None)
  }

  /** The shell opens on the form. */
  lemma InitialShowsForm()
    ensures Render(Initial) == FormPage
  {
  }

  /** Starting over after any success returns to the shell as first opened. */
  lemma NewRequestRestoresInitial(a: AppState, r: RepairRequest)
    ensures HandleNewRequest(HandleSubmitSuccess(a, r)) == Initial
  {
  }

  /** The shell after one press of the submit button: a delivered row moves it to the confirmation page. */
  function AfterSubmit(a: AppState, run: RepairForm.SubmitRun): (b: AppState)
    ensures run.delivered.Some? ==> Render(b) == SummaryPage(run.delivered.value)
    ensures run.delivered.None? ==> b == a
  {
    if run.delivered.Some? then HandleSubmitSuccess(a, run.delivered.value) else a
  }

  /**
   * From the form, a submission leaves the form on screen unless it stored a
   * row, and then shows exactly that row; an invalid form never leaves it.
   */
  lemma SubmissionDecidesView(form: RepairForm.FormData, voice: Option<Blob>, photo: Option<File>,
                              env: RepairForm.SubmitEnv, publicUrl: string -> string)
    ensures var run := RepairForm.HandleSubmit(form, voice, photo, env, publicUrl);
            Render(AfterSubmit(Initial, run)).SummaryPage? <==> run.delivered.Some?
    ensures !RepairForm.Acceptable(form, voice.Some?) ==>
              Render(AfterSubmit(Initial, RepairForm.HandleSubmit(form, voice, photo, env, publicUrl))) == FormPage
  {
  }
}
