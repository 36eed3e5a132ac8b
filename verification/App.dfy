/**
  The extraction session of the page: its status, the shown result, the
  error banner, the image preview and the URL field, driven by user events
  and by the settling of the one request in flight. Each handler is the net
  effect of the state updates it issues; the pending continuation (the
  `await` a handler is suspended in) is kept in `job`, so that a settlement
  always belongs to the request that is in flight.
 */
module App {

  import opened Wrappers
  import opened Types
  import JsStrings
  import GeminiService

  /** The continuation waiting for the outside world, if any. */
  datatype Job =
    | NoJob
    | UrlJob(url: string)              // awaiting the URL extraction
    | DecodeJob                        // awaiting the file reader
    | ImageJob(dataUri: string)        // awaiting the image extraction

  datatype Session = Session(
    status: ExtractionStatus,
    data: Option<Record>,
    error: Option<string>,
    previewUrl: Option<string>,
    urlInput: string,
    job: Job)

  /** A picked file; its contents reach the session only through the reader. */
  datatype File = File(name: string)

  datatype Event =
    | EditUrl(text: string)                        // typing in the URL field
    | SubmitUrl                                    // submitting the URL form
    | ChooseFile(files: Option<seq<File>>)         // the file input changes
    | FileDecoded(dataUri: string)                 // the reader's `onload`
    | Settled(outcome: GeminiService.Outcome)      // the extraction settles
    | RemovePreview                                // the "Remove" button

  const UrlFailureMessage :=
    "Failed to fetch data. "
    + "Dipak's Model could not retrieve accurate details from this specific URL."
  const ImageFailureMessage :=
    "Analysis failed. "
    + "Dipak's Model encountered an error analyzing the screenshot."

  /** The banner tells the two paths apart. */
  lemma FailureMessagesDistinct()
    ensures UrlFailureMessage != ImageFailureMessage
  {
    assert UrlFailureMessage[0] == 'F';
  }

  const Initial := Session(Idle, None, None, None, "", NoJob)

  /** Clears the result, the error and the preview; nothing else. */
  function ResetState(s: Session): (r: Session)
    ensures r.data == None && r.error == None && r.previewUrl == None
    ensures r.status == s.status && r.urlInput == s.urlInput && r.job == s.job
  {
    s.(data := None, error := None, previewUrl := None)
  }

  /** The submit button is enabled when nothing is being analysed and the
      raw field is non-empty (it is not trimmed here). */
  predicate SubmitEnabled(s: Session)
  {
    s.status != Analyzing && s.urlInput != ""
  }

  /** The form handler: a blank field (empty or whitespace only) changes
      nothing; otherwise the session is reset, starts analysing, and the raw
      field is sent for extraction. */
  function HandleUrlSubmit(s: Session): (r: Session)
    ensures JsStrings.AllWhitespace(s.urlInput) ==> r == s
    ensures !JsStrings.AllWhitespace(s.urlInput) ==>
      && r.status == Analyzing && r.data == None && r.error == None && r.previewUrl == None
      && r.urlInput == s.urlInput && r.job == UrlJob(s.urlInput)
  {
    if JsStrings.Trim(s.urlInput) == "" then s
    else ResetState(s).(status := Analyzing, job := UrlJob(s.urlInput))
  }

  /** A disabled submit button blocks the form, so submitting runs the
      handler exactly when the button is enabled. */
  function Submit(s: Session): (r: Session)
    ensures s.status == Analyzing ==> r == s
    ensures s.urlInput == "" ==> r == s
    ensures SubmitEnabled(s) ==> r == HandleUrlSubmit(s)
  {
    if SubmitEnabled(s) then HandleUrlSubmit(s) else s
  }

  /** The enabling check and the handler's check differ: a non-empty field
      of whitespace (spaces, tabs, no-break spaces, line breaks) enables the
      button, yet submitting it does nothing. */
  lemma BlankButEnabledSubmitIsInert(s: Session)
    requires s.status != Analyzing && s.urlInput != "" && JsStrings.AllWhitespace(s.urlInput)
    ensures SubmitEnabled(s)
    ensures Submit(s) == s
  {
  }

  /** Choosing no file changes nothing; choosing one resets the session and
      starts reading the first file. */
  function HandleFileUpload(s: Session, files: Option<seq<File>>): (r: Session)
    ensures files == None || files == Some([]) ==> r == s
    ensures files.Some? && files.value != [] ==>
      && r.status == Uploading && r.data == None && r.error == None && r.previewUrl == None
      && r.urlInput == s.urlInput && r.job == DecodeJob
  {
    if files.None? || files.value == [] then s
    else ResetState(s).(status := Uploading, job := DecodeJob)
  }

  /** The reader's completion: the decoded text becomes the preview, the
      session starts analysing and the image extraction is sent. Data and
      error are untouched. Without a pending read nothing happens. */
  function OnFileDecoded(s: Session, dataUri: string): (r: Session)
    ensures s.job == DecodeJob ==>
      && r.previewUrl == Some(dataUri) && r.status == Analyzing && r.job == ImageJob(dataUri)
      && r.data == s.data && r.error == s.error && r.urlInput == s.urlInput
    ensures s.job != DecodeJob ==> r == s
  {
    if s.job == DecodeJob then
      s.(previewUrl := Some(dataUri), status := Analyzing, job := ImageJob(dataUri))
    else s
  }

  /** The extraction settles: success stores the result, failure stores the
      message of the path that failed; the preview and the URL field are
      kept. Without an extraction in flight nothing happens. */
  function OnSettled(s: Session, outcome: GeminiService.Outcome): (r: Session)
    ensures (s.job.UrlJob? || s.job.ImageJob?) && outcome.Resolved? ==>
      && r.status == Success && r.data == Some(outcome.record) && r.error == s.error
    ensures (s.job.UrlJob? || s.job.ImageJob?) && outcome.Rejected? ==>
      && r.status == Error && r.data == s.data
      && r.error == Some(if s.job.UrlJob? then UrlFailureMessage else ImageFailureMessage)
    ensures (s.job.UrlJob? || s.job.ImageJob?) ==>
      r.previewUrl == s.previewUrl && r.urlInput == s.urlInput && r.job == NoJob
    ensures !(s.job.UrlJob? || s.job.ImageJob?) ==> r == s
  {
    match s.job
    case UrlJob(_) =>
      if outcome.Resolved? then s.(data := Some(outcome.record), status := Success, job := NoJob)
      else s.(error := Some(UrlFailureMessage), status := Error, job := NoJob)
    case ImageJob(_) =>
      if outcome.Resolved? then s.(data := Some(outcome.record), status := Success, job := NoJob)
      else s.(error := Some(ImageFailureMessage), status := Error, job := NoJob)
    case _ => s
  }

  /** The "Remove" button clears the preview and nothing else. */
  function OnRemovePreview(s: Session): (r: Session)
    ensures r.previewUrl == None
    ensures r.status == s.status && r.data == s.data && r.error == s.error
    ensures r.urlInput == s.urlInput && r.job == s.job
  {
    s.(previewUrl := None)
  }

  /** Removing the preview twice is removing it once, and removing an absent
      preview changes nothing. */
  lemma RemovePreviewIdempotent(s: Session)
    ensures OnRemovePreview(OnRemovePreview(s)) == OnRemovePreview(s)
    ensures s.previewUrl == None ==> OnRemovePreview(s) == s
  {
  }

  /** One event applied to the session. Editing the field changes the field
      only; a settlement with no extraction in flight, or a reader completion
      with no read pending, changes nothing. */
  function Step(s: Session, e: Event): (r: Session)
    ensures e.EditUrl? ==> r == s.(urlInput := e.text)
    ensures e.Settled? && !(s.job.UrlJob? || s.job.ImageJob?) ==> r == s
    ensures e.FileDecoded? && s.job != DecodeJob ==> r == s
    ensures e.SubmitUrl? ==> r == Submit(s)
  {
    match e
    case EditUrl(text) => s.(urlInput := text)
    case SubmitUrl => Submit(s)
    case ChooseFile(files) => HandleFileUpload(s, files)
    case FileDecoded(dataUri) => OnFileDecoded(s, dataUri)
    case Settled(outcome) => OnSettled(s, outcome)
    case RemovePreview => OnRemovePreview(s)
  }

  function Run(s: Session, events: seq<Event>): Session
    decreases |events|
  {
    if events == [] then s else Run(Step(s, events[0]), events[1..])
  }

  lemma RunOne(s: Session, e: Event)
    ensures Run(s, [e]) == Step(s, e)
  {
    assert [e][1..] == [];
  }

  lemma RunTwo(s: Session, e1: Event, e2: Event)
    ensures Run(s, [e1, e2]) == Step(Step(s, e1), e2)
  {
    assert [e1, e2][1..] == [e2];
    RunOne(Step(s, e1), e2);
  }

  lemma RunThree(s: Session, e1: Event, e2: Event, e3: Event)
    ensures Run(s, [e1, e2, e3]) == Step(Step(Step(s, e1), e2), e3)
  {
    assert [e1, e2, e3][1..] == [e2, e3];
    RunTwo(Step(s, e1), e2, e3);
  }

  /** A settlement is handled by `OnSettled`. */
  lemma StepSettled(s: Session, outcome: GeminiService.Outcome)
    ensures Step(s, Settled(outcome)) == OnSettled(s, outcome)
  {
  }

  /** The session invariant under one request at a time: a success carries a
      result and no error, an error carries a message and no result, the
      status says which continuation is pending, and a request in flight
      starts from a cleared result and error. */
  predicate Inv(s: Session)
  {
    && (s.status == Idle ==> s.data == None && s.error == None)
    && (s.status == Uploading <==> s.job == DecodeJob)
    && (s.status == Analyzing <==> (s.job.UrlJob? || s.job.ImageJob?))
    && (s.status == Uploading || s.status == Analyzing ==> s.data == None && s.error == None)
    && (s.status == Uploading || s.job.UrlJob? ==> s.previewUrl == None)
    && (s.job.ImageJob? ==> s.previewUrl == None || s.previewUrl == Some(s.job.dataUri))
    && (s.status == Success ==> s.data.Some? && s.error == None)
    && (s.status == Error ==> s.data == None && s.error.Some?)
    && (s.error.Some? ==> s.error.value == UrlFailureMessage || s.error.value == ImageFailureMessage)
  }

  lemma InitialInv()
    ensures Inv(Initial) && Initial.status == Idle
  {
  }

  lemma StepPreservesInv(s: Session, e: Event)
    requires Inv(s)
    ensures Inv(Step(s, e))
  {
  }

  /** Every session reachable by a run of events keeps the invariant. */
  lemma {:induction false} RunPreservesInv(s: Session, events: seq<Event>)
    requires Inv(s)
    ensures Inv(Run(s, events))
    decreases |events|
  {
    if events != [] {
      StepPreservesInv(s, events[0]);
      RunPreservesInv(Step(s, events[0]), events[1..]);
    }
  }

  /** From the start of the page, along every run of the model (where a
      superseded request never settles): SUCCESS never shows an error, ERROR
      never shows a result. */
  lemma ReachableSessionsAreConsistent(events: seq<Event>)
    ensures var s := Run(Initial, events);
      && (s.status == Success ==> s.error == None && s.data.Some?)
      && (s.status == Error ==> s.data == None && s.error.Some?)
  {
    RunPreservesInv(Initial, events);
  }

  /** The URL path end to end: from any session with the button
      enabled and a non-blank field, the session analyses and then settles to
      SUCCESS with the result or to ERROR with the URL message, with no
      preview either way. */
  lemma UrlExtractionSettles(s: Session, outcome: GeminiService.Outcome)
    requires SubmitEnabled(s) && !JsStrings.AllWhitespace(s.urlInput)
    ensures Step(s, SubmitUrl).status == Analyzing
    ensures var t := Run(s, [SubmitUrl, Settled(outcome)]);
      && t.previewUrl == None && t.job == NoJob
      && (outcome.Resolved? ==> t.status == Success && t.data == Some(outcome.record) && t.error == None)
      && (outcome.Rejected? ==> t.status == Error && t.error == Some(UrlFailureMessage) && t.data == None)
  {
    var s1 := Session(Analyzing, None, None, None, s.urlInput, UrlJob(s.urlInput));
    assert Step(s, SubmitUrl) == HandleUrlSubmit(s) == s1;
    StepSettled(s1, outcome);
    RunTwo(s, SubmitUrl, Settled(outcome));
  }

  /** The image path end to end: a chosen file is read, shown and analysed;
      the preview set by the reader survives the settlement either way. */
  lemma ImageExtractionKeepsPreview(s: Session, f: File, dataUri: string,
                                    outcome: GeminiService.Outcome)
    ensures Step(s, ChooseFile(Some([f]))).status == Uploading
    ensures Run(s, [ChooseFile(Some([f])), FileDecoded(dataUri)]).status == Analyzing
    ensures var t := Run(s, [ChooseFile(Some([f])), FileDecoded(dataUri), Settled(outcome)]);
      && t.previewUrl == Some(dataUri) && t.job == NoJob
      && (outcome.Resolved? ==> t.status == Success && t.data == Some(outcome.record) && t.error == None)
      && (outcome.Rejected? ==> t.status == Error && t.error == Some(ImageFailureMessage) && t.data == None)
  {
    RunTwo(s, ChooseFile(Some([f])), FileDecoded(dataUri));
    RunThree(s, ChooseFile(Some([f])), FileDecoded(dataUri), Settled(outcome));
  }

  /** The service and the session together: a URL extraction that succeeds
      leaves a result that links to a profile. */
  lemma SuccessfulUrlResultLinksToProfile(s: Session, backend: GeminiService.Request -> GeminiService.Reply,
                                          parse: string -> Option<Record>)
    requires SubmitEnabled(s) && !JsStrings.AllWhitespace(s.urlInput)
    ensures var t := Run(s, [SubmitUrl, Settled(GeminiService.ExtractFromUrl(s.urlInput, backend, parse))]);
      t.status == Success ==> t.data.Some? && FieldTruthy(t.data.value.linkedinUrl)
  {
    UrlExtractionSettles(s, GeminiService.ExtractFromUrl(s.urlInput, backend, parse));
  }
}
