/**
 * The upload page (app/routes/upload.tsx): `handleAnalyze`, the nine-step
 * analysis run, and `handleSubmit`, which starts a run only when a file has
 * been chosen. `Analyze` states what one run does, as a function of what the
 * collaborators answer; `UploadPage.HandleAnalyze` performs the run step by
 * step on the page state and the backend and is proved to do what `Analyze`
 * says.
 */
module Upload {
  import opened Wrappers
  import opened Puter
  import Constants
  import Extraction

  /** The form fields and the chosen file (named by its file name). */
  datatype Submission = Submission(companyName: string, jobTitle: string, jobDescription: string, file: string)

  /**
   * How the collaborators answer during one run, in the order they are
   * asked. `generateUUID`'s value is an input too.
   */
  datatype Outcomes = Outcomes(
    uploadFile: Attempt<Option<string>>,        // fs.upload([file]): the stored path, or a falsy answer
    convert: Attempt<Option<string>>,           // convertPdfToImage(file).file: the image, or none
    uploadImage: Attempt<Option<string>>,       // fs.upload([image]): the stored path, or a falsy answer
    uuid: string,                               // generateUUID()
    writeRecord: Attempt<bool>,                 // the first kv.set
    inference: Attempt<Extraction.AiResponse>,  // ai.feedback(path, instructions)
    writeFeedback: Attempt<bool>)               // the second kv.set

  /** The steps of a run, in their fixed order. */
  datatype Step =
    | UploadFile | ConvertToImage | UploadImage | WriteRecord | Infer
    | SelectText | ExtractJson | ParseJson | WriteFeedback

  const Plan: seq<Step> :=
    [UploadFile, ConvertToImage, UploadImage, WriteRecord, Infer, SelectText, ExtractJson, ParseJson, WriteFeedback]

  const InvalidResponse: string := "AI analysis returned an invalid response."
  const NoDataStructure: string := "AI did not return a valid data structure."
  const ParseFailure: string := "Failed to process the AI's feedback."
  const Completed: string := "Analysis complete! You can now view your feedback."

  /** How a run ends: with the record's id, or with the message of what was thrown. */
  datatype Outcome = Succeeded(id: string) | Failed(message: string)

  /**
   * One run: how many steps of the plan it attempted, the calls made to
   * collaborators, how it ended, the paths it stored files under, and the
   * record left under its key (`None` when neither write took effect).
   */
  datatype Run = Run(reached: nat, calls: seq<Call>, outcome: Outcome, uploaded: set<string>, stored: Option<Record>)

  /** The steps a run attempted, in order. */
  function Attempted(r: Run): seq<Step> {
    Plan[..if r.reached <= |Plan| then r.reached else |Plan|]
  }

  /** The status line a run leaves behind. */
  function StatusText(o: Outcome): string {
    match o
    case Succeeded(_) => Completed
    case Failed(m) => "Error: " + m
  }

  /** The route a successful run navigates to. */
  function ResultRoute(id: string): string {
    "/resume/" + id
  }

  /** The record written before inference: the run's inputs and file paths, with empty feedback. */
  function InitialRecord(s: Submission, o: Outcomes, resumePath: string, imagePath: string): Record {
    Record(o.uuid, resumePath, imagePath, s.companyName, s.jobTitle, s.jobDescription, Pending)
  }

  /** What `kv.set` leaves under the key: the new value if it answered `true`, the earlier one otherwise. */
  function AfterWrite(outcome: Attempt<bool>, value: Record, earlier: Option<Record>): Option<Record> {
    if outcome == Returned(true) then Some(value) else earlier
  }

  /** The failure to report for an answer that threw or was falsy. */
  function FailureOf<T>(a: Attempt<Option<T>>, falsy: string): string {
    if a.Threw? then MessageOf(a.thrown) else falsy
  }

  /** A run that has passed its first four steps: the record written, the calls so far, the files stored. */
  datatype Prepared = Prepared(data: Record, calls: seq<Call>, uploaded: set<string>, stored: Option<Record>)

  /** Where a run stands after its first four steps. */
  datatype Stage = Stopped(run: Run) | Ready(prepared: Prepared)

  /**
   * The first four steps of `handleAnalyze`: upload the file, convert it,
   * upload the image, write the record with empty feedback. A thrown error
   * or a falsy answer ends the run with its message.
   */
  function Prepare(s: Submission, o: Outcomes): (st: Stage)
    ensures st.Stopped? ==>
      st.run.outcome.Failed? && 1 <= st.run.reached <= 4 && |st.run.calls| == st.run.reached
    ensures st.Ready? ==>
      && |st.prepared.calls| == 4
      && st.prepared.data.id == o.uuid && st.prepared.data.feedback == Pending
      && st.prepared.stored == (if o.writeRecord == Returned(true) then Some(st.prepared.data) else None)
  {
    var c1 := [FsUpload(s.file)];
    if !(o.uploadFile.Returned? && o.uploadFile.value.Some?) then
      Stopped(Run(1, c1, Failed(FailureOf(o.uploadFile, "Failed to upload file")), {}, None))
    else
      var resumePath := o.uploadFile.value.value;
      var c2 := c1 + [ConvertPdf(s.file)];
      if !(o.convert.Returned? && o.convert.value.Some?) then
        Stopped(Run(2, c2, Failed(FailureOf(o.convert, "Failed to convert pdf to image")), {resumePath}, None))
      else
        var c3 := c2 + [FsUpload(o.convert.value.value)];
        if !(o.uploadImage.Returned? && o.uploadImage.value.Some?) then
          Stopped(Run(3, c3, Failed(FailureOf(o.uploadImage, "Failed to upload image")), {resumePath}, None))
        else
          var imagePath := o.uploadImage.value.value;
          var data := InitialRecord(s, o, resumePath, imagePath);
          var c4 := c3 + [KvSet(ResumeKey(o.uuid), data)];
          var stored := AfterWrite(o.writeRecord, data, None);
          if o.writeRecord.Threw? then
            Stopped(Run(4, c4, Failed(MessageOf(o.writeRecord.thrown)), {resumePath, imagePath}, stored))
          else
            Ready(Prepared(data, c4, {resumePath, imagePath}, stored))
  }

  /**
   * The remaining steps: ask for the analysis, check the response and pick
   * its text, cut out the JSON object, parse it, and write the record again
   * under the same key with the parsed feedback.
   */
  function Complete(s: Submission, o: Outcomes, parse: string -> Option<Json>, p: Prepared): (r: Run)
    ensures 5 <= r.reached <= |Plan|
    ensures |p.calls| < |r.calls| && r.calls[..|p.calls|] == p.calls
    ensures r.uploaded == p.uploaded
    ensures r.outcome.Succeeded? ==> r.outcome == Succeeded(o.uuid) && r.reached == |Plan|
  {
    var c5 := p.calls + [AiFeedback(p.data.resumePath, Constants.JobContext(s.jobTitle, s.jobDescription))];
    if o.inference.Threw? then
      Run(5, c5, Failed(MessageOf(o.inference.thrown)), p.uploaded, p.stored)
    else
      match Extraction.ResponseText(o.inference.value)
      case None => Run(6, c5, Failed(InvalidResponse), p.uploaded, p.stored)
      case Some(text) =>
        match Extraction.ExtractJson(text)
        case None => Run(7, c5, Failed(NoDataStructure), p.uploaded, p.stored)
        case Some(span) =>
          match parse(span)
          case None => Run(8, c5, Failed(ParseFailure), p.uploaded, p.stored)
          case Some(value) =>
            var data' := p.data.(feedback := Parsed(value));
            var c6 := c5 + [KvSet(ResumeKey(o.uuid), data')];
            var stored' := AfterWrite(o.writeFeedback, data', p.stored);
            if o.writeFeedback.Threw? then
              Run(|Plan|, c6, Failed(MessageOf(o.writeFeedback.thrown)), p.uploaded, stored')
            else
              Run(|Plan|, c6, Succeeded(o.uuid), p.uploaded, stored')
  }

  /** An upload or conversion that gave a file: it returned, and its answer was truthy. */
  predicate Gave(a: Attempt<Option<string>>) {
    a.Returned? && a.value.Some?
  }

  /** The first four steps went through: both uploads and the conversion gave a file, and the first write did not throw. */
  predicate RecordWritten(o: Outcomes) {
    Gave(o.uploadFile) && Gave(o.convert) && Gave(o.uploadImage) && !o.writeRecord.Threw?
  }

  /**
   * Every awaited call and check of a run goes its way: both uploads and the
   * conversion give a file, neither write throws, inference answers with a
   * text that holds a JSON object, and that object parses.
   */
  predicate EveryStepSucceeds(o: Outcomes, parse: string -> Option<Json>) {
    && RecordWritten(o)
    && o.inference.Returned?
    && var text := Extraction.ResponseText(o.inference.value);
       && text.Some?
       && Extraction.ExtractJson(text.value).Some?
       && parse(Extraction.ExtractJson(text.value).value).Some?
       && !o.writeFeedback.Threw?
  }

  /** `handleAnalyze` as a whole: every step runs only if all earlier ones succeeded. */
  function Analyze(s: Submission, o: Outcomes, parse: string -> Option<Json>): (r: Run)
    ensures 1 <= r.reached <= |Plan|
    ensures r.outcome.Succeeded? ==> r.outcome == Succeeded(o.uuid) && r.reached == |Plan|
  {
    match Prepare(s, o)
    case Stopped(r) => r
    case Ready(p) => Complete(s, o, parse, p)
  }

  /** A run succeeds exactly when every awaited call and check along it goes its way. */
  lemma SucceedsExactlyWhenEveryStepSucceeds(s: Submission, o: Outcomes, parse: string -> Option<Json>)
    ensures Analyze(s, o, parse).outcome.Succeeded? <==> EveryStepSucceeds(o, parse)
  {
  }

  /**
   * A run attempts a non-empty prefix of the plan and succeeds only after
   * attempting every step. A failing step ends the run at that step, with
   * that step's message and with no call after its own: each clause below
   * names the step that failed (every earlier one having gone its way), the
   * number of steps reached, the calls made and the outcome.
   */
  lemma FailureStopsLaterSteps(s: Submission, o: Outcomes, parse: string -> Option<Json>)
    ensures var r := Analyze(s, o, parse);
      1 <= r.reached <= |Plan| && Attempted(r) == Plan[..r.reached]
    ensures var r := Analyze(s, o, parse);
      r.outcome.Succeeded? ==> r.reached == |Plan| && r.outcome.id == o.uuid
    // step 1: the file upload
    ensures var r := Analyze(s, o, parse);
      !Gave(o.uploadFile) ==>
        && r.reached == 1 && r.calls == [FsUpload(s.file)]
        && r.outcome == Failed(FailureOf(o.uploadFile, "Failed to upload file"))
    // step 2: the conversion
    ensures var r := Analyze(s, o, parse);
      Gave(o.uploadFile) && !Gave(o.convert) ==>
        && r.reached == 2 && r.calls == [FsUpload(s.file), ConvertPdf(s.file)]
        && r.outcome == Failed(FailureOf(o.convert, "Failed to convert pdf to image"))
    // step 3: the image upload
    ensures var r := Analyze(s, o, parse);
      Gave(o.uploadFile) && Gave(o.convert) && !Gave(o.uploadImage) ==>
        && r.reached == 3 && r.calls == [FsUpload(s.file), ConvertPdf(s.file), FsUpload(o.convert.value.value)]
        && r.outcome == Failed(FailureOf(o.uploadImage, "Failed to upload image"))
    // step 4: the first write
    ensures var r := Analyze(s, o, parse);
      Gave(o.uploadFile) && Gave(o.convert) && Gave(o.uploadImage) && o.writeRecord.Threw? ==>
        && r.reached == 4 && |r.calls| == 4
        && r.calls[3] == KvSet(ResumeKey(o.uuid), InitialRecord(s, o, o.uploadFile.value.value, o.uploadImage.value.value))
        && r.outcome == Failed(MessageOf(o.writeRecord.thrown))
    // step 5: inference
    ensures var r := Analyze(s, o, parse);
      RecordWritten(o) && o.inference.Threw? ==>
        && r.reached == 5 && |r.calls| == 5
        && r.calls[4] == AiFeedback(o.uploadFile.value.value, Constants.JobContext(s.jobTitle, s.jobDescription))
        && r.outcome == Failed(MessageOf(o.inference.thrown))
    // step 6: picking the response text
    ensures var r := Analyze(s, o, parse);
      RecordWritten(o) && o.inference.Returned? && Extraction.ResponseText(o.inference.value).None? ==>
        r.reached == 6 && |r.calls| == 5 && r.outcome == Failed(InvalidResponse)
    // step 7: cutting out the JSON object
    ensures var r := Analyze(s, o, parse);
      (RecordWritten(o) && o.inference.Returned?
       && var text := Extraction.ResponseText(o.inference.value);
          text.Some? && Extraction.ExtractJson(text.value).None?) ==>
        r.reached == 7 && |r.calls| == 5 && r.outcome == Failed(NoDataStructure)
    // step 8: parsing it
    ensures var r := Analyze(s, o, parse);
      (RecordWritten(o) && o.inference.Returned?
       && var text := Extraction.ResponseText(o.inference.value);
          text.Some? && Extraction.ExtractJson(text.value).Some?
          && parse(Extraction.ExtractJson(text.value).value).None?) ==>
        r.reached == 8 && |r.calls| == 5 && r.outcome == Failed(ParseFailure)
    // step 9: the second write
    ensures var r := Analyze(s, o, parse);
      (RecordWritten(o) && o.inference.Returned?
       && var text := Extraction.ResponseText(o.inference.value);
          text.Some? && Extraction.ExtractJson(text.value).Some?
          && parse(Extraction.ExtractJson(text.value).value).Some? && o.writeFeedback.Threw?) ==>
        r.reached == 9 && |r.calls| == 6 && r.outcome == Failed(MessageOf(o.writeFeedback.thrown))
    ensures var r := Analyze(s, o, parse);
      r.outcome.Failed? && r.reached < |Plan| ==> |r.calls| <= 5 && forall k :: 0 <= k < |r.calls| && r.calls[k].KvSet? ==> k == 3
    ensures var r := Analyze(s, o, parse);
      r.reached <= 4 ==> forall k :: 0 <= k < |r.calls| ==> !r.calls[k].AiFeedback?
  {
  }

  /** The collaborator call a step makes, if it makes one. */
  predicate Performs(step: Step, c: Call) {
    match step
    case UploadFile => c.FsUpload?
    case ConvertToImage => c.ConvertPdf?
    case UploadImage => c.FsUpload?
    case WriteRecord => c.KvSet?
    case Infer => c.AiFeedback?
    case WriteFeedback => c.KvSet?
    case _ => false
  }

  /** The steps of the plan that call a collaborator, in plan order. */
  const CallingPlan: seq<Step> := [UploadFile, ConvertToImage, UploadImage, WriteRecord, Infer, WriteFeedback]

  /** How many of the first `n` steps of the plan call a collaborator. */
  function CallsWithin(n: nat): nat {
    if n <= 5 then n else if n < |Plan| then 5 else 6
  }

  /**
   * The calls a run makes are exactly those of the steps it attempts, one
   * per calling step, in step order.
   */
  lemma CallsMatchSteps(s: Submission, o: Outcomes, parse: string -> Option<Json>)
    ensures var r := Analyze(s, o, parse);
      |r.calls| == CallsWithin(r.reached)
      && forall k :: 0 <= k < |r.calls| ==> Performs(CallingPlan[k], r.calls[k])
  {
    PrepareCallsMatchSteps(s, o);
    match Prepare(s, o)
    case Stopped(_) =>
    case Ready(p) =>
      CompleteCallsMatchSteps(s, o, parse, p);
  }

  lemma PrepareCallsMatchSteps(s: Submission, o: Outcomes)
    ensures Prepare(s, o).Stopped? ==>
      var r := Prepare(s, o).run;
      |r.calls| == CallsWithin(r.reached) && r.reached <= 4
      && forall k :: 0 <= k < |r.calls| ==> Performs(CallingPlan[k], r.calls[k])
    ensures Prepare(s, o).Ready? ==>
      var c := Prepare(s, o).prepared.calls;
      |c| == 4 && forall k :: 0 <= k < 4 ==> Performs(CallingPlan[k], c[k])
  {
  }

  lemma CompleteCallsMatchSteps(s: Submission, o: Outcomes, parse: string -> Option<Json>, p: Prepared)
    requires |p.calls| == 4 && forall k :: 0 <= k < 4 ==> Performs(CallingPlan[k], p.calls[k])
    ensures var r := Complete(s, o, parse, p);
      |r.calls| == CallsWithin(r.reached)
      && forall k :: 0 <= k < |r.calls| ==> Performs(CallingPlan[k], r.calls[k])
  {
  }

  /**
   * The record is first written before inference, under `resume:` and the
   * run's uuid, with empty feedback and the run's inputs and file paths; the
   * inference call that follows gets the uploaded resume's path and the
   * instructions for the run's job title and description.
   */
  lemma RecordWrittenBeforeInference(s: Submission, o: Outcomes, parse: string -> Option<Json>)
    ensures var r := Analyze(s, o, parse);
      r.reached >= 5 ==>
        && |r.calls| >= 5
        && r.calls[3].KvSet? && r.calls[3].key == ResumeKey(o.uuid)
        && r.calls[3].record.id == o.uuid && r.calls[3].record.feedback == Pending
        && r.calls[3].record.companyName == s.companyName
        && r.calls[3].record.jobTitle == s.jobTitle
        && r.calls[3].record.jobDescription == s.jobDescription
        && r.calls[4] == AiFeedback(r.calls[3].record.resumePath, Constants.JobContext(s.jobTitle, s.jobDescription))
        && r.calls[0] == FsUpload(s.file) && r.calls[1] == ConvertPdf(s.file)
        && r.calls[2] == FsUpload(o.convert.value.value)
        && r.calls[3].record.resumePath == o.uploadFile.value.value
        && r.calls[3].record.imagePath == o.uploadImage.value.value
  {
    match Prepare(s, o)
    case Stopped(_) =>
    case Ready(p) =>
      PrepareWritesRecord(s, o);
      CompleteExtendsPrepared(s, o, parse, p);
      var r := Complete(s, o, parse, p);
      assert r.calls[..4] == p.calls;
      assert r.calls[4] == AiFeedback(p.data.resumePath, Constants.JobContext(s.jobTitle, s.jobDescription));
  }

  /** The first four calls of a run that goes on: the two uploads and the conversion name their files, then the record is written. */
  lemma PrepareWritesRecord(s: Submission, o: Outcomes)
    ensures Prepare(s, o).Ready? ==>
      var p := Prepare(s, o).prepared;
      && |p.calls| == 4
      && p.calls[0] == FsUpload(s.file) && p.calls[1] == ConvertPdf(s.file)
      && p.calls[2] == FsUpload(o.convert.value.value)
      && p.calls[3] == KvSet(ResumeKey(o.uuid), p.data)
      && p.data == Record(o.uuid, o.uploadFile.value.value, o.uploadImage.value.value,
                          s.companyName, s.jobTitle, s.jobDescription, Pending)
  {
  }

  /**
   * Both writes use the same key, and the second differs from the first only
   * in `feedback`, which holds the parse of the JSON cut out of the
   * response text.
   */
  lemma SecondWriteChangesOnlyFeedback(s: Submission, o: Outcomes, parse: string -> Option<Json>)
    ensures var r := Analyze(s, o, parse);
      |r.calls| == 6 ==>
        && r.calls[3].KvSet? && r.calls[5].KvSet?
        && r.calls[5].key == r.calls[3].key
        && r.calls[5].record == r.calls[3].record.(feedback := r.calls[5].record.feedback)
        && o.inference.Returned?
        && var text := Extraction.ResponseText(o.inference.value);
           text.Some? && Extraction.ExtractJson(text.value).Some?
           && r.calls[5].record.feedback == Parsed(parse(Extraction.ExtractJson(text.value).value).value)
  {
  }

  /**
   * A missing response or falsy content ends the run with its own message
   * before any extraction; a response text with no JSON object ends it
   * before any parsing. Neither makes a call after the inference call.
   */
  lemma ResponseFailuresStopEarly(s: Submission, o: Outcomes, parse: string -> Option<Json>)
    ensures var r := Analyze(s, o, parse);
      r.reached >= 5 && o.inference.Returned? && Extraction.ResponseText(o.inference.value).None? ==>
        r.outcome == Failed(InvalidResponse) && r.reached == 6 && ExtractJson !in Attempted(r) && |r.calls| == 5
    ensures var r := Analyze(s, o, parse);
      r.reached >= 5 && o.inference.Returned? && Extraction.ResponseText(o.inference.value).Some?
      && Extraction.ExtractJson(Extraction.ResponseText(o.inference.value).value).None? ==>
        r.outcome == Failed(NoDataStructure) && r.reached == 7 && ParseJson !in Attempted(r) && |r.calls| == 5
  {
    var r := Analyze(s, o, parse);
    assert Plan[..6] == [UploadFile, ConvertToImage, UploadImage, WriteRecord, Infer, SelectText];
    assert Plan[..7] == Plan[..6] + [ExtractJson];
  }

  /** On success the record left under the run's key is the parsed one, unless the second write answered `false`. */
  lemma SuccessStoresFeedback(s: Submission, o: Outcomes, parse: string -> Option<Json>)
    ensures var r := Analyze(s, o, parse);
      r.outcome.Succeeded? && o.writeFeedback == Returned(true) ==>
        r.stored.Some? && r.stored.value.feedback.Parsed? && r.stored == Some(r.calls[5].record)
  {
  }

  /**
   * The record a run leaves under `resume:` + uuid has the uuid as its id, so
   * a store in which every record sits under the key of its own id stays so.
   */
  lemma RunKeepsStoreKeyedById(s: Submission, o: Outcomes, parse: string -> Option<Json>, kv: map<string, Record>)
    requires KeyedById(kv)
    ensures var r := Analyze(s, o, parse);
      r.stored.Some? ==> r.stored.value.id == o.uuid
    ensures var r := Analyze(s, o, parse);
      KeyedById(if r.stored.Some? then kv[ResumeKey(o.uuid) := r.stored.value] else kv)
  {
  }

  /** The last steps add calls after the first four steps' calls, store no file, and either keep the stored record or store a new one. */
  lemma CompleteExtendsPrepared(s: Submission, o: Outcomes, parse: string -> Option<Json>, p: Prepared)
    ensures var r := Complete(s, o, parse, p);
      && |p.calls| <= |r.calls| && r.calls == p.calls + r.calls[|p.calls|..]
      && r.uploaded == p.uploaded
      && (r.stored == p.stored || r.stored.Some?)
  {
  }

  /** When the first four steps go through, the run is what the remaining steps make of them. */
  lemma AnalyzeOfReady(s: Submission, o: Outcomes, parse: string -> Option<Json>, p: Prepared)
    requires Prepare(s, o) == Ready(p)
    ensures Analyze(s, o, parse) == Complete(s, o, parse, p)
  {
  }

  /** When the first four steps stop the run, the run is that stopped one. */
  lemma AnalyzeOfStopped(s: Submission, o: Outcomes, parse: string -> Option<Json>)
    requires Prepare(s, o).Stopped?
    ensures Analyze(s, o, parse) == Prepare(s, o).run
  {
  }

  /** The effects of the two halves of a run on the call log and the store add up to the whole run's. */
  lemma ComposeEffects(calls0: seq<Call>, p: Prepared, r: Run, kv0: map<string, Record>,
                       calls1: seq<Call>, kv1: map<string, Record>, key: string,
                       calls2: seq<Call>, kv2: map<string, Record>)
    requires |p.calls| <= |r.calls| && r.calls[..|p.calls|] == p.calls
    requires r.stored == p.stored || r.stored.Some?
    requires calls1 == calls0 + p.calls && calls2 == calls1 + r.calls[|p.calls|..]
    requires kv1 == if p.stored.Some? then kv0[key := p.stored.value] else kv0
    requires kv2 == if r.stored != p.stored then kv1[key := r.stored.value] else kv1
    ensures calls2 == calls0 + r.calls
    ensures kv2 == if r.stored.Some? then kv0[key := r.stored.value] else kv0
  {
    assert r.calls == p.calls + r.calls[|p.calls|..];
  }

  /** The upload page: its state and the backend it calls. */
  class UploadPage {
    const backend: Backend
    var isProcessing: bool
    var statusText: string
    var navigatedTo: Option<string>
    var alerts: seq<string>

    constructor (backend: Backend)
      ensures this.backend == backend
      ensures !isProcessing && statusText == "" && navigatedTo == None && alerts == []
    {
      this.backend := backend;
      isProcessing, statusText, navigatedTo, alerts := false, "", None, [];
    }

    /** The catch block: report the message and stop processing. */
    method Fail(message: string)
      modifies this
      ensures statusText == "Error: " + message && !isProcessing
      ensures navigatedTo == old(navigatedTo) && alerts == old(alerts)
    {
      statusText := "Error: " + message;
      isProcessing := false;
    }

    /** The first four steps of `handleAnalyze` (see `Prepare`). */
    method PrepareRun(s: Submission, o: Outcomes) returns (stage: Stage)
      modifies this, backend
      ensures stage == Prepare(s, o)
      ensures stage.Stopped? ==>
        && backend.calls == old(backend.calls) + stage.run.calls
        && backend.files == old(backend.files) + stage.run.uploaded
        && backend.kv == (if stage.run.stored.Some? then old(backend.kv)[ResumeKey(o.uuid) := stage.run.stored.value] else old(backend.kv))
        && statusText == StatusText(stage.run.outcome) && !isProcessing
      ensures stage.Ready? ==>
        && backend.calls == old(backend.calls) + stage.prepared.calls
        && backend.files == old(backend.files) + stage.prepared.uploaded
        && backend.kv == (if stage.prepared.stored.Some? then old(backend.kv)[ResumeKey(o.uuid) := stage.prepared.stored.value] else old(backend.kv))
        && stage.prepared.data.feedback == Pending
        && (stage.prepared.stored.Some? ==> stage.prepared.stored.value == stage.prepared.data)
        && isProcessing
      ensures navigatedTo == old(navigatedTo) && alerts == old(alerts)
    {
      isProcessing := true;
      statusText := "Uploading the file...";
      backend.Upload(s.file, o.uploadFile);
      if !(o.uploadFile.Returned? && o.uploadFile.value.Some?) {
        Fail(FailureOf(o.uploadFile, "Failed to upload file"));
        return Prepare(s, o);
      }
      var resumePath := o.uploadFile.value.value;

      statusText := "Converting to image..";
      backend.Convert(s.file);
      if !(o.convert.Returned? && o.convert.value.Some?) {
        Fail(FailureOf(o.convert, "Failed to convert pdf to image"));
        return Prepare(s, o);
      }

      statusText := "uploading the image...";
      backend.Upload(o.convert.value.value, o.uploadImage);
      if !(o.uploadImage.Returned? && o.uploadImage.value.Some?) {
        Fail(FailureOf(o.uploadImage, "Failed to upload image"));
        return Prepare(s, o);
      }
      var imagePath := o.uploadImage.value.value;

      statusText := "Preparing data..";
      var data := InitialRecord(s, o, resumePath, imagePath);
      backend.Set(ResumeKey(o.uuid), data, o.writeRecord);
      if o.writeRecord.Threw? {
        Fail(MessageOf(o.writeRecord.thrown));
      }
      return Prepare(s, o);
    }

    /** The remaining steps of `handleAnalyze` (see `Complete`). */
    method CompleteRun(s: Submission, o: Outcomes, parse: string -> Option<Json>, p: Prepared)
      requires isProcessing
      requires p.data.feedback == Pending && (p.stored.Some? ==> p.stored.value == p.data)
      modifies this, backend
      ensures var r := Complete(s, o, parse, p);
        && backend.calls == old(backend.calls) + r.calls[|p.calls|..]
        && backend.files == old(backend.files)
        && backend.kv == (if r.stored != p.stored then old(backend.kv)[ResumeKey(o.uuid) := r.stored.value] else old(backend.kv))
        && statusText == StatusText(r.outcome)
        && isProcessing == r.outcome.Succeeded?
        && navigatedTo == (if r.outcome.Succeeded? then Some(ResultRoute(o.uuid)) else old(navigatedTo))
        && alerts == old(alerts)
    {
      statusText := "Analyzing...";
      backend.Feedback(p.data.resumePath, Constants.JobContext(s.jobTitle, s.jobDescription));
      if o.inference.Threw? {
        Fail(MessageOf(o.inference.thrown));
        return;
      }
      var text := Extraction.ResponseText(o.inference.value);
      if text.None? {
        Fail(InvalidResponse);
        return;
      }
      var span := Extraction.ExtractJson(text.value);
      if span.None? {
        Fail(NoDataStructure);
        return;
      }
      var value := parse(span.value);
      if value.None? {
        Fail(ParseFailure);
        return;
      }
      var data := p.data.(feedback := Parsed(value.value));
      backend.Set(ResumeKey(o.uuid), data, o.writeFeedback);
      if o.writeFeedback.Threw? {
        Fail(MessageOf(o.writeFeedback.thrown));
        return;
      }
      statusText := Completed;
      navigatedTo := Some(ResultRoute(o.uuid));
    }

    /** `handleAnalyze`: one analysis run. */
    method HandleAnalyze(s: Submission, o: Outcomes, parse: string -> Option<Json>)
      modifies this, backend
      ensures var r := Analyze(s, o, parse);
        && backend.calls == old(backend.calls) + r.calls
        && backend.files == old(backend.files) + r.uploaded
        && backend.kv == (if r.stored.Some? then old(backend.kv)[ResumeKey(o.uuid) := r.stored.value] else old(backend.kv))
        && statusText == StatusText(r.outcome)
        && isProcessing == r.outcome.Succeeded?
        && navigatedTo == (if r.outcome.Succeeded? then Some(ResultRoute(o.uuid)) else old(navigatedTo))
        && alerts == old(alerts)
    {
      ghost var calls0, files0, kv0 := backend.calls, backend.files, backend.kv;
      var stage := PrepareRun(s, o);
      if stage.Ready? {
        var p := stage.prepared;
        ghost var calls1, kv1 := backend.calls, backend.kv;
        CompleteRun(s, o, parse, p);
        AnalyzeOfReady(s, o, parse, p);
        var r := Complete(s, o, parse, p);
        ComposeEffects(calls0, p, r, kv0, calls1, kv1, ResumeKey(o.uuid), backend.calls, backend.kv);
      } else {
        AnalyzeOfStopped(s, o, parse);
      }
    }

    /**
     * `handleSubmit`: with no file chosen it alerts and changes nothing else;
     * otherwise it starts a run.
     */
    method HandleSubmit(companyName: string, jobTitle: string, jobDescription: string, file: Option<string>,
                        o: Outcomes, parse: string -> Option<Json>)
      modifies this, backend
      ensures file.None? ==>
        && alerts == old(alerts) + ["Please select a resume file to upload."]
        && backend.calls == old(backend.calls) && backend.kv == old(backend.kv) && backend.files == old(backend.files)
        && isProcessing == old(isProcessing) && statusText == old(statusText) && navigatedTo == old(navigatedTo)
      ensures file.Some? ==>
        var r := Analyze(Submission(companyName, jobTitle, jobDescription, file.value), o, parse);
        && backend.calls == old(backend.calls) + r.calls
        && backend.files == old(backend.files) + r.uploaded
        && backend.kv == (if r.stored.Some? then old(backend.kv)[ResumeKey(o.uuid) := r.stored.value] else old(backend.kv))
        && statusText == StatusText(r.outcome)
        && isProcessing == r.outcome.Succeeded?
        && navigatedTo == (if r.outcome.Succeeded? then Some(ResultRoute(o.uuid)) else old(navigatedTo))
        && alerts == old(alerts)
    {
      if file.None? {
        alerts := alerts + ["Please select a resume file to upload."];
        return;
      }
      HandleAnalyze(Submission(companyName, jobTitle, jobDescription, file.value), o, parse);
    }
  }
}
