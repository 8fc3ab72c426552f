/** The processing API (backend/app/api/processing.py): the registry of
    jobs, the end-to-end job (transcribe the audio files, read the
    documents, combine the text, then optionally generate a workflow and
    complete templates), the job status query, and the probe that finds an
    uploaded file by trying the allowed extensions in order. HTTP routing
    and background scheduling are outside: a job runs as one sequential
    method on the registry. */
module Processing {
  import opened Wrappers
  import opened Strings
  import opened Config
  import opened Json
  import opened Schemas
  import opened AiAnalyzer
  import opened DocumentProcessor

  datatype ProcessRequest = ProcessRequest(
    audioFileIds: seq<string>,
    documentFileIds: seq<string>,
    templateFileIds: seq<string>,
    generateWorkflow: bool,
    completeTemplates: bool,
    workflowName: Option<string>)

  /** A registry entry; the optional parts are the keys present in the
      stored dict. */
  datatype JobEntry = JobEntry(
    status: ProcessingStatus,
    message: string,
    transcriptions: Option<seq<Transcription>>,
    workflows: Option<seq<WorkflowDiagram>>,
    completedDocuments: Option<seq<CompletedDocument>>,
    error: Option<string>)

  datatype ProcessResponse = ProcessResponse(
    jobId: string,
    status: ProcessingStatus,
    message: string,
    transcriptions: Option<seq<Transcription>>,
    workflows: Option<seq<WorkflowDiagram>>,
    completedDocuments: Option<seq<CompletedDocument>>,
    error: Option<string>)

  /** An HTTP error: status code and detail. */
  datatype HttpError = HttpError(code: int, detail: string)

  /** The services the job calls: file existence, the speech transcriber
      (path, file id), the document readers, the language model, and the
      workflow generator and template filler (which draw their own ids and
      timestamps). Each failing call gives the message it raised. */
  datatype Services = Services(
    fileExists: string -> bool,
    transcribe: (string, string) -> Result<Transcription, string>,
    readers: Readers,
    inference: Inference,
    generateWorkflow: (seq<WorkflowStep>, string, string) -> Result<WorkflowDiagram, string>,
    fillTemplate: (string, Dict) -> Result<CompletedDocument, string>)

  // ----- the extension probe -----

  /** The path tried for the `k`-th extension: `directory/<fileId><ext>`. */
  function Candidate(directory: string, fileId: string, exts: seq<string>, k: nat): string
    requires k < |exts|
  {
    PathJoin(directory, fileId + exts[k])
  }

  /** The position of the first extension whose file exists, or `|exts|`
      when there is none. */
  function ProbeIndex(directory: string, fileId: string, exts: seq<string>, fileExists: string -> bool): (k: nat)
    ensures k <= |exts|
    ensures forall j :: 0 <= j < k ==> !fileExists(Candidate(directory, fileId, exts, j))
    ensures k < |exts| ==> fileExists(Candidate(directory, fileId, exts, k))
    decreases |exts|
  {
    if exts == [] then 0
    else if fileExists(Candidate(directory, fileId, exts, 0)) then 0
    else
      var k := 1 + ProbeIndex(directory, fileId, exts[1..], fileExists);
      assert forall j :: 1 <= j < |exts| ==> Candidate(directory, fileId, exts, j) == Candidate(directory, fileId, exts[1..], j - 1);
      k
  }

  /** The first `directory/<fileId><ext>` that exists, trying the
      extensions in order. */
  function FirstExisting(directory: string, fileId: string, exts: seq<string>, fileExists: string -> bool): (r: Option<string>)
    ensures r.None? <==> forall k :: 0 <= k < |exts| ==> !fileExists(Candidate(directory, fileId, exts, k))
    ensures r.Some? ==>
              var k := ProbeIndex(directory, fileId, exts, fileExists);
              && k < |exts| && r.value == Candidate(directory, fileId, exts, k) && fileExists(r.value)
  {
    var k := ProbeIndex(directory, fileId, exts, fileExists);
    if k < |exts| then Some(Candidate(directory, fileId, exts, k)) else None
  }

  /** The probe loop: try each extension, stop at the first file found. */
  method FindFile(directory: string, fileId: string, exts: seq<string>, fileExists: string -> bool)
    returns (path: Option<string>)
    ensures path == FirstExisting(directory, fileId, exts, fileExists)
  {
    for i := 0 to |exts|
      invariant forall j :: 0 <= j < i ==> !fileExists(Candidate(directory, fileId, exts, j))
    {
      var potentialPath := PathJoin(directory, fileId + exts[i]);
      if fileExists(potentialPath) {
        assert potentialPath == Candidate(directory, fileId, exts, i);
        return Some(potentialPath);
      }
    }
    path := None;
  }

  /** The `transcribe_audio` endpoint: 404 when no audio file is found,
      500 with the message when transcription raises. */
  function TranscribeEndpoint(s: Services, fileId: string): (r: Result<Transcription, HttpError>)
    ensures FirstExisting(UPLOAD_DIR, fileId, ALLOWED_AUDIO_FORMATS, s.fileExists).None? ==>
              r == Err(HttpError(404, "Audio file not found"))
    ensures FirstExisting(UPLOAD_DIR, fileId, ALLOWED_AUDIO_FORMATS, s.fileExists).Some? ==>
              var t := s.transcribe(FirstExisting(UPLOAD_DIR, fileId, ALLOWED_AUDIO_FORMATS, s.fileExists).value, fileId);
              && (t.Ok? ==> r == Ok(t.value))
              && (t.Err? ==> r == Err(HttpError(500, t.error)))
  {
    match FirstExisting(UPLOAD_DIR, fileId, ALLOWED_AUDIO_FORMATS, s.fileExists)
    case None => Err(HttpError(404, "Audio file not found"))
    case Some(audioPath) =>
      match s.transcribe(audioPath, fileId)
      case Ok(t) => Ok(t)
      case Err(e) => Err(HttpError(500, e))
  }

  // ----- the stages of a job, as functions of the ids handled so far -----

  /** A loop over ids that appends to a list: `step` takes the list so far
      and the next id, and gives the new list or the message raised, which
      ends the loop. */
  function FoldIds<T>(step: (seq<T>, string) -> Result<seq<T>, string>, ids: seq<string>): Result<seq<T>, string>
  {
    if ids == [] then Ok([])
    else
      match FoldIds(step, ids[..|ids| - 1])
      case Err(e) => Err(e)
      case Ok(acc) => step(acc, ids[|ids| - 1])
  }

  /** Once a step raises, the loop is over: later ids change nothing. */
  lemma {:induction false} FoldFailurePersists<T>(step: (seq<T>, string) -> Result<seq<T>, string>, ids: seq<string>, n: nat)
    requires n <= |ids| && FoldIds(step, ids[..n]).Err?
    ensures FoldIds(step, ids) == FoldIds(step, ids[..n])
    decreases |ids|
  {
    if n < |ids| {
      assert ids[..|ids| - 1][..n] == ids[..n];
      FoldFailurePersists(step, ids[..|ids| - 1], n);
    } else {
      assert ids[..n] == ids;
    }
  }

  /** A loop over one id is one step from the empty list. */
  lemma SingleId<T>(step: (seq<T>, string) -> Result<seq<T>, string>, id: string)
    ensures FoldIds(step, [id]) == step([], id)
  {
    assert [id][..0] == [];
  }

  /** An id for which the step leaves every list as it is can be taken
      out of the loop, wherever it sits. */
  lemma {:induction false} FoldSkip<T>(step: (seq<T>, string) -> Result<seq<T>, string>,
                                       before: seq<string>, id: string, after: seq<string>)
    requires forall acc :: step(acc, id) == Ok(acc)
    ensures FoldIds(step, before + [id] + after) == FoldIds(step, before + after)
    decreases |after|
  {
    var all := before + [id] + after;
    if after == [] {
      assert all[..|all| - 1] == before && all[|all| - 1] == id;
      assert before + after == before;
      match FoldIds(step, before)
      case Err(_) =>
      case Ok(acc) => assert FoldIds(step, all) == step(acc, id) == Ok(acc);
    } else {
      var init := after[..|after| - 1];
      assert all[..|all| - 1] == before + [id] + init;
      assert (before + after)[..|before + after| - 1] == before + init;
      assert all[|all| - 1] == (before + after)[|before + after| - 1];
      FoldSkip(step, before, id, init);
    }
  }

  /** A step that adds at most one element gives at most one per id. */
  lemma {:induction false} FoldBound<T>(step: (seq<T>, string) -> Result<seq<T>, string>, ids: seq<string>)
    requires forall acc: seq<T>, id: string :: step(acc, id).Ok? ==> |step(acc, id).value| <= |acc| + 1
    ensures FoldIds(step, ids).Ok? ==> |FoldIds(step, ids).value| <= |ids|
    decreases |ids|
  {
    if ids != [] {
      var init := ids[..|ids| - 1];
      FoldBound(step, init);
      match FoldIds(step, init)
      case Err(_) =>
      case Ok(acc) => assert FoldIds(step, ids) == step(acc, ids[|ids| - 1]);
    }
  }

  /** Step 1, one id: the transcription of the audio file found, if any. */
  function TranscribeNext(s: Services, transcriptions: seq<Transcription>, fileId: string): Result<seq<Transcription>, string>
  {
    match FirstExisting(UPLOAD_DIR, fileId, ALLOWED_AUDIO_FORMATS, s.fileExists)
    case None => Ok(transcriptions)
    case Some(audioPath) =>
      match s.transcribe(audioPath, fileId)
      case Err(e) => Err(e)
      case Ok(t) => Ok(transcriptions + [t])
  }

  /** Step 1: the transcriptions of the audio files found, in request
      order; ids without a file are skipped; a failing transcription fails
      the job. */
  function TranscribeAll(s: Services, ids: seq<string>): (r: Result<seq<Transcription>, string>)
    ensures r.Ok? ==> |r.value| <= |ids|
  {
    var step := (ts, fileId) => TranscribeNext(s, ts, fileId);
    FoldBound(step, ids);
    FoldIds(step, ids)
  }

  /** Step 2, one id: the text of the document found, if any. */
  function DocumentNext(s: Services, texts: seq<string>, fileId: string): Result<seq<string>, string>
  {
    match FirstExisting(UPLOAD_DIR, fileId, ALLOWED_DOCUMENT_FORMATS, s.fileExists)
    case None => Ok(texts)
    case Some(docPath) =>
      match ProcessDocument(s.readers, docPath, fileId)
      case Err(e) => Err(e)
      case Ok(result) => Ok(texts + [result.text])
  }

  /** Step 2: the texts of the documents found, in request order. */
  function DocumentTexts(s: Services, ids: seq<string>): (r: Result<seq<string>, string>)
    ensures r.Ok? ==> |r.value| <= |ids|
  {
    var step := (texts, fileId) => DocumentNext(s, texts, fileId);
    FoldBound(step, ids);
    FoldIds(step, ids)
  }

  /** One template: its fields, the data extracted for them from the text,
      and the filled document. The filler is given a value for every field
      of the template. */
  function CompleteOne(s: Services, templatePath: string, allText: string): (r: Result<CompletedDocument, string>)
    ensures TemplateFields(s.readers, templatePath).Err? ==> r == Err(TemplateFields(s.readers, templatePath).error)
    ensures TemplateFields(s.readers, templatePath).Ok? ==>
              var fields := TemplateFields(s.readers, templatePath).value;
              var data := ExtractTemplateData(s.inference, allText, fields);
              && (data.Err? ==> r == Err(data.error))
              && (data.Ok? ==> r == s.fillTemplate(templatePath, data.value) &&
                                 forall f :: f in fields ==> HasKey(data.value, f))
  {
    match TemplateFields(s.readers, templatePath)
    case Err(e) => Err(e)
    case Ok(fields) =>
      match ExtractTemplateData(s.inference, allText, fields)
      case Err(e) => Err(e)
      case Ok(data) => s.fillTemplate(templatePath, data)
  }

  /** Step 4, one id: the completed document for the template found, if any. */
  function TemplateNext(s: Services, allText: string, done: seq<CompletedDocument>, templateId: string)
    : Result<seq<CompletedDocument>, string>
  {
    match FirstExisting(TEMPLATE_DIR, templateId, ALLOWED_DOCUMENT_FORMATS, s.fileExists)
    case None => Ok(done)
    case Some(templatePath) =>
      match CompleteOne(s, templatePath, allText)
      case Err(e) => Err(e)
      case Ok(completed) => Ok(done + [completed])
  }

  /** Step 4: the completed documents for the templates found, in order. */
  function CompleteTemplates(s: Services, ids: seq<string>, allText: string): (r: Result<seq<CompletedDocument>, string>)
    ensures r.Ok? ==> |r.value| <= |ids|
  {
    var step := (done, templateId) => TemplateNext(s, allText, done, templateId);
    FoldBound(step, ids);
    FoldIds(step, ids)
  }

  /** The texts the job works on, transcripts first, then documents,
      joined by blank lines. The result is empty, so that steps 3 and 4 are
      skipped, only when there is at most one text and it is empty: two
      blank texts still join to a separator. */
  function CombinedText(transcriptions: seq<Transcription>, documentTexts: seq<string>): (text: string)
    ensures text == "" <==>
              && |transcriptions| + |documentTexts| <= 1
              && (forall i :: 0 <= i < |transcriptions| ==> transcriptions[i].fullText == "")
              && (forall i :: 0 <= i < |documentTexts| ==> documentTexts[i] == "")
  {
    var parts := seq(|transcriptions|, i requires 0 <= i < |transcriptions| => transcriptions[i].fullText) + documentTexts;
    JoinEmpty("\n\n", parts);
    assert forall i :: 0 <= i < |transcriptions| ==> parts[i] == transcriptions[i].fullText;
    assert forall i :: 0 <= i < |documentTexts| ==> parts[|transcriptions| + i] == documentTexts[i];
    Join("\n\n", parts)
  }

  /** The name a generated workflow gets: the request's, when given and not
      empty. */
  function JobWorkflowName(request: ProcessRequest): (name: string)
    ensures request.workflowName.Some? && request.workflowName.value != "" ==> name == request.workflowName.value
    ensures request.workflowName.None? || request.workflowName.value == "" ==> name == "Generated Workflow"
    ensures name != ""
  {
    if request.workflowName.Some? && request.workflowName.value != "" then request.workflowName.value
    else "Generated Workflow"
  }

  /** Step 3: at most one workflow, and only when requested and there is
      text. */
  function WorkflowStage(s: Services, request: ProcessRequest, allText: string): (r: Result<seq<WorkflowDiagram>, string>)
    ensures r.Ok? ==> |r.value| <= 1
    ensures !request.generateWorkflow || allText == "" ==> r == Ok([])
    // otherwise the steps extracted from the text, made into one workflow
    ensures request.generateWorkflow && allText != "" ==>
              var extracted := ExtractWorkflowFromText(s.inference, allText, None);
              && (extracted.Err? ==> r == Err(extracted.error))
              && (extracted.Ok? ==>
                    var generated := s.generateWorkflow(extracted.value, JobWorkflowName(request),
                                                        "Auto-generated from uploaded files");
                    && (generated.Err? ==> r == Err(generated.error))
                    && (generated.Ok? ==> r == Ok([generated.value])))
  {
    if request.generateWorkflow && allText != "" then
      match ExtractWorkflowFromText(s.inference, allText, None)
      case Err(e) => Err(e)
      case Ok(steps) =>
        match s.generateWorkflow(steps, JobWorkflowName(request), "Auto-generated from uploaded files")
        case Err(e) => Err(e)
        case Ok(workflow) => Ok([workflow])
    else Ok([])
  }

  /** Step 4's guard: templates only when requested, named and there is text. */
  function TemplateStage(s: Services, request: ProcessRequest, allText: string): (r: Result<seq<CompletedDocument>, string>)
    ensures !request.completeTemplates || request.templateFileIds == [] || allText == "" ==> r == Ok([])
    ensures request.completeTemplates && request.templateFileIds != [] && allText != "" ==>
              r == CompleteTemplates(s, request.templateFileIds, allText)
    ensures r.Ok? ==> |r.value| <= |request.templateFileIds|
  {
    if request.completeTemplates && request.templateFileIds != [] && allText != "" then
      CompleteTemplates(s, request.templateFileIds, allText)
    else Ok([])
  }

  datatype JobOutput = JobOutput(
    transcriptions: seq<Transcription>,
    workflows: seq<WorkflowDiagram>,
    completedDocuments: seq<CompletedDocument>)

  /** What `process_job` computes: its output, or the message of the first
      exception raised. */
  function RunJob(s: Services, request: ProcessRequest): (r: Result<JobOutput, string>)
    // the stages run in order: the first to raise decides the error
    ensures TranscribeAll(s, request.audioFileIds).Err? ==> r == Err(TranscribeAll(s, request.audioFileIds).error)
    ensures TranscribeAll(s, request.audioFileIds).Ok? && DocumentTexts(s, request.documentFileIds).Err? ==>
              r == Err(DocumentTexts(s, request.documentFileIds).error)
    ensures r.Ok? ==> TranscribeAll(s, request.audioFileIds) == Ok(r.value.transcriptions)
    // once both loops succeed, stage 3 and then stage 4 run on the combined text
    ensures TranscribeAll(s, request.audioFileIds).Ok? && DocumentTexts(s, request.documentFileIds).Ok? ==>
              var allText := CombinedText(TranscribeAll(s, request.audioFileIds).value,
                                          DocumentTexts(s, request.documentFileIds).value);
              && (WorkflowStage(s, request, allText).Err? ==> r == Err(WorkflowStage(s, request, allText).error))
              && (WorkflowStage(s, request, allText).Ok? && TemplateStage(s, request, allText).Err? ==>
                    r == Err(TemplateStage(s, request, allText).error))
              && (r.Ok? ==> && r.value.workflows == WorkflowStage(s, request, allText).value
                            && r.value.completedDocuments == TemplateStage(s, request, allText).value)
    // at most one workflow, none unless requested
    ensures r.Ok? ==> |r.value.workflows| <= 1
    ensures r.Ok? && !request.generateWorkflow ==> r.value.workflows == []
    // at most one document per template id, none unless requested
    ensures r.Ok? ==> |r.value.completedDocuments| <= |request.templateFileIds|
    ensures r.Ok? && !request.completeTemplates ==> r.value.completedDocuments == []
  {
    match TranscribeAll(s, request.audioFileIds)
    case Err(e) => Err(e)
    case Ok(transcriptions) =>
      match DocumentTexts(s, request.documentFileIds)
      case Err(e) => Err(e)
      case Ok(texts) =>
        var allText := CombinedText(transcriptions, texts);
        match WorkflowStage(s, request, allText)
        case Err(e) => Err(e)
        case Ok(workflows) =>
          match TemplateStage(s, request, allText)
          case Err(e) => Err(e)
          case Ok(completed) => Ok(JobOutput(transcriptions, workflows, completed))
  }

  const STARTED: JobEntry := JobEntry(Processing, "Processing started", None, None, None, None)

  /** The entry a finished job leaves in the registry. */
  function Outcome(result: Result<JobOutput, string>): (entry: JobEntry)
    ensures result.Ok? ==>
              entry.status == Completed && entry.message == "Processing completed successfully" &&
              entry.transcriptions == Some(result.value.transcriptions) &&
              entry.workflows == Some(result.value.workflows) &&
              entry.completedDocuments == Some(result.value.completedDocuments) && entry.error.None?
    ensures result.Err? ==>
              entry.status == Failed && entry.message == "Processing failed: " + result.error &&
              entry.error == Some(result.error) &&
              entry.transcriptions.None? && entry.workflows.None? && entry.completedDocuments.None?
  {
    match result
    case Ok(out) =>
      JobEntry(Completed, "Processing completed successfully",
               Some(out.transcriptions), Some(out.workflows), Some(out.completedDocuments), None)
    case Err(e) =>
      JobEntry(Failed, "Processing failed: " + e, None, None, None, Some(e))
  }

  /** `get_job_status` on a registry: 404 for an unknown id, else the
      stored entry echoed, with absent keys as None. */
  function JobStatus(jobs: map<string, JobEntry>, jobId: string): (r: Result<ProcessResponse, HttpError>)
    ensures jobId !in jobs <==> r == Err(HttpError(404, "Job not found"))
    ensures jobId in jobs ==>
              && r.Ok? && r.value.jobId == jobId
              && r.value.status == jobs[jobId].status && r.value.message == jobs[jobId].message
              && r.value.transcriptions == jobs[jobId].transcriptions
              && r.value.workflows == jobs[jobId].workflows
              && r.value.completedDocuments == jobs[jobId].completedDocuments
              && r.value.error == jobs[jobId].error
  {
    if jobId !in jobs then Err(HttpError(404, "Job not found"))
    else
      var job := jobs[jobId];
      Ok(ProcessResponse(jobId, job.status, job.message, job.transcriptions, job.workflows,
                         job.completedDocuments, job.error))
  }

  /** The module-level `jobs` dict. */
  class JobRegistry {
    var jobs: map<string, JobEntry>

    constructor ()
      ensures jobs == map[]
    {
      jobs := map[];
    }

    /** `process_all`: the job is registered as processing before it is
        scheduled; the caller then runs `ProcessJob`. */
    method ProcessAll(jobId: string, request: ProcessRequest) returns (response: ProcessResponse)
      modifies this
      ensures jobs == old(jobs)[jobId := STARTED]
      ensures response == ProcessResponse(jobId, Processing,
                                          "Processing started. Use /api/v1/job/{job_id} to check status.",
                                          None, None, None, None)
    {
      jobs := jobs[jobId := STARTED];
      response := ProcessResponse(jobId, Processing,
                                  "Processing started. Use /api/v1/job/{job_id} to check status.",
                                  None, None, None, None);
    }

    /** `process_job`: the stages in order, then the entry overwritten with
        the outcome; only this job's entry changes. */
    method ProcessJob(s: Services, jobId: string, request: ProcessRequest)
      modifies this
      ensures jobs == old(jobs)[jobId := Outcome(RunJob(s, request))]
    {
      var result := RunJobSteps(s, request);
      jobs := jobs[jobId := Outcome(result)];
    }

    /** `get_job_status`. */
    function GetJobStatus(jobId: string): (r: Result<ProcessResponse, HttpError>)
      reads this
      ensures r == JobStatus(jobs, jobId)
    {
      JobStatus(jobs, jobId)
    }
  }

  /** The body of `process_job` inside its `try`: the loops over the ids,
      each appending to its list. */
  method RunJobSteps(s: Services, request: ProcessRequest) returns (result: Result<JobOutput, string>)
    ensures result == RunJob(s, request)
  {
    var transcriptions := TranscribeLoop(s, request.audioFileIds);
    if transcriptions.Err? {
      return Err(transcriptions.error);
    }
    var documentTexts := DocumentLoop(s, request.documentFileIds);
    if documentTexts.Err? {
      return Err(documentTexts.error);
    }
    var allText := CombinedText(transcriptions.value, documentTexts.value);
    var workflows := WorkflowStage(s, request, allText);
    if workflows.Err? {
      return Err(workflows.error);
    }
    var completed: Result<seq<CompletedDocument>, string> := Ok([]);
    if request.completeTemplates && request.templateFileIds != [] && allText != "" {
      completed := TemplateLoop(s, request.templateFileIds, allText);
    }
    if completed.Err? {
      return Err(completed.error);
    }
    result := Ok(JobOutput(transcriptions.value, workflows.value, completed.value));
  }

  /** One round of the audio loop: probe for the file, then transcribe it. */
  method TranscribeRound(s: Services, transcriptions: seq<Transcription>, fileId: string)
    returns (next: Result<seq<Transcription>, string>)
    ensures next == TranscribeNext(s, transcriptions, fileId)
  {
    var audioPath := FindFile(UPLOAD_DIR, fileId, ALLOWED_AUDIO_FORMATS, s.fileExists);
    if audioPath.None? {
      return Ok(transcriptions);
    }
    var result := s.transcribe(audioPath.value, fileId);
    if result.Err? {
      return Err(result.error);
    }
    next := Ok(transcriptions + [result.value]);
  }

  /** The audio loop of `process_job`. */
  method TranscribeLoop(s: Services, ids: seq<string>) returns (result: Result<seq<Transcription>, string>)
    ensures result == TranscribeAll(s, ids)
  {
    ghost var step := (ts, fileId) => TranscribeNext(s, ts, fileId);
    var transcriptions: seq<Transcription> := [];
    for i := 0 to |ids|
      invariant FoldIds(step, ids[..i]) == Ok(transcriptions)
    {
      assert ids[..i + 1][..i] == ids[..i];
      var next := TranscribeRound(s, transcriptions, ids[i]);
      if next.Err? {
        FoldFailurePersists(step, ids, i + 1);
        return next;
      }
      transcriptions := next.value;
    }
    assert ids[..|ids|] == ids;
    result := Ok(transcriptions);
  }

  /** One round of the document loop: probe for the file, then read it. */
  method DocumentRound(s: Services, texts: seq<string>, fileId: string)
    returns (next: Result<seq<string>, string>)
    ensures next == DocumentNext(s, texts, fileId)
  {
    var docPath := FindFile(UPLOAD_DIR, fileId, ALLOWED_DOCUMENT_FORMATS, s.fileExists);
    if docPath.None? {
      return Ok(texts);
    }
    var result := ProcessDocument(s.readers, docPath.value, fileId);
    if result.Err? {
      return Err(result.error);
    }
    next := Ok(texts + [result.value.text]);
  }

  /** The document loop of `process_job`. */
  method DocumentLoop(s: Services, ids: seq<string>) returns (result: Result<seq<string>, string>)
    ensures result == DocumentTexts(s, ids)
  {
    ghost var step := (texts, fileId) => DocumentNext(s, texts, fileId);
    var texts: seq<string> := [];
    for i := 0 to |ids|
      invariant FoldIds(step, ids[..i]) == Ok(texts)
    {
      assert ids[..i + 1][..i] == ids[..i];
      var next := DocumentRound(s, texts, ids[i]);
      if next.Err? {
        FoldFailurePersists(step, ids, i + 1);
        return next;
      }
      texts := next.value;
    }
    assert ids[..|ids|] == ids;
    result := Ok(texts);
  }

  /** The body of the template loop for one template found: fields, data,
      filled document. */
  method CompleteOneSteps(s: Services, templatePath: string, allText: string)
    returns (one: Result<CompletedDocument, string>)
    ensures one == CompleteOne(s, templatePath, allText)
  {
    var fields := ExtractTemplateFields(s.readers, templatePath);
    if fields.Err? {
      return Err(fields.error);
    }
    var data := ExtractTemplateData(s.inference, allText, fields.value);
    if data.Err? {
      return Err(data.error);
    }
    one := s.fillTemplate(templatePath, data.value);
  }

  /** One round of the template loop: probe for the template, then
      complete it. */
  method TemplateRound(s: Services, allText: string, completed: seq<CompletedDocument>, templateId: string)
    returns (next: Result<seq<CompletedDocument>, string>)
    ensures next == TemplateNext(s, allText, completed, templateId)
  {
    var templatePath := FindFile(TEMPLATE_DIR, templateId, ALLOWED_DOCUMENT_FORMATS, s.fileExists);
    if templatePath.None? {
      return Ok(completed);
    }
    var one := CompleteOneSteps(s, templatePath.value, allText);
    if one.Err? {
      return Err(one.error);
    }
    next := Ok(completed + [one.value]);
  }

  /** The template loop of `process_job`. */
  method TemplateLoop(s: Services, ids: seq<string>, allText: string) returns (result: Result<seq<CompletedDocument>, string>)
    ensures result == CompleteTemplates(s, ids, allText)
  {
    ghost var step := (done, templateId) => TemplateNext(s, allText, done, templateId);
    var completed: seq<CompletedDocument> := [];
    for i := 0 to |ids|
      invariant FoldIds(step, ids[..i]) == Ok(completed)
    {
      assert ids[..i + 1][..i] == ids[..i];
      var next := TemplateRound(s, allText, completed, ids[i]);
      if next.Err? {
        FoldFailurePersists(step, ids, i + 1);
        return next;
      }
      completed := next.value;
    }
    assert ids[..|ids|] == ids;
    result := Ok(completed);
  }

  // ----- properties of a job -----

  /** An audio id without an uploaded file is skipped: taking it out of
      the request, wherever it sits, changes nothing. */
  lemma MissingAudioSkipped(s: Services, before: seq<string>, id: string, after: seq<string>)
    requires FirstExisting(UPLOAD_DIR, id, ALLOWED_AUDIO_FORMATS, s.fileExists).None?
    ensures TranscribeAll(s, before + [id] + after) == TranscribeAll(s, before + after)
  {
    var step := (ts, fileId) => TranscribeNext(s, ts, fileId);
    forall acc ensures step(acc, id) == Ok(acc) {
      assert TranscribeNext(s, acc, id) == Ok(acc);
    }
    FoldSkip(step, before, id, after);
  }

  /** The same for a document id. */
  lemma MissingDocumentSkipped(s: Services, before: seq<string>, id: string, after: seq<string>)
    requires FirstExisting(UPLOAD_DIR, id, ALLOWED_DOCUMENT_FORMATS, s.fileExists).None?
    ensures DocumentTexts(s, before + [id] + after) == DocumentTexts(s, before + after)
  {
    var step := (texts, fileId) => DocumentNext(s, texts, fileId);
    forall acc ensures step(acc, id) == Ok(acc) {
      assert DocumentNext(s, acc, id) == Ok(acc);
    }
    FoldSkip(step, before, id, after);
  }

  /** The same for a template id, looked up in the template directory. */
  lemma MissingTemplateSkipped(s: Services, before: seq<string>, id: string, after: seq<string>, allText: string)
    requires FirstExisting(TEMPLATE_DIR, id, ALLOWED_DOCUMENT_FORMATS, s.fileExists).None?
    ensures CompleteTemplates(s, before + [id] + after, allText) == CompleteTemplates(s, before + after, allText)
  {
    var step := (done, templateId) => TemplateNext(s, allText, done, templateId);
    forall acc ensures step(acc, id) == Ok(acc) {
      assert TemplateNext(s, allText, acc, id) == Ok(acc);
    }
    FoldSkip(step, before, id, after);
  }

  /** The document probe reaches `.xlsx` only after the three other
      extensions are missing. */
  lemma SpreadsheetProbed(fileExists: string -> bool, fileId: string)
    requires !fileExists(PathJoin(UPLOAD_DIR, fileId + ".pdf"))
    requires !fileExists(PathJoin(UPLOAD_DIR, fileId + ".docx"))
    requires !fileExists(PathJoin(UPLOAD_DIR, fileId + ".txt"))
    requires fileExists(PathJoin(UPLOAD_DIR, fileId + ".xlsx"))
    ensures FirstExisting(UPLOAD_DIR, fileId, ALLOWED_DOCUMENT_FORMATS, fileExists) ==
              Some(PathJoin(UPLOAD_DIR, fileId + ".xlsx"))
  {
    var exts := ALLOWED_DOCUMENT_FORMATS;
    assert Candidate(UPLOAD_DIR, fileId, exts, 0) == PathJoin(UPLOAD_DIR, fileId + ".pdf");
    assert Candidate(UPLOAD_DIR, fileId, exts, 1) == PathJoin(UPLOAD_DIR, fileId + ".docx");
    assert Candidate(UPLOAD_DIR, fileId, exts, 2) == PathJoin(UPLOAD_DIR, fileId + ".txt");
    assert Candidate(UPLOAD_DIR, fileId, exts, 3) == PathJoin(UPLOAD_DIR, fileId + ".xlsx");
  }

  lemma SpreadsheetUnsupported(r: Readers, path: string, fileId: string)
    requires Suffix(path) == ".xlsx"
    ensures ProcessDocument(r, path, fileId) == Err("Unsupported document format: " + ".xlsx")
  {
    XlsxIsLowerCase();
    XlsxNotSupported();
  }

  lemma XlsxIsLowerCase()
    ensures Lower(".xlsx") == ".xlsx"
  {
    var lowered := Lower(".xlsx");
    assert lowered[0] == '.';
  }

  lemma XlsxNotSupported()
    ensures ".xlsx" !in SUPPORTED_FORMATS
  {
  }

  /** A document id whose only upload is a spreadsheet fails the whole
      job: the probe accepts `.xlsx`, the document processor does not. */
  lemma SpreadsheetFailsJob(s: Services, fileId: string)
    requires fileId != [] && '/' !in fileId
    requires !s.fileExists(PathJoin(UPLOAD_DIR, fileId + ".pdf"))
    requires !s.fileExists(PathJoin(UPLOAD_DIR, fileId + ".docx"))
    requires !s.fileExists(PathJoin(UPLOAD_DIR, fileId + ".txt"))
    requires s.fileExists(PathJoin(UPLOAD_DIR, fileId + ".xlsx"))
    ensures DocumentTexts(s, [fileId]) == Err("Unsupported document format: " + ".xlsx")
  {
    SpreadsheetStepFails(s, fileId);
    var step := (texts, id) => DocumentNext(s, texts, id);
    SingleId(step, fileId);
    assert DocumentTexts(s, [fileId]) == FoldIds(step, [fileId]);
  }

  lemma SpreadsheetStepFails(s: Services, fileId: string)
    requires fileId != [] && '/' !in fileId
    requires !s.fileExists(PathJoin(UPLOAD_DIR, fileId + ".pdf"))
    requires !s.fileExists(PathJoin(UPLOAD_DIR, fileId + ".docx"))
    requires !s.fileExists(PathJoin(UPLOAD_DIR, fileId + ".txt"))
    requires s.fileExists(PathJoin(UPLOAD_DIR, fileId + ".xlsx"))
    ensures DocumentNext(s, [], fileId) == Err("Unsupported document format: " + ".xlsx")
  {
    var p := PathJoin(UPLOAD_DIR, fileId + ".xlsx");
    SpreadsheetProbed(s.fileExists, fileId);
    assert FirstExisting(UPLOAD_DIR, fileId, ALLOWED_DOCUMENT_FORMATS, s.fileExists) == Some(p);
    XlsxSuffix(fileId);
    SpreadsheetUnsupported(s.readers, p, fileId);
  }

  lemma XlsxSuffix(fileId: string)
    requires fileId != [] && '/' !in fileId
    ensures Suffix(PathJoin(UPLOAD_DIR, fileId + ".xlsx")) == ".xlsx"
  {
    assert ".xlsx"[1..] == "xlsx";
    SuffixOfJoined(UPLOAD_DIR, fileId, ".xlsx");
  }

  /** A completed job's status echoes its output; a failed one reports the
      message; an unknown id is not found. */
  lemma StatusAfterJob(jobs: map<string, JobEntry>, s: Services, jobId: string, request: ProcessRequest)
    ensures var r := JobStatus(jobs[jobId := Outcome(RunJob(s, request))], jobId);
            && r.Ok? && r.value.jobId == jobId
            && (RunJob(s, request).Ok? ==>
                  r.value.status == Completed &&
                  r.value.transcriptions == Some(RunJob(s, request).value.transcriptions) &&
                  r.value.workflows == Some(RunJob(s, request).value.workflows) &&
                  r.value.completedDocuments == Some(RunJob(s, request).value.completedDocuments) &&
                  r.value.error.None?)
            && (RunJob(s, request).Err? ==>
                  r.value.status == Failed &&
                  r.value.message == "Processing failed: " + RunJob(s, request).error &&
                  r.value.error == Some(RunJob(s, request).error) &&
                  r.value.transcriptions.None? && r.value.workflows.None? && r.value.completedDocuments.None?)
  {
  }

  /** Right after `process_all` the job reads as processing, with no
      output and no error. */
  lemma StatusAfterStart(jobs: map<string, JobEntry>, jobId: string)
    ensures JobStatus(jobs[jobId := STARTED], jobId) ==
              Ok(ProcessResponse(jobId, Processing, "Processing started", None, None, None, None))
  {
  }
}
