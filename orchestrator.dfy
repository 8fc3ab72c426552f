/** The audio-to-XML pipeline (backend/app/services/orchestrator.py):
    transcribe, extract the steps, generate the BPMN XML, strictly in that
    order, stopping at the first failure. The three services are supplied
    by the caller; a ghost trace records the calls made to them. */
module Orchestrator {
  import opened Wrappers
  import opened Strings
  import opened Schemas

  /** The transcriber (audio path, file id, language), the step extractor
      (text, context) and the XML generator (workflow id, steps, name,
      description), each giving its result or the message it raised. */
  datatype Collaborators = Collaborators(
    transcribe: (string, string, Option<string>) -> Result<Transcription, string>,
    extract: (string, string) -> Result<seq<WorkflowStep>, string>,
    generate: (string, seq<WorkflowStep>, string, string) -> Result<string, string>)

  /** One call made to a collaborator. */
  datatype Call =
    | Transcribe(audioPath: string, fileId: string, language: Option<string>)
    | Extract(text: string, context: string)
    | Generate(workflowId: string, steps: seq<WorkflowStep>, name: string, description: string)

  const EMPTY_TRANSCRIPT := "Transcription resulted in empty text"
  const NO_STEPS := "AI analysis failed to extract any workflow steps"
  const DESCRIPTION := "Auto-generated from audio transcription"

  /** `workflow_name or f"Workflow from {file_id}"`: the given name unless it
      is absent or empty. */
  function WorkflowName(workflowName: Option<string>, fileId: string): (name: string)
    ensures workflowName.Some? && workflowName.value != [] ==> name == workflowName.value
    ensures workflowName.None? || workflowName.value == [] ==> name == "Workflow from " + fileId
    ensures name != []
  {
    if workflowName.Some? && workflowName.value != "" then workflowName.value else "Workflow from " + fileId
  }

  function Context(fileId: string): string
  {
    "Generated from audio file " + fileId
  }

  /** `audio_to_diagram`, with the workflow id and the timestamp supplied by
      the caller. */
  method AudioToDiagram(c: Collaborators, audioPath: string, fileId: string, workflowName: Option<string>,
                        language: Option<string>, workflowId: string, createdAt: string)
    returns (r: Result<WorkflowDiagram, string>, ghost trace: seq<Call>)
    // the transcriber is always called first, and only once
    ensures |trace| >= 1 && trace[0] == Transcribe(audioPath, fileId, language)
    ensures |trace| <= 3
    ensures c.transcribe(audioPath, fileId, language).Err? ==>
              trace == [trace[0]] && r == Err(c.transcribe(audioPath, fileId, language).error)
    // a blank transcript stops the pipeline before extraction
    ensures c.transcribe(audioPath, fileId, language).Ok? &&
            AllSpace(c.transcribe(audioPath, fileId, language).value.fullText) ==>
              trace == [trace[0]] && r == Err(EMPTY_TRANSCRIPT)
    ensures c.transcribe(audioPath, fileId, language).Ok? &&
            !AllSpace(c.transcribe(audioPath, fileId, language).value.fullText) ==>
              var text := c.transcribe(audioPath, fileId, language).value.fullText;
              var extracted := c.extract(text, Context(fileId));
              && |trace| >= 2 && trace[1] == Extract(text, Context(fileId))
              && (extracted.Err? ==> |trace| == 2 && r == Err(extracted.error))
              // no steps stops the pipeline before generation
              && (extracted.Ok? && extracted.value == [] ==> |trace| == 2 && r == Err(NO_STEPS))
              && (extracted.Ok? && extracted.value != [] ==>
                    var name := WorkflowName(workflowName, fileId);
                    var generated := c.generate(workflowId, extracted.value, name, DESCRIPTION);
                    && trace == [trace[0], trace[1], Generate(workflowId, extracted.value, name, DESCRIPTION)]
                    && (generated.Err? ==> r == Err(generated.error))
                    && (generated.Ok? ==>
                          r == Ok(WorkflowDiagram(workflowId, name, DESCRIPTION, extracted.value, Some(text),
                                                  generated.value, None, createdAt))))
    // a result is produced only after all three calls
    ensures r.Ok? ==> |trace| == 3 && r.value.diagramPath.None? && r.value.steps != []
  {
    var name := WorkflowName(workflowName, fileId);
    trace := [Transcribe(audioPath, fileId, language)];
    var transcription := c.transcribe(audioPath, fileId, language);
    if transcription.Err? {
      return Err(transcription.error), trace;
    }
    if Strip(transcription.value.fullText) == "" {
      return Err(EMPTY_TRANSCRIPT), trace;
    }
    var text := transcription.value.fullText;
    trace := trace + [Extract(text, Context(fileId))];
    var steps := c.extract(text, Context(fileId));
    if steps.Err? {
      return Err(steps.error), trace;
    }
    if steps.value == [] {
      return Err(NO_STEPS), trace;
    }
    trace := trace + [Generate(workflowId, steps.value, name, DESCRIPTION)];
    var xmlPath := c.generate(workflowId, steps.value, name, DESCRIPTION);
    if xmlPath.Err? {
      return Err(xmlPath.error), trace;
    }
    r := Ok(WorkflowDiagram(workflowId, name, DESCRIPTION, steps.value, Some(text), xmlPath.value, None, createdAt));
  }
}
