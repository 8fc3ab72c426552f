/** The records the services exchange. Their definitions (app/models/schemas.py)
    are not part of this model; the fields below are the ones the services
    construct and read. */
module Schemas {
  import opened Wrappers
  import opened Json

  /** One workflow step as extracted from generated text. */
  datatype WorkflowStep = WorkflowStep(
    stepId: string,
    name: string,
    description: string,
    stepType: string,
    nextSteps: seq<string>,
    metadata: Dict)

  /** A transcription; only the full text is used downstream (segments,
      timings and duration are floating-point data of the speech engine). */
  datatype Transcription = Transcription(fileId: string, language: string, fullText: string)

  datatype WorkflowDiagram = WorkflowDiagram(
    workflowId: string,
    name: string,
    description: string,
    steps: seq<WorkflowStep>,
    transcript: Option<string>,
    xmlPath: string,
    diagramPath: Option<string>,
    createdAt: string)

  datatype TemplateField = TemplateField(fieldName: string, fieldValue: Json, fieldType: string)

  datatype CompletedDocument = CompletedDocument(
    documentId: string,
    templateName: string,
    fields: seq<TemplateField>,
    outputPath: string,
    createdAt: string)

  datatype ProcessingStatus = Pending | Processing | Completed | Failed
}
