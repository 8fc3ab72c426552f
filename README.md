# Concilium core, modelled in Dafny

Concilium is a FastAPI back end. It turns recorded meetings and uploaded
documents into BPMN 2.0 process diagrams and completed document templates.
This project models its core as written, and proves what each part
promises. The core has eight parts:

- **Response parsers** (`AiAnalyzer`). A language model's free-form answer
  is turned into workflow steps or template data. The model:
  - finds the greedy `[ ... ]` or `{ ... }` span;
  - tries a strict JSON decode, then a longest-valid-prefix decode;
  - defaults each missing field;
  - falls back to a fixed three-step workflow, or to an all-empty dict.
- **BPMN emitter** (`WorkflowGenerator`).
  - Steps become the process elements of a `definitions` tree, then one
    `sequenceFlow` per `next_steps` entry.
  - The Graphviz digraph is a class whose nodes and edges are appended in
    place.
- **Audio-to-XML orchestrator** (`Orchestrator`). Transcribe, extract and
  generate, strictly in that order, with two fatal guards. A ghost trace
  records the collaborator calls.
- **Job registry and job pipeline** (`Processing`).
  - The module-level `jobs` dict is a class field.
  - The pipeline covers the first-existing-extension probe, the four stages
    of `process_job` with their gating flags, and the status query.
- **Document processor** (`DocumentProcessor`).
  - Dispatch on the lower-cased suffix.
  - The `.txt` line metadata.
  - Placeholder scanning with first-occurrence deduplication.
  - `batch_process`.
- **Template filler** (`TemplateFiller`).
  - Ordered `{{key}}`/`{key}` substitution.
  - The in-place rewrite of a paragraph's runs.
  - Suffix dispatch, output naming and the field list.
  - `batch_fill_templates`.
- **Downloads and PATH** (`MainApp`).
  - The file and media type `download_workflow` serves, with its
    `.xml`→`.bpmn` fallback.
  - `download_document`.
  - The start-up loop that prepends tool directories to `PATH`.
- **Uploads** (`Upload`). The audio format check, the size check and the
  save path.

Supporting modules:

- `Wrappers`: Option, Result, and the "keep what succeeded" subsequence.
- `Strings`: strip, lower-case, find, replace, split, join.
- `Config`: the settings defaults, plus `Path.name` and `Path.suffix`.
- `Json`: decoded JSON values, with dicts as insertion-ordered entry lists.
- `Schemas`: the records the services exchange.

Everything outside the process is a parameter:

- the file system (an `exists` predicate, a directory listing);
- the JSON decoders;
- the speech, PDF, Word and language models;
- the workflow generator and template filler as the job sees them;
- identifiers and timestamps.

An exception becomes the `Err` case of a `Result` carrying its message.

Where the code works by mutation, the model does too:

- loops are `while`/`for` loops, each proved against a function of the
  prefix handled so far;
- the job registry, the Graphviz digraph, a Word paragraph and the process
  environment are classes whose methods update their fields.

In the code as modelled:

- every `next_steps` entry becomes a flow, dangling targets included;
- flows are named `flow_<source>_to_<target>`;
- the `bpmndi` namespace is declared, but no diagram shapes are produced;
- the BPMN file is written as `workflow_<id>.xml`;
- a job is only ever PROCESSING, COMPLETED or FAILED.

## Model

| member | source | states |
|---|---|---|
| AiAnalyzer.BracketSpan | backend/app/services/ai_analyzer.py:162-167 | a span exists iff some `open` precedes some `close`; it starts with the first `open`, ends with the last `close` and occurs in the text |
| AiAnalyzer.DecodeTiers | backend/app/services/ai_analyzer.py:170-183 | the strict decode of the span is tried first; failing it, the longest-prefix decode of the span itself (it starts with the bracket) |
| AiAnalyzer.StringField | backend/app/services/ai_analyzer.py:188-191 | `get(key, default)`: the default when absent, the string when present as a string, a failure (fallback) for any other type |
| AiAnalyzer.ListField | backend/app/services/ai_analyzer.py:192 | `get('next_steps', [])`: empty when absent, the list when it is a list of strings, a failure otherwise |
| AiAnalyzer.DictField | backend/app/services/ai_analyzer.py:193 | `get('metadata', {})`: empty when absent, the dict when it is one, a failure otherwise |
| AiAnalyzer.StepOf | backend/app/services/ai_analyzer.py:187-194 | an element converts iff it is an object with well-typed fields; each present key is copied, each absent one defaulted |
| AiAnalyzer.StepDefaults | backend/app/services/ai_analyzer.py:188-193 | for an empty object: `step_<position>`, "Unnamed Step", "", "task", [], {} |
| AiAnalyzer.ConvertStepsSpec | backend/app/services/ai_analyzer.py:186-197 | the loop succeeds iff every element converts; then one step per element, in array order, the k-th numbered k+1 |
| AiAnalyzer.ConvertFailurePersists | backend/app/services/ai_analyzer.py:187-201 | an element that fails to convert fails the whole array, whatever follows it |
| AiAnalyzer.ConvertLoop | backend/app/services/ai_analyzer.py:186-197 | the append loop computes the conversion of the whole array |
| AiAnalyzer.DefaultWorkflow | backend/app/services/ai_analyzer.py:203-227 | exactly step_1 (event) → step_2 (task) → step_3 (event), the last with no successor; named "Start", "Analysis Required" and "End", with the descriptions "Process initiation", "Manual analysis needed - automatic extraction failed" and "Process completion", and no metadata |
| AiAnalyzer.ParseWorkflow | backend/app/services/ai_analyzer.py:156-201 | any result other than the default workflow comes from a `[...]` span that decoded (strictly or by prefix) to an array whose every element converted to exactly that step list |
| AiAnalyzer.ParseWorkflowResponse | backend/app/services/ai_analyzer.py:156-201 | the method returns the parse of the response: span, tiers, conversion, default on any failure |
| AiAnalyzer.NoArrayGivesDefault | backend/app/services/ai_analyzer.py:162-165 | without a `]` after some `[`, the result is exactly the default workflow |
| AiAnalyzer.UndecodableGivesDefault | backend/app/services/ai_analyzer.py:170-183 | when both decoding tiers fail, the result is the default workflow |
| AiAnalyzer.NonObjectElementGivesDefault | backend/app/services/ai_analyzer.py:187-201 | an element that is not an object makes the whole parse fall back to the default, rather than being dropped |
| AiAnalyzer.ArrayOfObjectsGivesSteps | backend/app/services/ai_analyzer.py:186-197 | a decoded array of well-typed objects gives one step per element, in order |
| AiAnalyzer.EmptyArrayGivesNoSteps | backend/app/services/ai_analyzer.py:186-197 | a decoded empty array gives no steps, not the default workflow |
| AiAnalyzer.NoStepsOnlyFromEmptyArray | backend/app/services/ai_analyzer.py:156-201 | an empty step list arises only from a span that decoded to an empty array |
| AiAnalyzer.FillMissingSpec | backend/app/services/ai_analyzer.py:339-343 | the fill loop keeps the decoded entries unchanged and in front, adds each missing expected field as "", covers every expected field, and keeps keys distinct |
| AiAnalyzer.AllEmpty | backend/app/services/ai_analyzer.py:319 | the fallback dict has distinct keys, every expected field, and only "" values |
| AiAnalyzer.ParseExtraction | backend/app/services/ai_analyzer.py:306-347 | every expected field is a key of the result, on every path |
| AiAnalyzer.ParseExtractionResponse | backend/app/services/ai_analyzer.py:306-347 | the method returns the parse of the response, and every expected field is present |
| AiAnalyzer.ExtractionKeepsDecodedEntries | backend/app/services/ai_analyzer.py:324-343 | on a decoded object, its entries (extra keys included) are kept as they were; only missing expected fields are added, as "" |
| AiAnalyzer.ExtractionFallback | backend/app/services/ai_analyzer.py:316-336 | without a `{...}` span, or when both tiers fail, every expected field maps to "" and nothing else is present |
| AiAnalyzer.ExtractWorkflowFromText | backend/app/services/ai_analyzer.py:75-109 | fails iff generation fails; otherwise the parse of the generated text |
| AiAnalyzer.ExtractTemplateData | backend/app/services/ai_analyzer.py:229-269 | fails iff generation fails; otherwise the extraction parse of the generated text for the given fields |
| WorkflowGenerator.ElementKind | backend/app/services/workflow_generator.py:139-146 | task→task; gateway and decision→exclusiveGateway; event→startEvent iff the lower-cased name contains "start", else endEvent; anything else→task |
| WorkflowGenerator.StepElement | backend/app/services/workflow_generator.py:148-158 | the step's element has the kind's tag, its id and name, and a documentation child iff the description is non-empty |
| WorkflowGenerator.LinksSpec | backend/app/services/workflow_generator.py:106-114 | one link per `next_steps` entry, in step order then entry order; the k-th entry of step i is (step id, entry) at a fixed index |
| WorkflowGenerator.LinkAt | backend/app/services/workflow_generator.py:106-114 | the k-th `next_steps` entry of step i is the link after those of the earlier steps |
| WorkflowGenerator.LinksLength | backend/app/services/workflow_generator.py:106-107 | the number of links is the sum of the `next_steps` lengths |
| WorkflowGenerator.FlowCount | backend/app/services/workflow_generator.py:102-114 | the process has exactly one `sequenceFlow` child per `next_steps` entry, dangling targets included |
| WorkflowGenerator.DocumentationFirst | backend/app/services/workflow_generator.py:96-99 | the process's first child is a documentation element iff the description is non-empty |
| WorkflowGenerator.AppendStepElements | backend/app/services/workflow_generator.py:102-103 | the first loop appends one element per step, in order |
| WorkflowGenerator.AppendFlows | backend/app/services/workflow_generator.py:106-114 | the nested loop appends one `flow_<src>_to_<tgt>` element per link, in order |
| WorkflowGenerator.GenerateBpmnXml | backend/app/services/workflow_generator.py:59-129 | root `definitions` with id `definitions_<id>`, the target namespace and the two namespace declarations; one `process_<id>` child, not executable; its children are the documentation, then the step elements, then the flows; the path is `workflow_<id>.xml` |
| WorkflowGenerator.NodeStyle | backend/app/services/workflow_generator.py:173-195 | an event is an ellipse, lightgreen when its lower-cased name contains "start", else lightcoral; a gateway or decision is a lightyellow diamond; any other type a lightblue box |
| WorkflowGenerator.StyleMatchesKind | backend/app/services/workflow_generator.py:174-195 | a node is an ellipse iff its step is an event; lightgreen iff a start event, lightcoral iff an end event; a lightyellow diamond iff a gateway; a lightblue box iff a task |
| WorkflowGenerator.Digraph.constructor | backend/app/services/workflow_generator.py:169 | an empty digraph with the given comment |
| WorkflowGenerator.Digraph.Node | backend/app/services/workflow_generator.py:176-195 | appends one node and changes nothing else |
| WorkflowGenerator.Digraph.Edge | backend/app/services/workflow_generator.py:200 | appends one edge and changes nothing else |
| WorkflowGenerator.AddNodes | backend/app/services/workflow_generator.py:173-195 | appends one node per step, in order, styled by its type |
| WorkflowGenerator.AddEdges | backend/app/services/workflow_generator.py:197-200 | appends one edge per `next_steps` entry, in order |
| WorkflowGenerator.GenerateDiagram | backend/app/services/workflow_generator.py:160-213 | a fresh digraph: top-to-bottom, node defaults, one node per step, one edge per link; the path is `workflow_<id>.png` |
| WorkflowGenerator.GenerateWorkflow | backend/app/services/workflow_generator.py:22-53 | a failed XML write fails with its message before rendering; a failed render fails with its message; otherwise the record carries the given id, name, description and steps, the XML path and the diagram path |
| WorkflowGenerator.GetWorkflow | backend/app/services/workflow_generator.py:215-238 | nothing iff the XML file is missing; otherwise "Retrieved Workflow" with no steps, and the diagram path iff that file exists |
| Orchestrator.WorkflowName | backend/app/services/orchestrator.py:30 | the given name if present and non-empty, else "Workflow from <file id>" |
| Orchestrator.AudioToDiagram | backend/app/services/orchestrator.py:18-78 | transcribe is called first; a blank transcript fails before extraction; no steps fails before generation; on success each collaborator is called once, in order, and the result carries the steps, the transcript, the generator's path, the same workflow id and no diagram |
| Processing.ProbeIndex | backend/app/api/processing.py:148-152 | the index of the first extension whose file exists; none before it exists |
| Processing.FirstExisting | backend/app/api/processing.py:145-156 | nothing iff no candidate exists; otherwise the first existing candidate |
| Processing.FindFile | backend/app/api/processing.py:163-170 | the loop with `break` returns the first existing candidate |
| Processing.TranscribeEndpoint | backend/app/api/processing.py:30-55 | 404 "Audio file not found" when no audio file is found; 500 with the message when transcription raises; the transcription otherwise |
| Processing.FoldFailurePersists | backend/app/api/processing.py:136-234 | once a loop body raises, later ids change nothing: the job's result is that error |
| Processing.FoldSkip | backend/app/api/processing.py:145-156 | an id whose loop body leaves the list unchanged can be removed from the id list without changing the result |
| Processing.FoldBound | backend/app/api/processing.py:145-156 | when each loop body appends at most one item, the list never outgrows the ids |
| Processing.TranscribeAll | backend/app/api/processing.py:142-156 | at most one transcription per audio id |
| Processing.DocumentTexts | backend/app/api/processing.py:159-174 | at most one text per document id |
| Processing.CompleteOne | backend/app/api/processing.py:204-215 | a failure to read the template's fields or to extract the data is the result; otherwise the filler's result, given data holding every field of the template |
| Processing.CompleteTemplates | backend/app/api/processing.py:195-215 | at most one completed document per template id |
| Processing.CombinedText | backend/app/api/processing.py:177 | the joined text is empty iff there is at most one text and it is empty (two blank texts join to "\n\n") |
| Processing.JobWorkflowName | backend/app/api/processing.py:186 | the request's workflow name when given and non-empty, else "Generated Workflow"; never empty |
| Processing.WorkflowStage | backend/app/api/processing.py:180-189 | none unless requested and the text is non-empty; otherwise the extraction's failure, the generator's failure, or exactly one workflow generated from the extracted steps under the job's workflow name and "Auto-generated from uploaded files" |
| Processing.TemplateStage | backend/app/api/processing.py:192-215 | no documents unless requested, with template ids, and the text is non-empty; otherwise the completion of every template id; never more documents than template ids |
| Processing.RunJob | backend/app/api/processing.py:136-215 | the first stage to fail, in the order transcription, documents, workflow, templates, gives the job's error. Stages 3 and 4 run on the combined text. On success the output holds the four stages' lists: at most one workflow and none unless requested, and at most one document per template id and none unless requested |
| Processing.Outcome | backend/app/api/processing.py:217-234 | success: COMPLETED, "Processing completed successfully", the three lists, no error; failure: FAILED, "Processing failed: "+e, error e, no lists |
| Processing.JobStatus | backend/app/api/processing.py:237-253 | 404 "Job not found" iff the id is unknown; otherwise the stored status, message and optional fields echoed |
| Processing.JobRegistry.constructor | backend/app/api/processing.py:27 | the registry starts empty |
| Processing.JobRegistry.ProcessAll | backend/app/api/processing.py:97-127 | the job is registered as PROCESSING, "Processing started", and only that entry changes; the response points to the status URL |
| Processing.JobRegistry.ProcessJob | backend/app/api/processing.py:134-234 | only this job's entry changes, to the outcome of running the job |
| Processing.JobRegistry.GetJobStatus | backend/app/api/processing.py:237-253 | the status query on the current registry |
| Processing.RunJobSteps | backend/app/api/processing.py:136-215 | the stages in order, each failure ending the job, compute the job's result |
| Processing.TranscribeLoop | backend/app/api/processing.py:142-156 | the audio loop computes the transcriptions of the files found, in request order |
| Processing.DocumentLoop | backend/app/api/processing.py:159-174 | the document loop computes the texts of the files found, in request order |
| Processing.CompleteOneSteps | backend/app/api/processing.py:204-215 | one template: fields, then the data extracted from the text, then the fill |
| Processing.TemplateLoop | backend/app/api/processing.py:195-215 | the template loop computes the completed documents for the templates found, in order |
| Processing.MissingAudioSkipped | backend/app/api/processing.py:145-156 | an audio id without an uploaded file, anywhere in the list, is skipped silently: the result is that of the list without it |
| Processing.MissingDocumentSkipped | backend/app/api/processing.py:163-174 | a document id without an uploaded file, anywhere in the list, is skipped silently |
| Processing.MissingTemplateSkipped | backend/app/api/processing.py:195-215 | a template id without a template file, anywhere in the list, is skipped silently |
| Processing.SpreadsheetProbed | backend/app/api/processing.py:163-170 | `.xlsx` is reached only after `.pdf`, `.docx` and `.txt` are missing |
| Processing.SpreadsheetFailsJob | backend/app/api/processing.py:163-174 | a document whose only upload is `.xlsx` is found by the probe, refused by the processor, and fails the job |
| Processing.StatusAfterJob | backend/app/api/processing.py:217-253 | after a job, its status reads COMPLETED with its output, or FAILED with its message and error |
| Processing.StatusAfterStart | backend/app/api/processing.py:111-114 | right after start, the status reads PROCESSING, "Processing started", with no output and no error |
| DocumentProcessor.TxtLines | backend/app/services/document_processor.py:115-133 | the text is kept, and the `lines` metadata is the number of newlines plus one |
| DocumentProcessor.ProcessTxt | backend/app/services/document_processor.py:115-133 | a read failure is the result; otherwise the text read, with `lines` metadata equal to the number of newlines plus one |
| DocumentProcessor.ProcessDocument | backend/app/services/document_processor.py:22-46 | a suffix outside {.pdf, .docx, .txt}, compared lower-cased, fails with "Unsupported document format: <suffix>"; otherwise it succeeds iff the reader does, and the result carries the file name, the suffix and the reader's output |
| DocumentProcessor.UnsupportedIgnoresReaders | backend/app/services/document_processor.py:28-31 | an unsupported suffix fails before any reader runs |
| DocumentProcessor.UpperCaseTxtIsText | backend/app/services/document_processor.py:28-46 | `<name>.TXT` is read as text and reported with format ".txt" |
| DocumentProcessor.FindAll | backend/app/services/document_processor.py:159-160 | no match is empty or contains `}` |
| DocumentProcessor.DoubleBraced | backend/app/services/document_processor.py:159-165 | `{{name}}` yields "name", because the double-brace alternative is tried first |
| DocumentProcessor.SingleBraced | backend/app/services/document_processor.py:159-165 | `{name}` yields "name" for any non-empty name without `}`, even one that starts with `{`: `{{a}` yields "{a", because the double-brace alternative finds no second `}` |
| DocumentProcessor.DedupFieldsMembers | backend/app/services/document_processor.py:163-168 | the fields are exactly the non-empty stripped matches |
| DocumentProcessor.DedupFieldsDistinct | backend/app/services/document_processor.py:167-168 | no field appears twice |
| DocumentProcessor.DedupFieldsOrder | backend/app/services/document_processor.py:163-168 | the fields keep the order of their first occurrence |
| DocumentProcessor.DedupFieldsClean | backend/app/services/document_processor.py:166-167 | every field is non-empty and has no whitespace at either end |
| DocumentProcessor.CollectFields | backend/app/services/document_processor.py:163-168 | the loop computes the deduplicated field list |
| DocumentProcessor.TemplateFields | backend/app/services/document_processor.py:139-175 | a processing failure is passed on; otherwise the fields are distinct, non-empty, stripped and free of `}` |
| DocumentProcessor.ExtractTemplateFields | backend/app/services/document_processor.py:139-175 | the template's fields: distinct, non-empty and stripped; a processing failure is passed on |
| DocumentProcessor.FieldsHaveNoClosingBrace | backend/app/services/document_processor.py:159-168 | no extracted field contains `}` |
| DocumentProcessor.BatchProcess | backend/app/services/document_processor.py:177-199 | the successful results, in input order; failing documents are skipped |
| Wrappers.SuccessesAreOrderedSubsequence | backend/app/services/document_processor.py:190-199 | the kept results are an order-preserving subsequence of the inputs, and every success is kept |
| Json.TypeName | backend/app/services/template_filler.py:53 | `type(value).__name__`: each of the six kinds of value has its own name |
| Json.Repr | backend/app/services/template_filler.py:120-122 | a string is quoted with single quotes; a list is bracketed, a dict braced; None is "None" |
| Json.Str | backend/app/services/template_filler.py:120-122 | `str(value)`: a string is itself, anything else its repr |
| Config.FileName | backend/app/services/document_processor.py:41 | `Path.name`: a tail of the path without `/` |
| Config.Suffix | backend/app/services/document_processor.py:28 | `Path.suffix`: empty, or a tail of the file name that starts with its only dot; empty when the name has no dot |
| Config.SuffixOfJoined | backend/app/api/processing.py:166-167 | the suffix of `<dir>/<id><ext>` is `ext`, for a dotted extension and a non-empty id without `/` |
| Config.FileNameIsLastComponent | backend/app/services/document_processor.py:41 | the name is the whole last component: the path itself when it has no `/`, otherwise everything after its last `/` |
| Config.FileNameOfJoined | backend/app/main.py:136 | the name of `<dir>/<name>` is `name`, for a name without `/` |
| TemplateFiller.FillSequential | backend/app/services/template_filler.py:118-122 | keys are applied in dict order, each on the text the earlier keys produced |
| TemplateFiller.DoubleBraceBecomesValue | backend/app/services/template_filler.py:119-122 | `{{key}}` becomes the value, not `{value}` |
| TemplateFiller.RewrittenSpec | backend/app/services/template_filler.py:124-134 | the runs spell the filled text; unchanged text leaves the runs alone; otherwise the first run holds the text and the rest are cleared, or one run is added when there were none |
| TemplateFiller.Paragraph.constructor | backend/app/services/template_filler.py:86-87 | a paragraph with the given runs |
| TemplateFiller.ReplacePlaceholders | backend/app/services/template_filler.py:107-134 | the paragraph's runs become the rewrite of the old runs, and its text becomes the filled old text |
| TemplateFiller.ReplaceInParagraphs | backend/app/services/template_filler.py:86-87 | every paragraph is rewritten |
| TemplateFiller.OutputFileName | backend/app/services/template_filler.py:97-100 | the output name if given and non-empty, else `completed_<id>` with the template's extension |
| TemplateFiller.Fields | backend/app/services/template_filler.py:49-56 | one field per data item, in order, carrying its key, its value and the name of its type |
| TemplateFiller.StringFieldsAreStr | backend/app/services/template_filler.py:49-56 | string values are listed with type "str", under their keys, in order |
| TemplateFiller.FillTemplate | backend/app/services/template_filler.py:24-71 | a suffix other than .docx or .txt fails with "Unsupported template format: <suffix>"; for .docx or .txt it succeeds iff that writer succeeds, and fails with the writer's message otherwise; a success carries the id, the template's name, the fields and the output path |
| TemplateFiller.BatchFillTemplates | backend/app/services/template_filler.py:168-192 | the successful fills, in template order; failing templates are skipped |
| MainApp.SelectWorkflowFile | backend/app/main.py:115-128 | xml: `.xml`, falling back to `.bpmn` only when `.xml` is missing; bpmn: `.bpmn`; both application/xml. diagram: `.png` as image/png. Nothing for any other type |
| MainApp.DownloadWorkflow | backend/app/main.py:115-137 | the invalid-type error iff the type is unknown; "File not found" iff the selected file is missing; a selected file that exists is served, under its own name |
| MainApp.InvalidTypeIgnoresFiles | backend/app/main.py:127-128 | an unknown type is refused without looking at the file system |
| MainApp.XmlFallsBackToBpmn | backend/app/main.py:115-120 | xml serves `.xml` when it exists, else `.bpmn` when that exists, else "File not found" |
| MainApp.DownloadedName | backend/app/main.py:115-137 | the served name is `workflow_<id>` with the selected extension, with the matching media type |
| MainApp.FirstMatch | backend/app/main.py:144 | the first listed name matching `completed_<id>.*` |
| MainApp.DownloadDocument | backend/app/main.py:140-150 | the first match is served, without a media type; "Document not found" iff nothing matches |
| MainApp.DocumentServedUnderItsName | backend/app/main.py:144-148 | the served file is a `completed_<id>.` file, under its own name |
| MainApp.Environment.AddToPath | backend/app/main.py:22-24 | the loop leaves the environment the function of the directories handled so far describes |
| MainApp.Augmented | backend/app/main.py:22-24 | no variable other than PATH is added, removed or changed |
| MainApp.OldPathIsTail | backend/app/main.py:24 | PATH only grows at the front: the old value is its tail |
| MainApp.ExistingDirectoriesOnPath | backend/app/main.py:22-24 | every directory that exists is on PATH afterwards |
| MainApp.NothingExistsNothingChanges | backend/app/main.py:23 | when no directory exists, nothing changes |
| MainApp.LaterEntriesInFront | backend/app/main.py:22-24 | a later directory that is added ends up in front of an earlier one |
| MainApp.SubstringBlocksAdding | backend/app/main.py:23 | a directory already contained in PATH, even inside a longer entry, is not added |
| Upload.ValidateFileSize | backend/app/api/upload.py:23-24 | every size passes |
| Upload.ValidateAudioFormat | backend/app/api/upload.py:27-29 | accepted iff the suffix equals an allowed audio format ignoring case, character by character |
| Upload.UpperCaseAudioAccepted | backend/app/api/upload.py:28 | `<name>.MP3` is accepted |
| Upload.NoSuffixRejected | backend/app/api/upload.py:28-29 | a name without a suffix is refused |
| Upload.HiddenNameRejected | backend/app/api/upload.py:28-29 | ".mp3" on its own has no suffix and is refused |
| Upload.SavePath | backend/app/api/upload.py:97-103 | templates under the template directory, everything else under the upload directory, as the id plus the original suffix |
| Upload.SavedSuffix | backend/app/api/upload.py:97-103 | the saved file keeps the upload's suffix |
| Upload.UpperCaseUploadNotProbed | backend/app/api/upload.py:97-103 | a document saved as `<id>.PDF` is not found by the job's probe |
| Upload.NormalisedSavePath | backend/app/api/upload.py:97-103 | the save path with the suffix lower-cased |
| Upload.NormalisedUploadIsProbed | backend/app/api/processing.py:163-170 | with the suffix lower-cased on saving, a supported document that was saved is found by the probe |
| Upload.NormalisedAgreesOnLowerCase | backend/app/api/upload.py:97-103 | for a suffix already in lower case, the corrected save path is the original |

## Left out

- Model loading, prompt rendering and generation by the language model. The generated text is a parameter.
- Whisper transcription, pdfplumber and python-docx reading, Jinja2 rendering, lxml serialisation, and Graphviz rendering. They are function parameters, or a result that is passed through.
- The JSON grammar. `json.loads` and `raw_decode` are abstract decoders.
- Floating-point JSON numbers: a decoded value is null, a boolean, an integer, a string, a list or a dict.
- `Json.Get`: the decoders may yield an object with a repeated key. `json.loads` keeps the last value of such a key, and `Get` reads the first.
- `Json.Repr`: strings are not escaped, and the quote is always `'`. Python's `repr` picks `"` for a string holding `'`, so `["it's"]` differs.
- `Config.PathJoin`: the join is plain concatenation with `/`. `pathlib` drops the directory when the name is absolute, and collapses `//` and `.` segments. For example, the id `/etc/x` is probed as `uploads//etc/x.pdf`, not `/etc/x.pdf`.
- HTTP routing and the mapping of exceptions to responses, except the status codes of `get_job_status` and `transcribe_audio`. Background scheduling and concurrency are also out: a job runs as one sequential method.
- `uuid.uuid4()` and `datetime.now()` are parameters.
- The actual file system. Existence is a predicate, and the output directory is a listing in the order the glob yields it.
- Glob metacharacters in a document id.
- `Strings.Lower` lower-cases ASCII only.
- `os.pathsep` is a parameter.
- The `print` in the PATH loop.
- The loop over `EXTRA_PATHS` is modelled for any list of directories.
- Pydantic validation of the schemas, because `app/models/schemas.py` is not part of this model. A step field of the wrong type is treated as the exception that sends the parser to the default workflow.
- `analyze_workflow` and the other routes of `processing.py` outside the job.
- The `upload_audio` and `delete_upload` handlers. Their code is cut off by an unterminated docstring or a stray parenthesis.
- `upload_document` is modelled only through the evident code of its save path (`Upload.SavePath`). In the file as written, that code (upload.py:90-130) sits inside a string literal that opens at :89. The module does not parse: its triple quotes pair up across functions, so line 86 is bare text, and the `"""` at :135 is never closed. Its format validation, the file write, and its response are left out. The response carries `size_bytes`, status PENDING and the message "Document uploaded successfully.". The mapping of its failures to status 500 is left out too.
- `upload_template`, which calls `upload_document` with the template file type. It is the `Template` case of `Upload.SavePath`.
- `validate_document_format`, which reads an undefined name.
- The PDF and Word readers' own loops, which use undefined names.
- `preview_template`.
- The table-cell loop of `_fill_docx_template`. It applies the same paragraph rewrite.
- Directory creation in `config.py`, and `setup.py`.
- `Processing.Services`: the job's workflow generator and template filler are abstract functions, because they draw their own ids and timestamps. The orchestrator's call to a `generate_bpmn_xml` that the generator does not define is an abstract collaborator too.
- `Processing.TranscribeEndpoint`: the optional `language` argument is not passed to the transcriber.
- `Upload.ValidateFileSize`: the configured maximum upload size is not checked, as in the code.
- `Upload.SavePath`: file types other than template are treated alike, because the `FileType` values are defined in the schemas that are not modelled.
- `Config.FileName`: a trailing `/` is kept, so the name is the empty text after it. `pathlib` drops trailing `/` and `.` segments and collapses `//` before it takes `.name`. For example, `Path("x.mp3/").name` is `x.mp3`, where the model gives `""`.
- `Config.Suffix`: it inherits this from `Config.FileName`. `Path("x.mp3/").suffix` is `.mp3`, so `validate_audio_format("x.mp3/")` accepts the name, where `Upload.ValidateAudioFormat` refuses it. Only a client-supplied file name can end in `/`; the program's own paths never do.
- `AiAnalyzer.ParseExtraction`: the decoders are unconstrained, so the model lets a span that starts with `{` decode to a non-dict, which `json.loads` and `raw_decode` never do. For a decoded non-dict the model gives the all-empty dict. The code would test each expected field with `in`. A string or list that already contains every field is returned as it is. Any other non-dict raises and falls back to the all-empty dict.
- `AiAnalyzer.ParseWorkflow`: the decoders are unconstrained, so the model lets a span that starts with `[` decode to a non-list, which `json.loads` and `raw_decode` never do. For a decoded non-list the model gives the default workflow. The code would iterate over it: an empty dict or empty string gives no steps, and any other non-list raises and falls back to the default.

## Findings

| source | as written | input that shows it | evidently intended | confidence | as-written member | corrected member |
|---|---|---|---|---|---|---|
| backend/app/api/upload.py:97-103 | in the evident code of the fragment, which sits inside a string literal (upload.py:89-131) in a module that does not parse, the uploaded file is saved with its suffix verbatim, but the job's probe (backend/app/api/processing.py:163-170) only tries the lower-case extensions | on a case-sensitive file system, a document uploaded as `Report.PDF` is saved as `uploads/<id>.PDF`; a job naming `<id>` never finds it and silently skips it | the suffix is lower-cased on saving (the format checks already compare it lower-cased), so every accepted upload can be found | not executed | Upload.UpperCaseUploadNotProbed | Upload.NormalisedSavePath, Upload.NormalisedUploadIsProbed |
