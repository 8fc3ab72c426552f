/** The application module (backend/app/main.py): the download endpoints,
    which pick a file and a media type from the request and the file
    system, and the start-up loop that puts extra tool directories on
    `PATH`. The file system is supplied as predicates and listings. */
module MainApp {
  import opened Wrappers
  import opened Strings
  import opened Config

  /** A download: a file response (path, media type when one is set,
      file name), or a JSON body carrying an error. */
  datatype Download =
    | FileResponse(path: string, mediaType: Option<string>, filename: string)
    | ErrorBody(error: string)

  const INVALID_FILE_TYPE := "Invalid file type. Use 'bpmn', 'xml' or 'diagram'"
  const FILE_NOT_FOUND := "File not found"
  const DOCUMENT_NOT_FOUND := "Document not found"
  const XML_MEDIA_TYPE := "application/xml"

  /** `workflow_output_dir / workflow_<id><ext>`. */
  function WorkflowFile(workflowId: string, ext: string): string
  {
    PathJoin(WORKFLOW_OUTPUT_DIR, "workflow_" + workflowId + ext)
  }

  /** The file a download of the given type asks for, with its media type;
      None for an unknown type. Only the `xml` type looks at the file
      system, to fall back to the `.bpmn` file. */
  function SelectWorkflowFile(workflowId: string, fileType: string, fileExists: string -> bool)
    : (r: Option<(string, string)>)
    ensures r.None? <==> fileType !in {"xml", "bpmn", "diagram"}
    ensures fileType == "xml" && fileExists(WorkflowFile(workflowId, ".xml")) ==>
              r == Some((WorkflowFile(workflowId, ".xml"), XML_MEDIA_TYPE))
    ensures fileType == "xml" && !fileExists(WorkflowFile(workflowId, ".xml")) ==>
              r == Some((WorkflowFile(workflowId, ".bpmn"), XML_MEDIA_TYPE))
    ensures fileType == "bpmn" ==> r == Some((WorkflowFile(workflowId, ".bpmn"), XML_MEDIA_TYPE))
    ensures fileType == "diagram" ==>
              r == Some((WorkflowFile(workflowId, "." + DIAGRAM_FORMAT), "image/" + DIAGRAM_FORMAT))
  {
    if fileType == "xml" then
      var filePath := WorkflowFile(workflowId, ".xml");
      var filePath := if !fileExists(filePath) then WorkflowFile(workflowId, ".bpmn") else filePath;
      Some((filePath, XML_MEDIA_TYPE))
    else if fileType == "bpmn" then
      Some((WorkflowFile(workflowId, ".bpmn"), XML_MEDIA_TYPE))
    else if fileType == "diagram" then
      Some((WorkflowFile(workflowId, "." + DIAGRAM_FORMAT), "image/" + DIAGRAM_FORMAT))
    else None
  }

  /** `download_workflow`. */
  function DownloadWorkflow(workflowId: string, fileType: string, fileExists: string -> bool): (r: Download)
    ensures fileType !in {"xml", "bpmn", "diagram"} <==> r == ErrorBody(INVALID_FILE_TYPE)
    ensures r == ErrorBody(FILE_NOT_FOUND) <==>
              SelectWorkflowFile(workflowId, fileType, fileExists).Some? &&
              !fileExists(SelectWorkflowFile(workflowId, fileType, fileExists).value.0)
    // a file is served only if it exists, under its own name
    ensures r.FileResponse? ==>
              && r.mediaType.Some?
              && SelectWorkflowFile(workflowId, fileType, fileExists) == Some((r.path, r.mediaType.value))
              && fileExists(r.path) && r.filename == FileName(r.path)
    // and a selected file that exists is served
    ensures SelectWorkflowFile(workflowId, fileType, fileExists).Some? &&
            fileExists(SelectWorkflowFile(workflowId, fileType, fileExists).value.0) ==>
              r.FileResponse?
  {
    match SelectWorkflowFile(workflowId, fileType, fileExists)
    case None => ErrorBody(INVALID_FILE_TYPE)
    case Some((filePath, mediaType)) =>
      if !fileExists(filePath) then ErrorBody(FILE_NOT_FOUND)
      else FileResponse(filePath, Some(mediaType), FileName(filePath))
  }

  /** An unknown file type is refused whatever the file system holds. */
  lemma InvalidTypeIgnoresFiles(workflowId: string, fileType: string, exists1: string -> bool, exists2: string -> bool)
    requires fileType !in {"xml", "bpmn", "diagram"}
    ensures DownloadWorkflow(workflowId, fileType, exists1) == DownloadWorkflow(workflowId, fileType, exists2)
    ensures DownloadWorkflow(workflowId, fileType, exists1).ErrorBody?
  {
  }

  /** `xml` serves the `.xml` file when there is one, the `.bpmn` file only
      when it is missing, and nothing when both are missing. */
  lemma XmlFallsBackToBpmn(workflowId: string, fileExists: string -> bool)
    ensures fileExists(WorkflowFile(workflowId, ".xml")) ==>
              DownloadWorkflow(workflowId, "xml", fileExists).path == WorkflowFile(workflowId, ".xml")
    ensures !fileExists(WorkflowFile(workflowId, ".xml")) && fileExists(WorkflowFile(workflowId, ".bpmn")) ==>
              DownloadWorkflow(workflowId, "xml", fileExists) ==
                DownloadWorkflow(workflowId, "bpmn", fileExists)
    ensures !fileExists(WorkflowFile(workflowId, ".xml")) && !fileExists(WorkflowFile(workflowId, ".bpmn")) ==>
              DownloadWorkflow(workflowId, "xml", fileExists) == ErrorBody(FILE_NOT_FOUND)
  {
  }

  /** A workflow file is served under the name `workflow_<id><ext>`. */
  lemma WorkflowFileName(workflowId: string, ext: string)
    requires '/' !in workflowId && '/' !in ext
    ensures FileName(WorkflowFile(workflowId, ext)) == "workflow_" + workflowId + ext
  {
    assert '/' !in "workflow_";
    NoSlashIn("workflow_", workflowId);
    NoSlashIn("workflow_" + workflowId, ext);
    FileNameOfJoined(WORKFLOW_OUTPUT_DIR, "workflow_" + workflowId + ext);
  }

  /** The served name is `workflow_<id>` with the selected extension: the
      diagram format for diagrams, `.xml` or `.bpmn` otherwise. */
  lemma DownloadedName(workflowId: string, fileType: string, fileExists: string -> bool)
    requires '/' !in workflowId
    requires DownloadWorkflow(workflowId, fileType, fileExists).FileResponse?
    ensures var r := DownloadWorkflow(workflowId, fileType, fileExists);
            && (fileType == "diagram" ==>
                  r.filename == "workflow_" + workflowId + ("." + DIAGRAM_FORMAT) &&
                  r.mediaType == Some("image/" + DIAGRAM_FORMAT))
            && (fileType != "diagram" ==>
                  r.mediaType == Some(XML_MEDIA_TYPE) &&
                  (r.filename == "workflow_" + workflowId + ".xml" || r.filename == "workflow_" + workflowId + ".bpmn"))
  {
    if fileType == "diagram" {
      assert '/' !in "." + DIAGRAM_FORMAT;
      WorkflowFileName(workflowId, "." + DIAGRAM_FORMAT);
    } else {
      var r := DownloadWorkflow(workflowId, fileType, fileExists);
      assert r.path == WorkflowFile(workflowId, ".xml") || r.path == WorkflowFile(workflowId, ".bpmn");
      WorkflowFileName(workflowId, ".xml");
      WorkflowFileName(workflowId, ".bpmn");
    }
  }

  // ----- download_document -----

  /** `completed_<id>.*`: a name that starts with the prefix and a dot. */
  predicate MatchesDocument(documentId: string, name: string)
  {
    StartsWith(name, "completed_" + documentId + ".")
  }

  /** The position of the first listed name that matches, or the length
      of the listing when none does. */
  function FirstMatch(documentId: string, names: seq<string>): (k: nat)
    ensures k <= |names|
    ensures forall j :: 0 <= j < k ==> !MatchesDocument(documentId, names[j])
    ensures k < |names| ==> MatchesDocument(documentId, names[k])
  {
    if names == [] then 0
    else if MatchesDocument(documentId, names[0]) then 0
    else 1 + FirstMatch(documentId, names[1..])
  }

  /** `download_document` over the listing of the output directory, in the
      order the listing gives: the first match is served, without a media
      type. */
  method DownloadDocument(documentId: string, names: seq<string>) returns (r: Download)
    ensures var k := FirstMatch(documentId, names);
            && (k == |names| <==> r == ErrorBody(DOCUMENT_NOT_FOUND))
            && (k < |names| ==>
                  var filePath := PathJoin(OUTPUT_DIR, names[k]);
                  r == FileResponse(filePath, None, FileName(filePath)))
  {
    for i := 0 to |names|
      invariant forall j :: 0 <= j < i ==> !MatchesDocument(documentId, names[j])
    {
      if MatchesDocument(documentId, names[i]) {
        assert FirstMatch(documentId, names) == i;
        var filePath := PathJoin(OUTPUT_DIR, names[i]);
        return FileResponse(filePath, None, FileName(filePath));
      }
    }
    assert FirstMatch(documentId, names) == |names|;
    r := ErrorBody(DOCUMENT_NOT_FOUND);
  }

  /** A served document is a completed document of that id, under its
      listed name. */
  lemma DocumentServedUnderItsName(documentId: string, names: seq<string>)
    requires forall j :: 0 <= j < |names| ==> '/' !in names[j]
    requires FirstMatch(documentId, names) < |names|
    ensures var name := names[FirstMatch(documentId, names)];
            && StartsWith(name, "completed_" + documentId + ".")
            && FileName(PathJoin(OUTPUT_DIR, name)) == name
  {
    FileNameOfJoined(OUTPUT_DIR, names[FirstMatch(documentId, names)]);
  }

  // ----- the PATH loop -----

  /** The directories the start-up loop puts on `PATH`. */
  const EXTRA_PATHS: seq<string> := ["C:\\ffmpeg", "C:\\Program Files\\Graphviz\\bin", "C:\\Program Files (x86)\\Graphviz\\bin"]

  /** `os.environ.get('PATH', '')`. */
  function GetPath(vars: map<string, string>): string
  {
    if "PATH" in vars then vars["PATH"] else ""
  }

  /** The environment after the loop has handled `extras`: each directory
      that exists and is not already part of `PATH` is put in front, with
      the platform's separator. */
  function Augmented(vars: map<string, string>, extras: seq<string>, dirExists: string -> bool, pathsep: char)
    : (after: map<string, string>)
    // no variable other than `PATH` changes
    ensures forall key :: key != "PATH" ==> (key in after <==> key in vars)
    ensures forall key :: key != "PATH" && key in vars ==> after[key] == vars[key]
  {
    if extras == [] then vars
    else
      var before := Augmented(vars, extras[..|extras| - 1], dirExists, pathsep);
      var path := extras[|extras| - 1];
      if dirExists(path) && !Contains(GetPath(before), path) then
        before["PATH" := path + [pathsep] + GetPath(before)]
      else before
  }

  /** The process environment, of which the loop changes `PATH`. */
  class Environment {
    var vars: map<string, string>

    constructor (vars: map<string, string>)
      ensures this.vars == vars
    {
      this.vars := vars;
    }

    /** The start-up loop over `extras`. */
    method AddToPath(extras: seq<string>, dirExists: string -> bool, pathsep: char)
      modifies this
      ensures vars == Augmented(old(vars), extras, dirExists, pathsep)
    {
      for i := 0 to |extras|
        invariant vars == Augmented(old(vars), extras[..i], dirExists, pathsep)
      {
        assert extras[..i + 1][..i] == extras[..i];
        var path := extras[i];
        if dirExists(path) && !Contains(GetPath(vars), path) {
          vars := vars["PATH" := path + [pathsep] + GetPath(vars)];
        }
      }
      assert extras[..|extras|] == extras;
    }
  }

  /** `PATH` only grows at the front: the old value is its tail. */
  lemma {:induction false} OldPathIsTail(vars: map<string, string>, extras: seq<string>, dirExists: string -> bool, pathsep: char)
    ensures EndsWith(GetPath(Augmented(vars, extras, dirExists, pathsep)), GetPath(vars))
  {
    if extras == [] {
      assert GetPath(vars)[|GetPath(vars)| - |GetPath(vars)|..] == GetPath(vars);
    } else {
      var init := extras[..|extras| - 1];
      OldPathIsTail(vars, init, dirExists, pathsep);
      var before := GetPath(Augmented(vars, init, dirExists, pathsep));
      var grown := extras[|extras| - 1] + [pathsep] + before;
      assert EndsWith(grown, before) by {
        assert grown[|grown| - |before|..] == before;
      }
      EndsWithTrans(grown, before, GetPath(vars));
    }
  }

  /** Every directory in the list that exists is on `PATH` afterwards:
      added by the loop, or already there. */
  lemma {:induction false} ExistingDirectoriesOnPath(vars: map<string, string>, extras: seq<string>, dirExists: string -> bool, pathsep: char)
    ensures forall k :: 0 <= k < |extras| && dirExists(extras[k]) ==>
              Contains(GetPath(Augmented(vars, extras, dirExists, pathsep)), extras[k])
  {
    if extras != [] {
      var init := extras[..|extras| - 1];
      ExistingDirectoriesOnPath(vars, init, dirExists, pathsep);
      var before := GetPath(Augmented(vars, init, dirExists, pathsep));
      var path := extras[|extras| - 1];
      if dirExists(path) && !Contains(before, path) {
        var grown := path + [pathsep] + before;
        assert StartsWith(grown, path) by { assert grown[..|path|] == path; }
        forall k | 0 <= k < |init| && dirExists(init[k])
          ensures Contains(grown, init[k])
        {
          ContainsAfterPrefix(path + [pathsep], before, init[k]);
        }
      }
      assert forall k :: 0 <= k < |init| ==> extras[k] == init[k];
    }
  }

  /** When nothing to add exists, the environment is left as it was. */
  lemma {:induction false} NothingExistsNothingChanges(vars: map<string, string>, extras: seq<string>, dirExists: string -> bool, pathsep: char)
    requires forall k :: 0 <= k < |extras| ==> !dirExists(extras[k])
    ensures Augmented(vars, extras, dirExists, pathsep) == vars
  {
    if extras != [] {
      NothingExistsNothingChanges(vars, extras[..|extras| - 1], dirExists, pathsep);
    }
  }

  /** A later entry that is added ends up in front of an earlier one. */
  lemma LaterEntriesInFront(vars: map<string, string>, first: string, second: string, dirExists: string -> bool, pathsep: char)
    requires dirExists(first) && dirExists(second)
    requires !Contains(GetPath(vars), first)
    requires !Contains(first + [pathsep] + GetPath(vars), second)
    ensures GetPath(Augmented(vars, [first, second], dirExists, pathsep)) ==
              second + [pathsep] + first + [pathsep] + GetPath(vars)
  {
    var p := GetPath(vars);
    assert [first, second][..1] == [first];
    assert [first][..0] == [];
    var once := vars["PATH" := first + [pathsep] + p];
    assert Augmented(vars, [first], dirExists, pathsep) == once;
    assert GetPath(once) == first + [pathsep] + p;
    assert second + [pathsep] + (first + [pathsep] + p) == second + [pathsep] + first + [pathsep] + p;
  }

  /** A directory already named in `PATH`, even as part of a longer one,
      is not added again. */
  lemma SubstringBlocksAdding(vars: map<string, string>, path: string, dirExists: string -> bool, pathsep: char)
    requires Contains(GetPath(vars), path)
    ensures Augmented(vars, [path], dirExists, pathsep) == vars
  {
    assert [path][..0] == [];
  }
}
