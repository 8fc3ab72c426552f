/** The upload helpers (backend/app/api/upload.py): the audio format check,
    the size check, and where an uploaded file is saved. The upload
    handlers themselves, whose bodies do not parse, are not modelled. */
module Upload {
  import opened Wrappers
  import opened Strings
  import opened Config
  import Processing

  /** The kind of an uploaded document; only templates are told apart. */
  datatype FileType = Document | Template

  /** `validate_file_size`: every upload passes, whatever its size. */
  function ValidateFileSize(sizeBytes: nat): (ok: bool)
    ensures ok
  {
    true
  }

  /** `validate_audio_format`: the file name's suffix, lower-cased, is one
      of the allowed audio formats. */
  function ValidateAudioFormat(filename: string): (ok: bool)
    ensures ok <==> Lower(Suffix(filename)) in ALLOWED_AUDIO_FORMATS
    // the suffix matches an allowed format in any mix of cases
    ensures ok <==> exists k :: 0 <= k < |ALLOWED_AUDIO_FORMATS| &&
                                 SameIgnoringCase(Suffix(filename), ALLOWED_AUDIO_FORMATS[k])
  {
    var suffix := Suffix(filename);
    AudioFormatsAreLowerCase();
    forall k | 0 <= k < |ALLOWED_AUDIO_FORMATS|
      ensures Lower(suffix) == ALLOWED_AUDIO_FORMATS[k] <==> SameIgnoringCase(suffix, ALLOWED_AUDIO_FORMATS[k])
    {
      LowerIsSameIgnoringCase(suffix, ALLOWED_AUDIO_FORMATS[k]);
    }
    Lower(suffix) in ALLOWED_AUDIO_FORMATS
  }

  /** The allowed audio formats are written in lower case. */
  lemma AudioFormatsAreLowerCase()
    ensures forall k, i :: 0 <= k < |ALLOWED_AUDIO_FORMATS| && 0 <= i < |ALLOWED_AUDIO_FORMATS[k]| ==>
              LowerChar(ALLOWED_AUDIO_FORMATS[k][i]) == ALLOWED_AUDIO_FORMATS[k][i]
  {
    forall k, i | 0 <= k < |ALLOWED_AUDIO_FORMATS| && 0 <= i < |ALLOWED_AUDIO_FORMATS[k]|
      ensures LowerChar(ALLOWED_AUDIO_FORMATS[k][i]) == ALLOWED_AUDIO_FORMATS[k][i]
    {
      var c := ALLOWED_AUDIO_FORMATS[k][i];
      assert c == '.' || 'a' <= c <= 'z' || '0' <= c <= '9';
    }
  }

  /** The format check ignores case: `<name>.MP3` is an audio file. */
  lemma UpperCaseAudioAccepted(stem: string)
    requires stem != [] && '/' !in stem
    ensures ValidateAudioFormat(stem + ".MP3")
  {
    assert ".MP3"[1..] == "MP3";
    SuffixOfName(stem, ".MP3");
    LowerMp3();
    assert ALLOWED_AUDIO_FORMATS[0] == ".mp3";
  }

  lemma LowerMp3()
    ensures Lower(".MP3") == ".mp3"
  {
    var lowered := Lower(".MP3");
    assert lowered[1] == 'm' && lowered[2] == 'p' && lowered[3] == '3';
  }

  /** A name without a suffix is refused: no dot, a leading dot only
      (`.mp3` is a hidden file's name, not a suffix), or a trailing dot. */
  lemma NoSuffixRejected(filename: string)
    requires Suffix(filename) == ""
    ensures !ValidateAudioFormat(filename)
  {
    assert Lower("") == "";
    assert forall k :: 0 <= k < |ALLOWED_AUDIO_FORMATS| ==> ALLOWED_AUDIO_FORMATS[k] != "";
  }

  /** `.mp3` on its own has no suffix, so it is refused. */
  lemma HiddenNameRejected()
    ensures !ValidateAudioFormat(".mp3")
  {
    var name := ".mp3";
    assert FileName(name) == name;
    assert LastIndexOf(name, '.') == Some(0) by {
      assert name[0] == '.' && '.' !in name[1..];
    }
    NoSuffixRejected(name);
  }

  /** Where `upload_document` saves an upload: templates under the template
      directory, everything else under the upload directory, as the file id
      followed by the original suffix, case and all. */
  function SavePath(fileId: string, filename: string, fileType: FileType): (path: string)
    ensures fileType == Template ==> path == PathJoin(TEMPLATE_DIR, fileId + Suffix(filename))
    ensures fileType != Template ==> path == PathJoin(UPLOAD_DIR, fileId + Suffix(filename))
  {
    var fileExtension := Suffix(filename);
    if fileType == Template then PathJoin(TEMPLATE_DIR, fileId + fileExtension)
    else PathJoin(UPLOAD_DIR, fileId + fileExtension)
  }

  /** The saved file keeps the upload's suffix, so a later look-up by
      suffix sees what the client sent. */
  lemma SavedSuffix(fileId: string, filename: string, fileType: FileType)
    requires fileId != [] && '/' !in fileId
    requires Suffix(filename) != ""
    ensures Suffix(SavePath(fileId, filename, fileType)) == Suffix(filename)
  {
    SuffixOfJoined(if fileType == Template then TEMPLATE_DIR else UPLOAD_DIR, fileId, Suffix(filename));
  }

  /** A document uploaded as `Report.PDF` is saved as `<id>.PDF`, which is
      none of the paths the job's probe tries for that id: with only that
      file on disk, the job finds no document for the id. */
  lemma UpperCaseUploadNotProbed(fileId: string)
    ensures var saved := SavePath(fileId, "Report.PDF", Document);
            Processing.FirstExisting(UPLOAD_DIR, fileId, ALLOWED_DOCUMENT_FORMATS, p => p == saved).None?
  {
    SuffixOfName("Report", ".PDF");
    var saved := SavePath(fileId, "Report.PDF", Document);
    assert saved == PathJoin(UPLOAD_DIR, fileId + ".PDF");
    NoCandidateIsUpperCase(fileId);
  }

  lemma NoCandidateIsUpperCase(fileId: string)
    ensures forall k :: 0 <= k < |ALLOWED_DOCUMENT_FORMATS| ==>
              Processing.Candidate(UPLOAD_DIR, fileId, ALLOWED_DOCUMENT_FORMATS, k) != PathJoin(UPLOAD_DIR, fileId + ".PDF")
  {
    var saved := PathJoin(UPLOAD_DIR, fileId + ".PDF");
    forall k | 0 <= k < |ALLOWED_DOCUMENT_FORMATS|
      ensures Processing.Candidate(UPLOAD_DIR, fileId, ALLOWED_DOCUMENT_FORMATS, k) != saved
    {
      var c := Processing.Candidate(UPLOAD_DIR, fileId, ALLOWED_DOCUMENT_FORMATS, k);
      var ext := ALLOWED_DOCUMENT_FORMATS[k];
      var i := |UPLOAD_DIR| + 1 + |fileId| + 1;
      assert c[i] == ext[1] && saved[i] == 'P';
    }
  }

  /** The save path with the suffix lower-cased, the form the format
      checks and the probe rely on. */
  function NormalisedSavePath(fileId: string, filename: string, fileType: FileType): (path: string)
    ensures fileType == Template ==> path == PathJoin(TEMPLATE_DIR, fileId + Lower(Suffix(filename)))
    ensures fileType != Template ==> path == PathJoin(UPLOAD_DIR, fileId + Lower(Suffix(filename)))
  {
    var fileExtension := Lower(Suffix(filename));
    if fileType == Template then PathJoin(TEMPLATE_DIR, fileId + fileExtension)
    else PathJoin(UPLOAD_DIR, fileId + fileExtension)
  }

  /** With the suffix lower-cased on saving, a document of a supported
      format in any case is found by the job's probe. */
  lemma NormalisedUploadIsProbed(fileId: string, filename: string, fileExists: string -> bool)
    requires Lower(Suffix(filename)) in ALLOWED_DOCUMENT_FORMATS
    requires fileExists(NormalisedSavePath(fileId, filename, Document))
    ensures Processing.FirstExisting(UPLOAD_DIR, fileId, ALLOWED_DOCUMENT_FORMATS, fileExists).Some?
  {
    var k :| 0 <= k < |ALLOWED_DOCUMENT_FORMATS| && ALLOWED_DOCUMENT_FORMATS[k] == Lower(Suffix(filename));
    assert Processing.Candidate(UPLOAD_DIR, fileId, ALLOWED_DOCUMENT_FORMATS, k) ==
           NormalisedSavePath(fileId, filename, Document);
  }

  /** Lower-casing on saving changes nothing for a name whose suffix is
      already lower case. */
  lemma NormalisedAgreesOnLowerCase(fileId: string, filename: string, fileType: FileType)
    requires Lower(Suffix(filename)) == Suffix(filename)
    ensures NormalisedSavePath(fileId, filename, fileType) == SavePath(fileId, filename, fileType)
  {
  }
}
