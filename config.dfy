/** The defaults of the settings object (backend/app/config.py) that the core
    reads, and the two `pathlib` operations it uses on file names. */
module Config {
  import opened Wrappers
  import opened Strings

  const UPLOAD_DIR := "uploads"
  const TEMPLATE_DIR := "templates"
  const OUTPUT_DIR := "outputs/documents"
  const WORKFLOW_OUTPUT_DIR := "outputs/workflows"
  const DIAGRAM_FORMAT := "png"

  const ALLOWED_AUDIO_FORMATS: seq<string> := [".mp3", ".wav", ".m4a", ".ogg", ".flac"]
  const ALLOWED_DOCUMENT_FORMATS: seq<string> := [".pdf", ".docx", ".txt", ".xlsx"]

  /** `directory / name`, written out with a forward slash. */
  function PathJoin(directory: string, name: string): string
  {
    directory + "/" + name
  }

  /** `Path(p).name`: the text after the last slash. */
  function FileName(p: string): (r: string)
    ensures '/' !in r
    ensures |r| <= |p| && r == p[|p| - |r|..]
  {
    match LastIndexOf(p, '/')
    case None => p
    case Some(i) => p[i + 1..]
  }

  /** The suffix rule applied to a file name: from the last dot on,
      provided that dot is neither the first nor the last character. */
  function NameSuffix(name: string): (r: string)
    ensures r == "" || (|r| >= 2 && r[0] == '.' && '.' !in r[1..])
    ensures r == "" || (|r| < |name| && r == name[|name| - |r|..])
    ensures '.' !in name ==> r == ""
  {
    match LastIndexOf(name, '.')
    case None => ""
    case Some(i) =>
      if 0 < i < |name| - 1 then
        assert name[i..][1..] == name[i + 1..];
        name[i..]
      else ""
  }

  /** `Path(p).suffix`: the suffix of the file name. */
  function Suffix(p: string): (r: string)
    ensures r == "" || (|r| >= 2 && r[0] == '.' && '.' !in r[1..] && '/' !in r)
    ensures r == "" || (|r| < |FileName(p)| && EndsWith(p, r))
    ensures '.' !in FileName(p) ==> r == ""
  {
    var name := FileName(p);
    var r := NameSuffix(name);
    TailOfTail(p, name, r);
    r
  }

  /** A tail of a tail of `p` is a tail of `p`, and holds no character the
      middle one lacks. */
  lemma TailOfTail(p: string, name: string, r: string)
    requires |name| <= |p| && name == p[|p| - |name|..]
    requires r == "" || (|r| < |name| && r == name[|name| - |r|..])
    ensures r == "" || (|r| < |name| && EndsWith(p, r))
    ensures '/' !in name ==> '/' !in r
  {
    if r != "" {
      assert p[|p| - |r|..] == p[|p| - |name|..][|name| - |r|..];
      assert forall k :: 0 <= k < |r| ==> r[k] == name[|name| - |r| + k];
    }
  }

  /** A dotted extension after a non-empty stem is the name's suffix. */
  lemma NameSuffixOf(stem: string, ext: string)
    requires stem != []
    requires |ext| >= 2 && ext[0] == '.' && '.' !in ext[1..]
    ensures NameSuffix(stem + ext) == ext
  {
    var name := stem + ext;
    assert name[|stem|] == '.';
    assert name[|stem| + 1..] == ext[1..];
    assert name[|stem|..] == ext;
  }

  lemma NoSlashIn(stem: string, ext: string)
    requires '/' !in stem && '/' !in ext
    ensures '/' !in stem + ext
  {
    forall k | 0 <= k < |stem + ext| ensures (stem + ext)[k] != '/' {
      if k < |stem| { assert (stem + ext)[k] == stem[k]; }
      else { assert (stem + ext)[k] == ext[k - |stem|]; }
    }
  }

  /** The suffix of `stem + ext` is `ext`, for a dotted extension and a
      stem that is a non-empty file name. */
  lemma SuffixOfName(stem: string, ext: string)
    requires stem != [] && '/' !in stem
    requires |ext| >= 2 && ext[0] == '.' && '.' !in ext[1..] && '/' !in ext
    ensures Suffix(stem + ext) == ext
  {
    NoSlashIn(stem, ext);
    assert FileName(stem + ext) == stem + ext;
    NameSuffixOf(stem, ext);
  }

  /** The same under a directory: the suffix of `dir/stem + ext` is `ext`. */
  lemma SuffixOfJoined(directory: string, stem: string, ext: string)
    requires stem != [] && '/' !in stem
    requires |ext| >= 2 && ext[0] == '.' && '.' !in ext[1..] && '/' !in ext
    ensures Suffix(PathJoin(directory, stem + ext)) == ext
  {
    NoSlashIn(stem, ext);
    FileNameOfJoined(directory, stem + ext);
    NameSuffixOf(stem, ext);
  }

  /** The name is the whole last component: all of `p` when it has no
      slash, otherwise everything after the last one. */
  lemma FileNameIsLastComponent(p: string)
    ensures '/' !in p ==> FileName(p) == p
    ensures FileName(p) == p || (|FileName(p)| < |p| && p[|p| - |FileName(p)| - 1] == '/')
  {
    match LastIndexOf(p, '/')
    case None =>
    case Some(i) => assert |FileName(p)| == |p| - i - 1;
  }

  /** The name of a file joined onto a directory is the file's own name. */
  lemma FileNameOfJoined(directory: string, name: string)
    requires '/' !in name
    ensures FileName(PathJoin(directory, name)) == name
  {
    var p := PathJoin(directory, name);
    assert p == (directory + "/") + name;
    assert p[|directory|] == '/';
    assert p[|directory| + 1..] == name;
  }
}
