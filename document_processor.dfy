/** The document processor (backend/app/services/document_processor.py):
    dispatch on the file suffix, the text-file reader's metadata, the scan
    for `{{field}}` / `{field}` placeholders, and batch processing. Reading
    PDF and Word files is done by libraries and is supplied by the caller. */
module DocumentProcessor {
  import opened Wrappers
  import opened Strings
  import opened Config
  import opened Json

  const SUPPORTED_FORMATS: set<string> := {".pdf", ".docx", ".txt"}

  /** What a format reader returns: the text, metadata and structure dicts. */
  datatype Content = Content(text: string, metadata: Dict, structure: Dict)

  /** The PDF and Word readers, and reading a file as UTF-8 text; each gives
      its result or the message of the exception it raised. */
  datatype Readers = Readers(
    pdf: string -> Result<Content, string>,
    docx: string -> Result<Content, string>,
    readText: string -> Result<string, string>)

  /** The result dict of `process_document`. */
  datatype Processed = Processed(
    fileId: string,
    filename: string,
    format: string,
    text: string,
    metadata: Dict,
    structure: Dict)

  /** `_process_txt` on the text read: the line count is the number of
      pieces `split('\n')` gives. */
  function TxtContent(text: string): Content
  {
    Content(text,
            [("lines", JInt(|Split(text, '\n')|)), ("encoding", JStr("utf-8"))],
            [("type", JStr("txt"))])
  }

  /** The `lines` metadata is one more than the number of newlines: a text
      without newline, the empty text included, has one line. */
  lemma TxtLines(text: string)
    ensures Get(TxtContent(text).metadata, "lines") == Some(JInt(Count(text, '\n') + 1))
    ensures TxtContent(text).text == text
  {
    SplitPieces(text, '\n');
  }

  /** `_process_txt`: the file's text, with its line count; a read that
      raises fails. */
  function ProcessTxt(r: Readers, path: string): (res: Result<Content, string>)
    ensures r.readText(path).Err? ==> res == Err(r.readText(path).error)
    ensures r.readText(path).Ok? ==>
              && res.Ok? && res.value.text == r.readText(path).value
              && Get(res.value.metadata, "lines") == Some(JInt(Count(r.readText(path).value, '\n') + 1))
  {
    match r.readText(path)
    case Ok(text) => TxtLines(text); Ok(TxtContent(text))
    case Err(e) => Err(e)
  }

  /** The reader `supported_formats` maps a (lower-case) suffix to. */
  function Reader(r: Readers, suffix: string, path: string): Result<Content, string>
    requires suffix in SUPPORTED_FORMATS
  {
    if suffix == ".pdf" then r.pdf(path)
    else if suffix == ".docx" then r.docx(path)
    else ProcessTxt(r, path)
  }

  /** `process_document`: the suffix, lower-cased, selects the reader; an
      unsupported one raises before any reader runs. */
  function ProcessDocument(r: Readers, path: string, fileId: string): (res: Result<Processed, string>)
    ensures Lower(Suffix(path)) !in SUPPORTED_FORMATS ==>
              res == Err("Unsupported document format: " + Lower(Suffix(path)))
    ensures Lower(Suffix(path)) in SUPPORTED_FORMATS ==>
              (res.Ok? <==> Reader(r, Lower(Suffix(path)), path).Ok?)
    ensures res.Ok? ==>
              var content := Reader(r, Lower(Suffix(path)), path).value;
              res.value == Processed(fileId, FileName(path), Lower(Suffix(path)),
                                     content.text, content.metadata, content.structure)
  {
    var suffix := Lower(Suffix(path));
    if suffix !in SUPPORTED_FORMATS then Err("Unsupported document format: " + suffix)
    else
      match Reader(r, suffix, path)
      case Err(e) => Err(e)
      case Ok(content) =>
        Ok(Processed(fileId, FileName(path), suffix, content.text, content.metadata, content.structure))
  }

  /** An unsupported suffix fails the same way whatever the readers would
      have done: no reader is consulted. */
  lemma UnsupportedIgnoresReaders(r1: Readers, r2: Readers, path: string, fileId: string)
    requires Lower(Suffix(path)) !in SUPPORTED_FORMATS
    ensures ProcessDocument(r1, path, fileId) == ProcessDocument(r2, path, fileId)
    ensures ProcessDocument(r1, path, fileId).Err?
  {
  }

  /** The suffix test ignores case: `notes.TXT` is read as text, and its
      format is reported as ".txt". */
  lemma UpperCaseTxtIsText(r: Readers, stem: string, fileId: string)
    requires stem != [] && '/' !in stem
    requires r.readText(stem + ".TXT").Ok?
    ensures ProcessDocument(r, stem + ".TXT", fileId) ==
              Ok(Processed(fileId, stem + ".TXT", ".txt", r.readText(stem + ".TXT").value,
                           TxtContent(r.readText(stem + ".TXT").value).metadata, [("type", JStr("txt"))]))
  {
    var path := stem + ".TXT";
    SuffixOfName(stem, ".TXT");
    NoSlashIn(stem, ".TXT");
    assert FileName(path) == path;
    TxtLowered();
    var text := r.readText(path).value;
    assert Reader(r, ".txt", path) == Ok(TxtContent(text));
    TxtLines(text);
  }

  lemma TxtLowered()
    ensures Lower(".TXT") == ".txt"
  {
  }

  // ----- placeholder scanning -----

  /** The length of the run of characters other than `}` starting at `i`:
      what `[^}]+` matches there, greedily. */
  function RunLength(s: string, i: nat): (n: nat)
    requires i <= |s|
    ensures i + n <= |s|
    ensures forall k :: i <= k < i + n ==> s[k] != '}'
    ensures i + n == |s| || s[i + n] == '}'
    decreases |s| - i
  {
    if i == |s| || s[i] == '}' then 0 else 1 + RunLength(s, i + 1)
  }

  /** The first alternative, `\{\{([^}]+)\}\}`, at position `p`. */
  predicate DoubleAt(s: string, p: nat)
    requires p <= |s|
  {
    p + 2 <= |s| && s[p] == '{' && s[p + 1] == '{' &&
    var n := RunLength(s, p + 2);
    n > 0 && p + 2 + n + 2 <= |s| && s[p + 2 + n] == '}' && s[p + 2 + n + 1] == '}'
  }

  /** The second alternative, `\{([^}]+)\}`, at position `p`. */
  predicate SingleAt(s: string, p: nat)
    requires p <= |s|
  {
    p + 1 <= |s| && s[p] == '{' &&
    var n := RunLength(s, p + 1);
    n > 0 && p + 1 + n + 1 <= |s| && s[p + 1 + n] == '}'
  }

  /** `re.findall` of the placeholder pattern from position `p` on, each
      match giving the group that took part in it (`match[0] or match[1]`):
      the first alternative is tried first, and the scan resumes after the
      match, or one character on when nothing matches. */
  function FindAll(s: string, p: nat): (fields: seq<string>)
    requires p <= |s|
    ensures forall k :: 0 <= k < |fields| ==> fields[k] != [] && '}' !in fields[k]
    decreases |s| - p
  {
    if p == |s| then []
    else if DoubleAt(s, p) then
      var n := RunLength(s, p + 2);
      [s[p + 2..p + 2 + n]] + FindAll(s, p + 2 + n + 2)
    else if SingleAt(s, p) then
      var n := RunLength(s, p + 1);
      [s[p + 1..p + 1 + n]] + FindAll(s, p + 1 + n + 1)
    else FindAll(s, p + 1)
  }

  /** `{{name}}` yields `name`, not `{name`: the double-brace alternative is
      tried first. */
  lemma DoubleBraced(name: string)
    requires name != [] && '}' !in name
    ensures FindAll("{{" + name + "}}", 0) == [name]
  {
    var s := "{{" + name + "}}";
    var n := |name|;
    assert forall k :: 2 <= k < 2 + n ==> s[k] == name[k - 2];
    RunLengthIs(s, 2, n);
    assert s[2..2 + n] == name;
  }

  /** `{name}` yields `name`, even when `name` itself starts with `{`:
      the double-brace alternative then lacks its second `}`. */
  lemma SingleBraced(name: string)
    requires name != [] && '}' !in name
    ensures FindAll("{" + name + "}", 0) == [name]
  {
    var s := "{" + name + "}";
    var n := |name|;
    assert forall k :: 1 <= k < 1 + n ==> s[k] == name[k - 1];
    if s[1] == '{' {
      RunLengthIs(s, 2, n - 1);
      assert !DoubleAt(s, 0);
    }
    RunLengthIs(s, 1, n);
    assert s[1..1 + n] == name;
  }

  lemma {:induction false} RunLengthIs(s: string, i: nat, n: nat)
    requires i + n < |s| && s[i + n] == '}'
    requires forall k :: i <= k < i + n ==> s[k] != '}'
    ensures RunLength(s, i) == n
    decreases n
  {
    if n > 0 {
      RunLengthIs(s, i + 1, n - 1);
    }
  }

  // ----- the field list -----

  /** The index of the first occurrence of `x` in `xs`, or `|xs|` when
      there is none. */
  function FirstPos(xs: seq<string>, x: string): (i: nat)
    ensures i <= |xs| && (i < |xs| <==> x in xs)
    ensures i < |xs| ==> xs[i] == x
    ensures forall k :: 0 <= k < i ==> xs[k] != x
  {
    if xs == [] then 0
    else if xs[0] == x then 0
    else
      assert x in xs[1..] ==> x in xs;
      assert x in xs ==> x in xs[1..] by {
        if x in xs {
          var k :| 0 <= k < |xs| && xs[k] == x;
          assert k > 0 && xs[1..][k - 1] == x;
        }
      }
      FirstPos(xs[1..], x) + 1
  }

  lemma FirstPosPrefix(xs: seq<string>, n: nat, x: string)
    requires n <= |xs| && x in xs[..n]
    ensures FirstPos(xs, x) == FirstPos(xs[..n], x)
  {
    var i := FirstPos(xs[..n], x);
    var j := FirstPos(xs, x);
    assert xs[..n][i] == xs[i];
    assert j <= i;
    assert j < n && xs[..n][j] == xs[j];
  }

  function StrippedAll(matches: seq<string>): seq<string>
  {
    seq(|matches|, i requires 0 <= i < |matches| => Strip(matches[i]))
  }

  /** The field-list loop of `extract_template_fields`, as a function of
      the matches seen so far. */
  function DedupFields(matches: seq<string>): seq<string>
  {
    if matches == [] then []
    else
      var fields := DedupFields(matches[..|matches| - 1]);
      var field := Strip(matches[|matches| - 1]);
      if field != "" && field !in fields then fields + [field] else fields
  }

  predicate NoDuplicates(xs: seq<string>)
  {
    forall i, j :: 0 <= i < j < |xs| ==> xs[i] != xs[j]
  }

  lemma StrippedAllSnoc(matches: seq<string>)
    requires matches != []
    ensures StrippedAll(matches) == StrippedAll(matches[..|matches| - 1]) + [Strip(matches[|matches| - 1])]
  {
    var n := |matches|;
    var whole := StrippedAll(matches);
    var parts := StrippedAll(matches[..n - 1]) + [Strip(matches[n - 1])];
    forall k | 0 <= k < n ensures whole[k] == parts[k] {
      if k < n - 1 {
        assert matches[..n - 1][k] == matches[k];
      }
    }
  }

  /** The field list holds exactly the non-empty stripped matches. */
  lemma {:induction false} DedupFieldsMembers(matches: seq<string>)
    ensures forall f :: f in DedupFields(matches) <==> f != "" && f in StrippedAll(matches)
  {
    if matches != [] {
      var init := matches[..|matches| - 1];
      DedupFieldsMembers(init);
      StrippedAllSnoc(matches);
      var field := Strip(matches[|matches| - 1]);
      forall f ensures f in DedupFields(matches) <==> f != "" && f in StrippedAll(matches) {
        assert f in StrippedAll(matches) <==> f in StrippedAll(init) || f == field;
      }
    }
  }

  /** The field list has no duplicates. */
  lemma {:induction false} DedupFieldsDistinct(matches: seq<string>)
    ensures NoDuplicates(DedupFields(matches))
  {
    if matches != [] {
      DedupFieldsDistinct(matches[..|matches| - 1]);
    }
  }

  /** `fields` appear in the order of their first occurrence in `all`. */
  predicate InFirstOccurrenceOrder(all: seq<string>, fields: seq<string>)
  {
    forall i, j :: 0 <= i < j < |fields| ==> FirstPos(all, fields[i]) < FirstPos(all, fields[j])
  }

  /** The field list keeps the order of first occurrence among the
      stripped matches. */
  lemma {:induction false} DedupFieldsOrder(matches: seq<string>)
    ensures InFirstOccurrenceOrder(StrippedAll(matches), DedupFields(matches))
  {
    if matches != [] {
      var n := |matches|;
      var init := matches[..n - 1];
      DedupFieldsOrder(init);
      DedupFieldsMembers(init);
      StrippedAllSnoc(matches);
      var fields := DedupFields(init);
      var field := Strip(matches[n - 1]);
      var all := StrippedAll(matches);
      assert all[..n - 1] == StrippedAll(init);
      if field != "" && field !in fields {
        OrderAppend(all, n - 1, fields);
      } else {
        OrderKeep(all, n - 1, fields);
      }
    }
  }

  /** Order within a prefix is order within the whole. */
  lemma OrderKeep(all: seq<string>, m: nat, fields: seq<string>)
    requires m <= |all|
    requires forall f :: f in fields ==> f in all[..m]
    requires InFirstOccurrenceOrder(all[..m], fields)
    ensures InFirstOccurrenceOrder(all, fields)
  {
    forall i, j | 0 <= i < j < |fields| ensures FirstPos(all, fields[i]) < FirstPos(all, fields[j]) {
      FirstPosPrefix(all, m, fields[i]);
      FirstPosPrefix(all, m, fields[j]);
    }
  }

  /** Appending the element at position `m`, new to the prefix, keeps the
      order. */
  lemma OrderAppend(all: seq<string>, m: nat, fields: seq<string>)
    requires m < |all| && all[m] !in all[..m]
    requires forall f :: f in fields ==> f in all[..m]
    requires InFirstOccurrenceOrder(all[..m], fields)
    ensures InFirstOccurrenceOrder(all, fields + [all[m]])
  {
    OrderKeep(all, m, fields);
    var r := fields + [all[m]];
    assert FirstPos(all, all[m]) == m by {
      assert forall k :: 0 <= k < m ==> all[k] == all[..m][k];
    }
    forall i, j | 0 <= i < j < |r| ensures FirstPos(all, r[i]) < FirstPos(all, r[j]) {
      FirstPosPrefix(all, m, r[i]);
      if j < |fields| {
        assert r[i] == fields[i] && r[j] == fields[j];
      }
    }
  }

  /** No field is empty and none has whitespace at either end. */
  lemma {:induction false} DedupFieldsClean(matches: seq<string>)
    ensures forall k :: 0 <= k < |DedupFields(matches)| ==>
              DedupFields(matches)[k] != "" && IsStripped(DedupFields(matches)[k])
  {
    if matches != [] {
      DedupFieldsClean(matches[..|matches| - 1]);
    }
  }

  /** The loop itself: strip each match and keep it when non-empty and new. */
  method CollectFields(matches: seq<string>) returns (fields: seq<string>)
    ensures fields == DedupFields(matches)
  {
    fields := [];
    for i := 0 to |matches|
      invariant fields == DedupFields(matches[..i])
    {
      assert matches[..i + 1][..i] == matches[..i];
      var field := Strip(matches[i]);
      if field != "" && field !in fields {
        fields := fields + [field];
      }
    }
    assert matches[..|matches|] == matches;
  }

  /** What `extract_template_fields` returns for a template. */
  function TemplateFields(r: Readers, templatePath: string): (res: Result<seq<string>, string>)
    ensures ProcessDocument(r, templatePath, "template").Err? ==>
              res == Err(ProcessDocument(r, templatePath, "template").error)
    ensures res.Ok? ==> NoDuplicates(res.value)
    ensures res.Ok? ==> forall k :: 0 <= k < |res.value| ==> res.value[k] != "" && IsStripped(res.value[k])
    ensures res.Ok? ==> forall k :: 0 <= k < |res.value| ==> '}' !in res.value[k]
  {
    match ProcessDocument(r, templatePath, "template")
    case Err(e) => Err(e)
    case Ok(content) =>
      var matches := FindAll(content.text, 0);
      DedupFieldsDistinct(matches);
      DedupFieldsClean(matches);
      FieldsHaveNoClosingBrace(content.text);
      Ok(DedupFields(matches))
  }

  /** `extract_template_fields`: the template is processed as a document
      (so its format must be supported) and its text scanned. */
  method ExtractTemplateFields(r: Readers, templatePath: string) returns (res: Result<seq<string>, string>)
    ensures res == TemplateFields(r, templatePath)
    ensures res.Ok? ==> NoDuplicates(res.value)
    ensures res.Ok? ==> forall k :: 0 <= k < |res.value| ==> res.value[k] != "" && IsStripped(res.value[k])
  {
    var content := ProcessDocument(r, templatePath, "template");
    if content.Err? {
      return Err(content.error);
    }
    var matches := FindAll(content.value.text, 0);
    var fields := CollectFields(matches);
    DedupFieldsDistinct(matches);
    DedupFieldsClean(matches);
    res := Ok(fields);
  }

  /** A field never contains `}`: no match does, and stripping adds no
      character. */
  lemma FieldsHaveNoClosingBrace(text: string)
    ensures forall f :: f in DedupFields(FindAll(text, 0)) ==> '}' !in f
  {
    var ms := FindAll(text, 0);
    DedupFieldsMembers(ms);
    forall f | f in DedupFields(ms) ensures '}' !in f {
      var k :| 0 <= k < |ms| && StrippedAll(ms)[k] == f;
      StripKeepsAbsent(ms[k], '}');
    }
  }

  /** `batch_process`: documents that raise are logged and skipped. */
  method BatchProcess(r: Readers, documents: seq<(string, string)>) returns (results: seq<Processed>)
    ensures results == Successes(seq(|documents|, i requires 0 <= i < |documents| =>
                                       ProcessDocument(r, documents[i].0, documents[i].1)))
  {
    ghost var all := seq(|documents|, i requires 0 <= i < |documents| =>
                           ProcessDocument(r, documents[i].0, documents[i].1));
    results := [];
    for i := 0 to |documents|
      invariant results == Successes(all[..i])
    {
      var result := ProcessDocument(r, documents[i].0, documents[i].1);
      assert result == all[i];
      SuccessesStep(all, i);
      if result.Ok? {
        results := results + [result.value];
      }
    }
    assert all[..|documents|] == all;
  }
}
