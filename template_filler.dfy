/** The template filler (backend/app/services/template_filler.py): ordered
    placeholder substitution in a paragraph's text, the in-place rewrite of
    the paragraph's runs, the dispatch on the template's suffix, the field
    list and the output naming. Loading and saving Word files and rendering
    Jinja2 text templates are supplied by the caller. */
module TemplateFiller {
  import opened Wrappers
  import opened Strings
  import opened Config
  import opened Json
  import opened Schemas

  /** `{{key}}` and `{key}`. */
  function DoublePlaceholder(key: string): string { "{{" + key + "}}" }
  function SinglePlaceholder(key: string): string { "{" + key + "}" }

  /** One round of the substitution loop: `{{key}}` first, then `{key}`,
      each replaced by `str(value)`. */
  function FillOne(text: string, key: string, value: Json): string
  {
    ReplaceAll(ReplaceAll(text, DoublePlaceholder(key), Str(value)), SinglePlaceholder(key), Str(value))
  }

  /** The text after the loop over `data.items()`, as a function of the
      items handled so far. */
  function Fill(text: string, data: Dict): string
  {
    if data == [] then text
    else FillOne(Fill(text, data[..|data| - 1]), data[|data| - 1].0, data[|data| - 1].1)
  }

  /** Keys are applied in dict order, each on the text the earlier keys
      produced: filling with `d1 + d2` is filling with `d1`, then `d2`. */
  lemma {:induction false} FillSequential(text: string, d1: Dict, d2: Dict)
    ensures Fill(text, d1 + d2) == Fill(Fill(text, d1), d2)
  {
    if d2 == [] {
      assert d1 + d2 == d1;
    } else {
      assert (d1 + d2)[..|d1 + d2| - 1] == d1 + d2[..|d2| - 1];
      FillSequential(text, d1, d2[..|d2| - 1]);
    }
  }

  /** `{{key}}` becomes the value, not `{value}`: the double-brace form is
      replaced first (provided the value does not itself hold `{key}`). */
  lemma DoubleBraceBecomesValue(key: string, value: Json)
    requires !Contains(Str(value), SinglePlaceholder(key))
    ensures Fill(DoublePlaceholder(key), [(key, value)]) == Str(value)
  {
    assert [(key, value)][..0] == [];
    ReplaceWhole(DoublePlaceholder(key), Str(value));
    ReplaceAbsent(Str(value), SinglePlaceholder(key), Str(value));
  }

  /** The concatenated text of a paragraph's runs. */
  function Concat(runs: seq<string>): string
  {
    if runs == [] then "" else runs[0] + Concat(runs[1..])
  }

  /** The runs after `_replace_placeholders_in_text`: untouched when the
      text is unchanged; otherwise every run cleared and the first given the
      new text, or one new run when there were none. */
  function Rewritten(runs: seq<string>, data: Dict): seq<string>
  {
    var fullText := Fill(Concat(runs), data);
    if fullText == Concat(runs) then runs
    else if runs == [] then [fullText]
    else [fullText] + seq(|runs| - 1, k => "")
  }

  lemma {:induction false} ConcatEmpties(n: nat)
    ensures Concat(seq(n, k => "")) == ""
  {
    if n > 0 {
      assert seq(n, k => "")[1..] == seq(n - 1, k => "");
      ConcatEmpties(n - 1);
    }
  }

  /** The rewritten runs always spell the filled text, and keep their
      number unless there were none. */
  lemma RewrittenSpec(runs: seq<string>, data: Dict)
    ensures Concat(Rewritten(runs, data)) == Fill(Concat(runs), data)
    ensures Fill(Concat(runs), data) == Concat(runs) ==> Rewritten(runs, data) == runs
    ensures Fill(Concat(runs), data) != Concat(runs) && runs != [] ==>
              |Rewritten(runs, data)| == |runs| &&
              Rewritten(runs, data)[0] == Fill(Concat(runs), data) &&
              forall k :: 1 <= k < |runs| ==> Rewritten(runs, data)[k] == ""
    ensures Fill(Concat(runs), data) != Concat(runs) && runs == [] ==>
              Rewritten(runs, data) == [Fill(Concat(runs), data)]
  {
    var fullText := Fill(Concat(runs), data);
    if fullText != Concat(runs) {
      if runs == [] {
        assert [fullText][1..] == [];
      } else {
        var r := [fullText] + seq(|runs| - 1, k => "");
        assert r[1..] == seq(|runs| - 1, k => "");
        ConcatEmpties(|runs| - 1);
      }
    }
  }

  /** A Word paragraph: the texts of its runs, which the filler rewrites in
      place. */
  class Paragraph {
    var runs: seq<string>

    constructor (runs: seq<string>)
      ensures this.runs == runs
    {
      this.runs := runs;
    }

    /** `paragraph.text`. */
    function Text(): string
      reads this
    {
      Concat(runs)
    }
  }

  /** `_replace_placeholders_in_text`: the substitution loop over the data
      items, then the run rewrite when the text changed. */
  method ReplacePlaceholders(paragraph: Paragraph, data: Dict)
    modifies paragraph
    ensures paragraph.runs == Rewritten(old(paragraph.runs), data)
    ensures paragraph.Text() == Fill(old(paragraph.Text()), data)
  {
    var fullText := paragraph.Text();
    for i := 0 to |data|
      invariant fullText == Fill(paragraph.Text(), data[..i])
    {
      assert data[..i + 1][..i] == data[..i];
      var (key, value) := data[i];
      fullText := ReplaceAll(fullText, DoublePlaceholder(key), Str(value));
      fullText := ReplaceAll(fullText, SinglePlaceholder(key), Str(value));
    }
    assert data[..|data|] == data;
    if fullText != paragraph.Text() {
      ghost var original := paragraph.runs;
      for i := 0 to |paragraph.runs|
        invariant |paragraph.runs| == |original|
        invariant forall k :: 0 <= k < i ==> paragraph.runs[k] == ""
      {
        paragraph.runs := paragraph.runs[i := ""];
      }
      if paragraph.runs != [] {
        paragraph.runs := paragraph.runs[0 := fullText];
        assert paragraph.runs == [fullText] + seq(|original| - 1, k => "");
      } else {
        paragraph.runs := paragraph.runs + [fullText];
      }
    }
    RewrittenSpec(old(paragraph.runs), data);
  }

  /** The paragraph loop of `_fill_docx_template`, over distinct paragraphs. */
  method ReplaceInParagraphs(paragraphs: seq<Paragraph>, data: Dict)
    requires forall i, j :: 0 <= i < j < |paragraphs| ==> paragraphs[i] != paragraphs[j]
    modifies set p | p in paragraphs
    ensures forall k :: 0 <= k < |paragraphs| ==> paragraphs[k].runs == Rewritten(old(paragraphs[k].runs), data)
  {
    for i := 0 to |paragraphs|
      invariant forall k :: 0 <= k < i ==> paragraphs[k].runs == Rewritten(old(paragraphs[k].runs), data)
      invariant forall k :: i <= k < |paragraphs| ==> paragraphs[k].runs == old(paragraphs[k].runs)
    {
      ReplacePlaceholders(paragraphs[i], data);
    }
  }

  // ----- fill_template -----

  /** `output_name` when it is given and non-empty, else `completed_<id>`
      with the template kind's extension. */
  function OutputFileName(outputName: Option<string>, documentId: string, ext: string): (name: string)
    ensures outputName.Some? && outputName.value != "" ==> name == outputName.value
    ensures outputName.None? || outputName.value == "" ==> name == "completed_" + documentId + ext
  {
    if outputName.Some? && outputName.value != "" then outputName.value else "completed_" + documentId + ext
  }

  /** The field list: one entry per data item, in order, typed by the
      value's Python type name. */
  function Fields(data: Dict): (fields: seq<TemplateField>)
    ensures |fields| == |data|
    ensures forall i :: 0 <= i < |data| ==>
              fields[i] == TemplateField(data[i].0, data[i].1, TypeName(data[i].1))
  {
    seq(|data|, i requires 0 <= i < |data| => TemplateField(data[i].0, data[i].1, TypeName(data[i].1)))
  }

  /** Values that are strings are listed with type "str", so the fields of
      a dict of extracted strings are all typed "str". */
  lemma StringFieldsAreStr(data: Dict)
    requires forall i :: 0 <= i < |data| ==> data[i].1.JStr?
    ensures forall i :: 0 <= i < |Fields(data)| ==>
              Fields(data)[i].fieldType == "str" && Fields(data)[i].fieldName == data[i].0
  {
  }

  /** The document-specific work: loading the template and saving the
      filled document at the output path (Word), or reading, rendering and
      writing it (text). It gives the message of the exception raised, if
      any. */
  type Writer = (string, string) -> Option<string>

  /** `fill_template`, with the document id and timestamp supplied by the
      caller. */
  function FillTemplate(templatePath: string, data: Dict, outputName: Option<string>, documentId: string,
                        createdAt: string, fillDocx: Writer, fillText: Writer): (r: Result<CompletedDocument, string>)
    ensures Lower(Suffix(templatePath)) !in {".docx", ".txt"} ==>
              r == Err("Unsupported template format: " + Lower(Suffix(templatePath)))
    ensures r.Ok? ==> Lower(Suffix(templatePath)) in {".docx", ".txt"}
    ensures r.Ok? ==>
              var ext := Lower(Suffix(templatePath));
              r.value == CompletedDocument(documentId, FileName(templatePath), Fields(data),
                                           PathJoin(OUTPUT_DIR, OutputFileName(outputName, documentId, ext)),
                                           createdAt)
    // a supported template succeeds exactly when the writer for its kind does
    ensures Lower(Suffix(templatePath)) in {".docx", ".txt"} ==>
              var ext := Lower(Suffix(templatePath));
              var outputPath := PathJoin(OUTPUT_DIR, OutputFileName(outputName, documentId, ext));
              var failure := if ext == ".docx" then fillDocx(templatePath, outputPath)
                             else fillText(templatePath, outputPath);
              && (r.Ok? <==> failure.None?)
              && (failure.Some? ==> r == Err(failure.value))
  {
    var suffix := Lower(Suffix(templatePath));
    if suffix == ".docx" || suffix == ".txt" then
      var outputPath := PathJoin(OUTPUT_DIR, OutputFileName(outputName, documentId, suffix));
      var failure := if suffix == ".docx" then fillDocx(templatePath, outputPath)
                     else fillText(templatePath, outputPath);
      if failure.Some? then Err(failure.value)
      else Ok(CompletedDocument(documentId, FileName(templatePath), Fields(data), outputPath, createdAt))
    else
      Err("Unsupported template format: " + suffix)
  }

  /** `batch_fill_templates`: each template is filled with the same data;
      the ones that raise are logged and skipped. */
  method BatchFillTemplates(templates: seq<string>, data: Dict, documentIds: seq<string>, createdAt: string,
                            fillDocx: Writer, fillText: Writer)
    returns (results: seq<CompletedDocument>)
    requires |documentIds| == |templates|
    ensures results == Successes(seq(|templates|, i requires 0 <= i < |templates| =>
              FillTemplate(templates[i], data, None, documentIds[i], createdAt, fillDocx, fillText)))
  {
    ghost var all := seq(|templates|, i requires 0 <= i < |templates| =>
                         FillTemplate(templates[i], data, None, documentIds[i], createdAt, fillDocx, fillText));
    results := [];
    for i := 0 to |templates|
      invariant results == Successes(all[..i])
    {
      assert all[..i + 1][..i] == all[..i];
      var result := FillTemplate(templates[i], data, None, documentIds[i], createdAt, fillDocx, fillText);
      if result.Ok? {
        results := results + [result.value];
      }
    }
    assert all[..|templates|] == all;
  }
}
