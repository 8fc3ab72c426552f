/** The response parsers of the AI analyzer (backend/app/services/ai_analyzer.py):
    recovering workflow steps, or template field values, from the free-form
    text a language model generated. The model itself and the prompt
    rendering are outside; the generated text is an input. */
module AiAnalyzer {
  import opened Wrappers
  import opened Strings
  import opened Json
  import opened Schemas

  /** `json.loads` and `json.JSONDecoder().raw_decode` (which decodes the
      longest valid JSON prefix and ignores what follows), kept abstract:
      each gives the decoded value, or nothing when it raises. */
  datatype Decoder = Decoder(loads: string -> Option<Json>, rawDecode: string -> Option<Json>)

  /** The match of `re.search(open + '.*' + close, text, re.DOTALL)`: from the
      first `open` to the last `close`, if some `close` follows some `open`. */
  function BracketSpan(text: string, open: char, close: char): (r: Option<string>)
    ensures r.Some? <==> exists i, j :: 0 <= i < j < |text| && text[i] == open && text[j] == close
    ensures r.Some? ==> |r.value| >= 2 && r.value[0] == open && r.value[|r.value| - 1] == close
    ensures r.Some? ==> exists i :: OccursAt(text, r.value, i) &&
                          open !in text[..i] && close !in text[i + |r.value|..]
  {
    match (FirstIndexOf(text, open), LastIndexOf(text, close))
    case (Some(i), Some(j)) =>
      if i < j then
        assert OccursAt(text, text[i..j + 1], i);
        assert text[i + |text[i..j + 1]|..] == text[j + 1..];
        Some(text[i..j + 1])
      else
        NothingBefore(text, open, i);
        NothingAfter(text, close, j);
        None
    case (None, _) => None
    case (_, None) => None
  }

  lemma NothingBefore(text: string, c: char, i: nat)
    requires i <= |text| && c !in text[..i]
    ensures forall a :: 0 <= a < i ==> text[a] != c
  {
    forall a | 0 <= a < i ensures text[a] != c {
      assert text[..i][a] == text[a];
    }
  }

  lemma NothingAfter(text: string, c: char, j: nat)
    requires j < |text| && c !in text[j + 1..]
    ensures forall b :: j < b < |text| ==> text[b] != c
  {
    forall b | j < b < |text| ensures text[b] != c {
      assert text[j + 1..][b - j - 1] == text[b];
    }
  }

  /** The two decoding tiers: a strict decode of the span; failing that, a
      decode of the longest valid prefix from the span's first `open` on. */
  function DecodeTiered(d: Decoder, span: string, open: char): Option<Json>
  {
    match d.loads(span)
    case Some(v) => Some(v)
    case None =>
      match FirstIndexOf(span, open)
      case Some(start) => d.rawDecode(span[start..])
      case None => None
  }

  /** The span begins with `open`, so the second tier decodes the span itself
      and the "no opening bracket" branch of the source cannot be taken. */
  lemma DecodeTiers(d: Decoder, span: string, open: char)
    requires |span| > 0 && span[0] == open
    ensures DecodeTiered(d, span, open) ==
            if d.loads(span).Some? then d.loads(span) else d.rawDecode(span)
  {
    assert span[0..] == span;
  }

  /** `obj.get(key, default)` for a field the step schema types as a string;
      a present value of another type fails validation. */
  function StringField(obj: Dict, key: string, default: string): (r: Option<string>)
    ensures Get(obj, key).None? ==> r == Some(default)
    ensures Get(obj, key).Some? ==> (r.Some? <==> Get(obj, key).value.JStr?)
    ensures Get(obj, key).Some? && r.Some? ==> Get(obj, key) == Some(JStr(r.value))
  {
    match Get(obj, key)
    case None => Some(default)
    case Some(JStr(s)) => Some(s)
    case Some(_) => None
  }

  predicate AllStrings(items: seq<Json>)
  {
    forall k :: 0 <= k < |items| ==> items[k].JStr?
  }

  /** `obj.get(key, [])`, validated as a list of strings. */
  function ListField(obj: Dict, key: string): (r: Option<seq<string>>)
    ensures Get(obj, key).None? ==> r == Some([])
    ensures Get(obj, key).Some? ==>
              (r.Some? <==> Get(obj, key).value.JArr? && AllStrings(Get(obj, key).value.items))
    ensures Get(obj, key).Some? && r.Some? ==>
              |r.value| == |Get(obj, key).value.items| &&
              forall k :: 0 <= k < |r.value| ==> Get(obj, key).value.items[k] == JStr(r.value[k])
  {
    match Get(obj, key)
    case None => Some([])
    case Some(JArr(items)) =>
      if AllStrings(items) then Some(seq(|items|, k requires 0 <= k < |items| => items[k].s)) else None
    case Some(_) => None
  }

  /** `obj.get(key, {})`, validated as a dict. */
  function DictField(obj: Dict, key: string): (r: Option<Dict>)
    ensures Get(obj, key).None? ==> r == Some([])
    ensures Get(obj, key).Some? ==> (r.Some? <==> Get(obj, key).value.JObj?)
    ensures Get(obj, key).Some? && r.Some? ==> Get(obj, key) == Some(JObj(r.value))
  {
    match Get(obj, key)
    case None => Some([])
    case Some(JObj(fields)) => Some(fields)
    case Some(_) => None
  }

  /** Every field is absent or holds the type the step schema expects. */
  predicate WellTyped(obj: Dict)
  {
    && StringField(obj, "step_id", "").Some?
    && StringField(obj, "name", "").Some?
    && StringField(obj, "description", "").Some?
    && StringField(obj, "step_type", "").Some?
    && ListField(obj, "next_steps").Some?
    && DictField(obj, "metadata").Some?
  }

  /** One array element turned into a step, with `position` the 1-based
      number the step would get (the step list's length plus one). A missing
      key takes its default; a present key is copied verbatim; an element
      that is not an object, or a field of the wrong type, raises. */
  function StepOf(item: Json, position: nat): (r: Option<WorkflowStep>)
    ensures r.Some? <==> item.JObj? && WellTyped(item.fields)
    ensures r.Some? ==>
      && r.value.stepId == StringField(item.fields, "step_id", "step_" + NatToString(position)).value
      && r.value.name == StringField(item.fields, "name", "Unnamed Step").value
      && r.value.description == StringField(item.fields, "description", "").value
      && r.value.stepType == StringField(item.fields, "step_type", "task").value
      && r.value.nextSteps == ListField(item.fields, "next_steps").value
      && r.value.metadata == DictField(item.fields, "metadata").value
  {
    match item
    case JObj(obj) =>
      if WellTyped(obj) then
        Some(WorkflowStep(
          StringField(obj, "step_id", "step_" + NatToString(position)).value,
          StringField(obj, "name", "Unnamed Step").value,
          StringField(obj, "description", "").value,
          StringField(obj, "step_type", "task").value,
          ListField(obj, "next_steps").value,
          DictField(obj, "metadata").value))
      else None
    case _ => None
  }

  /** The defaults of a converted step: a missing `step_id` is numbered by
      position, a missing name is "Unnamed Step", a missing type is "task",
      missing lists and dicts are empty; present fields are kept verbatim. */
  lemma StepDefaults(obj: Dict, position: nat)
    requires WellTyped(obj)
    ensures var step := StepOf(JObj(obj), position).value;
      && (Get(obj, "step_id").None? ==> step.stepId == "step_" + NatToString(position))
      && (Get(obj, "step_id").Some? ==> Get(obj, "step_id") == Some(JStr(step.stepId)))
      && (Get(obj, "name").None? ==> step.name == "Unnamed Step")
      && (Get(obj, "name").Some? ==> Get(obj, "name") == Some(JStr(step.name)))
      && (Get(obj, "description").None? ==> step.description == "")
      && (Get(obj, "step_type").None? ==> step.stepType == "task")
      && (Get(obj, "step_type").Some? ==> Get(obj, "step_type") == Some(JStr(step.stepType)))
      && (Get(obj, "next_steps").None? ==> step.nextSteps == [])
      && (Get(obj, "metadata").None? ==> step.metadata == [])
  {
    var step := StepOf(JObj(obj), position).value;
    assert StringField(obj, "step_id", "").Some?;
    assert StringField(obj, "name", "").Some?;
    assert StringField(obj, "step_type", "").Some?;
  }

  /** The conversion loop over the decoded array, as a function of the
      elements converted so far: the steps, or nothing once an element raised. */
  function ConvertSteps(items: seq<Json>): Option<seq<WorkflowStep>>
  {
    if items == [] then Some([])
    else
      match ConvertSteps(items[..|items| - 1])
      case None => None
      case Some(steps) =>
        match StepOf(items[|items| - 1], |steps| + 1)
        case None => None
        case Some(step) => Some(steps + [step])
  }

  /** The conversion succeeds exactly when every element converts, and then
      gives one step per element, in array order, the k-th numbered k + 1. */
  lemma {:induction false} ConvertStepsSpec(items: seq<Json>)
    ensures ConvertSteps(items).Some? <==> forall k :: 0 <= k < |items| ==> StepOf(items[k], k + 1).Some?
    ensures ConvertSteps(items).Some? ==>
              |ConvertSteps(items).value| == |items| &&
              forall k :: 0 <= k < |items| ==> StepOf(items[k], k + 1) == Some(ConvertSteps(items).value[k])
  {
    if items != [] {
      var n := |items|;
      var init := items[..n - 1];
      ConvertStepsSpec(init);
      assert forall k :: 0 <= k < n - 1 ==> init[k] == items[k];
      match ConvertSteps(init)
      case None =>
        var k :| 0 <= k < n - 1 && StepOf(init[k], k + 1).None?;
        assert StepOf(items[k], k + 1).None?;
        assert ConvertSteps(items) == None;
      case Some(steps) =>
        match StepOf(items[n - 1], n)
        case None =>
          assert ConvertSteps(items) == None;
        case Some(step) =>
          var all := steps + [step];
          assert ConvertSteps(items) == Some(all);
          forall k | 0 <= k < n ensures StepOf(items[k], k + 1) == Some(all[k]) {
            if k < n - 1 {
              assert all[k] == steps[k];
            }
          }
    }
  }

  /** Once a prefix of the elements fails to convert, the whole array does. */
  lemma {:induction false} ConvertFailurePersists(items: seq<Json>, n: nat)
    requires n <= |items| && ConvertSteps(items[..n]).None?
    ensures ConvertSteps(items).None?
  {
    ConvertStepsSpec(items[..n]);
    ConvertStepsSpec(items);
    var k :| 0 <= k < n && StepOf(items[..n][k], k + 1).None?;
    assert items[..n][k] == items[k];
  }

  /** One more element converted after a prefix that converted to `steps`. */
  lemma ConvertSnoc(items: seq<Json>, i: nat, steps: seq<WorkflowStep>)
    requires i < |items| && ConvertSteps(items[..i]) == Some(steps)
    ensures StepOf(items[i], |steps| + 1).None? ==> ConvertSteps(items[..i + 1]).None?
    ensures StepOf(items[i], |steps| + 1).Some? ==>
              ConvertSteps(items[..i + 1]) == Some(steps + [StepOf(items[i], |steps| + 1).value])
  {
    assert items[..i + 1][..i] == items[..i];
  }

  /** The fixed three-step workflow returned whenever parsing fails. */
  function DefaultWorkflow(): (r: seq<WorkflowStep>)
    ensures |r| == 3
    ensures r[0].stepId == "step_1" && r[1].stepId == "step_2" && r[2].stepId == "step_3"
    ensures r[0].stepType == "event" && r[1].stepType == "task" && r[2].stepType == "event"
    ensures r[0].nextSteps == ["step_2"] && r[1].nextSteps == ["step_3"] && r[2].nextSteps == []
    ensures r[0].name == "Start" && r[1].name == "Analysis Required" && r[2].name == "End"
    ensures r[0].description == "Process initiation"
    ensures r[1].description == "Manual analysis needed - automatic extraction failed"
    ensures r[2].description == "Process completion"
    ensures forall k :: 0 <= k < |r| ==> r[k].metadata == []
  {
    [
      WorkflowStep("step_1", "Start", "Process initiation", "event", ["step_2"], []),
      WorkflowStep("step_2", "Analysis Required",
                   "Manual analysis needed - automatic extraction failed", "task", ["step_3"], []),
      WorkflowStep("step_3", "End", "Process completion", "event", [], [])
    ]
  }

  /** What `_parse_workflow_response` returns for a response. */
  function ParseWorkflow(d: Decoder, response: string): (r: seq<WorkflowStep>)
    // anything but the default workflow is the conversion of a decoded array
    ensures r != DefaultWorkflow() ==>
              && BracketSpan(response, '[', ']').Some?
              && var decoded := DecodeTiered(d, BracketSpan(response, '[', ']').value, '[');
              && decoded.Some? && decoded.value.JArr? && ConvertSteps(decoded.value.items) == Some(r)
  {
    match BracketSpan(response, '[', ']')
    case None => DefaultWorkflow()
    case Some(span) =>
      match DecodeTiered(d, span, '[')
      case Some(JArr(items)) =>
        (match ConvertSteps(items)
         case Some(steps) => steps
         case None => DefaultWorkflow())
      case _ => DefaultWorkflow()
  }

  /** `_parse_workflow_response`: the span is located and decoded, then the
      array elements are converted one by one, appending to the step list;
      any failure gives the default workflow. */
  method ParseWorkflowResponse(d: Decoder, response: string) returns (workflowSteps: seq<WorkflowStep>)
    ensures workflowSteps == ParseWorkflow(d, response)
  {
    var jsonMatch := BracketSpan(response, '[', ']');
    if jsonMatch.None? {
      return DefaultWorkflow();
    }
    var stepsData := DecodeTiered(d, jsonMatch.value, '[');
    if stepsData.None? || !stepsData.value.JArr? {
      return DefaultWorkflow();
    }
    var items := stepsData.value.items;
    var converted := ConvertLoop(items);
    if converted.None? {
      return DefaultWorkflow();
    }
    workflowSteps := converted.value;
  }

  /** The conversion loop: each element becomes a step numbered from 1,
      appended in order; a failing element ends the loop. */
  method ConvertLoop(items: seq<Json>) returns (converted: Option<seq<WorkflowStep>>)
    ensures converted == ConvertSteps(items)
  {
    var workflowSteps := [];
    var i := 0;
    while i < |items|
      invariant 0 <= i <= |items|
      invariant ConvertSteps(items[..i]) == Some(workflowSteps)
    {
      var step := StepOf(items[i], |workflowSteps| + 1);
      ConvertSnoc(items, i, workflowSteps);
      if step.None? {
        ConvertFailurePersists(items, i + 1);
        return None;
      }
      workflowSteps := workflowSteps + [step.value];
      i := i + 1;
    }
    assert items[..i] == items;
    converted := Some(workflowSteps);
  }

  /** Without a `]` after the first `[` the result is the default workflow. */
  lemma NoArrayGivesDefault(d: Decoder, response: string)
    requires !exists i, j :: 0 <= i < j < |response| && response[i] == '[' && response[j] == ']'
    ensures ParseWorkflow(d, response) == DefaultWorkflow()
  {
  }

  /** When both decoding tiers fail the result is the default workflow. */
  lemma UndecodableGivesDefault(d: Decoder, response: string)
    requires BracketSpan(response, '[', ']').Some?
    requires d.loads(BracketSpan(response, '[', ']').value).None?
    requires d.rawDecode(BracketSpan(response, '[', ']').value).None?
    ensures ParseWorkflow(d, response) == DefaultWorkflow()
  {
    DecodeTiers(d, BracketSpan(response, '[', ']').value, '[');
  }

  /** A decoded array with an element that is not an object gives the
      default workflow: the element is not skipped. */
  lemma {:induction false} NonObjectElementGivesDefault(d: Decoder, response: string, items: seq<Json>, k: nat)
    requires BracketSpan(response, '[', ']').Some?
    requires DecodeTiered(d, BracketSpan(response, '[', ']').value, '[') == Some(JArr(items))
    requires k < |items| && !items[k].JObj?
    ensures ParseWorkflow(d, response) == DefaultWorkflow()
  {
    ConvertStepsSpec(items);
  }

  /** A decoded array of objects with well-typed fields gives one step per
      element, in order, with the defaults the source writes down. */
  lemma {:induction false} ArrayOfObjectsGivesSteps(d: Decoder, response: string, items: seq<Json>)
    requires BracketSpan(response, '[', ']').Some?
    requires DecodeTiered(d, BracketSpan(response, '[', ']').value, '[') == Some(JArr(items))
    requires forall k :: 0 <= k < |items| ==> items[k].JObj? && WellTyped(items[k].fields)
    ensures |ParseWorkflow(d, response)| == |items|
    ensures forall k :: 0 <= k < |items| ==> StepOf(items[k], k + 1) == Some(ParseWorkflow(d, response)[k])
  {
    ConvertStepsSpec(items);
  }

  /** A successfully decoded empty array gives no steps at all (not the
      default workflow). */
  lemma EmptyArrayGivesNoSteps(d: Decoder, response: string)
    requires BracketSpan(response, '[', ']').Some?
    requires DecodeTiered(d, BracketSpan(response, '[', ']').value, '[') == Some(JArr([]))
    ensures ParseWorkflow(d, response) == []
  {
  }

  // ----- template data extraction -----

  /** The extraction loop: every expected field missing from the decoded
      dict is added with the value "", in the order of `expected`. */
  function FillMissing(data: Dict, expected: seq<string>): Dict
  {
    if expected == [] then data
    else
      var filled := FillMissing(data, expected[..|expected| - 1]);
      var field := expected[|expected| - 1];
      if HasKey(filled, field) then filled else filled + [(field, JStr(""))]
  }

  /** FillMissing keeps the decoded entries as they were, in front, adds
      only missing expected fields with "", and leaves no expected field
      missing; it adds no duplicate key. */
  lemma {:induction false} FillMissingSpec(data: Dict, expected: seq<string>)
    ensures |FillMissing(data, expected)| >= |data|
    ensures FillMissing(data, expected)[..|data|] == data
    ensures forall k :: |data| <= k < |FillMissing(data, expected)| ==>
              FillMissing(data, expected)[k].1 == JStr("") &&
              FillMissing(data, expected)[k].0 in expected &&
              !HasKey(data, FillMissing(data, expected)[k].0)
    ensures forall f :: f in expected ==> HasKey(FillMissing(data, expected), f)
    ensures DistinctKeys(data) ==> DistinctKeys(FillMissing(data, expected))
  {
    if expected != [] {
      var init := expected[..|expected| - 1];
      FillMissingSpec(data, init);
      var filled := FillMissing(data, init);
      var field := expected[|expected| - 1];
      if !HasKey(filled, field) {
        var r := filled + [(field, JStr(""))];
        assert r[..|data|] == filled[..|data|];
        KeyOfPrefix(filled, data, field);
        forall f | f in expected ensures HasKey(r, f) {
          if f in init {
            var i :| 0 <= i < |filled| && filled[i].0 == f;
            assert r[i].0 == f;
          } else {
            assert r[|filled|].0 == f;
          }
        }
      } else {
        forall f | f in expected ensures HasKey(filled, f) {
          if f !in init { assert f == field; }
        }
      }
    }
  }

  lemma KeyOfPrefix(d: Dict, prefix: Dict, key: string)
    requires |prefix| <= |d| && d[..|prefix|] == prefix
    ensures HasKey(prefix, key) ==> HasKey(d, key)
  {
    if HasKey(prefix, key) {
      var i :| 0 <= i < |prefix| && prefix[i].0 == key;
      assert d[i] == prefix[i];
    }
  }

  /** `{field: "" for field in expected}`: the fallback of the extraction
      parser, the same dict as filling in an empty decoded dict. */
  function AllEmpty(expected: seq<string>): (r: Dict)
    ensures DistinctKeys(r)
    ensures forall f :: f in expected ==> HasKey(r, f)
    ensures forall k :: 0 <= k < |r| ==> r[k].0 in expected && r[k].1 == JStr("")
  {
    FillMissingSpec([], expected);
    FillMissing([], expected)
  }

  /** What `_parse_extraction_response` returns for a response. */
  function ParseExtraction(d: Decoder, response: string, expected: seq<string>): (r: Dict)
    ensures forall f :: f in expected ==> HasKey(r, f)
  {
    match BracketSpan(response, '{', '}')
    case None => AllEmpty(expected)
    case Some(span) =>
      match DecodeTiered(d, span, '{')
      case Some(JObj(fields)) => FillMissingSpec(fields, expected); FillMissing(fields, expected)
      case _ => AllEmpty(expected)
  }

  /** `_parse_extraction_response`: the decoded dict is updated in place,
      adding each missing expected field. */
  method ParseExtractionResponse(d: Decoder, response: string, expected: seq<string>)
    returns (extractedData: Dict)
    ensures extractedData == ParseExtraction(d, response, expected)
    ensures forall f :: f in expected ==> HasKey(extractedData, f)
  {
    var jsonMatch := BracketSpan(response, '{', '}');
    if jsonMatch.None? {
      return AllEmpty(expected);
    }
    var decoded := DecodeTiered(d, jsonMatch.value, '{');
    if decoded.None? || !decoded.value.JObj? {
      return AllEmpty(expected);
    }
    extractedData := decoded.value.fields;
    var i := 0;
    while i < |expected|
      invariant 0 <= i <= |expected|
      invariant extractedData == FillMissing(decoded.value.fields, expected[..i])
    {
      assert expected[..i + 1][..i] == expected[..i];
      if !HasKey(extractedData, expected[i]) {
        extractedData := extractedData + [(expected[i], JStr(""))];
      }
      i := i + 1;
    }
    assert expected[..i] == expected;
    FillMissingSpec(decoded.value.fields, expected);
  }

  /** On success the decoded entries, extra keys included, are kept unchanged
      in front; what follows are missing expected fields set to "". */
  lemma ExtractionKeepsDecodedEntries(d: Decoder, response: string, expected: seq<string>, fields: Dict)
    requires BracketSpan(response, '{', '}').Some?
    requires DecodeTiered(d, BracketSpan(response, '{', '}').value, '{') == Some(JObj(fields))
    ensures |ParseExtraction(d, response, expected)| >= |fields|
    ensures ParseExtraction(d, response, expected)[..|fields|] == fields
    ensures forall k :: |fields| <= k < |ParseExtraction(d, response, expected)| ==>
              ParseExtraction(d, response, expected)[k].1 == JStr("") &&
              ParseExtraction(d, response, expected)[k].0 in expected &&
              !HasKey(fields, ParseExtraction(d, response, expected)[k].0)
  {
    FillMissingSpec(fields, expected);
  }

  /** Without a `{...}` span, or when both tiers fail, every expected field
      maps to "" and nothing else is present. */
  lemma ExtractionFallback(d: Decoder, response: string, expected: seq<string>)
    requires BracketSpan(response, '{', '}').None? ||
             DecodeTiered(d, BracketSpan(response, '{', '}').value, '{').None?
    ensures forall f :: f in expected ==> HasKey(ParseExtraction(d, response, expected), f)
    ensures forall k :: 0 <= k < |ParseExtraction(d, response, expected)| ==>
              ParseExtraction(d, response, expected)[k].0 in expected &&
              ParseExtraction(d, response, expected)[k].1 == JStr("")
  {
  }

  // ----- the public entry points -----

  /** The language model, kept abstract: for a text (and context, or list
      of fields) the text it generates, or the message of the exception
      raised while loading or running it; and the JSON decoder. */
  datatype Inference = Inference(
    workflowText: (string, Option<string>) -> Result<string, string>,
    templateText: (string, seq<string>) -> Result<string, string>,
    decoder: Decoder)

  /** `extract_workflow_from_text`: the generated text, parsed. */
  function ExtractWorkflowFromText(inf: Inference, text: string, context: Option<string>): (r: Result<seq<WorkflowStep>, string>)
    ensures inf.workflowText(text, context).Err? <==> r.Err?
    ensures r.Ok? ==> r.value == ParseWorkflow(inf.decoder, inf.workflowText(text, context).value)
  {
    match inf.workflowText(text, context)
    case Err(e) => Err(e)
    case Ok(generated) => Ok(ParseWorkflow(inf.decoder, generated))
  }

  /** `extract_template_data`: the generated text, parsed. */
  function ExtractTemplateData(inf: Inference, text: string, fields: seq<string>): (r: Result<Dict, string>)
    ensures inf.templateText(text, fields).Err? <==> r.Err?
    ensures r.Ok? ==> r.value == ParseExtraction(inf.decoder, inf.templateText(text, fields).value, fields)
  {
    match inf.templateText(text, fields)
    case Err(e) => Err(e)
    case Ok(generated) => Ok(ParseExtraction(inf.decoder, generated, fields))
  }

  /** The parser returns no steps only when the response decoded to an
      empty array: every failure gives the three default steps instead. */
  lemma {:induction false} NoStepsOnlyFromEmptyArray(d: Decoder, response: string)
    requires ParseWorkflow(d, response) == []
    ensures BracketSpan(response, '[', ']').Some?
    ensures DecodeTiered(d, BracketSpan(response, '[', ']').value, '[') == Some(JArr([]))
  {
    var span := BracketSpan(response, '[', ']').value;
    var items := DecodeTiered(d, span, '[').value.items;
    ConvertStepsSpec(items);
  }
}
