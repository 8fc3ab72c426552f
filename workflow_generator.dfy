/** The BPMN emitter (backend/app/services/workflow_generator.py): workflow
    steps become the elements of an OMG BPMN 2.0 process (chapter 10 of the
    BPMN 2.0 specification) and the nodes and edges of a Graphviz digraph.
    Serialisation, rendering and the file system are outside; the element
    tree and the graph are the results. */
module WorkflowGenerator {
  import opened Wrappers
  import opened Strings
  import opened Config
  import opened Schemas

  const BPMN_NS := "http://www.omg.org/spec/BPMN/20100524/MODEL"
  const BPMNDI_NS := "http://www.omg.org/spec/BPMN/20100524/DI"
  const TARGET_NAMESPACE := "http://concilium.ai/workflows"

  /** An XML element as lxml builds it: a qualified tag, the namespace
      declarations it carries (prefix None for the default namespace), its
      attributes in the order given, its text and its children. */
  datatype Element = Element(
    tag: string,
    namespaces: seq<(Option<string>, string)>,
    attrs: seq<(string, string)>,
    text: Option<string>,
    children: seq<Element>)

  /** `{BPMN_NS}local`, the Clark notation lxml uses for a qualified tag. */
  function Q(local: string): string
  {
    "{" + BPMN_NS + "}" + local
  }

  lemma QInjective(a: string, b: string)
    ensures Q(a) == Q(b) <==> a == b
  {
    var pre := "{" + BPMN_NS + "}";
    assert Q(a)[|pre|..] == a;
    assert Q(b)[|pre|..] == b;
  }

  /** The element kind a step becomes: the lookup in `element_map`, with
      "task" for a type the map does not have. */
  function ElementKind(step: WorkflowStep): (kind: string)
    ensures step.stepType == "task" ==> kind == "task"
    ensures step.stepType == "event" ==>
              (kind == "startEvent" <==> Contains(Lower(step.name), "start")) &&
              (kind == "endEvent" <==> !Contains(Lower(step.name), "start"))
    ensures step.stepType in {"gateway", "decision"} ==> kind == "exclusiveGateway"
    ensures step.stepType !in {"task", "event", "gateway", "decision"} ==> kind == "task"
    ensures kind in {"task", "startEvent", "endEvent", "exclusiveGateway"}
  {
    var elementMap := map[
      "task" := "task",
      "event" := if Contains(Lower(step.name), "start") then "startEvent" else "endEvent",
      "gateway" := "exclusiveGateway",
      "decision" := "exclusiveGateway"];
    if step.stepType in elementMap then elementMap[step.stepType] else "task"
  }

  function Documentation(text: string): Element
  {
    Element(Q("documentation"), [], [], Some(text), [])
  }

  /** The element `_add_bpmn_element` appends for a step. */
  function StepElement(step: WorkflowStep): (e: Element)
    ensures e.tag == Q(ElementKind(step))
    ensures e.attrs == [("id", step.stepId), ("name", step.name)]
    ensures e.children != [] <==> step.description != ""
    ensures e.children != [] ==> e.children == [Documentation(step.description)]
  {
    Element(Q(ElementKind(step)), [], [("id", step.stepId), ("name", step.name)], None,
            if step.description != "" then [Documentation(step.description)] else [])
  }

  /** The `(source, target)` pair of every `next_steps` entry of one step. */
  function OutLinks(step: WorkflowStep): seq<(string, string)>
  {
    seq(|step.nextSteps|, k requires 0 <= k < |step.nextSteps| => (step.stepId, step.nextSteps[k]))
  }

  /** The links of all steps, step by step, in `next_steps` order. */
  function Links(steps: seq<WorkflowStep>): seq<(string, string)>
  {
    if steps == [] then [] else Links(steps[..|steps| - 1]) + OutLinks(steps[|steps| - 1])
  }

  /** The sum of the lengths of the `next_steps` lists. */
  function TotalNext(steps: seq<WorkflowStep>): nat
  {
    if steps == [] then 0 else TotalNext(steps[..|steps| - 1]) + |steps[|steps| - 1].nextSteps|
  }

  lemma LinksSnoc(steps: seq<WorkflowStep>, i: nat)
    requires i < |steps|
    ensures Links(steps[..i + 1]) == Links(steps[..i]) + OutLinks(steps[i])
    ensures TotalNext(steps[..i + 1]) == TotalNext(steps[..i]) + |steps[i].nextSteps|
  {
    assert steps[..i + 1][..i] == steps[..i];
  }

  lemma {:induction false} LinksLength(steps: seq<WorkflowStep>)
    ensures |Links(steps)| == TotalNext(steps)
  {
    if steps != [] {
      LinksLength(steps[..|steps| - 1]);
    }
  }

  /** The k-th `next_steps` entry of step i is link number
      TotalNext(steps[..i]) + k. */
  lemma {:induction false} LinkAt(steps: seq<WorkflowStep>, i: nat, k: nat)
    requires i < |steps| && k < |steps[i].nextSteps|
    ensures TotalNext(steps[..i]) + k < |Links(steps)|
    ensures Links(steps)[TotalNext(steps[..i]) + k] == (steps[i].stepId, steps[i].nextSteps[k])
  {
    var n := |steps|;
    var init := steps[..n - 1];
    LinksLength(init);
    if i < n - 1 {
      LinkAt(init, i, k);
      assert init[..i] == steps[..i];
      assert init[i] == steps[i];
    } else {
      assert steps[..i] == init;
      assert OutLinks(steps[i])[k] == (steps[i].stepId, steps[i].nextSteps[k]);
    }
  }

  /** Exactly one link per `next_steps` entry: the k-th entry of step i is
      link number TotalNext(steps[..i]) + k, and there are no others. */
  lemma LinksSpec(steps: seq<WorkflowStep>)
    ensures |Links(steps)| == TotalNext(steps)
    ensures forall i, k :: 0 <= i < |steps| && 0 <= k < |steps[i].nextSteps| ==>
              LinkIndex(steps, i, k) < |Links(steps)| &&
              Links(steps)[LinkIndex(steps, i, k)] == (steps[i].stepId, steps[i].nextSteps[k])
  {
    LinksLength(steps);
    forall i, k | 0 <= i < |steps| && 0 <= k < |steps[i].nextSteps|
      ensures LinkIndex(steps, i, k) < |Links(steps)| &&
              Links(steps)[LinkIndex(steps, i, k)] == (steps[i].stepId, steps[i].nextSteps[k])
    {
      LinkAt(steps, i, k);
    }
  }

  /** Where the k-th `next_steps` entry of step i lands among the links. */
  function LinkIndex(steps: seq<WorkflowStep>, i: int, k: int): int
    requires 0 <= i <= |steps|
  {
    TotalNext(steps[..i]) + k
  }

  lemma FlowsAppend(a: seq<(string, string)>, b: seq<(string, string)>)
    ensures Flows(a + b) == Flows(a) + Flows(b)
  {
  }

  /** The sequence flow for one link. */
  function FlowElement(source: string, target: string): Element
  {
    Element(Q("sequenceFlow"), [],
            [("id", "flow_" + source + "_to_" + target), ("sourceRef", source), ("targetRef", target)],
            None, [])
  }

  function Flows(links: seq<(string, string)>): seq<Element>
  {
    seq(|links|, k requires 0 <= k < |links| => FlowElement(links[k].0, links[k].1))
  }

  function StepElements(steps: seq<WorkflowStep>): seq<Element>
  {
    seq(|steps|, i requires 0 <= i < |steps| => StepElement(steps[i]))
  }

  /** The number of elements of a list with the given tag. */
  function CountTag(es: seq<Element>, tag: string): nat
  {
    if es == [] then 0 else (if es[0].tag == tag then 1 else 0) + CountTag(es[1..], tag)
  }

  lemma {:induction false} CountTagAppend(a: seq<Element>, b: seq<Element>, tag: string)
    ensures CountTag(a + b, tag) == CountTag(a, tag) + CountTag(b, tag)
  {
    if a == [] {
      assert a + b == b;
    } else {
      assert (a + b)[1..] == a[1..] + b;
      CountTagAppend(a[1..], b, tag);
    }
  }

  lemma {:induction false} CountFlows(links: seq<(string, string)>)
    ensures CountTag(Flows(links), Q("sequenceFlow")) == |links|
  {
    if links != [] {
      assert Flows(links)[1..] == Flows(links[1..]);
      CountFlows(links[1..]);
    }
  }

  lemma {:induction false} CountStepElements(steps: seq<WorkflowStep>)
    ensures CountTag(StepElements(steps), Q("sequenceFlow")) == 0
  {
    if steps != [] {
      QInjective(ElementKind(steps[0]), "sequenceFlow");
      assert StepElements(steps)[1..] == StepElements(steps[1..]);
      CountStepElements(steps[1..]);
    }
  }

  /** The children of the process element: the documentation when the
      description is non-empty, then every step, then every flow. */
  function ProcessChildren(steps: seq<WorkflowStep>, description: string): seq<Element>
  {
    (if description != "" then [Documentation(description)] else []) + StepElements(steps) + Flows(Links(steps))
  }

  /** The process has one `sequenceFlow` child per `next_steps` entry of
      every step, dangling targets included. */
  lemma FlowCount(steps: seq<WorkflowStep>, description: string)
    ensures CountTag(ProcessChildren(steps, description), Q("sequenceFlow")) == TotalNext(steps)
  {
    var doc: seq<Element> := if description != "" then [Documentation(description)] else [];
    QInjective("documentation", "sequenceFlow");
    assert CountTag(doc, Q("sequenceFlow")) == 0 by {
      if doc != [] { assert doc[1..] == []; }
    }
    CountTagAppend(doc, StepElements(steps), Q("sequenceFlow"));
    CountTagAppend(doc + StepElements(steps), Flows(Links(steps)), Q("sequenceFlow"));
    CountStepElements(steps);
    CountFlows(Links(steps));
    LinksSpec(steps);
  }

  /** The first child of the process is a documentation element exactly
      when the description is non-empty. */
  lemma DocumentationFirst(steps: seq<WorkflowStep>, description: string)
    ensures var cs := ProcessChildren(steps, description);
            (|cs| > 0 && cs[0].tag == Q("documentation")) <==> description != ""
  {
    var cs := ProcessChildren(steps, description);
    if description == "" && |steps| > 0 {
      assert cs[0] == StepElement(steps[0]);
      QInjective(ElementKind(steps[0]), "documentation");
    }
  }

  function XmlPath(workflowId: string): string
  {
    PathJoin(WORKFLOW_OUTPUT_DIR, "workflow_" + workflowId + ".xml")
  }

  function DiagramPath(workflowId: string): string
  {
    PathJoin(WORKFLOW_OUTPUT_DIR, "workflow_" + workflowId + "." + DIAGRAM_FORMAT)
  }

  /** The first loop of `_generate_bpmn_xml`: one element per step, in
      order. */
  method AppendStepElements(children: seq<Element>, steps: seq<WorkflowStep>) returns (result: seq<Element>)
    ensures result == children + StepElements(steps)
  {
    result := children;
    for i := 0 to |steps|
      invariant result == children + StepElements(steps[..i])
    {
      assert StepElements(steps[..i + 1]) == StepElements(steps[..i]) + [StepElement(steps[i])];
      result := result + [StepElement(steps[i])];
    }
    assert steps[..|steps|] == steps;
  }

  /** The second loop of `_generate_bpmn_xml`: for every step in order and
      every entry of its `next_steps`, one sequence flow is appended. */
  method AppendFlows(children: seq<Element>, steps: seq<WorkflowStep>) returns (result: seq<Element>)
    ensures result == children + Flows(Links(steps))
  {
    result := children;
    for i := 0 to |steps|
      invariant result == children + Flows(Links(steps[..i]))
    {
      var step := steps[i];
      ghost var done := Links(steps[..i]);
      for j := 0 to |step.nextSteps|
        invariant result == children + Flows(done + OutLinks(step)[..j])
      {
        var link := (step.stepId, step.nextSteps[j]);
        assert done + OutLinks(step)[..j + 1] == (done + OutLinks(step)[..j]) + [link];
        FlowsAppend(done + OutLinks(step)[..j], [link]);
        result := result + [FlowElement(step.stepId, step.nextSteps[j])];
      }
      assert OutLinks(step)[..|step.nextSteps|] == OutLinks(step);
      LinksSnoc(steps, i);
    }
    assert steps[..|steps|] == steps;
  }

  /** `_generate_bpmn_xml`: the definitions root with one process child,
      which is grown by appending the documentation, every step element and
      then, step by step, one flow per `next_steps` entry. */
  method GenerateBpmnXml(workflowId: string, steps: seq<WorkflowStep>, name: string, description: string)
    returns (definitions: Element, xmlPath: string)
    ensures definitions.tag == Q("definitions")
    ensures definitions.namespaces == [(None, BPMN_NS), (Some("bpmndi"), BPMNDI_NS)]
    ensures definitions.attrs == [("id", "definitions_" + workflowId), ("targetNamespace", TARGET_NAMESPACE)]
    ensures |definitions.children| == 1
    ensures definitions.children[0].tag == Q("process")
    ensures definitions.children[0].attrs ==
              [("id", "process_" + workflowId), ("name", name), ("isExecutable", "false")]
    ensures definitions.children[0].children == ProcessChildren(steps, description)
    ensures xmlPath == XmlPath(workflowId)
  {
    var children: seq<Element> := [];
    if description != "" {
      children := [Documentation(description)];
    }
    children := AppendStepElements(children, steps);
    children := AppendFlows(children, steps);
    var process := Element(Q("process"), [],
                           [("id", "process_" + workflowId), ("name", name), ("isExecutable", "false")],
                           None, children);
    definitions := Element(Q("definitions"), [(None, BPMN_NS), (Some("bpmndi"), BPMNDI_NS)],
                           [("id", "definitions_" + workflowId), ("targetNamespace", TARGET_NAMESPACE)],
                           None, [process]);
    xmlPath := XmlPath(workflowId);
  }

  // ----- the Graphviz diagram -----

  /** The node attributes `_generate_diagram` passes for a step; a step that
      is neither an event nor a gateway keeps the default box shape. */
  function NodeAttrs(step: WorkflowStep): seq<(string, string)>
  {
    if step.stepType == "event" then
      [("shape", "ellipse"),
       ("fillcolor", if Contains(Lower(step.name), "start") then "lightgreen" else "lightcoral")]
    else if step.stepType in ["gateway", "decision"] then
      [("shape", "diamond"), ("fillcolor", "lightyellow")]
    else
      [("fillcolor", "lightblue")]
  }

  /** The shape and colour a node is drawn with: its own attributes over
      the graph's node defaults. */
  datatype Style = Style(shape: string, fillcolor: string)

  const NODE_DEFAULTS: seq<(string, string)> := [("shape", "box"), ("style", "rounded,filled"), ("fillcolor", "lightblue")]

  function Lookup(attrs: seq<(string, string)>, key: string): Option<string>
  {
    if attrs == [] then None
    else if attrs[0].0 == key then Some(attrs[0].1)
    else Lookup(attrs[1..], key)
  }

  function Effective(own: seq<(string, string)>, key: string): string
  {
    match Lookup(own, key)
    case Some(v) => v
    case None => match Lookup(NODE_DEFAULTS, key) case Some(v) => v case None => ""
  }

  /** The style a step's node is drawn with: an ellipse, green for a start
      and coral otherwise, for an event; a yellow diamond for a gateway or
      decision; the default light-blue box for anything else. */
  function NodeStyle(step: WorkflowStep): (style: Style)
    ensures step.stepType == "event" ==>
              style == Style("ellipse", if Contains(Lower(step.name), "start") then "lightgreen" else "lightcoral")
    ensures step.stepType in ["gateway", "decision"] ==> style == Style("diamond", "lightyellow")
    ensures step.stepType != "event" && step.stepType !in ["gateway", "decision"] ==>
              style == Style("box", "lightblue")
  {
    EffectiveAttrs(step);
    Style(Effective(NodeAttrs(step), "shape"), Effective(NodeAttrs(step), "fillcolor"))
  }

  /** The own attributes, over the defaults, case by case. */
  lemma EffectiveAttrs(step: WorkflowStep)
    ensures step.stepType == "event" ==>
              && Effective(NodeAttrs(step), "shape") == "ellipse"
              && Effective(NodeAttrs(step), "fillcolor") ==
                   if Contains(Lower(step.name), "start") then "lightgreen" else "lightcoral"
    ensures step.stepType in ["gateway", "decision"] ==>
              Effective(NodeAttrs(step), "shape") == "diamond" &&
              Effective(NodeAttrs(step), "fillcolor") == "lightyellow"
    ensures step.stepType != "event" && step.stepType !in ["gateway", "decision"] ==>
              Effective(NodeAttrs(step), "shape") == "box" &&
              Effective(NodeAttrs(step), "fillcolor") == "lightblue"
  {
    var own := NodeAttrs(step);
    assert NODE_DEFAULTS[1..][1..] == [("fillcolor", "lightblue")];
    if step.stepType == "event" {
      assert own[1..] == [own[1]];
      assert Lookup(own, "fillcolor") == Some(own[1].1);
    } else if step.stepType in ["gateway", "decision"] {
      assert own == [("shape", "diamond"), ("fillcolor", "lightyellow")];
      assert own[1..] == [("fillcolor", "lightyellow")];
      assert Lookup(own, "shape") == Some("diamond");
      assert Lookup(own, "fillcolor") == Lookup(own[1..], "fillcolor") == Some("lightyellow");
    } else {
      assert own[1..] == [];
      assert Lookup(own, "shape") == None;
      assert Lookup(NODE_DEFAULTS, "shape") == Some("box");
    }
  }

  /** The drawing agrees with the BPMN kind: an ellipse exactly for events,
      green exactly for start events, a yellow diamond exactly for gateways,
      a light-blue box exactly for tasks. */
  lemma StyleMatchesKind(step: WorkflowStep)
    ensures NodeStyle(step).shape == "ellipse" <==> ElementKind(step) in {"startEvent", "endEvent"}
    ensures NodeStyle(step).fillcolor == "lightgreen" <==> ElementKind(step) == "startEvent"
    ensures NodeStyle(step).fillcolor == "lightcoral" <==> ElementKind(step) == "endEvent"
    ensures NodeStyle(step) == Style("diamond", "lightyellow") <==> ElementKind(step) == "exclusiveGateway"
    ensures NodeStyle(step) == Style("box", "lightblue") <==> ElementKind(step) == "task"
  {
    if step.stepType == "event" {
      assert ElementKind(step) in {"startEvent", "endEvent"};
    } else if step.stepType in ["gateway", "decision"] {
      assert ElementKind(step) == "exclusiveGateway";
    }
  }

  datatype GraphNode = GraphNode(name: string, caption: string, attrs: seq<(string, string)>)

  /** The `graphviz.Digraph` being built: its comment, graph and node
      default attributes, and the nodes and edges added so far. */
  class Digraph {
    var comment: string
    var graphAttrs: seq<(string, string)>
    var nodeAttrs: seq<(string, string)>
    var nodes: seq<GraphNode>
    var edges: seq<(string, string)>

    constructor (comment: string)
      ensures this.comment == comment
      ensures graphAttrs == [] && nodeAttrs == [] && nodes == [] && edges == []
    {
      this.comment := comment;
      graphAttrs := [];
      nodeAttrs := [];
      nodes := [];
      edges := [];
    }

    method GraphAttr(attrs: seq<(string, string)>)
      modifies this
      ensures graphAttrs == old(graphAttrs) + attrs
      ensures comment == old(comment) && nodeAttrs == old(nodeAttrs)
      ensures nodes == old(nodes) && edges == old(edges)
    {
      graphAttrs := graphAttrs + attrs;
    }

    method NodeAttr(attrs: seq<(string, string)>)
      modifies this
      ensures nodeAttrs == old(nodeAttrs) + attrs
      ensures comment == old(comment) && graphAttrs == old(graphAttrs)
      ensures nodes == old(nodes) && edges == old(edges)
    {
      nodeAttrs := nodeAttrs + attrs;
    }

    method Node(name: string, caption: string, attrs: seq<(string, string)>)
      modifies this
      ensures nodes == old(nodes) + [GraphNode(name, caption, attrs)]
      ensures comment == old(comment) && graphAttrs == old(graphAttrs)
      ensures nodeAttrs == old(nodeAttrs) && edges == old(edges)
    {
      nodes := nodes + [GraphNode(name, caption, attrs)];
    }

    method Edge(tail: string, head: string)
      modifies this
      ensures edges == old(edges) + [(tail, head)]
      ensures comment == old(comment) && graphAttrs == old(graphAttrs)
      ensures nodeAttrs == old(nodeAttrs) && nodes == old(nodes)
    {
      edges := edges + [(tail, head)];
    }
  }

  function GraphNodes(steps: seq<WorkflowStep>): seq<GraphNode>
  {
    seq(|steps|, i requires 0 <= i < |steps| => GraphNode(steps[i].stepId, steps[i].name, NodeAttrs(steps[i])))
  }

  /** `_generate_diagram`: one node per step, in order, then one edge per
      `next_steps` entry; the rendered file's path is returned. */
  method GenerateDiagram(workflowId: string, steps: seq<WorkflowStep>, name: string)
    returns (dot: Digraph, diagramPath: string)
    ensures fresh(dot)
    ensures dot.comment == name
    ensures dot.graphAttrs == [("rankdir", "TB")]
    ensures dot.nodeAttrs == NODE_DEFAULTS
    ensures dot.nodes == GraphNodes(steps)
    ensures dot.edges == Links(steps)
    ensures diagramPath == DiagramPath(workflowId)
  {
    dot := new Digraph(name);
    dot.GraphAttr([("rankdir", "TB")]);
    dot.NodeAttr(NODE_DEFAULTS);
    AddNodes(dot, steps);
    AddEdges(dot, steps);
    diagramPath := DiagramPath(workflowId);
  }

  /** The node loop of `_generate_diagram`: the shape and colour of each
      step's node follow its type. */
  method AddNodes(dot: Digraph, steps: seq<WorkflowStep>)
    modifies dot
    ensures dot.nodes == old(dot.nodes) + GraphNodes(steps)
    ensures dot.comment == old(dot.comment) && dot.graphAttrs == old(dot.graphAttrs)
    ensures dot.nodeAttrs == old(dot.nodeAttrs) && dot.edges == old(dot.edges)
  {
    for i := 0 to |steps|
      invariant dot.nodes == old(dot.nodes) + GraphNodes(steps[..i])
      invariant dot.comment == old(dot.comment) && dot.graphAttrs == old(dot.graphAttrs)
      invariant dot.nodeAttrs == old(dot.nodeAttrs) && dot.edges == old(dot.edges)
    {
      var step := steps[i];
      if step.stepType == "event" {
        dot.Node(step.stepId, step.name,
                 [("shape", "ellipse"),
                  ("fillcolor", if Contains(Lower(step.name), "start") then "lightgreen" else "lightcoral")]);
      } else if step.stepType in ["gateway", "decision"] {
        dot.Node(step.stepId, step.name, [("shape", "diamond"), ("fillcolor", "lightyellow")]);
      } else {
        dot.Node(step.stepId, step.name, [("fillcolor", "lightblue")]);
      }
      assert GraphNodes(steps[..i + 1]) == GraphNodes(steps[..i]) + [GraphNode(step.stepId, step.name, NodeAttrs(step))];
    }
    assert steps[..|steps|] == steps;
  }

  /** The edge loop of `_generate_diagram`: one edge per `next_steps` entry,
      step by step. */
  method AddEdges(dot: Digraph, steps: seq<WorkflowStep>)
    modifies dot
    ensures dot.edges == old(dot.edges) + Links(steps)
    ensures dot.comment == old(dot.comment) && dot.graphAttrs == old(dot.graphAttrs)
    ensures dot.nodeAttrs == old(dot.nodeAttrs) && dot.nodes == old(dot.nodes)
  {
    for i := 0 to |steps|
      invariant dot.edges == old(dot.edges) + Links(steps[..i])
      invariant dot.comment == old(dot.comment) && dot.graphAttrs == old(dot.graphAttrs)
      invariant dot.nodeAttrs == old(dot.nodeAttrs) && dot.nodes == old(dot.nodes)
    {
      var step := steps[i];
      LinksSnoc(steps, i);
      for j := 0 to |step.nextSteps|
        invariant dot.edges == old(dot.edges) + Links(steps[..i]) + OutLinks(step)[..j]
        invariant dot.comment == old(dot.comment) && dot.graphAttrs == old(dot.graphAttrs)
        invariant dot.nodeAttrs == old(dot.nodeAttrs) && dot.nodes == old(dot.nodes)
      {
        assert OutLinks(step)[..j + 1] == OutLinks(step)[..j] + [(step.stepId, step.nextSteps[j])];
        dot.Edge(step.stepId, step.nextSteps[j]);
      }
      assert OutLinks(step)[..|step.nextSteps|] == OutLinks(step);
    }
    assert steps[..|steps|] == steps;
  }

  /** `generate_workflow`: the XML and the diagram, gathered into one record
      under the identifier and timestamp supplied by the caller. Writing
      the XML file and rendering the diagram are done by libraries; the
      message either raises, if it does, is passed in and re-raised, and a
      failed write stops before the diagram is drawn. */
  method GenerateWorkflow(workflowId: string, steps: seq<WorkflowStep>, name: string, description: string,
                          createdAt: string, writeFailure: Option<string>, renderFailure: Option<string>)
    returns (r: Result<WorkflowDiagram, string>)
    ensures writeFailure.Some? ==> r == Err(writeFailure.value)
    ensures writeFailure.None? && renderFailure.Some? ==> r == Err(renderFailure.value)
    ensures writeFailure.None? && renderFailure.None? ==>
              r == Ok(WorkflowDiagram(workflowId, name, description, steps, None,
                                      XmlPath(workflowId), Some(DiagramPath(workflowId)), createdAt))
  {
    var definitions, xmlPath := GenerateBpmnXml(workflowId, steps, name, description);
    if writeFailure.Some? {
      return Err(writeFailure.value);
    }
    var dot, diagramPath := GenerateDiagram(workflowId, steps, name);
    if renderFailure.Some? {
      return Err(renderFailure.value);
    }
    r := Ok(WorkflowDiagram(workflowId, name, description, steps, None, xmlPath, Some(diagramPath), createdAt));
  }

  /** `get_workflow`: nothing unless the XML file exists; otherwise a record
      naming the files, with the diagram only when that file exists. */
  function GetWorkflow(workflowId: string, fileExists: string -> bool, createdAt: string): (r: Option<WorkflowDiagram>)
    ensures r.None? <==> !fileExists(XmlPath(workflowId))
    ensures r.Some? ==> r.value.workflowId == workflowId && r.value.name == "Retrieved Workflow" &&
                        r.value.steps == [] && r.value.xmlPath == XmlPath(workflowId)
    ensures r.Some? ==> (r.value.diagramPath.Some? <==> fileExists(DiagramPath(workflowId)))
    ensures r.Some? && r.value.diagramPath.Some? ==> r.value.diagramPath.value == DiagramPath(workflowId)
  {
    if !fileExists(XmlPath(workflowId)) then None
    else
      Some(WorkflowDiagram(workflowId, "Retrieved Workflow", "", [], None, XmlPath(workflowId),
                           if fileExists(DiagramPath(workflowId)) then Some(DiagramPath(workflowId)) else None,
                           createdAt))
  }
}
