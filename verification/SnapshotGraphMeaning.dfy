/**
 The graph that a snapshot document describes, read off its JSON fields by name, and the settings
 that a document may hold.
 */
module SnapshotGraphMeaning {
  import opened Wrappers
  import opened FrozenJson
  import opened SnapshotDocument
  import opened SnapshotMeaning
  import SnapshotModel

  // --- settings ---

  /** The fields of an execution, which no settings may hold at any depth. */
  predicate IsExecutionField(text: Text) {
    || text == Points("jobId") || text == Points("pipelineAttempt") || text == Points("executionAttempt")
    || text == Points("stateVersion") || text == Points("workspaceId") || text == Points("toolCallId")
    || text == Points("traceId")
  }

  lemma ExecutionFieldsAreNamed(text: Text)
    ensures text in EXECUTION_FIELDS <==> IsExecutionField(text)
  {
  }

  predicate KeyIsAllowed(key: Key) {
    && key.Name? && !IsExecutionField(key.text)
    && forall i | 0 <= i < |key.text| :: !(0xD800 <= key.text[i] <= 0xDFFF)
  }

  /** A part of some settings, taken alone: a JSON value with valid texts, finite numbers and allowed keys. */
  ghost predicate PartIsAllowed(part: Value) {
    match part
    case Null => true
    case Flag(_) => true
    case Whole(_) => true
    case String(text) => forall i | 0 <= i < |text| :: !(0xD800 <= text[i] <= 0xDFFF)
    case Float(isFinite, _) => isFinite
    case List(_) => true
    case Dict(entries) => forall i | 0 <= i < |entries| :: KeyIsAllowed(entries[i].key)
    case ReadOnly(entries) => forall i | 0 <= i < |entries| :: KeyIsAllowed(entries[i].key)
    case Tuple(_) => false
    case Foreign(_) => false
  }

  /** Every part of the tree is allowed, and none is more than 64 levels deep. */
  ghost predicate TreeIsAllowed(value: Value) {
    forall path {:trigger At(value, path)} :: At(value, path).Some? ==>
      |path| <= 64 && PartIsAllowed(At(value, path).value)
  }

  lemma KeyAgrees(key: Key)
    ensures KeyIsSafe(key) <==> KeyIsAllowed(key)
  {
    if key.Name? {
      ExecutionFieldsAreNamed(key.text);
    }
  }

  lemma PartAgrees(part: Value)
    ensures PartIsSafe(part) <==> PartIsAllowed(part)
  {
    if IsMapping(part) {
      forall i | 0 <= i < |part.entries| ensures KeyIsSafe(part.entries[i].key) <==> KeyIsAllowed(part.entries[i].key) {
        KeyAgrees(part.entries[i].key);
      }
    }
  }

  lemma TreeAgrees(value: Value)
    ensures TreeIsSafe(value, 0) <==> TreeIsAllowed(value)
  {
    forall path | At(value, path).Some?
      ensures PartIsSafe(At(value, path).value) <==> PartIsAllowed(At(value, path).value)
    {
      PartAgrees(At(value, path).value);
    }
  }

  /** What an object of settings may hold. */
  ghost predicate SettingsAreAllowed(v: Value) {
    && IsMapping(v)
    && forall i | 0 <= i < |v.entries| :: KeyIsAllowed(v.entries[i].key) && TreeIsAllowed(v.entries[i].value)
  }

  /** Settings are taken exactly when every part of them is allowed, at every depth up to 64. */
  lemma SettingsFreezeExactly(v: Value)
    ensures FreezeObject(v).Some? <==> SettingsAreAllowed(v)
  {
    if IsMapping(v) {
      EntriesFreeze(v.entries, 0);
      forall i | 0 <= i < |v.entries|
        ensures KeyIsSafe(v.entries[i].key) <==> KeyIsAllowed(v.entries[i].key)
        ensures Freeze(v.entries[i].value, 0).Some? <==> TreeIsAllowed(v.entries[i].value)
      {
        KeyAgrees(v.entries[i].key);
        FreezeIsExact(v.entries[i].value, 0);
        TreeAgrees(v.entries[i].value);
      }
    }
  }

  lemma FlagsFreezeAlone(value: Value)
    requires Freeze(value, 0).Some?
    ensures Freeze(value, 0) == Some(Flag(true)) <==> value == Flag(true)
  {
  }

  /** A flag set in the settings is set in the frozen form, and no other. */
  lemma FlagsStay(settings: Value, frozen: Value, name: string)
    requires FreezeObject(settings) == Some(frozen)
    ensures HasEntry(frozen, name, Flag(true)) <==> HasEntry(settings, name, Flag(true))
  {
    EntriesFreeze(settings.entries, 0);
    forall k | 0 <= k < |settings.entries|
      ensures frozen.entries[k] == Entry(Name(Points(name)), Flag(true)) && IsFirst(frozen.entries, k)
        <==> settings.entries[k] == Entry(Name(Points(name)), Flag(true)) && IsFirst(settings.entries, k)
    {
      FlagsFreezeAlone(settings.entries[k].value);
    }
  }

  // --- the graph ---

  function TypeName(kind: SnapshotModel.NodeType): string {
    match kind
    case Start => "start"
    case Agent => "agent"
    case Tool => "tool"
    case Approval => "approval"
    case Check => "check"
    case Guardrail => "guardrail"
    case End => "end"
  }

  function PortList(ports: seq<string>): Value {
    List(seq(|ports|, i requires 0 <= i < |ports| => String(Points(ports[i]))))
  }

  /** The node of the graph is what the node's object says. */
  ghost predicate IsNodeOf(v: Value, n: SnapshotModel.SnapshotNode) {
    && HasEntry(v, "id", String(Points(n.id)))
    && HasEntry(v, "type", String(Points(TypeName(n.kind))))
    && HasEntry(v, "resultPorts", PortList(n.ports))
    && exists settings :: HasEntry(v, "config", settings) && (n.locked <==> HasEntry(settings, "locked", Flag(true)))
  }

  /** The edge of the graph leads from "from" by "resultPort" to "to". */
  ghost predicate IsEdgeOf(v: Value, e: SnapshotModel.Edge) {
    && HasEntry(v, "from", String(Points(e.source)))
    && HasEntry(v, "resultPort", String(Points(e.port)))
    && HasEntry(v, "to", String(Points(e.target)))
  }

  ghost predicate IsLimitOf(v: Value, limit: SnapshotModel.LoopLimit) {
    IsEdgeOf(v, limit.route) && HasEntry(v, "maxIterations", Whole(limit.maxIterations))
  }

  lemma TextsStay(text: Text)
    requires IsIdentifier(text)
    ensures Points(AsString(text)) == text
  {
    assert forall i | 0 <= i < |text| :: IsWord(text[i]);
  }

  lemma StringsStay(name: string)
    requires forall i | 0 <= i < |name| :: name[i] as int < 0x80
    ensures AsString(Points(name)) == name
  {
  }

  lemma EdgeIsDrawn(v: Value, e: EdgeDoc)
    requires EdgeReads(v, e)
    ensures IsEdgeOf(v, GraphEdge(e))
  {
    TextsStay(e.source);
    TextsStay(e.port);
    TextsStay(e.target);
  }

  lemma LimitIsDrawn(v: Value, limit: LimitDoc)
    requires LimitReads(v, limit)
    ensures IsLimitOf(v, GraphLimit(limit))
  {
    TextsStay(limit.route.source);
    TextsStay(limit.route.port);
    TextsStay(limit.route.target);
  }

  lemma TypeIsNamed(kind: Text)
    requires IsNodeType(kind)
    ensures kind == Points(TypeName(NodeTypeOf(kind)))
  {
    assert NODE_TYPES[0] == Points("start") && NODE_TYPES[1] == Points("agent") && NODE_TYPES[2] == Points("tool")
        && NODE_TYPES[3] == Points("approval") && NODE_TYPES[4] == Points("check")
        && NODE_TYPES[5] == Points("guardrail") && NODE_TYPES[6] == Points("end");
  }

  lemma NodeIsDrawn(v: Value, n: NodeDoc)
    requires NodeReads(v, n)
    ensures IsNodeOf(v, GraphNode(n))
  {
    var settings :| NodeReadsWith(v, n, settings);
    TextsStay(n.id);
    TypeIsNamed(n.kind);
    forall i | 0 <= i < |n.ports| ensures Points(AsString(n.ports[i])) == n.ports[i] {
      TextsStay(n.ports[i]);
    }
    assert PortList(GraphNode(n).ports) == List(Strings(n.ports));
    FlagsStay(settings, n.config, "locked");
    EntryIsLookup(n.config, "locked", Flag(true));
  }

  /** The parts of a document's object that the graph is drawn from. */
  datatype Parts = Parts(nodes: seq<Value>, edges: seq<Value>, config: Value, limits: seq<Value>, model: Value)

  ghost predicate IsGraphWith(v: Value, g: SnapshotModel.Snapshot, p: Parts) {
    && HasEntry(v, "nodes", List(p.nodes)) && HasEntry(v, "edges", List(p.edges)) && HasEntry(v, "config", p.config)
    && HasEntry(v, "modelBindings", p.model)
    && HasEntry(p.config, "loopLimits", List(p.limits)) && HasEntry(p.config, "maxNodes", Whole(g.maxNodes))
    && ItemsAreDrawn(p.nodes, p.edges, p.limits, g)
    && IsMapping(p.model) && (forall id :: id in g.modelBindings <==> IsBound(p.model, id))
  }

  /** The graph is the one that the document's object describes, field by field. */
  ghost predicate IsGraphOf(v: Value, g: SnapshotModel.Snapshot) {
    exists p :: IsGraphWith(v, g, p)
  }

  ghost predicate ItemsAreDrawn(
    nodes: seq<Value>, edges: seq<Value>, limits: seq<Value>, g: SnapshotModel.Snapshot) {
    && |nodes| == |g.nodes| && (forall i | 0 <= i < |nodes| :: IsNodeOf(nodes[i], g.nodes[i]))
    && |edges| == |g.edges| && (forall i | 0 <= i < |edges| :: IsEdgeOf(edges[i], g.edges[i]))
    && |limits| == |g.limits| && (forall i | 0 <= i < |limits| :: IsLimitOf(limits[i], g.limits[i]))
  }

  /** The object has an entry under this name. */
  ghost predicate IsBound(model: Value, id: string)
    requires IsMapping(model)
  {
    exists i :: 0 <= i < |model.entries| && model.entries[i].key == Name(Points(id))
  }

  lemma BindingsAreDrawn(model: Value, d: Document, id: string)
    requires BindingsRead(model, d.modelBindings)
    ensures id in GraphOf(d).modelBindings <==> IsBound(model, id)
  {
    if id in GraphOf(d).modelBindings {
      var i :| 0 <= i < |d.modelBindings| && d.modelBindings[i].key.Name? && AsString(d.modelBindings[i].key.text) == id;
      assert BindingReads(model.entries[i], d.modelBindings[i]);
      TextsStay(d.modelBindings[i].key.text);
    }
    if IsBound(model, id) {
      var i :| 0 <= i < |model.entries| && model.entries[i].key == Name(Points(id));
      assert BindingReads(model.entries[i], d.modelBindings[i]);
      assert forall j | 0 <= j < |id| :: IsWord(Points(id)[j]) && id[j] as int == Points(id)[j];
      StringsStay(id);
      assert d.modelBindings[i].key.Name? && AsString(d.modelBindings[i].key.text) == id;
    }
  }

  lemma ItemsDraw(d: Document, s: Sources, limits: seq<Value>)
    requires NodesRead(s.nodes, d.nodes) && EdgesRead(s.edges, d.edges) && LimitsRead(limits, d.limits)
    ensures ItemsAreDrawn(s.nodes, s.edges, limits, GraphOf(d))
  {
    forall i | 0 <= i < |s.nodes| ensures IsNodeOf(s.nodes[i], GraphOf(d).nodes[i]) {
      NodeIsDrawn(s.nodes[i], d.nodes[i]);
    }
    forall i | 0 <= i < |s.edges| ensures IsEdgeOf(s.edges[i], GraphOf(d).edges[i]) {
      EdgeIsDrawn(s.edges[i], d.edges[i]);
    }
    forall i | 0 <= i < |limits| ensures IsLimitOf(limits[i], GraphOf(d).limits[i]) {
      LimitIsDrawn(limits[i], d.limits[i]);
    }
  }

  lemma SourcesAreEntries(v: Value, d: Document, s: Sources)
    requires DocumentReadsWith(v, d, s)
    ensures HasEntry(v, "nodes", List(s.nodes)) && HasEntry(v, "edges", List(s.edges))
    ensures HasEntry(v, "config", s.config) && HasEntry(v, "modelBindings", s.model)
  {
    var pairs := SourceEntries(d, s);
    var names, values := NamesOf(pairs), ValuesOf(pairs);
    assert HasEntry(v, names[4], values[4]) && HasEntry(v, names[5], values[5]) && HasEntry(v, names[6], values[6])
        && HasEntry(v, names[7], values[7]);
  }

  lemma GraphIsDrawn(v: Value, d: Document, s: Sources, limits: seq<Value>)
    requires DocumentReadsWith(v, d, s) && ConfigReadsWith(s.config, Config(d.maxNodes, d.limits), limits)
    ensures IsGraphWith(v, GraphOf(d), Parts(s.nodes, s.edges, s.config, limits, s.model))
  {
    SourcesAreEntries(v, d, s);
    ItemsDraw(d, s, limits);
    forall id ensures id in GraphOf(d).modelBindings <==> IsBound(s.model, id) {
      BindingsAreDrawn(s.model, d, id);
    }
  }

  /** The graph of every decoded document is the one its object describes. */
  lemma GraphIsRead(v: Value)
    requires FromDict(v).Some?
    ensures IsGraphOf(v, GraphOf(FromDict(v).value))
  {
    var d := FromDict(v).value;
    DocumentIsRead(v, d);
    var s :| DocumentReadsWith(v, d, s);
    var limits :| ConfigReadsWith(s.config, Config(d.maxNodes, d.limits), limits);
    GraphIsDrawn(v, d, s, limits);
  }
}
