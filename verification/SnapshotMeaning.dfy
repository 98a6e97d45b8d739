/**
 What a snapshot document means, read off its JSON fields by name: the decoder accepts exactly the
 objects that have these fields with these values, and the graph is the one they describe.
 */
module SnapshotMeaning {
  import opened Wrappers
  import opened FrozenJson
  import opened SnapshotDocument
  import SnapshotModel

  // --- reading an object ---

  /** The object's first entry of this name has this value. */
  ghost predicate HasEntry(v: Value, name: string, x: Value) {
    && IsMapping(v)
    && exists k :: 0 <= k < |v.entries| && v.entries[k] == Entry(Name(Points(name)), x) && IsFirst(v.entries, k)
  }

  predicate IsFirst(entries: seq<Entry>, k: nat)
    requires k < |entries|
  {
    forall i | 0 <= i < k :: entries[i].key != entries[k].key
  }

  ghost predicate IsNamed(key: Key, names: seq<string>) {
    exists j :: 0 <= j < |names| && key == Name(Points(names[j]))
  }

  /** The object has no other entries than of these names. */
  ghost predicate OnlyNames(v: Value, names: seq<string>) {
    IsMapping(v) && forall i | 0 <= i < |v.entries| :: IsNamed(v.entries[i].key, names)
  }

  lemma {:induction false} LookupReadsFirst(entries: seq<Entry>, name: Text)
    ensures match Lookup(entries, name)
      case None => forall i | 0 <= i < |entries| :: entries[i].key != Name(name)
      case Some(x) => exists k :: 0 <= k < |entries| && entries[k] == Entry(Name(name), x) && IsFirst(entries, k)
    decreases |entries|
  {
    if entries != [] && entries[0].key != Name(name) {
      LookupReadsFirst(entries[1..], name);
      match Lookup(entries[1..], name)
      case None =>
        forall i | 0 <= i < |entries| ensures entries[i].key != Name(name) {
          assert i == 0 || entries[i] == entries[1..][i - 1];
        }
      case Some(x) =>
        var k :| 0 <= k < |entries[1..]| && entries[1..][k] == Entry(Name(name), x) && IsFirst(entries[1..], k);
        assert entries[k + 1] == Entry(Name(name), x);
        forall i | 0 <= i < k + 1 ensures entries[i].key != entries[k + 1].key {
          assert i == 0 || entries[i] == entries[1..][i - 1];
        }
        assert IsFirst(entries, k + 1);
    }
  }

  lemma EntryIsLookup(v: Value, name: string, x: Value)
    requires IsMapping(v)
    ensures HasEntry(v, name, x) <==> Lookup(v.entries, Points(name)) == Some(x)
  {
    LookupReadsFirst(v.entries, Points(name));
    if HasEntry(v, name, x) {
      var k :| 0 <= k < |v.entries| && v.entries[k] == Entry(Name(Points(name)), x) && IsFirst(v.entries, k);
      var y := Lookup(v.entries, Points(name)).value;
      var m :| 0 <= m < |v.entries| && v.entries[m] == Entry(Name(Points(name)), y) && IsFirst(v.entries, m);
      assert k == m;
    }
  }

  /** The names of a field list. */
  ghost predicate AreNames(fields: seq<Text>, names: seq<string>) {
    |fields| == |names| && forall i | 0 <= i < |fields| :: fields[i] == Points(names[i])
  }

  /** The object has exactly these entries. */
  ghost predicate HasAll(v: Value, names: seq<string>, values: seq<Value>)
    requires |names| == |values|
  {
    OnlyNames(v, names) && forall i | 0 <= i < |names| :: HasEntry(v, names[i], values[i])
  }

  /** The object has exactly these fields, with these values in the order of the fields. */
  ghost predicate HasValues(v: Value, fields: seq<Text>, values: seq<Value>)
    requires |fields| == |values|
  {
    HasFields(v, fields) && forall k | 0 <= k < |fields| :: Field(v, fields, k) == values[k]
  }

  lemma KeyIsNamed(key: Key, fields: seq<Text>, names: seq<string>)
    requires AreNames(fields, names)
    ensures IsNamed(key, names) <==> key.Name? && key.text in fields
  {
    if key.Name? && key.text in fields {
      var j :| 0 <= j < |fields| && fields[j] == key.text;
      assert key == Name(Points(names[j]));
    }
    if j :| 0 <= j < |names| && key == Name(Points(names[j])) {
      assert fields[j] == key.text;
    }
  }

  lemma FieldsAreEntries(v: Value, fields: seq<Text>, names: seq<string>, values: seq<Value>)
    requires AreNames(fields, names) && |names| == |values|
    ensures HasValues(v, fields, values) <==> HasAll(v, names, values)
  {
    if IsMapping(v) {
      forall i | 0 <= i < |v.entries|
        ensures IsNamed(v.entries[i].key, names) <==> v.entries[i].key.Name? && v.entries[i].key.text in fields
      {
        KeyIsNamed(v.entries[i].key, fields, names);
      }
      forall i | 0 <= i < |names|
        ensures HasEntry(v, names[i], values[i]) <==> Lookup(v.entries, fields[i]) == Some(values[i])
      {
        EntryIsLookup(v, names[i], values[i]);
      }
      if HasAll(v, names, values) {
        forall name | name in fields ensures Lookup(v.entries, name).Some? {
          var i :| 0 <= i < |fields| && fields[i] == name;
          assert HasEntry(v, names[i], values[i]);
        }
      }
    }
  }

  // --- edges and limits ---

  ghost predicate RouteReads(v: Value, e: EdgeDoc) {
    && HasEntry(v, "from", String(e.source)) && IsIdentifier(e.source)
    && HasEntry(v, "resultPort", String(e.port)) && IsIdentifier(e.port)
    && HasEntry(v, "to", String(e.target)) && IsIdentifier(e.target)
  }

  /** What an edge's object says. */
  ghost predicate EdgeReads(v: Value, e: EdgeDoc) {
    OnlyNames(v, ["from", "resultPort", "to"]) && RouteReads(v, e)
  }

  lemma ThreeEntries(v: Value, names: seq<string>, values: seq<Value>)
    requires |names| == |values| == 3
    ensures HasAll(v, names, values) <==>
      && OnlyNames(v, names) && HasEntry(v, names[0], values[0]) && HasEntry(v, names[1], values[1])
      && HasEntry(v, names[2], values[2])
  {
  }

  lemma RouteIsParsed(source: Value, port: Value, target: Value, e: EdgeDoc)
    ensures ParseRoute(source, port, target) == Some(e)
      <==> source == String(e.source) && port == String(e.port) && target == String(e.target) && RouteIsValid(e)
  {
  }

  function EdgeValues(e: EdgeDoc): seq<Value> {
    [String(e.source), String(e.port), String(e.target)]
  }

  lemma EdgeIsParsed(v: Value, e: EdgeDoc)
    ensures ParseEdge(v) == Some(e) <==> HasValues(v, EDGE_FIELDS, EdgeValues(e)) && RouteIsValid(e)
  {
    if HasFields(v, EDGE_FIELDS) {
      RouteIsParsed(Field(v, EDGE_FIELDS, 0), Field(v, EDGE_FIELDS, 1), Field(v, EDGE_FIELDS, 2), e);
    }
  }

  lemma EdgeNames()
    ensures AreNames(EDGE_FIELDS, ["from", "resultPort", "to"])
  {
  }

  /** The decoder reads an edge from its object exactly when the object says so. */
  lemma EdgeIsRead(v: Value, e: EdgeDoc)
    ensures ParseEdge(v) == Some(e) <==> EdgeReads(v, e)
  {
    var names := ["from", "resultPort", "to"];
    EdgeIsParsed(v, e);
    EdgeNames();
    FieldsAreEntries(v, EDGE_FIELDS, names, EdgeValues(e));
    ThreeEntries(v, names, EdgeValues(e));
  }

  /** What a loop limit's object says. */
  ghost predicate LimitReads(v: Value, limit: LimitDoc) {
    && OnlyNames(v, ["from", "resultPort", "to", "maxIterations"]) && RouteReads(v, limit.route)
    && HasEntry(v, "maxIterations", Whole(limit.maxIterations)) && limit.maxIterations >= 1
  }

  lemma FourEntries(v: Value, names: seq<string>, values: seq<Value>)
    requires |names| == |values| == 4
    ensures HasAll(v, names, values) <==>
      && OnlyNames(v, names) && HasEntry(v, names[0], values[0]) && HasEntry(v, names[1], values[1])
      && HasEntry(v, names[2], values[2]) && HasEntry(v, names[3], values[3])
  {
  }

  function LimitValues(limit: LimitDoc): seq<Value> {
    [String(limit.route.source), String(limit.route.port), String(limit.route.target), Whole(limit.maxIterations)]
  }

  lemma LimitIsParsed(v: Value, limit: LimitDoc)
    ensures ParseLimit(v) == Some(limit) <==> HasValues(v, LIMIT_FIELDS, LimitValues(limit)) && LimitIsValid(limit)
  {
    if HasFields(v, LIMIT_FIELDS) {
      RouteIsParsed(Field(v, LIMIT_FIELDS, 0), Field(v, LIMIT_FIELDS, 1), Field(v, LIMIT_FIELDS, 2), limit.route);
    }
  }

  lemma LimitNames()
    ensures AreNames(LIMIT_FIELDS, ["from", "resultPort", "to", "maxIterations"])
  {
  }

  lemma LimitIsRead(v: Value, limit: LimitDoc)
    ensures ParseLimit(v) == Some(limit) <==> LimitReads(v, limit)
  {
    var names := ["from", "resultPort", "to", "maxIterations"];
    LimitIsParsed(v, limit);
    LimitNames();
    FieldsAreEntries(v, LIMIT_FIELDS, names, LimitValues(limit));
    FourEntries(v, names, LimitValues(limit));
  }

  // --- lists ---

  lemma ListIsParsed<T>(items: seq<Value>, parse: Value -> Option<T>, parsed: seq<T>)
    ensures ParseAll(items, parse) == Some(parsed)
      <==> |items| == |parsed| && forall i | 0 <= i < |items| :: parse(items[i]) == Some(parsed[i])
  {
    if ParseAll(items, parse).Some? {
      ListParses(items, parse);
    }
    if |items| == |parsed| && forall i | 0 <= i < |items| :: parse(items[i]) == Some(parsed[i]) {
      ListParsesBack(items, parse, parsed);
    }
  }

  lemma {:induction false} ListParsesBack<T>(items: seq<Value>, parse: Value -> Option<T>, parsed: seq<T>)
    requires |items| == |parsed| && forall i | 0 <= i < |items| :: parse(items[i]) == Some(parsed[i])
    ensures ParseAll(items, parse) == Some(parsed)
    decreases |items|
  {
    if items != [] {
      assert forall i | 0 <= i < |items[1..]| :: items[1..][i] == items[i + 1] && parsed[1..][i] == parsed[i + 1];
      ListParsesBack(items[1..], parse, parsed[1..]);
      assert parsed == [parsed[0]] + parsed[1..];
    }
  }

  // --- nodes ---

  /** The types a node may have. */
  predicate IsNodeType(kind: Text) {
    || kind == Points("start") || kind == Points("agent") || kind == Points("tool") || kind == Points("approval")
    || kind == Points("check") || kind == Points("guardrail") || kind == Points("end")
  }

  function Strings(texts: seq<Text>): seq<Value> {
    seq(|texts|, i requires 0 <= i < |texts| => String(texts[i]))
  }

  /** What a node's object says, with these settings. */
  ghost predicate NodeReadsWith(v: Value, n: NodeDoc, settings: Value) {
    && OnlyNames(v, ["id", "type", "handlerKey", "resultPorts", "config"])
    && HasEntry(v, "id", String(n.id)) && IsIdentifier(n.id)
    && HasEntry(v, "type", String(n.kind)) && IsNodeType(n.kind)
    && HasEntry(v, "handlerKey", String(n.handlerKey)) && IsHandlerKey(n.handlerKey)
    && HasEntry(v, "resultPorts", List(Strings(n.ports))) && DistinctNames(n.ports)
    && (forall i | 0 <= i < |n.ports| :: IsIdentifier(n.ports[i]))
    && HasEntry(v, "config", settings) && FreezeObject(settings) == Some(n.config)
  }

  ghost predicate NodeReads(v: Value, n: NodeDoc) {
    exists settings :: NodeReadsWith(v, n, settings)
  }

  function NodeValues(n: NodeDoc, settings: Value): seq<Value> {
    [String(n.id), String(n.kind), String(n.handlerKey), List(Strings(n.ports)), settings]
  }

  predicate NodeTextsAreValid(n: NodeDoc) {
    && IsIdentifier(n.id) && IsNodeType(n.kind) && IsHandlerKey(n.handlerKey) && DistinctNames(n.ports)
    && forall i | 0 <= i < |n.ports| :: IsIdentifier(n.ports[i])
  }

  lemma PortsAreParsed(items: seq<Value>, ports: seq<Text>)
    ensures ParseAll(items, ParsePort) == Some(ports)
      <==> items == Strings(ports) && forall i | 0 <= i < |ports| :: IsIdentifier(ports[i])
  {
    ListIsParsed(items, ParsePort, ports);
    if ParseAll(items, ParsePort) == Some(ports) {
      assert items == Strings(ports);
    }
  }

  lemma KindIsListed(kind: Text)
    ensures kind in NODE_TYPES <==> IsNodeType(kind)
  {
    assert NODE_TYPES[0] == Points("start") && NODE_TYPES[1] == Points("agent") && NODE_TYPES[2] == Points("tool")
        && NODE_TYPES[3] == Points("approval") && NODE_TYPES[4] == Points("check")
        && NODE_TYPES[5] == Points("guardrail") && NODE_TYPES[6] == Points("end");
  }

  lemma NodeIsParsed(v: Value, n: NodeDoc)
    ensures ParseNode(v) == Some(n) <==>
      exists settings :: HasValues(v, NODE_FIELDS, NodeValues(n, settings))
        && NodeTextsAreValid(n) && FreezeObject(settings) == Some(n.config)
  {
    KindIsListed(n.kind);
    if HasFields(v, NODE_FIELDS) {
      var settings, ports := Field(v, NODE_FIELDS, 4), Field(v, NODE_FIELDS, 3);
      if ports.List? {
        PortsAreParsed(ports.items, n.ports);
      }
      if ParseNode(v) == Some(n) {
        assert HasValues(v, NODE_FIELDS, NodeValues(n, settings));
      }
    }
  }

  lemma NodeNames()
    ensures AreNames(NODE_FIELDS, ["id", "type", "handlerKey", "resultPorts", "config"])
  {
  }

  lemma FiveEntries(v: Value, names: seq<string>, values: seq<Value>)
    requires |names| == |values| == 5
    ensures HasAll(v, names, values) <==>
      && OnlyNames(v, names) && HasEntry(v, names[0], values[0]) && HasEntry(v, names[1], values[1])
      && HasEntry(v, names[2], values[2]) && HasEntry(v, names[3], values[3]) && HasEntry(v, names[4], values[4])
  {
  }

  lemma NodeHasValues(v: Value, n: NodeDoc, settings: Value)
    ensures HasValues(v, NODE_FIELDS, NodeValues(n, settings)) && NodeTextsAreValid(n)
            && FreezeObject(settings) == Some(n.config)
      <==> NodeReadsWith(v, n, settings)
  {
    var names := ["id", "type", "handlerKey", "resultPorts", "config"];
    NodeNames();
    FieldsAreEntries(v, NODE_FIELDS, names, NodeValues(n, settings));
    FiveEntries(v, names, NodeValues(n, settings));
  }

  /** The decoder reads a node from its object exactly when the object says so. */
  lemma NodeIsRead(v: Value, n: NodeDoc)
    ensures ParseNode(v) == Some(n) <==> NodeReads(v, n)
  {
    NodeIsParsed(v, n);
    if NodeReads(v, n) {
      var settings :| NodeReadsWith(v, n, settings);
      NodeHasValues(v, n, settings);
    }
    if ParseNode(v) == Some(n) {
      var settings :| HasValues(v, NODE_FIELDS, NodeValues(n, settings)) && NodeTextsAreValid(n)
                      && FreezeObject(settings) == Some(n.config);
      NodeHasValues(v, n, settings);
    }
  }

  // --- the configuration ---

  ghost predicate LimitsRead(items: seq<Value>, limits: seq<LimitDoc>) {
    && |items| == |limits| && (forall i | 0 <= i < |items| :: LimitReads(items[i], limits[i]))
    && DistinctRoutes(limits)
  }

  /** What a configuration's object says, with this list of loop limits; three attempts are all there are. */
  ghost predicate ConfigReadsWith(v: Value, config: Config, items: seq<Value>) {
    && OnlyNames(v, ["maxNodes", "maxAttempts", "loopLimits"])
    && HasEntry(v, "maxNodes", Whole(config.maxNodes)) && config.maxNodes >= 1
    && HasEntry(v, "maxAttempts", Whole(3))
    && HasEntry(v, "loopLimits", List(items)) && LimitsRead(items, config.limits)
  }

  ghost predicate ConfigReads(v: Value, config: Config) {
    exists items :: ConfigReadsWith(v, config, items)
  }

  function ConfigValues(config: Config, items: seq<Value>): seq<Value> {
    [Whole(config.maxNodes), Whole(3), List(items)]
  }

  lemma LimitsAreRead(items: seq<Value>, limits: seq<LimitDoc>)
    ensures ParseAll(items, ParseLimit) == Some(limits) && DistinctRoutes(limits) <==> LimitsRead(items, limits)
  {
    ListIsParsed(items, ParseLimit, limits);
    if |items| == |limits| {
      forall i | 0 <= i < |items| ensures ParseLimit(items[i]) == Some(limits[i]) <==> LimitReads(items[i], limits[i]) {
        LimitIsRead(items[i], limits[i]);
      }
    }
  }

  lemma ConfigIsParsed(v: Value, config: Config)
    ensures ParseConfig(v) == Some(config) <==>
      exists items :: HasValues(v, CONFIG_FIELDS, ConfigValues(config, items))
        && config.maxNodes >= 1 && LimitsRead(items, config.limits)
  {
    if HasFields(v, CONFIG_FIELDS) && Field(v, CONFIG_FIELDS, 2).List? {
      var items := Field(v, CONFIG_FIELDS, 2).items;
      LimitsAreRead(items, config.limits);
      if ParseConfig(v) == Some(config) {
        assert HasValues(v, CONFIG_FIELDS, ConfigValues(config, items));
      }
    }
  }

  lemma ConfigNames()
    ensures AreNames(CONFIG_FIELDS, ["maxNodes", "maxAttempts", "loopLimits"])
  {
  }

  lemma ConfigHasValues(v: Value, config: Config, items: seq<Value>)
    ensures HasValues(v, CONFIG_FIELDS, ConfigValues(config, items))
            && config.maxNodes >= 1 && LimitsRead(items, config.limits)
      <==> ConfigReadsWith(v, config, items)
  {
    var names := ["maxNodes", "maxAttempts", "loopLimits"];
    ConfigNames();
    FieldsAreEntries(v, CONFIG_FIELDS, names, ConfigValues(config, items));
    ThreeEntries(v, names, ConfigValues(config, items));
  }

  lemma ConfigIsRead(v: Value, config: Config)
    ensures ParseConfig(v) == Some(config) <==> ConfigReads(v, config)
  {
    ConfigIsParsed(v, config);
    if ConfigReads(v, config) {
      var items :| ConfigReadsWith(v, config, items);
      ConfigHasValues(v, config, items);
    }
    if ParseConfig(v) == Some(config) {
      var items :| HasValues(v, CONFIG_FIELDS, ConfigValues(config, items))
                   && config.maxNodes >= 1 && LimitsRead(items, config.limits);
      ConfigHasValues(v, config, items);
    }
  }

  // --- bindings ---

  ghost predicate BindingReads(entry: Entry, binding: Entry) {
    && binding.key == entry.key && entry.key.Name? && IsIdentifier(entry.key.text)
    && FreezeObject(entry.value) == Some(binding.value)
  }

  /** What an object of bindings says: each node's settings, frozen, in order. */
  ghost predicate BindingsRead(v: Value, bindings: seq<Entry>) {
    && IsMapping(v) && |v.entries| == |bindings|
    && forall i | 0 <= i < |bindings| :: BindingReads(v.entries[i], bindings[i])
  }

  lemma {:induction false} EntriesAreRead(entries: seq<Entry>, bindings: seq<Entry>)
    ensures ParseBindings(entries) == Some(bindings)
      <==> |entries| == |bindings| && forall i | 0 <= i < |bindings| :: BindingReads(entries[i], bindings[i])
    decreases |entries|
  {
    if entries != [] && bindings != [] {
      EntriesAreRead(entries[1..], bindings[1..]);
      assert bindings == [bindings[0]] + bindings[1..];
      assert ParseBinding(entries[0]) == Some(bindings[0]) <==> BindingReads(entries[0], bindings[0]);
      assert forall i | 0 <= i < |entries[1..]| :: entries[1..][i] == entries[i + 1];
      assert forall i | 0 <= i < |bindings[1..]| :: bindings[1..][i] == bindings[i + 1];
      if |entries| == |bindings| && forall i | 0 <= i < |bindings| :: BindingReads(entries[i], bindings[i]) {
        forall i | 0 <= i < |bindings[1..]| ensures BindingReads(entries[1..][i], bindings[1..][i]) {
          assert BindingReads(entries[i + 1], bindings[i + 1]);
        }
      }
    }
  }

  lemma BindingsAreRead(v: Value, bindings: seq<Entry>)
    ensures ParseBindingsOf(v) == Some(bindings) <==> BindingsRead(v, bindings)
  {
    if IsMapping(v) {
      EntriesAreRead(v.entries, bindings);
    }
  }

  // --- the document ---

  /** The parts of a document's object that are read further. */
  datatype Sources = Sources(
    nodes: seq<Value>, edges: seq<Value>, config: Value, model: Value, policy: Value, tools: Option<Value>)

  predicate IsProfileKey(key: Text) {
    key == Points("LLM_OPS") || key == Points("NATURAL_CMS")
  }

  ghost predicate NodesRead(items: seq<Value>, nodes: seq<NodeDoc>) {
    |items| == |nodes| >= 1 && forall i | 0 <= i < |items| :: NodeReads(items[i], nodes[i])
  }

  ghost predicate EdgesRead(items: seq<Value>, edges: seq<EdgeDoc>) {
    |items| == |edges| && forall i | 0 <= i < |items| :: EdgeReads(items[i], edges[i])
  }

  ghost predicate ToolsRead(tools: Option<Value>, bindings: Option<seq<Entry>>) {
    && (tools.Some? <==> bindings.Some?)
    && (tools.Some? ==> BindingsRead(tools.value, bindings.value))
  }

  /** The texts and numbers of a document are allowed, and its parts say what it holds. */
  ghost predicate SourcesFit(d: Document, s: Sources) {
    && IsUuid(d.profileVersionId) && IsProfileKey(d.profileKey) && d.profileVersion >= 1
    && IsGuardrailKey(d.guardrailProfileKey)
    && NodesRead(s.nodes, d.nodes) && EdgesRead(s.edges, d.edges)
    && ConfigReads(s.config, Config(d.maxNodes, d.limits))
    && BindingsRead(s.model, d.modelBindings) && FreezeObject(s.policy) == Some(d.toolPolicy)
    && ToolsRead(s.tools, d.toolBindings)
  }

  /** The entries of a document's object. */
  function SourceEntries(d: Document, s: Sources): seq<(string, Value)> {
    [("contractVersion", String(Points("1.0"))),
     ("profileVersionId", String(d.profileVersionId)),
     ("profileKey", String(d.profileKey)),
     ("profileVersion", Whole(d.profileVersion)),
     ("nodes", List(s.nodes)),
     ("edges", List(s.edges)),
     ("config", s.config),
     ("modelBindings", s.model),
     ("toolPolicy", s.policy),
     ("guardrailProfileKey", String(d.guardrailProfileKey))]
    + (if s.tools.Some? then [("toolBindings", s.tools.value)] else [])
  }

  function NamesOf(pairs: seq<(string, Value)>): seq<string> {
    seq(|pairs|, i requires 0 <= i < |pairs| => pairs[i].0)
  }

  function ValuesOf(pairs: seq<(string, Value)>): seq<Value> {
    seq(|pairs|, i requires 0 <= i < |pairs| => pairs[i].1)
  }

  /** What a document's object says. */
  ghost predicate DocumentReads(v: Value, d: Document) {
    exists s :: DocumentReadsWith(v, d, s)
  }

  ghost predicate DocumentReadsWith(v: Value, d: Document, s: Sources) {
    HasAll(v, NamesOf(SourceEntries(d, s)), ValuesOf(SourceEntries(d, s))) && SourcesFit(d, s)
  }

  function SourceValues(d: Document, s: Sources): seq<Value> {
    [String(Points("1.0")), String(d.profileVersionId), String(d.profileKey), Whole(d.profileVersion),
     List(s.nodes), List(s.edges), s.config, s.model, s.policy, String(d.guardrailProfileKey)]
    + (if s.tools.Some? then [s.tools.value] else [])
  }

  // --- the parts ---

  lemma KeyIsListed(key: Text)
    ensures key in PROFILE_KEYS <==> IsProfileKey(key)
  {
    assert PROFILE_KEYS[0] == Points("LLM_OPS") && PROFILE_KEYS[1] == Points("NATURAL_CMS");
  }

  lemma HeaderIsParsed(contract: Value, id: Value, key: Value, version: Value, guardrail: Value, h: Header)
    ensures ParseHeader(contract, id, key, version, guardrail) == Some(h) <==>
      && contract == String(Points("1.0")) && id == String(h.profileVersionId) && key == String(h.profileKey)
      && version == Whole(h.profileVersion) && guardrail == String(h.guardrailProfileKey)
      && IsUuid(h.profileVersionId) && IsProfileKey(h.profileKey) && h.profileVersion >= 1
      && IsGuardrailKey(h.guardrailProfileKey)
  {
    KeyIsListed(h.profileKey);
  }

  lemma NodesAreRead(items: seq<Value>, nodes: seq<NodeDoc>)
    ensures ParseAll(items, ParseNode) == Some(nodes) && items != [] <==> NodesRead(items, nodes)
  {
    ListIsParsed(items, ParseNode, nodes);
    if |items| == |nodes| {
      forall i | 0 <= i < |items| ensures ParseNode(items[i]) == Some(nodes[i]) <==> NodeReads(items[i], nodes[i]) {
        NodeIsRead(items[i], nodes[i]);
      }
    }
  }

  lemma EdgesAreRead(items: seq<Value>, edges: seq<EdgeDoc>)
    ensures ParseAll(items, ParseEdge) == Some(edges) <==> EdgesRead(items, edges)
  {
    ListIsParsed(items, ParseEdge, edges);
    if |items| == |edges| {
      forall i | 0 <= i < |items| ensures ParseEdge(items[i]) == Some(edges[i]) <==> EdgeReads(items[i], edges[i]) {
        EdgeIsRead(items[i], edges[i]);
      }
    }
  }

  lemma BodyIsParsed(nodes: seq<Value>, edges: seq<Value>, config: Value, b: Body)
    ensures ParseBody(List(nodes), List(edges), config) == Some(b)
      <==> NodesRead(nodes, b.nodes) && EdgesRead(edges, b.edges) && ConfigReads(config, b.config)
  {
    NodesAreRead(nodes, b.nodes);
    EdgesAreRead(edges, b.edges);
    ConfigIsRead(config, b.config);
  }

  lemma SettingsAreParsed(model: Value, tools: Option<Value>, policy: Value, s: Bindings)
    ensures ParseAllBindings(model, tools, policy) == Some(s)
      <==> BindingsRead(model, s.model) && FreezeObject(policy) == Some(s.policy) && ToolsRead(tools, s.tools)
  {
    BindingsAreRead(model, s.model);
    if tools.Some? && s.tools.Some? {
      BindingsAreRead(tools.value, s.tools.value);
    }
  }

  function HeaderOf(d: Document): Header {
    Header(d.profileVersionId, d.profileKey, d.profileVersion, d.guardrailProfileKey)
  }

  function BodyOf(d: Document): Body {
    Body(d.nodes, d.edges, Config(d.maxNodes, d.limits))
  }

  function SettingsOf(d: Document): Bindings {
    Bindings(d.modelBindings, d.toolBindings, d.toolPolicy)
  }

  lemma FieldsAssemble(f: seq<Value>, d: Document)
    requires 10 <= |f| <= 11
    ensures ParseFields(f) == Some(d) <==>
      && ParseHeader(f[0], f[1], f[2], f[3], f[9]) == Some(HeaderOf(d))
      && ParseBody(f[4], f[5], f[6]) == Some(BodyOf(d))
      && ParseAllBindings(f[7], if |f| == 11 then Some(f[10]) else None, f[8]) == Some(SettingsOf(d))
  {
  }

  // --- the whole document ---

  lemma SourcesAreParsed(d: Document, s: Sources)
    ensures ParseFields(SourceValues(d, s)) == Some(d) <==> SourcesFit(d, s)
  {
    var f := SourceValues(d, s);
    FieldsAssemble(f, d);
    HeaderIsParsed(f[0], f[1], f[2], f[3], f[9], HeaderOf(d));
    BodyIsParsed(s.nodes, s.edges, s.config, BodyOf(d));
    SettingsAreParsed(s.model, s.tools, s.policy, SettingsOf(d));
  }

  lemma FieldsAreSources(f: seq<Value>, d: Document, s: Sources)
    requires |f| == (if s.tools.Some? then 11 else 10)
    requires f[0] == String(Points("1.0")) && f[1] == String(d.profileVersionId) && f[2] == String(d.profileKey)
    requires f[3] == Whole(d.profileVersion) && f[4] == List(s.nodes) && f[5] == List(s.edges) && f[6] == s.config
    requires f[7] == s.model && f[8] == s.policy && f[9] == String(d.guardrailProfileKey)
    requires s.tools.Some? ==> f[10] == s.tools.value
    ensures f == SourceValues(d, s)
  {
  }

  lemma FieldsHaveSources(f: seq<Value>, d: Document) returns (s: Sources)
    requires 10 <= |f| <= 11 && ParseFields(f) == Some(d)
    ensures f == SourceValues(d, s)
  {
    FieldsAssemble(f, d);
    HeaderIsParsed(f[0], f[1], f[2], f[3], f[9], HeaderOf(d));
    s := Sources(f[4].items, f[5].items, f[6], f[7], f[8], if |f| == 11 then Some(f[10]) else None);
    FieldsAreSources(f, d, s);
  }

  lemma ValuesAreFields(v: Value, fields: seq<Text>, values: seq<Value>)
    requires |fields| == |values|
    ensures HasValues(v, fields, values) <==> HasFields(v, fields) && FieldValues(v, fields) == values
  {
    if HasValues(v, fields, values) {
      assert FieldValues(v, fields) == values;
    }
    if HasFields(v, fields) && FieldValues(v, fields) == values {
      forall k | 0 <= k < |fields| ensures Field(v, fields, k) == values[k] {
        assert FieldValues(v, fields)[k] == values[k];
      }
    }
  }

  /** Without tool bindings among the fields there are none in the object. */
  lemma FieldsTellTools(v: Value, hasTools: bool)
    requires HasFields(v, DocumentFields(hasTools))
    ensures GivesToolBindings(v) == hasTools
  {
    var all := DocumentFields(true);
    assert all[10] == TOOL_BINDINGS;
    if !hasTools {
      DocumentFieldsDiffer();
      forall i | 0 <= i < |v.entries| ensures v.entries[i].key != Name(TOOL_BINDINGS) {
        var j :| 0 <= j < |BASE_FIELDS| && BASE_FIELDS[j] == v.entries[i].key.text;
        assert all[j] == BASE_FIELDS[j] && all[j] != all[10];
      }
      LookupMisses(v.entries, TOOL_BINDINGS);
    }
  }

  lemma DocumentIsParsed(v: Value, d: Document, s: Sources)
    requires HasValues(v, DocumentFields(s.tools.Some?), SourceValues(d, s)) && SourcesFit(d, s)
    ensures FromDict(v) == Some(d)
  {
    FieldsTellTools(v, s.tools.Some?);
    ValuesAreFields(v, DocumentFields(s.tools.Some?), SourceValues(d, s));
    SourcesAreParsed(d, s);
  }

  lemma ParsedHasSources(v: Value, d: Document) returns (s: Sources)
    requires FromDict(v) == Some(d)
    ensures HasValues(v, DocumentFields(s.tools.Some?), SourceValues(d, s)) && SourcesFit(d, s)
  {
    var fields := DocumentFields(GivesToolBindings(v));
    s := FieldsHaveSources(FieldValues(v, fields), d);
    ValuesAreFields(v, fields, SourceValues(d, s));
    SourcesAreParsed(d, s);
  }

  lemma BaseNames(d: Document, s: Sources, i: nat)
    requires i < 10
    ensures BASE_FIELDS[i] == Points(SourceEntries(d, s)[i].0)
  {
  }

  lemma DocumentNames(d: Document, s: Sources)
    ensures AreNames(DocumentFields(s.tools.Some?), NamesOf(SourceEntries(d, s)))
  {
    var fields, names := DocumentFields(s.tools.Some?), NamesOf(SourceEntries(d, s));
    forall i | 0 <= i < |fields| ensures fields[i] == Points(names[i]) {
      if i < 10 {
        BaseNames(d, s, i);
        assert fields[i] == BASE_FIELDS[i];
      }
    }
  }

  lemma ValuesAreSources(v: Value, d: Document, s: Sources)
    ensures HasValues(v, DocumentFields(s.tools.Some?), SourceValues(d, s)) && SourcesFit(d, s)
      <==> DocumentReadsWith(v, d, s)
  {
    DocumentNames(d, s);
    assert ValuesOf(SourceEntries(d, s)) == SourceValues(d, s);
    FieldsAreEntries(v, DocumentFields(s.tools.Some?), NamesOf(SourceEntries(d, s)), SourceValues(d, s));
  }

  /**
   The decoder accepts exactly the objects with these fields, and the document it returns is the one
   that they describe.
   */
  lemma DocumentIsRead(v: Value, d: Document)
    ensures FromDict(v) == Some(d) <==> DocumentReads(v, d)
  {
    if FromDict(v) == Some(d) {
      var s := ParsedHasSources(v, d);
      ValuesAreSources(v, d, s);
    }
    if s :| DocumentReadsWith(v, d, s) {
      ValuesAreSources(v, d, s);
      DocumentIsParsed(v, d, s);
    }
  }

  /** A document is accepted exactly when its object describes one. */
  lemma AcceptsExactly(v: Value)
    ensures FromDict(v).Some? <==> exists d :: DocumentReads(v, d)
  {
    if FromDict(v).Some? {
      DocumentIsRead(v, FromDict(v).value);
    }
    if d :| DocumentReads(v, d) {
      DocumentIsRead(v, d);
    }
  }
}
