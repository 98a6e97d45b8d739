/**
 The snapshot document: decoding a JSON object into a snapshot and encoding it again, and the graph
 that a decoded document describes.
 */
module SnapshotDocument {
  import opened Wrappers
  import opened FrozenJson
  import DirectedGraph
  import SnapshotModel

  const MAX_ATTEMPTS := 3

  datatype NodeDoc = NodeDoc(id: Text, kind: Text, handlerKey: Text, ports: seq<Text>, config: Value)

  datatype EdgeDoc = EdgeDoc(source: Text, port: Text, target: Text)

  datatype LimitDoc = LimitDoc(route: EdgeDoc, maxIterations: int)

  datatype Document = Document(
    profileVersionId: Text, profileKey: Text, profileVersion: int, nodes: seq<NodeDoc>, edges: seq<EdgeDoc>,
    maxNodes: int, limits: seq<LimitDoc>, modelBindings: seq<Entry>, toolBindings: Option<seq<Entry>>,
    toolPolicy: Value, guardrailProfileKey: Text)

  // --- texts ---

  predicate IsLower(c: int) {
    'a' as int <= c <= 'z' as int
  }

  predicate IsDigit(c: int) {
    '0' as int <= c <= '9' as int
  }

  predicate IsWord(c: int) {
    IsLower(c) || IsDigit(c) || c == '_' as int || c == '-' as int
  }

  /** Node ids, node types and result ports. */
  predicate IsIdentifier(text: Text) {
    1 <= |text| <= 64 && IsLower(text[0]) && forall i | 0 <= i < |text| :: IsWord(text[i])
  }

  /** Identifiers joined with dots. */
  predicate IsHandlerKey(text: Text) {
    && 1 <= |text| <= 128 && IsLower(text[0])
    && (forall i | 0 <= i < |text| :: IsWord(text[i]) || text[i] == '.' as int)
    && (forall i | 0 <= i < |text| && text[i] == '.' as int :: i + 1 < |text| && IsLower(text[i + 1]))
  }

  predicate IsGuardrailKey(text: Text) {
    && 1 <= |text| <= 128 && IsLower(text[0])
    && forall i | 0 <= i < |text| :: IsWord(text[i]) || text[i] == '.' as int || text[i] == ':' as int
  }

  /** The canonical form of a UUID. */
  predicate IsUuid(text: Text) {
    && |text| == 36
    && forall i | 0 <= i < 36 ::
         if i in {8, 13, 18, 23} then text[i] == '-' as int
         else IsDigit(text[i]) || 'a' as int <= text[i] <= 'f' as int
  }

  const NODE_TYPES: seq<Text> :=
    [Points("start"), Points("agent"), Points("tool"), Points("approval"), Points("check"), Points("guardrail"),
     Points("end")]

  const PROFILE_KEYS: seq<Text> := [Points("LLM_OPS"), Points("NATURAL_CMS")]

  // --- fields ---

  function Lookup(entries: seq<Entry>, name: Text): Option<Value> {
    if entries == [] then None
    else if entries[0].key == Name(name) then Some(entries[0].value)
    else Lookup(entries[1..], name)
  }

  predicate IsMapping(value: Value) {
    value.Dict? || value.ReadOnly?
  }

  /** The object has exactly the named fields. */
  predicate HasFields(value: Value, names: seq<Text>) {
    && IsMapping(value)
    && (forall i | 0 <= i < |value.entries| :: value.entries[i].key.Name? && value.entries[i].key.text in names)
    && (forall name | name in names :: Lookup(value.entries, name).Some?)
  }

  function Field(value: Value, names: seq<Text>, k: nat): Value
    requires HasFields(value, names) && k < |names|
  {
    Lookup(value.entries, names[k]).value
  }

  /** The object with the named fields, in order. */
  function Encoded(names: seq<Text>, values: seq<Value>): Value
    requires |names| == |values|
  {
    Dict(seq(|names|, i requires 0 <= i < |names| => Entry(Name(names[i]), values[i])))
  }

  predicate DistinctNames(names: seq<Text>) {
    forall i, j | 0 <= i < j < |names| :: names[i] != names[j]
  }

  lemma {:induction false} LookupFinds(entries: seq<Entry>, k: nat)
    requires k < |entries| && entries[k].key.Name?
    requires forall i | 0 <= i < k :: entries[i].key != entries[k].key
    ensures Lookup(entries, entries[k].key.text) == Some(entries[k].value)
    decreases k
  {
    if k > 0 {
      LookupFinds(entries[1..], k - 1);
    }
  }

  /** Encoded fields are read back. */
  lemma FieldsRoundTrip(names: seq<Text>, values: seq<Value>)
    requires |names| == |values| && DistinctNames(names)
    ensures HasFields(Encoded(names, values), names)
    ensures forall k | 0 <= k < |names| :: Field(Encoded(names, values), names, k) == values[k]
  {
    var entries := Encoded(names, values).entries;
    forall k | 0 <= k < |names| ensures Lookup(entries, names[k]) == Some(values[k]) {
      LookupFinds(entries, k);
    }
  }

  // --- lists ---

  function ParseAll<T>(items: seq<Value>, parse: Value -> Option<T>): Option<seq<T>> {
    if items == [] then Some([])
    else
      var first, rest := parse(items[0]), ParseAll(items[1..], parse);
      if first == None || rest == None then None else Some([first.value] + rest.value)
  }

  function EncodeAll<T>(parsed: seq<T>, encode: T -> Value): seq<Value> {
    seq(|parsed|, i requires 0 <= i < |parsed| => encode(parsed[i]))
  }

  lemma {:induction false} ListRoundTrips<T>(parsed: seq<T>, encode: T -> Value, parse: Value -> Option<T>)
    requires forall i | 0 <= i < |parsed| :: parse(encode(parsed[i])) == Some(parsed[i])
    ensures ParseAll(EncodeAll(parsed, encode), parse) == Some(parsed)
    decreases |parsed|
  {
    if parsed != [] {
      assert EncodeAll(parsed, encode)[1..] == EncodeAll(parsed[1..], encode);
      ListRoundTrips(parsed[1..], encode, parse);
      assert parsed == [parsed[0]] + parsed[1..];
    }
  }

  lemma {:induction false} ListParses<T>(items: seq<Value>, parse: Value -> Option<T>)
    requires ParseAll(items, parse).Some?
    ensures |ParseAll(items, parse).value| == |items|
    ensures forall i | 0 <= i < |items| :: parse(items[i]) == Some(ParseAll(items, parse).value[i])
    decreases |items|
  {
    if items != [] {
      ListParses(items[1..], parse);
      assert forall i | 0 < i < |items| :: items[i] == items[1..][i - 1];
    }
  }

  // --- nodes ---

  const NODE_FIELDS: seq<Text> :=
    [Points("id"), Points("type"), Points("handlerKey"), Points("resultPorts"), Points("config")]

  function ParsePort(value: Value): Option<Text> {
    if value.String? && IsIdentifier(value.text) then Some(value.text) else None
  }

  function EncodePort(text: Text): Value {
    String(text)
  }

  predicate NodeIsValid(node: NodeDoc) {
    && IsIdentifier(node.id) && node.kind in NODE_TYPES && IsHandlerKey(node.handlerKey)
    && (forall i | 0 <= i < |node.ports| :: IsIdentifier(node.ports[i]))
    && DistinctNames(node.ports)
    && SettingsAreFrozen(node.config)
  }

  /** Settings as the decoder keeps them. */
  predicate SettingsAreFrozen(settings: Value) {
    settings.ReadOnly? && FreezeObject(Thaw(settings)) == Some(settings)
  }

  function ParseNode(value: Value): Option<NodeDoc> {
    if !HasFields(value, NODE_FIELDS) then None
    else
      var id, kind, key := Field(value, NODE_FIELDS, 0), Field(value, NODE_FIELDS, 1), Field(value, NODE_FIELDS, 2);
      var ports, settings := Field(value, NODE_FIELDS, 3), FreezeObject(Field(value, NODE_FIELDS, 4));
      if !id.String? || !kind.String? || !key.String? || !ports.List? || settings == None then None
      else
        var parsed := ParseAll(ports.items, ParsePort);
        if parsed == None || !IsIdentifier(id.text) || kind.text !in NODE_TYPES || !IsHandlerKey(key.text)
           || !DistinctNames(parsed.value) then None
        else Some(NodeDoc(id.text, kind.text, key.text, parsed.value, settings.value))
  }

  function EncodeNode(node: NodeDoc): Value {
    Encoded(NODE_FIELDS, [String(node.id), String(node.kind), String(node.handlerKey),
                          List(EncodeAll(node.ports, EncodePort)), Thaw(node.config)])
  }

  lemma NodeFieldsDiffer()
    ensures DistinctNames(NODE_FIELDS)
  {
  }

  lemma NodeRoundTrips(node: NodeDoc)
    requires NodeIsValid(node)
    ensures ParseNode(EncodeNode(node)) == Some(node)
  {
    NodeFieldsDiffer();
    var values := [String(node.id), String(node.kind), String(node.handlerKey),
                   List(EncodeAll(node.ports, EncodePort)), Thaw(node.config)];
    FieldsRoundTrip(NODE_FIELDS, values);
    ListRoundTrips(node.ports, EncodePort, ParsePort);
  }

  lemma ParsedNodeIsValid(value: Value)
    requires ParseNode(value).Some?
    ensures NodeIsValid(ParseNode(value).value)
  {
    ListParses(Field(value, NODE_FIELDS, 3).items, ParsePort);
    RefreezeObject(Field(value, NODE_FIELDS, 4));
  }

  // --- edges and limits ---

  const EDGE_FIELDS: seq<Text> := [Points("from"), Points("resultPort"), Points("to")]

  const LIMIT_FIELDS: seq<Text> := [Points("from"), Points("resultPort"), Points("to"), Points("maxIterations")]

  predicate RouteIsValid(edge: EdgeDoc) {
    IsIdentifier(edge.source) && IsIdentifier(edge.port) && IsIdentifier(edge.target)
  }

  function ParseRoute(source: Value, port: Value, target: Value): Option<EdgeDoc> {
    if !source.String? || !port.String? || !target.String? then None
    else
      var edge := EdgeDoc(source.text, port.text, target.text);
      if RouteIsValid(edge) then Some(edge) else None
  }

  function ParseEdge(value: Value): Option<EdgeDoc> {
    if !HasFields(value, EDGE_FIELDS) then None
    else ParseRoute(Field(value, EDGE_FIELDS, 0), Field(value, EDGE_FIELDS, 1), Field(value, EDGE_FIELDS, 2))
  }

  function EncodeEdge(edge: EdgeDoc): Value {
    Encoded(EDGE_FIELDS, [String(edge.source), String(edge.port), String(edge.target)])
  }

  predicate IsPositive(value: Value) {
    value.Whole? && value.number >= 1
  }

  function ParseLimit(value: Value): Option<LimitDoc> {
    if !HasFields(value, LIMIT_FIELDS) || !IsPositive(Field(value, LIMIT_FIELDS, 3)) then None
    else
      var route := ParseRoute(Field(value, LIMIT_FIELDS, 0), Field(value, LIMIT_FIELDS, 1), Field(value, LIMIT_FIELDS, 2));
      if route == None then None else Some(LimitDoc(route.value, Field(value, LIMIT_FIELDS, 3).number))
  }

  function EncodeLimit(limit: LimitDoc): Value {
    Encoded(LIMIT_FIELDS, [String(limit.route.source), String(limit.route.port), String(limit.route.target),
                           Whole(limit.maxIterations)])
  }

  lemma RouteFieldsDiffer()
    ensures DistinctNames(EDGE_FIELDS) && DistinctNames(LIMIT_FIELDS)
  {
  }

  lemma EdgeRoundTrips(edge: EdgeDoc)
    requires RouteIsValid(edge)
    ensures ParseEdge(EncodeEdge(edge)) == Some(edge)
  {
    RouteFieldsDiffer();
    FieldsRoundTrip(EDGE_FIELDS, [String(edge.source), String(edge.port), String(edge.target)]);
  }

  predicate LimitIsValid(limit: LimitDoc) {
    RouteIsValid(limit.route) && limit.maxIterations >= 1
  }

  lemma LimitRoundTrips(limit: LimitDoc)
    requires LimitIsValid(limit)
    ensures ParseLimit(EncodeLimit(limit)) == Some(limit)
  {
    RouteFieldsDiffer();
    FieldsRoundTrip(LIMIT_FIELDS, [String(limit.route.source), String(limit.route.port), String(limit.route.target),
                                   Whole(limit.maxIterations)]);
  }

  // --- bindings ---

  predicate BindingIsValid(binding: Entry) {
    binding.key.Name? && IsIdentifier(binding.key.text) && SettingsAreFrozen(binding.value)
  }

  predicate BindingsAreValid(bindings: seq<Entry>) {
    forall i | 0 <= i < |bindings| :: BindingIsValid(bindings[i])
  }

  function ParseBinding(entry: Entry): Option<Entry> {
    var settings := FreezeObject(entry.value);
    if !entry.key.Name? || !IsIdentifier(entry.key.text) || settings == None then None
    else Some(Entry(entry.key, settings.value))
  }

  function ParseBindings(entries: seq<Entry>): Option<seq<Entry>> {
    if entries == [] then Some([])
    else
      var first, rest := ParseBinding(entries[0]), ParseBindings(entries[1..]);
      if first == None || rest == None then None else Some([first.value] + rest.value)
  }

  function ParseBindingsOf(value: Value): Option<seq<Entry>> {
    if IsMapping(value) then ParseBindings(value.entries) else None
  }

  lemma BindingRoundTrips(binding: Entry)
    requires BindingIsValid(binding)
    ensures ParseBinding(ThawEntry(binding)) == Some(binding)
  {
  }

  lemma {:induction false} BindingsRoundTrip(bindings: seq<Entry>)
    requires BindingsAreValid(bindings)
    ensures ParseBindings(ThawEntries(bindings)) == Some(bindings)
    decreases |bindings|
  {
    if bindings != [] {
      BindingRoundTrips(bindings[0]);
      BindingsRoundTrip(bindings[1..]);
      assert ThawEntries(bindings)[0] == ThawEntry(bindings[0]);
      assert ThawEntries(bindings)[1..] == ThawEntries(bindings[1..]);
      assert bindings == [bindings[0]] + bindings[1..];
    }
  }

  lemma {:induction false} ParsedBindingsAreValid(entries: seq<Entry>)
    requires ParseBindings(entries).Some?
    ensures BindingsAreValid(ParseBindings(entries).value)
    decreases |entries|
  {
    if entries != [] {
      RefreezeObject(entries[0].value);
      ParsedBindingsAreValid(entries[1..]);
    }
  }

  // --- the document ---

  const CONFIG_FIELDS: seq<Text> := [Points("maxNodes"), Points("maxAttempts"), Points("loopLimits")]

  datatype Config = Config(maxNodes: int, limits: seq<LimitDoc>)

  predicate DistinctRoutes(limits: seq<LimitDoc>) {
    forall i, j | 0 <= i < j < |limits| :: limits[i].route != limits[j].route
  }

  predicate ConfigIsValid(config: Config) {
    && config.maxNodes >= 1
    && (forall i | 0 <= i < |config.limits| :: LimitIsValid(config.limits[i]))
    && DistinctRoutes(config.limits)
  }

  function ParseConfig(value: Value): Option<Config> {
    if !HasFields(value, CONFIG_FIELDS) then None
    else
      var maxNodes, maxAttempts := Field(value, CONFIG_FIELDS, 0), Field(value, CONFIG_FIELDS, 1);
      var items := Field(value, CONFIG_FIELDS, 2);
      if !IsPositive(maxNodes) || maxAttempts != Whole(MAX_ATTEMPTS) || !items.List? then None
      else
        var limits := ParseAll(items.items, ParseLimit);
        if limits == None || !DistinctRoutes(limits.value) then None
        else Some(Config(maxNodes.number, limits.value))
  }

  function EncodeConfig(config: Config): Value {
    Encoded(CONFIG_FIELDS, [Whole(config.maxNodes), Whole(MAX_ATTEMPTS), List(EncodeAll(config.limits, EncodeLimit))])
  }

  lemma ConfigRoundTrips(config: Config)
    requires ConfigIsValid(config)
    ensures ParseConfig(EncodeConfig(config)) == Some(config)
  {
    assert |Points("maxNodes")| == 8 && |Points("maxAttempts")| == 11 && |Points("loopLimits")| == 10;
    FieldsRoundTrip(CONFIG_FIELDS,
                    [Whole(config.maxNodes), Whole(MAX_ATTEMPTS), List(EncodeAll(config.limits, EncodeLimit))]);
    forall i | 0 <= i < |config.limits| ensures ParseLimit(EncodeLimit(config.limits[i])) == Some(config.limits[i]) {
      LimitRoundTrips(config.limits[i]);
    }
    ListRoundTrips(config.limits, EncodeLimit, ParseLimit);
  }

  lemma ParsedConfigIsValid(value: Value)
    requires ParseConfig(value).Some?
    ensures ConfigIsValid(ParseConfig(value).value)
  {
    ListParses(Field(value, CONFIG_FIELDS, 2).items, ParseLimit);
  }

  const BASE_FIELDS: seq<Text> :=
    [Points("contractVersion"), Points("profileVersionId"), Points("profileKey"), Points("profileVersion"),
     Points("nodes"), Points("edges"), Points("config"), Points("modelBindings"), Points("toolPolicy"),
     Points("guardrailProfileKey")]

  const TOOL_BINDINGS := Points("toolBindings")

  /** The fields of a document; tool bindings are optional. */
  function DocumentFields(hasToolBindings: bool): seq<Text> {
    if hasToolBindings then BASE_FIELDS + [TOOL_BINDINGS] else BASE_FIELDS
  }

  ghost predicate DocumentIsValid(d: Document) {
    && IsUuid(d.profileVersionId) && d.profileKey in PROFILE_KEYS && d.profileVersion >= 1
    && d.nodes != [] && (forall i | 0 <= i < |d.nodes| :: NodeIsValid(d.nodes[i]))
    && (forall i | 0 <= i < |d.edges| :: RouteIsValid(d.edges[i]))
    && ConfigIsValid(Config(d.maxNodes, d.limits))
    && BindingsAreValid(d.modelBindings)
    && (d.toolBindings.Some? ==> BindingsAreValid(d.toolBindings.value))
    && SettingsAreFrozen(d.toolPolicy)
    && IsGuardrailKey(d.guardrailProfileKey)
  }

  /** The identity fields of a document. */
  datatype Header = Header(profileVersionId: Text, profileKey: Text, profileVersion: int, guardrailProfileKey: Text)

  function ParseHeader(contract: Value, id: Value, key: Value, version: Value, guardrail: Value): Option<Header> {
    if contract != String(Points("1.0")) || !id.String? || !IsUuid(id.text)
       || !key.String? || key.text !in PROFILE_KEYS || !IsPositive(version)
       || !guardrail.String? || !IsGuardrailKey(guardrail.text) then None
    else Some(Header(id.text, key.text, version.number, guardrail.text))
  }

  /** The graph fields of a document. */
  datatype Body = Body(nodes: seq<NodeDoc>, edges: seq<EdgeDoc>, config: Config)

  function ParseBody(nodes: Value, edges: Value, config: Value): Option<Body> {
    if !nodes.List? || nodes.items == [] || !edges.List? then None
    else
      var n, e, c := ParseAll(nodes.items, ParseNode), ParseAll(edges.items, ParseEdge), ParseConfig(config);
      if n == None || e == None || c == None then None else Some(Body(n.value, e.value, c.value))
  }

  /** The bindings of a document; tool bindings are parsed only when they are given. */
  datatype Bindings = Bindings(model: seq<Entry>, tools: Option<seq<Entry>>, policy: Value)

  function ParseAllBindings(model: Value, tools: Option<Value>, policy: Value): Option<Bindings> {
    var m, p := ParseBindingsOf(model), FreezeObject(policy);
    var t := if tools == None then Some(None) else
      (match ParseBindingsOf(tools.value) case None => None case Some(entries) => Some(Some(entries)));
    if m == None || p == None || t == None then None else Some(Bindings(m.value, t.value, p.value))
  }

  function FieldValues(value: Value, names: seq<Text>): seq<Value>
    requires HasFields(value, names)
  {
    seq(|names|, k requires 0 <= k < |names| => Field(value, names, k))
  }

  /** Decodes the values of a document's fields; the eleventh holds tool bindings. */
  function ParseFields(f: seq<Value>): Option<Document>
    requires 10 <= |f| <= 11
  {
    var header, body := ParseHeader(f[0], f[1], f[2], f[3], f[9]), ParseBody(f[4], f[5], f[6]);
    var bindings := ParseAllBindings(f[7], if |f| == 11 then Some(f[10]) else None, f[8]);
    if header == None || body == None || bindings == None then None
    else Some(Assembled(header.value, body.value, bindings.value))
  }

  predicate GivesToolBindings(value: Value) {
    IsMapping(value) && Lookup(value.entries, TOOL_BINDINGS).Some?
  }

  /** Decodes a document; what it describes is validated separately. */
  function FromDict(value: Value): Option<Document> {
    var names := DocumentFields(GivesToolBindings(value));
    if HasFields(value, names) then ParseFields(FieldValues(value, names)) else None
  }

  function Assembled(h: Header, b: Body, s: Bindings): Document {
    Document(h.profileVersionId, h.profileKey, h.profileVersion, b.nodes, b.edges, b.config.maxNodes, b.config.limits,
             s.model, s.tools, s.policy, h.guardrailProfileKey)
  }

  function BaseValues(d: Document): seq<Value> {
    [String(Points("1.0")), String(d.profileVersionId), String(d.profileKey), Whole(d.profileVersion),
     List(EncodeAll(d.nodes, EncodeNode)), List(EncodeAll(d.edges, EncodeEdge)), EncodeConfig(Config(d.maxNodes, d.limits)),
     Dict(ThawEntries(d.modelBindings)), Thaw(d.toolPolicy), String(d.guardrailProfileKey)]
  }

  function DocumentValues(d: Document): seq<Value> {
    BaseValues(d) + (if d.toolBindings.Some? then [Dict(ThawEntries(d.toolBindings.value))] else [])
  }

  function ToDict(d: Document): Value {
    Encoded(DocumentFields(d.toolBindings.Some?), DocumentValues(d))
  }

  lemma DocumentFieldsDiffer()
    ensures DistinctNames(DocumentFields(true)) && DistinctNames(DocumentFields(false))
  {
    var names := DocumentFields(true);
    assert |names[0]| == 15 && |names[1]| == 16 && |names[2]| == 10 && |names[3]| == 14 && |names[4]| == 5
        && |names[5]| == 5 && |names[6]| == 6 && |names[7]| == 13 && |names[8]| == 10 && |names[9]| == 19
        && |names[10]| == 12;
    assert names[4][0] == 'n' as int && names[5][0] == 'e' as int && names[2][0] == 'p' as int && names[8][0] == 't' as int;
    assert DistinctNames(names);
    forall i, j | 0 <= i < j < |BASE_FIELDS| ensures BASE_FIELDS[i] != BASE_FIELDS[j] {
      assert names[i] == BASE_FIELDS[i] && names[j] == BASE_FIELDS[j];
    }
  }

  lemma BodyRoundTrips(d: Document)
    requires DocumentIsValid(d)
    ensures ParseBody(List(EncodeAll(d.nodes, EncodeNode)), List(EncodeAll(d.edges, EncodeEdge)),
                      EncodeConfig(Config(d.maxNodes, d.limits)))
      == Some(Body(d.nodes, d.edges, Config(d.maxNodes, d.limits)))
  {
    forall i | 0 <= i < |d.nodes| ensures ParseNode(EncodeNode(d.nodes[i])) == Some(d.nodes[i]) {
      NodeRoundTrips(d.nodes[i]);
    }
    forall i | 0 <= i < |d.edges| ensures ParseEdge(EncodeEdge(d.edges[i])) == Some(d.edges[i]) {
      EdgeRoundTrips(d.edges[i]);
    }
    ListRoundTrips(d.nodes, EncodeNode, ParseNode);
    ListRoundTrips(d.edges, EncodeEdge, ParseEdge);
    ConfigRoundTrips(Config(d.maxNodes, d.limits));
    assert |EncodeAll(d.nodes, EncodeNode)| == |d.nodes|;
  }

  lemma AllBindingsRoundTrip(d: Document)
    requires DocumentIsValid(d)
    ensures ParseAllBindings(
              Dict(ThawEntries(d.modelBindings)),
              if d.toolBindings.Some? then Some(Dict(ThawEntries(d.toolBindings.value))) else None,
              Thaw(d.toolPolicy))
      == Some(Bindings(d.modelBindings, d.toolBindings, d.toolPolicy))
  {
    BindingsRoundTrip(d.modelBindings);
    if d.toolBindings.Some? {
      BindingsRoundTrip(d.toolBindings.value);
    }
  }

  lemma ToolBindingsAreFound(d: Document)
    ensures GivesToolBindings(ToDict(d)) <==> d.toolBindings.Some?
  {
    var names, values := DocumentFields(d.toolBindings.Some?), DocumentValues(d);
    DocumentFieldsDiffer();
    FieldsRoundTrip(names, values);
    if d.toolBindings.Some? {
      assert names[10] == TOOL_BINDINGS;
    } else {
      var all := DocumentFields(true);
      forall i | 0 <= i < |names| ensures ToDict(d).entries[i].key != Name(TOOL_BINDINGS) {
        assert all[i] == names[i] && all[10] == TOOL_BINDINGS;
      }
      LookupMisses(ToDict(d).entries, TOOL_BINDINGS);
    }
  }

  lemma {:induction false} LookupMisses(entries: seq<Entry>, name: Text)
    requires forall i | 0 <= i < |entries| :: entries[i].key != Name(name)
    ensures Lookup(entries, name) == None
    decreases |entries|
  {
    if entries != [] {
      LookupMisses(entries[1..], name);
    }
  }

  lemma HeaderRoundTrips(d: Document)
    requires DocumentIsValid(d)
    ensures ParseHeader(String(Points("1.0")), String(d.profileVersionId), String(d.profileKey), Whole(d.profileVersion),
                        String(d.guardrailProfileKey))
      == Some(Header(d.profileVersionId, d.profileKey, d.profileVersion, d.guardrailProfileKey))
  {
  }

  lemma PartsAssemble(f: seq<Value>, h: Header, b: Body, s: Bindings)
    requires 10 <= |f| <= 11
    requires ParseHeader(f[0], f[1], f[2], f[3], f[9]) == Some(h)
    requires ParseBody(f[4], f[5], f[6]) == Some(b)
    requires ParseAllBindings(f[7], if |f| == 11 then Some(f[10]) else None, f[8]) == Some(s)
    ensures ParseFields(f) == Some(Assembled(h, b, s))
  {
  }

  lemma ValuesInOrder(d: Document)
    ensures var f, base := DocumentValues(d), BaseValues(d);
      && |f| == (if d.toolBindings.Some? then 11 else 10)
      && (d.toolBindings.Some? ==> f[10] == Dict(ThawEntries(d.toolBindings.value)))
      && f[0] == base[0] && f[1] == base[1] && f[2] == base[2] && f[3] == base[3] && f[4] == base[4]
      && f[5] == base[5] && f[6] == base[6] && f[7] == base[7] && f[8] == base[8] && f[9] == base[9]
  {
  }

  lemma ValuesRoundTrip(d: Document)
    requires DocumentIsValid(d)
    ensures ParseFields(DocumentValues(d)) == Some(d)
  {
    ValuesInOrder(d);
    HeaderRoundTrips(d);
    BodyRoundTrips(d);
    AllBindingsRoundTrip(d);
    PartsAssemble(DocumentValues(d),
                  Header(d.profileVersionId, d.profileKey, d.profileVersion, d.guardrailProfileKey),
                  Body(d.nodes, d.edges, Config(d.maxNodes, d.limits)),
                  Bindings(d.modelBindings, d.toolBindings, d.toolPolicy));
  }

  /** Decoding an encoded document gives back the document. */
  lemma DocumentRoundTrips(d: Document)
    requires DocumentIsValid(d)
    ensures FromDict(ToDict(d)) == Some(d)
  {
    var names, values := DocumentFields(d.toolBindings.Some?), DocumentValues(d);
    ToolBindingsAreFound(d);
    DocumentFieldsDiffer();
    FieldsRoundTrip(names, values);
    assert FieldValues(ToDict(d), names) == values;
    ValuesRoundTrip(d);
  }

  lemma ParsedFieldsAreValid(f: seq<Value>)
    requires 10 <= |f| <= 11 && ParseFields(f).Some?
    ensures DocumentIsValid(ParseFields(f).value)
  {
    ParsedBodyIsValid(f[4], f[5], f[6]);
    ParsedBindingsAreValid(f[7].entries);
    if |f| == 11 {
      ParsedBindingsAreValid(f[10].entries);
    }
    RefreezeObject(f[8]);
  }

  /** Everything the decoder returns is a valid document, so it survives encoding. */
  lemma DecodedDocumentRoundTrips(value: Value)
    requires FromDict(value).Some?
    ensures DocumentIsValid(FromDict(value).value)
    ensures FromDict(ToDict(FromDict(value).value)) == FromDict(value)
  {
    ParsedFieldsAreValid(FieldValues(value, DocumentFields(GivesToolBindings(value))));
    DocumentRoundTrips(FromDict(value).value);
  }

  lemma ParsedBodyIsValid(nodes: Value, edges: Value, config: Value)
    requires ParseBody(nodes, edges, config).Some?
    ensures var body := ParseBody(nodes, edges, config).value;
      && body.nodes != [] && (forall i | 0 <= i < |body.nodes| :: NodeIsValid(body.nodes[i]))
      && (forall i | 0 <= i < |body.edges| :: RouteIsValid(body.edges[i]))
      && ConfigIsValid(body.config)
  {
    ListParses(nodes.items, ParseNode);
    ListParses(edges.items, ParseEdge);
    ParsedConfigIsValid(config);
    var body := ParseBody(nodes, edges, config).value;
    forall i | 0 <= i < |body.nodes| ensures NodeIsValid(body.nodes[i]) {
      ParsedNodeIsValid(nodes.items[i]);
    }
    forall i | 0 <= i < |body.edges| ensures RouteIsValid(body.edges[i]) {
      assert ParseEdge(edges.items[i]) == Some(body.edges[i]);
    }
  }

  // --- the graph it describes ---

  /** An identifier as the graph's strings; identifiers are ASCII. */
  function AsString(text: Text): string {
    seq(|text|, i requires 0 <= i < |text| => if 0 <= text[i] < 0x80 then text[i] as char else '?')
  }

  function NodeTypeOf(kind: Text): SnapshotModel.NodeType {
    if kind == NODE_TYPES[0] then SnapshotModel.Start
    else if kind == NODE_TYPES[1] then SnapshotModel.Agent
    else if kind == NODE_TYPES[2] then SnapshotModel.Tool
    else if kind == NODE_TYPES[3] then SnapshotModel.Approval
    else if kind == NODE_TYPES[4] then SnapshotModel.Check
    else if kind == NODE_TYPES[5] then SnapshotModel.Guardrail
    else SnapshotModel.End
  }

  function IsLocked(settings: Value): bool {
    settings.ReadOnly? && Lookup(settings.entries, Points("locked")) == Some(Flag(true))
  }

  function GraphNode(node: NodeDoc): SnapshotModel.SnapshotNode {
    SnapshotModel.SnapshotNode(
      AsString(node.id), NodeTypeOf(node.kind),
      seq(|node.ports|, i requires 0 <= i < |node.ports| => AsString(node.ports[i])), IsLocked(node.config))
  }

  function GraphEdge(edge: EdgeDoc): SnapshotModel.Edge {
    SnapshotModel.Edge(AsString(edge.source), AsString(edge.port), AsString(edge.target))
  }

  function GraphLimit(limit: LimitDoc): SnapshotModel.LoopLimit {
    SnapshotModel.LoopLimit(GraphEdge(limit.route), if limit.maxIterations < 0 then 0 else limit.maxIterations)
  }

  /** The graph of a document. */
  function GraphOf(d: Document): SnapshotModel.Snapshot {
    SnapshotModel.Snapshot(
      seq(|d.nodes|, i requires 0 <= i < |d.nodes| => GraphNode(d.nodes[i])),
      seq(|d.edges|, i requires 0 <= i < |d.edges| => GraphEdge(d.edges[i])),
      if d.maxNodes < 0 then 0 else d.maxNodes,
      seq(|d.limits|, i requires 0 <= i < |d.limits| => GraphLimit(d.limits[i])),
      set i | 0 <= i < |d.modelBindings| && d.modelBindings[i].key.Name? :: AsString(d.modelBindings[i].key.text))
  }

  lemma IdentifiersStayDistinct(a: Text, b: Text)
    requires IsIdentifier(a) && IsIdentifier(b)
    ensures AsString(a) == AsString(b) <==> a == b
    ensures ':' !in AsString(a)
  {
    assert forall i | 0 <= i < |a| :: IsWord(a[i]) && AsString(a)[i] as int == a[i];
    assert forall i | 0 <= i < |b| :: IsWord(b[i]) && AsString(b)[i] as int == b[i];
  }

  lemma GraphNodeIsDecoded(node: NodeDoc)
    requires NodeIsValid(node)
    ensures var n := GraphNode(node);
      ':' !in n.id && DirectedGraph.Distinct(n.ports) && forall port | port in n.ports :: ':' !in port
  {
    var n := GraphNode(node);
    IdentifiersStayDistinct(node.id, node.id);
    forall i, j | 0 <= i < j < |n.ports| ensures n.ports[i] != n.ports[j] {
      IdentifiersStayDistinct(node.ports[i], node.ports[j]);
    }
    forall port | port in n.ports ensures ':' !in port {
      var i :| 0 <= i < |n.ports| && n.ports[i] == port;
      IdentifiersStayDistinct(node.ports[i], node.ports[i]);
    }
  }

  lemma GraphEdgesStayDistinct(a: EdgeDoc, b: EdgeDoc)
    requires RouteIsValid(a) && RouteIsValid(b)
    ensures GraphEdge(a) == GraphEdge(b) <==> a == b
    ensures var e := GraphEdge(a); ':' !in e.source && ':' !in e.port && ':' !in e.target
  {
    IdentifiersStayDistinct(a.source, b.source);
    IdentifiersStayDistinct(a.port, b.port);
    IdentifiersStayDistinct(a.target, b.target);
  }

  /** The graph of every decoded document meets what validation and execution take for granted. */
  lemma DecodedDocumentGraph(value: Value)
    requires FromDict(value).Some?
    ensures SnapshotModel.Decoded(GraphOf(FromDict(value).value))
  {
    DecodedDocumentRoundTrips(value);
    ValidDocumentGraph(FromDict(value).value);
  }

  lemma ValidDocumentGraph(d: Document)
    requires DocumentIsValid(d)
    ensures SnapshotModel.Decoded(GraphOf(d))
  {
    var g := GraphOf(d);
    forall n | n in g.nodes
      ensures ':' !in n.id && DirectedGraph.Distinct(n.ports) && forall port | port in n.ports :: ':' !in port
    {
      var i :| 0 <= i < |g.nodes| && g.nodes[i] == n;
      GraphNodeIsDecoded(d.nodes[i]);
    }
    forall e | e in g.edges ensures ':' !in e.source && ':' !in e.port && ':' !in e.target {
      var i :| 0 <= i < |g.edges| && g.edges[i] == e;
      GraphEdgesStayDistinct(d.edges[i], d.edges[i]);
    }
    forall i, j | 0 <= i < j < |g.limits| ensures g.limits[i].route != g.limits[j].route {
      assert LimitIsValid(d.limits[i]) && LimitIsValid(d.limits[j]);
      GraphEdgesStayDistinct(d.limits[i].route, d.limits[j].route);
    }
    forall limit | limit in g.limits
      ensures limit.maxIterations >= 1
        && ':' !in limit.route.source && ':' !in limit.route.port && ':' !in limit.route.target
    {
      var i :| 0 <= i < |g.limits| && g.limits[i] == limit;
      assert LimitIsValid(d.limits[i]);
      GraphEdgesStayDistinct(d.limits[i].route, d.limits[i].route);
    }
  }
}
