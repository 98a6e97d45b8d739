/**
 Freezing and thawing of JSON trees: which values a snapshot accepts as settings, that what it keeps
 cannot be changed in place, and that thawing gives back exactly what was frozen.
 */
module FrozenJson {
  import opened Wrappers

  const MAX_DEPTH := 64

  /** The code points of a text, lone surrogates included. */
  type Text = seq<int>

  datatype Key = Name(text: Text) | OtherKey(token: int)

  /**
   A runtime value: a dictionary and a read-only view of one keep the order of their entries, a
   list can be changed in place and a tuple cannot.
   */
  datatype Value =
    | Null
    | Flag(flag: bool)
    | String(text: Text)
    | Whole(number: int)
    | Float(isFinite: bool, token: int)
    | Dict(entries: seq<Entry>)
    | ReadOnly(entries: seq<Entry>)
    | List(items: seq<Value>)
    | Tuple(items: seq<Value>)
    | Foreign(token: int)

  datatype Entry = Entry(key: Key, value: Value)

  predicate HasSurrogate(text: Text) {
    exists i :: 0 <= i < |text| && 0xD800 <= text[i] <= 0xDFFF
  }

  /** The code points of an ASCII field name. */
  function Points(name: string): Text {
    seq(|name|, i requires 0 <= i < |name| => name[i] as int)
  }

  const EXECUTION_FIELDS: set<Text> :=
    {Points("jobId"), Points("pipelineAttempt"), Points("executionAttempt"), Points("stateVersion"),
     Points("workspaceId"), Points("toolCallId"), Points("traceId")}

  predicate KeyIsSafe(key: Key) {
    key.Name? && !HasSurrogate(key.text) && key.text !in EXECUTION_FIELDS
  }

  predicate KeysAreSafe(entries: seq<Entry>) {
    forall i | 0 <= i < |entries| :: KeyIsSafe(entries[i].key)
  }

  // --- freezing ---

  function Freeze(value: Value, depth: nat): Option<Value>
    decreases value
  {
    if depth > MAX_DEPTH then None
    else
      match value
      case Null => Some(value)
      case Flag(_) => Some(value)
      case String(text) => if HasSurrogate(text) then None else Some(value)
      case Whole(_) => Some(value)
      case Float(isFinite, _) => if isFinite then Some(value) else None
      case Dict(entries) => FreezeMapping(entries, depth)
      case ReadOnly(entries) => FreezeMapping(entries, depth)
      case List(items) =>
        var frozen := FreezeItems(items, depth + 1);
        if frozen == None then None else Some(Tuple(frozen.value))
      case _ => None
  }

  function FreezeMapping(entries: seq<Entry>, depth: nat): Option<Value>
    decreases entries, 1
  {
    if !KeysAreSafe(entries) then None
    else
      var frozen := FreezeEntries(entries, depth + 1);
      if frozen == None then None else Some(ReadOnly(frozen.value))
  }

  function FreezeItems(items: seq<Value>, depth: nat): Option<seq<Value>>
    decreases items
  {
    if items == [] then Some([])
    else
      var first, rest := Freeze(items[0], depth), FreezeItems(items[1..], depth);
      if first == None || rest == None then None else Some([first.value] + rest.value)
  }

  function FreezeEntries(entries: seq<Entry>, depth: nat): Option<seq<Entry>>
    decreases entries, 0
  {
    if entries == [] then Some([])
    else
      var first, rest := FreezeEntry(entries[0], depth), FreezeEntries(entries[1..], depth);
      if first == None || rest == None then None else Some([first.value] + rest.value)
  }

  function FreezeEntry(entry: Entry, depth: nat): Option<Entry>
    decreases entry
  {
    var frozen := Freeze(entry.value, depth);
    if frozen == None then None else Some(Entry(entry.key, frozen.value))
  }

  // --- thawing ---

  function Thaw(value: Value): Value
    decreases value
  {
    match value
    case Dict(entries) => Dict(ThawEntries(entries))
    case ReadOnly(entries) => Dict(ThawEntries(entries))
    case Tuple(items) => List(ThawItems(items))
    case _ => value
  }

  function ThawItems(items: seq<Value>): (thawed: seq<Value>)
    ensures |thawed| == |items| && forall i | 0 <= i < |items| :: thawed[i] == Thaw(items[i])
    decreases items
  {
    if items == [] then [] else [Thaw(items[0])] + ThawItems(items[1..])
  }

  function ThawEntries(entries: seq<Entry>): (thawed: seq<Entry>)
    ensures |thawed| == |entries|
    ensures forall i | 0 <= i < |entries| :: thawed[i] == ThawEntry(entries[i])
    decreases entries
  {
    if entries == [] then [] else [ThawEntry(entries[0])] + ThawEntries(entries[1..])
  }

  function ThawEntry(entry: Entry): Entry
    decreases entry
  {
    Entry(entry.key, Thaw(entry.value))
  }

  // --- what a tree contains ---

  function Children(value: Value): seq<Value> {
    match value
    case Dict(entries) => Values(entries)
    case ReadOnly(entries) => Values(entries)
    case List(items) => items
    case Tuple(items) => items
    case _ => []
  }

  function Values(entries: seq<Entry>): (values: seq<Value>)
    ensures |values| == |entries| && forall i | 0 <= i < |entries| :: values[i] == entries[i].value
  {
    seq(|entries|, i requires 0 <= i < |entries| => entries[i].value)
  }

  /** The part of a tree that a path of positions leads to. */
  function At(value: Value, path: seq<nat>): Option<Value> {
    if path == [] then Some(value)
    else if path[0] < |Children(value)| then At(Children(value)[path[0]], path[1..])
    else None
  }

  /** A part on its own gives no reason to refuse it. */
  predicate PartIsSafe(value: Value) {
    match value
    case String(text) => !HasSurrogate(text)
    case Float(isFinite, _) => isFinite
    case Dict(entries) => KeysAreSafe(entries)
    case ReadOnly(entries) => KeysAreSafe(entries)
    case Tuple(_) => false
    case Foreign(_) => false
    case _ => true
  }

  /** Every part is safe on its own and no part is nested too deeply. */
  ghost predicate TreeIsSafe(value: Value, depth: nat) {
    forall path :: At(value, path).Some? ==> depth + |path| <= MAX_DEPTH && PartIsSafe(At(value, path).value)
  }

  lemma AtChild(value: Value, i: nat, path: seq<nat>)
    requires i < |Children(value)|
    ensures At(value, [i] + path) == At(Children(value)[i], path)
  {
  }

  /** A tree is safe when its root is and its children are, one level deeper. */
  ghost predicate PartsAreSafe(value: Value, depth: nat) {
    && depth <= MAX_DEPTH && PartIsSafe(value)
    && forall i | 0 <= i < |Children(value)| :: TreeIsSafe(Children(value)[i], depth + 1)
  }

  lemma SafeTreeHasSafeParts(value: Value, depth: nat)
    requires TreeIsSafe(value, depth)
    ensures PartsAreSafe(value, depth)
  {
    assert At(value, []) == Some(value);
    forall i | 0 <= i < |Children(value)| ensures TreeIsSafe(Children(value)[i], depth + 1) {
      forall path | At(Children(value)[i], path).Some?
        ensures depth + 1 + |path| <= MAX_DEPTH && PartIsSafe(At(Children(value)[i], path).value)
      {
        AtChild(value, i, path);
      }
    }
  }

  lemma SafePartsMakeSafeTree(value: Value, depth: nat)
    requires PartsAreSafe(value, depth)
    ensures TreeIsSafe(value, depth)
  {
    forall path | At(value, path).Some?
      ensures depth + |path| <= MAX_DEPTH && PartIsSafe(At(value, path).value)
    {
      if path != [] {
        assert TreeIsSafe(Children(value)[path[0]], depth + 1);
        assert At(Children(value)[path[0]], path[1..]).Some?;
      }
    }
  }

  // --- freezing is exact ---

  lemma {:induction false} ItemsFreeze(items: seq<Value>, depth: nat)
    ensures FreezeItems(items, depth).Some? <==> forall i | 0 <= i < |items| :: Freeze(items[i], depth).Some?
    ensures FreezeItems(items, depth).Some? ==>
      && |FreezeItems(items, depth).value| == |items|
      && forall i | 0 <= i < |items| :: Freeze(items[i], depth) == Some(FreezeItems(items, depth).value[i])
    decreases items
  {
    if items != [] {
      ItemsFreeze(items[1..], depth);
      assert forall i | 0 < i < |items| :: items[i] == items[1..][i - 1];
      if forall i | 0 <= i < |items| :: Freeze(items[i], depth).Some? {
        forall i | 0 <= i < |items[1..]| ensures Freeze(items[1..][i], depth).Some? {
          assert items[1..][i] == items[i + 1];
        }
      }
    }
  }

  lemma {:induction false} EntriesFreeze(entries: seq<Entry>, depth: nat)
    ensures FreezeEntries(entries, depth).Some? <==> forall i | 0 <= i < |entries| :: Freeze(entries[i].value, depth).Some?
    ensures FreezeEntries(entries, depth).Some? ==>
      && |FreezeEntries(entries, depth).value| == |entries|
      && forall i | 0 <= i < |entries| ::
           && Freeze(entries[i].value, depth) == Some(FreezeEntries(entries, depth).value[i].value)
           && FreezeEntries(entries, depth).value[i].key == entries[i].key
    decreases entries
  {
    if entries != [] {
      EntriesFreeze(entries[1..], depth);
      assert forall i | 0 < i < |entries| :: entries[i] == entries[1..][i - 1];
      if forall i | 0 <= i < |entries| :: Freeze(entries[i].value, depth).Some? {
        forall i | 0 <= i < |entries[1..]| ensures Freeze(entries[1..][i].value, depth).Some? {
          assert entries[1..][i] == entries[i + 1];
        }
      }
    }
  }

  lemma MappingFreezes(entries: seq<Entry>, depth: nat)
    ensures FreezeMapping(entries, depth).Some? <==>
      && KeysAreSafe(entries)
      && forall i | 0 <= i < |entries| :: Freeze(Values(entries)[i], depth + 1).Some?
  {
    EntriesFreeze(entries, depth + 1);
    assert forall i | 0 <= i < |entries| :: Values(entries)[i] == entries[i].value;
  }

  /** A value freezes when its root is safe and its children freeze. */
  ghost predicate PartsFreeze(value: Value, depth: nat) {
    && depth <= MAX_DEPTH && PartIsSafe(value)
    && forall i | 0 <= i < |Children(value)| :: Freeze(Children(value)[i], depth + 1).Some?
  }

  lemma MappingFreezesByParts(value: Value, depth: nat)
    requires (value.Dict? || value.ReadOnly?) && depth <= MAX_DEPTH
    ensures Freeze(value, depth).Some? <==> PartsFreeze(value, depth)
  {
    MappingFreezes(value.entries, depth);
    assert Children(value) == Values(value.entries);
    assert Freeze(value, depth) == FreezeMapping(value.entries, depth);
  }

  lemma ListFreezesByParts(value: Value, depth: nat)
    requires value.List? && depth <= MAX_DEPTH
    ensures Freeze(value, depth).Some? <==> PartsFreeze(value, depth)
  {
    ItemsFreeze(value.items, depth + 1);
    assert Children(value) == value.items;
    assert Freeze(value, depth).Some? <==> FreezeItems(value.items, depth + 1).Some?;
  }

  lemma LeafFreezes(value: Value, depth: nat)
    requires !value.Dict? && !value.ReadOnly? && !value.List? && depth <= MAX_DEPTH
    ensures Freeze(value, depth).Some? <==> PartsFreeze(value, depth)
  {
  }

  lemma FreezeByParts(value: Value, depth: nat)
    ensures Freeze(value, depth).Some? <==> PartsFreeze(value, depth)
  {
    if depth <= MAX_DEPTH {
      if value.Dict? || value.ReadOnly? {
        MappingFreezesByParts(value, depth);
      } else if value.List? {
        ListFreezesByParts(value, depth);
      } else {
        LeafFreezes(value, depth);
      }
    }
  }

  lemma ChildIsSmaller(value: Value, i: nat)
    requires i < |Children(value)|
    ensures Children(value)[i] < value
  {
  }

  /**
   Exactness: freezing accepts precisely the trees whose every part is a JSON value with finite
   numbers, valid Unicode and no execution-context key, nested at most 64 levels deep.
   */
  lemma {:induction false} FreezeIsExact(value: Value, depth: nat)
    ensures Freeze(value, depth).Some? <==> TreeIsSafe(value, depth)
    decreases value, 1
  {
    ChildrenFreezeExactly(value, depth);
    FreezeByParts(value, depth);
    PartsAgree(value, depth);
    if TreeIsSafe(value, depth) {
      SafeTreeHasSafeParts(value, depth);
    } else if PartsAreSafe(value, depth) {
      SafePartsMakeSafeTree(value, depth);
    }
  }

  lemma {:induction false} ChildrenFreezeExactly(value: Value, depth: nat)
    ensures forall i | 0 <= i < |Children(value)| ::
      Freeze(Children(value)[i], depth + 1).Some? <==> TreeIsSafe(Children(value)[i], depth + 1)
    decreases value, 0
  {
    forall i | 0 <= i < |Children(value)|
      ensures Freeze(Children(value)[i], depth + 1).Some? <==> TreeIsSafe(Children(value)[i], depth + 1)
    {
      ChildIsSmaller(value, i);
      FreezeIsExact(Children(value)[i], depth + 1);
    }
  }

  lemma PartsAgree(value: Value, depth: nat)
    requires forall i | 0 <= i < |Children(value)| ::
      Freeze(Children(value)[i], depth + 1).Some? <==> TreeIsSafe(Children(value)[i], depth + 1)
    ensures PartsFreeze(value, depth) <==> PartsAreSafe(value, depth)
  {
  }

  // --- round trips ---

  /** The tree was decoded from JSON: its containers are dictionaries and lists. */
  ghost predicate IsPlain(value: Value) {
    forall path :: At(value, path).Some? ==> !At(value, path).value.ReadOnly? && !At(value, path).value.Tuple?
  }

  /** No part of the tree can be changed in place. */
  ghost predicate IsFrozen(value: Value) {
    forall path :: At(value, path).Some? ==> !At(value, path).value.Dict? && !At(value, path).value.List?
  }

  lemma PlainChildren(value: Value)
    requires IsPlain(value)
    ensures !value.ReadOnly? && !value.Tuple?
    ensures forall i | 0 <= i < |Children(value)| :: IsPlain(Children(value)[i])
  {
    assert At(value, []) == Some(value);
    forall i, path | 0 <= i < |Children(value)| && At(Children(value)[i], path).Some?
      ensures !At(Children(value)[i], path).value.ReadOnly? && !At(Children(value)[i], path).value.Tuple?
    {
      AtChild(value, i, path);
    }
  }

  lemma FrozenByChildren(value: Value)
    requires !value.Dict? && !value.List?
    requires forall i | 0 <= i < |Children(value)| :: IsFrozen(Children(value)[i])
    ensures IsFrozen(value)
  {
  }

  /** The frozen tree has frozen children in place of the original ones, under the same keys. */
  lemma FrozenShape(value: Value, depth: nat)
    requires Freeze(value, depth).Some?
    ensures var frozen := Freeze(value, depth).value;
      && !frozen.Dict? && !frozen.List?
      && |Children(frozen)| == |Children(value)|
      && (forall i | 0 <= i < |Children(value)| :: Freeze(Children(value)[i], depth + 1) == Some(Children(frozen)[i]))
      && (value.Dict? || value.ReadOnly? ==>
            && frozen.ReadOnly? && |frozen.entries| == |value.entries|
            && forall i | 0 <= i < |value.entries| :: frozen.entries[i].key == value.entries[i].key)
      && (value.List? ==> frozen.Tuple?)
      && (!value.Dict? && !value.ReadOnly? && !value.List? ==> frozen == value && Children(value) == [])
  {
    match value
    case Dict(entries) => EntriesFreeze(entries, depth + 1);
    case ReadOnly(entries) => EntriesFreeze(entries, depth + 1);
    case List(items) => ItemsFreeze(items, depth + 1);
    case _ =>
  }

  /** Thawing a frozen tree gives back the decoded JSON, keys in their order, and none of the result shared. */
  lemma {:induction false} ThawUndoesFreeze(value: Value, depth: nat)
    requires Freeze(value, depth).Some? && IsPlain(value)
    ensures Thaw(Freeze(value, depth).value) == value
    ensures IsFrozen(Freeze(value, depth).value)
    decreases value
  {
    var frozen := Freeze(value, depth).value;
    FrozenShape(value, depth);
    PlainChildren(value);
    forall i | 0 <= i < |Children(value)|
      ensures Thaw(Children(frozen)[i]) == Children(value)[i] && IsFrozen(Children(frozen)[i])
    {
      ChildIsSmaller(value, i);
      ThawUndoesFreeze(Children(value)[i], depth + 1);
    }
    FrozenByChildren(frozen);
    if value.Dict? {
      forall i | 0 <= i < |value.entries| ensures ThawEntries(frozen.entries)[i] == value.entries[i] {
        assert Children(frozen)[i] == frozen.entries[i].value && Children(value)[i] == value.entries[i].value;
      }
      assert ThawEntries(frozen.entries) == value.entries;
    } else if value.List? {
      assert ThawItems(frozen.items) == value.items;
    }
  }

  /** Freezing what was thawed gives the same frozen tree again, whatever it was frozen from. */
  lemma {:induction false} FreezeUndoesThaw(value: Value, depth: nat)
    requires Freeze(value, depth).Some?
    ensures Freeze(Thaw(Freeze(value, depth).value), depth) == Freeze(value, depth)
    decreases value
  {
    var frozen := Freeze(value, depth).value;
    FrozenShape(value, depth);
    forall i | 0 <= i < |Children(value)|
      ensures Freeze(Thaw(Children(frozen)[i]), depth + 1) == Some(Children(frozen)[i])
    {
      ChildIsSmaller(value, i);
      FreezeUndoesThaw(Children(value)[i], depth + 1);
    }
    FreezeByParts(value, depth);
    if value.Dict? || value.ReadOnly? {
      RefreezeMapping(frozen.entries, depth);
    } else if value.List? {
      RefreezeItems(frozen.items, depth);
    }
  }

  lemma RefreezeMapping(entries: seq<Entry>, depth: nat)
    requires depth <= MAX_DEPTH && KeysAreSafe(entries)
    requires forall i | 0 <= i < |entries| :: Freeze(Thaw(Values(entries)[i]), depth + 1) == Some(Values(entries)[i])
    ensures Freeze(Dict(ThawEntries(entries)), depth) == Some(ReadOnly(entries))
  {
    var thawed := ThawEntries(entries);
    forall i | 0 <= i < |entries| ensures Freeze(thawed[i].value, depth + 1) == Some(entries[i].value) {
      assert Values(entries)[i] == entries[i].value;
    }
    EntriesFreeze(thawed, depth + 1);
    assert KeysAreSafe(thawed);
    assert FreezeEntries(thawed, depth + 1).value == entries;
  }

  lemma RefreezeItems(items: seq<Value>, depth: nat)
    requires depth <= MAX_DEPTH
    requires forall i | 0 <= i < |items| :: Freeze(Thaw(items[i]), depth + 1) == Some(items[i])
    ensures Freeze(List(ThawItems(items)), depth) == Some(Tuple(items))
  {
    ItemsFreeze(ThawItems(items), depth + 1);
    assert FreezeItems(ThawItems(items), depth + 1).value == items;
  }

  /** A tree that holds a frozen array is refused: tuples are not accepted. */
  lemma FrozenArrayIsRefused(value: Value, depth: nat, path: seq<nat>)
    requires At(value, path).Some? && At(value, path).value.Tuple?
    ensures Freeze(value, depth) == None
  {
    FreezeIsExact(value, depth);
  }

  // --- settings objects ---

  /** A settings object; its values are counted from depth zero. */
  function FreezeObject(value: Value): Option<Value> {
    if (!value.Dict? && !value.ReadOnly?) || !KeysAreSafe(value.entries) then None
    else
      var frozen := FreezeEntries(value.entries, 0);
      if frozen == None then None else Some(ReadOnly(frozen.value))
  }

  lemma RefreezeObject(value: Value)
    requires FreezeObject(value).Some?
    ensures FreezeObject(Thaw(FreezeObject(value).value)) == FreezeObject(value)
  {
    var entries := FreezeObject(value).value.entries;
    EntriesFreeze(value.entries, 0);
    var thawed := ThawEntries(entries);
    forall i | 0 <= i < |entries| ensures Freeze(thawed[i].value, 0) == Some(entries[i].value) {
      FreezeUndoesThaw(value.entries[i].value, 0);
    }
    EntriesFreeze(thawed, 0);
    assert KeysAreSafe(thawed);
    assert FreezeEntries(thawed, 0).value == entries;
  }
}
