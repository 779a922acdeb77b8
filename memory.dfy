/**
 * The memory tool: a process-wide store from string keys to JSON values,
 * driven by five actions (store, retrieve, list, delete, clear). The store is
 * the class `MemoryStore`; `Step` is the pure specification of one call.
 */
module Memory {
  import opened Wrappers
  import opened Json
  import opened Schema
  import opened Tools

  const Name: string := "memory"
  const Description: string := "Store and retrieve JSON memories using string keys"

  datatype MemoryAction = Store | Retrieve | List | Delete | Clear

  /** The tool's typed arguments. */
  datatype MemoryProperties = MemoryProperties(action: MemoryAction, key: Option<string>, value: Option<Json>)

  // ------------------------------------------------------------ definition

  /** The schema fragment of one of the tool's properties: `action`, `key` or `value`. */
  function Fragment(property: string): map<string, Json> {
    if property == "action" then
      map["description" := Str("The action to perform: 'store' to save a value, 'retrieve' to get a value, 'list' to see all keys, 'delete' to remove a key, or 'clear' to remove all keys"),
          "type" := Str("string"),
          "enum" := Arr([Str("store"), Str("retrieve"), Str("list"), Str("delete"), Str("clear")])]
    else if property == "key" then
      map["description" := Str("The key to store/retrieve/delete the memory under (not required for list/clear)"),
          "type" := Str("string")]
    else
      map["description" := Str("The JSON value to store (only required for store action)"),
          "type" := Arr([Str("object"), Str("null")])]
  }

  /** The `properties` of `MEMORY_SCHEMA`, each with its fragment. */
  function Fragments(): map<string, map<string, Json>> {
    map property | property in {"action", "key", "value"} :: Fragment(property)
  }

  /** `MEMORY_SCHEMA` deserialised as an input schema, which is what the tool's `def()` does with it. */
  function InputSchema(): ToolInputSchema {
    ToolInputSchema("object", Some(Fragments()), Some(["action"]))
  }

  /** The tool's schema text, `MEMORY_SCHEMA`, as a JSON value: an object with `type`, `properties` and `required`. */
  function SchemaValue(): Json {
    InputSchemaValue(InputSchema())
  }

  /** The tool's own `def()`, which overrides the default one. */
  function Def(): (t: Tool)
    ensures t.name == "memory" && t.description == Some("Store and retrieve JSON memories using string keys")
    ensures t.inputSchema.properties.Some?
    ensures forall k :: k in t.inputSchema.properties.value <==> k == "action" || k == "key" || k == "value"
    ensures t.inputSchema.required == Some(["action"])
  {
    Tool(Name, Some(Description), InputSchema())
  }

  /** The override describes the same schema the default derivation builds from `MEMORY_SCHEMA`; only `action` is required. */
  lemma DefAgreesWithDerivation()
    ensures PropertiesAreObjects(SchemaValue())
    ensures Def() == DefaultDef(Name, Description, SchemaValue())
    ensures Def().inputSchema.typeTag == "object"
    ensures Def().inputSchema.properties.Some?
    ensures forall k :: k in Def().inputSchema.properties.value <==> k == "action" || k == "key" || k == "value"
    ensures Def().inputSchema.required == Some(["action"])
  {
    InputSchemaRoundTrip(InputSchema());
  }

  // ------------------------------------------------------- deserialisation

  /** An action's name, in lower case. */
  function ActionName(a: MemoryAction): string {
    match a
    case Store => "store"
    case Retrieve => "retrieve"
    case List => "list"
    case Delete => "delete"
    case Clear => "clear"
  }

  /** The action a lower-case name denotes, if any. */
  function ActionNamed(name: string): (r: Option<MemoryAction>)
    ensures r.Some? <==> exists a :: ActionName(a) == name
    ensures r.Some? ==> ActionName(r.value) == name
  {
    if name == "store" then assert ActionName(Store) == name; Some(Store)
    else if name == "retrieve" then assert ActionName(Retrieve) == name; Some(Retrieve)
    else if name == "list" then assert ActionName(List) == name; Some(List)
    else if name == "delete" then assert ActionName(Delete) == name; Some(Delete)
    else if name == "clear" then assert ActionName(Clear) == name; Some(Clear)
    else
      assert forall a :: ActionName(a) != name;
      None
  }

  /** The action whose name is the one member of `fields`, with a null payload. */
  function UnitVariant(fields: map<string, Json>): (r: Option<MemoryAction>)
    ensures r.Some? <==> exists a :: fields == map[ActionName(a) := Null]
    ensures r.Some? ==> fields == map[ActionName(r.value) := Null]
  {
    if fields == map["store" := Null] then assert ActionName(Store) == "store"; Some(Store)
    else if fields == map["retrieve" := Null] then assert ActionName(Retrieve) == "retrieve"; Some(Retrieve)
    else if fields == map["list" := Null] then assert ActionName(List) == "list"; Some(List)
    else if fields == map["delete" := Null] then assert ActionName(Delete) == "delete"; Some(Delete)
    else if fields == map["clear" := Null] then assert ActionName(Clear) == "clear"; Some(Clear)
    else
      assert forall a :: fields != map[ActionName(a) := Null];
      None
  }

  /**
   * The action: its name as a string, or, as serde's value deserialiser
   * also accepts for a unit variant, an object whose one member is the name
   * with a null payload.
   */
  function ParseAction(v: Json): (r: Result<MemoryAction, string>)
    ensures r.Success? <==> exists a :: v == Str(ActionName(a)) || v == Obj(map[ActionName(a) := Null])
    ensures r.Success? ==> v == Str(ActionName(r.value)) || v == Obj(map[ActionName(r.value) := Null])
  {
    if v.Str? then
      match ActionNamed(v.s)
      case Some(a) => Success(a)
      case None => Failure("unknown variant `" + v.s + "`")
    else if v.Obj? then
      match UnitVariant(v.fields)
      case Some(a) => Success(a)
      case None => Failure("invalid value for field `action`, expected a map with a single key naming a variant")
    else Failure("invalid type for field `action`, expected a string or a map with a single key")
  }

  /** The value field: missing and null are both `None`. */
  function OptionalValue(fields: map<string, Json>): Option<Json> {
    if "value" !in fields || fields["value"] == Null then None else Some(fields["value"])
  }

  /**
   * Deserialises the arguments: `action` is required; `key` must be a string
   * when it is given and not null; `value` is any JSON; other fields are ignored.
   */
  function Parse(v: Json): (r: Result<MemoryProperties, string>)
    ensures r.Success? <==>
      && v.Obj? && "action" in v.fields && ParseAction(v.fields["action"]).Success?
      && OptionalString(v.fields, "key").Success?
    ensures r.Success? ==> r.value.action == ParseAction(v.fields["action"]).value
    ensures r.Success? ==> (r.value.key.Some? <==> "key" in v.fields && v.fields["key"].Str?)
    ensures r.Success? && r.value.key.Some? ==> r.value.key.value == v.fields["key"].s
    ensures r.Success? ==> r.value.value == OptionalValue(v.fields)
  {
    if !v.Obj? then Failure("invalid type, expected struct MemoryProperties")
    else if "action" !in v.fields then Failure("missing field `action`")
    else
      match ParseAction(v.fields["action"])
      case Failure(e) => Failure(e)
      case Success(action) =>
        match OptionalString(v.fields, "key")
        case Failure(e) => Failure(e)
        case Success(key) => Success(MemoryProperties(action, key, OptionalValue(v.fields)))
  }

  // ------------------------------------------------------------- results

  /** `CallToolResult::error`: one text item, flagged as an error. */
  function ErrorResult(message: string): (r: CallToolResult)
    ensures |r.content| == 1 && TextOf(r.content[0]) == Some(message)
    ensures r.isError == Some(true) && r.meta.None?
  {
    CallToolResult([TextContentValue(message)], Some(true), None)
  }

  /** `CallToolResult::success`: one text item, not an error. */
  function SuccessResult(message: string): (r: CallToolResult)
    ensures |r.content| == 1 && TextOf(r.content[0]) == Some(message)
    ensures r.isError == Some(false) && r.meta.None?
  {
    CallToolResult([TextContentValue(message)], Some(false), None)
  }

  /** The calls that fail validation: a keyed action without a key, or a store without a value. */
  predicate IsValidationFailure(p: MemoryProperties) {
    || (p.action in {Store, Retrieve, Delete} && p.key.None?)
    || (p.action == Store && p.value.None?)
  }

  /** `ks` lists every key of `keys` once, in some order. */
  ghost predicate IsEnumeration(ks: seq<string>, keys: set<string>) {
    && (forall k :: k in ks <==> k in keys)
    && (forall i, j :: 0 <= i < j < |ks| ==> ks[i] != ks[j])
  }

  /** The store's key order lists every key of a key set once: a hash map iterates over each of its keys exactly once. */
  ghost predicate EnumeratesKeys(keyOrder: set<string> -> seq<string>) {
    forall keys :: IsEnumeration(keyOrder(keys), keys)
  }

  // --------------------------------------------------------- specification

  /**
   * One call on the store: the entries afterwards and the result. `pretty` is
   * the pretty JSON rendering and `keyOrder` the store's key iteration order.
   */
  function Step(entries: map<string, Json>, p: MemoryProperties,
                pretty: Json -> string, keyOrder: set<string> -> seq<string>): (map<string, Json>, CallToolResult)
  {
    match p.action
    case Store =>
      if p.key.None? then (entries, ErrorResult("Key is required for store action"))
      else if p.value.None? then (entries, ErrorResult("Value is required for store action"))
      else (entries[p.key.value := p.value.value], SuccessResult("Successfully stored memory with key: " + p.key.value))
    case Retrieve =>
      if p.key.None? then (entries, ErrorResult("Key is required for retrieve action"))
      else if p.key.value in entries then (entries, SuccessResult(pretty(entries[p.key.value])))
      else (entries, SuccessResult("No memory found for key: " + p.key.value))
    case List =>
      (entries, SuccessResult(pretty(Strs(keyOrder(entries.Keys)))))
    case Delete =>
      if p.key.None? then (entries, ErrorResult("Key is required for delete action"))
      else if p.key.value in entries then (entries - {p.key.value}, SuccessResult("Successfully deleted memory with key: " + p.key.value))
      else (entries, SuccessResult("No memory found to delete for key: " + p.key.value))
    case Clear =>
      (map[], SuccessResult("Successfully cleared all memories"))
  }

  /** Every result is one text item without metadata, flagged as an error exactly on a validation failure. */
  lemma ResultShape(entries: map<string, Json>, p: MemoryProperties, pretty: Json -> string, keyOrder: set<string> -> seq<string>)
    ensures var r := Step(entries, p, pretty, keyOrder).1;
            |r.content| == 1 && TextOf(r.content[0]).Some? && r.meta.None? && r.isError == Some(IsValidationFailure(p))
  {
  }

  /** Only store, delete and clear change the store, and never on a validation failure. */
  lemma ReadOnlyActions(entries: map<string, Json>, p: MemoryProperties, pretty: Json -> string, keyOrder: set<string> -> seq<string>)
    requires p.action in {Retrieve, List} || IsValidationFailure(p)
    ensures Step(entries, p, pretty, keyOrder).0 == entries
  {
  }

  /** A store or a delete touches its own key and no other. */
  lemma OtherKeysUnchanged(entries: map<string, Json>, p: MemoryProperties, pretty: Json -> string,
                           keyOrder: set<string> -> seq<string>, other: string)
    requires p.action in {Store, Delete} && p.key.Some? && other != p.key.value
    ensures var after := Step(entries, p, pretty, keyOrder).0;
            (other in after <==> other in entries) && (other in after ==> after[other] == entries[other])
  {
  }

  /** After a store, retrieving the same key answers with the rendering of the stored value. */
  lemma StoreThenRetrieve(entries: map<string, Json>, k: string, v: Json, pretty: Json -> string, keyOrder: set<string> -> seq<string>)
    ensures var stored := Step(entries, MemoryProperties(Store, Some(k), Some(v)), pretty, keyOrder).0;
            Step(stored, MemoryProperties(Retrieve, Some(k), None), pretty, keyOrder) == (stored, SuccessResult(pretty(v)))
  {
  }

  /** After a delete, the key is gone: retrieving it reports that nothing is stored. */
  lemma DeleteThenRetrieve(entries: map<string, Json>, k: string, pretty: Json -> string, keyOrder: set<string> -> seq<string>)
    ensures var after := Step(entries, MemoryProperties(Delete, Some(k), None), pretty, keyOrder).0;
            k !in after && after.Keys == entries.Keys - {k}
            && Step(after, MemoryProperties(Retrieve, Some(k), None), pretty, keyOrder).1 == SuccessResult("No memory found for key: " + k)
  {
  }

  /** Listing names every stored key exactly once (in the store's own order) and changes nothing. */
  lemma ListNamesEveryKey(entries: map<string, Json>, pretty: Json -> string, keyOrder: set<string> -> seq<string>)
    requires EnumeratesKeys(keyOrder)
    ensures exists ks :: IsEnumeration(ks, entries.Keys)
                      && Step(entries, MemoryProperties(List, None, None), pretty, keyOrder) == (entries, SuccessResult(pretty(Strs(ks))))
  {
    var ks := keyOrder(entries.Keys);
    assert IsEnumeration(ks, entries.Keys);
  }

  /** An enumeration lists as many names as there are keys; in particular an enumeration of no keys is empty. */
  lemma {:induction false} EnumerationLength(ks: seq<string>, keys: set<string>)
    requires IsEnumeration(ks, keys)
    ensures |ks| == |keys|
  {
    if ks != [] {
      var rest := ks[1..];
      assert ks == [ks[0]] + rest;
      forall k ensures k in rest <==> k in keys - {ks[0]} {
        if k in rest {
          var i :| 0 <= i < |rest| && rest[i] == k;
          assert ks[i + 1] == k;
        }
      }
      assert IsEnumeration(rest, keys - {ks[0]});
      EnumerationLength(rest, keys - {ks[0]});
    }
  }

  /** Clear empties the store, and a following list renders the empty array, `[]`. */
  lemma ClearThenList(entries: map<string, Json>, p: MemoryProperties, pretty: Json -> string, keyOrder: set<string> -> seq<string>)
    requires p.action == Clear
    requires EnumeratesKeys(keyOrder)
    requires pretty(Arr([])) == "[]"
    ensures var cleared := Step(entries, p, pretty, keyOrder);
            cleared == (map[], SuccessResult("Successfully cleared all memories"))
            && Step(cleared.0, MemoryProperties(List, None, None), pretty, keyOrder).1 == SuccessResult("[]")
  {
    var empty: map<string, Json> := map[];
    assert empty.Keys == {};
    EnumerationLength(keyOrder({}), {});
    assert Strs(keyOrder(empty.Keys)) == Arr([]);
  }

  /** Without an `action` argument the call fails to deserialise: the required field is enforced. */
  lemma MissingActionIsArgumentError(args: Option<map<string, Json>>, pretty: Json -> string,
                                     keyOrder: set<string> -> seq<string>, entries: map<string, Json>)
    requires args.None? || "action" !in args.value
    ensures var r := CallBoxed(args, Parse, (p: MemoryProperties) => Success(Step(entries, p, pretty, keyOrder).1));
            r.Failure? && r.error.ArgumentParse?
  {
  }

  // ------------------------------------------------------------ the store

  /** The shared store behind the tool; each method is one action, performed atomically. */
  class MemoryStore {
    var entries: map<string, Json>

    constructor ()
      ensures entries == map[]
    {
      entries := map[];
    }

    method Store(key: Option<string>, value: Option<Json>) returns (r: CallToolResult)
      modifies this
      ensures key.None? ==> entries == old(entries) && r == ErrorResult("Key is required for store action")
      ensures key.Some? && value.None? ==> entries == old(entries) && r == ErrorResult("Value is required for store action")
      ensures key.Some? && value.Some? ==>
        && entries == old(entries)[key.value := value.value]
        && r == SuccessResult("Successfully stored memory with key: " + key.value)
    {
      if key.None? {
        return ErrorResult("Key is required for store action");
      }
      if value.None? {
        return ErrorResult("Value is required for store action");
      }
      entries := entries[key.value := value.value];
      r := SuccessResult("Successfully stored memory with key: " + key.value);
    }

    method Retrieve(key: Option<string>, pretty: Json -> string) returns (r: CallToolResult)
      ensures key.None? ==> r == ErrorResult("Key is required for retrieve action")
      ensures key.Some? && key.value in entries ==> r == SuccessResult(pretty(entries[key.value]))
      ensures key.Some? && key.value !in entries ==> r == SuccessResult("No memory found for key: " + key.value)
    {
      if key.None? {
        return ErrorResult("Key is required for retrieve action");
      }
      if key.value in entries {
        r := SuccessResult(pretty(entries[key.value]));
      } else {
        r := SuccessResult("No memory found for key: " + key.value);
      }
    }

    method List(pretty: Json -> string, keyOrder: set<string> -> seq<string>) returns (r: CallToolResult)
      ensures r == SuccessResult(pretty(Strs(keyOrder(entries.Keys))))
    {
      var keys := keyOrder(entries.Keys);
      r := SuccessResult(pretty(Strs(keys)));
    }

    method Delete(key: Option<string>) returns (r: CallToolResult)
      modifies this
      ensures key.None? ==> entries == old(entries) && r == ErrorResult("Key is required for delete action")
      ensures key.Some? ==> entries == old(entries) - {key.value}
      ensures key.Some? && key.value in old(entries) ==> r == SuccessResult("Successfully deleted memory with key: " + key.value)
      ensures key.Some? && key.value !in old(entries) ==> r == SuccessResult("No memory found to delete for key: " + key.value)
    {
      if key.None? {
        return ErrorResult("Key is required for delete action");
      }
      if key.value in entries {
        entries := entries - {key.value};
        r := SuccessResult("Successfully deleted memory with key: " + key.value);
      } else {
        r := SuccessResult("No memory found to delete for key: " + key.value);
      }
    }

    method Clear() returns (r: CallToolResult)
      modifies this
      ensures entries == map[] && r == SuccessResult("Successfully cleared all memories")
    {
      entries := map[];
      r := SuccessResult("Successfully cleared all memories");
    }

    /** `Memory::call`: dispatch on the action; the outcome is always `Ok`. */
    method Call(p: MemoryProperties, pretty: Json -> string, keyOrder: set<string> -> seq<string>)
      returns (r: Result<CallToolResult, ToolError>)
      modifies this
      ensures (entries, r) == (Step(old(entries), p, pretty, keyOrder).0, Success(Step(old(entries), p, pretty, keyOrder).1))
    {
      var result: CallToolResult;
      match p.action {
        case Store => result := Store(p.key, p.value);
        case Retrieve => result := Retrieve(p.key, pretty);
        case List => result := List(pretty, keyOrder);
        case Delete =>
          result := Delete(p.key);
          assert p.key.Some? && p.key.value !in old(entries) ==> old(entries) - {p.key.value} == old(entries);
        case Clear => result := Clear();
      }
      r := Success(result);
    }
  }
}
