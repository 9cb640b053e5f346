/** JFunction: a loot function builder. Its named mutators write members into a
    private property object (through the serialization context it last saw,
    for the values that need one), and conditions are appended to a lazily
    created list; its serializer writes the function identifier and the
    conditions, and never the property object. */
module LootFunction {
  import opened Wrappers
  import opened Gson
  import opened Minecraft
  import opened LootCondition

  /** The property object after a mutator, and whether the mutator finished. */
  datatype Step = Step(properties: Fields, outcome: Outcome<Error>)

  /** Registry lookups in order: every id, or the first object the registry
      does not know. */
  function LookupAll<K>(ids: map<K, Identifier>, ks: seq<K>): (r: Result<seq<Identifier>, K>)
    ensures r.Success? <==> forall i :: 0 <= i < |ks| ==> ks[i] in ids
    ensures r.Success? ==> |r.value| == |ks| && forall i :: 0 <= i < |ks| ==> ks[i] in ids && r.value[i] == ids[ks[i]]
    ensures r.Failure? ==> exists i :: 0 <= i < |ks| && ks[i] == r.error && ks[i] !in ids &&
                                       forall j :: 0 <= j < i ==> ks[j] in ids
  {
    if ks == [] then Success([])
    else if ks[0] !in ids then Failure(ks[0])
    else
      match LookupAll(ids, ks[1..])
      case Success(rest) => Success([ids[ks[0]]] + rest)
      case Failure(k) =>
        assert forall i :: 0 <= i < |ks| - 1 ==> ks[1..][i] == ks[i + 1];
        Failure(k)
  }

  /** The lookups stop at the first unknown object. */
  lemma LookupAllFirstMissing<K>(ids: map<K, Identifier>, ks: seq<K>, i: nat)
    requires i < |ks| && ks[i] !in ids && forall k :: 0 <= k < i ==> ks[k] in ids
    ensures LookupAll(ids, ks) == Failure(ks[i])
  {
    var r := LookupAll(ids, ks);
    var j :| 0 <= j < |ks| && ks[j] == r.error && ks[j] !in ids && forall j' :: 0 <= j' < j ==> ks[j'] in ids;
    assert j >= i;
    assert j <= i;
  }

  /** `EntityAttributeModifier.Operation` as the loot table format names it. */
  function OperationName(op: Operation): (r: string)
    ensures r == "addition" <==> op == Addition
    ensures r == "multiply_base" <==> op == MultiplyBase
    ensures r == "multiply_total" <==> op == MultiplyTotal
  {
    match op
    case Addition => "addition"
    case MultiplyBase => "multiply_base"
    case MultiplyTotal => "multiply_total"
  }

  /** One `set_attributes` modifier; `name` and `id` are null when None. */
  datatype SetAttributesAttribute = SetAttributesAttribute(
    name: Option<string>,
    attribute: Handle,
    operation: Operation,
    amountRange: Handle,
    slots: seq<EquipmentSlot>,
    id: Option<string>)

  /** The "slot" member: a single slot is written as its name, any other
      number of slots (none included) as an array of names in order. */
  function SlotJson(slots: seq<EquipmentSlot>): (r: Json)
    ensures r.JStr? <==> |slots| == 1
    ensures |slots| == 1 ==> r.s == SlotName(slots[0])
    ensures |slots| != 1 ==>
      r.JArr? && |r.items| == |slots| && forall i :: 0 <= i < |slots| ==> r.items[i] == JStr(SlotName(slots[i]))
  {
    if |slots| == 1 then JStr(SlotName(slots[0]))
    else JArr(seq(|slots|, i requires 0 <= i < |slots| => JStr(SlotName(slots[i]))))
  }

  /** What `SetAttributesAttribute.serialize` returns: a fresh object holding
      name, attribute, operation, amount, id when present, and slot, in that
      order. A null registry id or a null context throws. */
  function AttributeJson(game: Game, ctx: Option<Context>, a: SetAttributesAttribute): (r: Result<Json, Error>)
    ensures r.Success? <==> a.attribute in game.attributeIds && ctx.Some?
    ensures r.Failure? ==> r.error == NullPointer
    ensures r.Success? ==> r.value.JObj? && UniqueKeys(r.value.fields)
    ensures r.Success? ==>
      Keys(r.value.fields) ==
        ["name", "attribute", "operation", "amount"] + (if a.id.Some? then ["id"] else []) + ["slot"]
    ensures r.Success? ==>
      var fs := r.value.fields;
      Get(fs, "name") == Some(if a.name.Some? then JStr(a.name.value) else JNull) &&
      Get(fs, "attribute") == Some(JStr(game.attributeIds[a.attribute])) &&
      Get(fs, "operation") == Some(JStr(OperationName(a.operation))) &&
      Get(fs, "amount") == Some(ctx.value.render(a.amountRange)) &&
      Get(fs, "id") == (if a.id.Some? then Some(JStr(a.id.value)) else None) &&
      Get(fs, "slot") == Some(SlotJson(a.slots))
  {
    if a.attribute !in game.attributeIds || ctx.None? then Failure(NullPointer)
    else
      var id := if a.id.Some? then Some(JStr(a.id.value)) else None;
      var fs := ModifierFields(if a.name.Some? then JStr(a.name.value) else JNull,
                               JStr(game.attributeIds[a.attribute]), JStr(OperationName(a.operation)),
                               ctx.value.render(a.amountRange), id, SlotJson(a.slots));
      ModifierKeys(fs[0].1, fs[1].1, fs[2].1, fs[3].1, id, SlotJson(a.slots));
      ModifierGet(fs[0].1, fs[1].1, fs[2].1, fs[3].1, id, SlotJson(a.slots));
      Success(JObj(fs))
  }

  /** The members of a modifier object, in the order they are added. */
  function ModifierFields(name: Json, attribute: Json, operation: Json, amount: Json, id: Option<Json>, slot: Json): Fields {
    [("name", name), ("attribute", attribute), ("operation", operation), ("amount", amount)]
    + Member("id", id) + [("slot", slot)]
  }

  /** A modifier object never repeats a name, and holds "id" only when the
      UUID is present. */
  lemma ModifierKeys(name: Json, attribute: Json, operation: Json, amount: Json, id: Option<Json>, slot: Json)
    ensures var fs := ModifierFields(name, attribute, operation, amount, id, slot);
      UniqueKeys(fs) &&
      Keys(fs) == ["name", "attribute", "operation", "amount"] + (if id.Some? then ["id"] else []) + ["slot"]
  {
    var head := [("name", name), ("attribute", attribute), ("operation", operation), ("amount", amount)];
    var mid := Member("id", id);
    var tail := mid + [("slot", slot)];
    var fs := ModifierFields(name, attribute, operation, amount, id, slot);
    assert fs == head + tail;
    assert Keys(head) == ["name", "attribute", "operation", "amount"];
    assert Keys(tail) == (if id.Some? then ["id"] else []) + ["slot"] by {
      KeysAppend(mid, [("slot", slot)]);
    }
    KeysAppend(head, tail);
    forall i, j | 0 <= i < j < |fs| ensures fs[i].0 != fs[j].0 {
      assert fs[i].0 == Keys(fs)[i] && fs[j].0 == Keys(fs)[j];
    }
  }

  /** Each member of a modifier object, looked up by name. */
  lemma ModifierGet(name: Json, attribute: Json, operation: Json, amount: Json, id: Option<Json>, slot: Json)
    ensures var fs := ModifierFields(name, attribute, operation, amount, id, slot);
      Get(fs, "name") == Some(name) && Get(fs, "attribute") == Some(attribute) &&
      Get(fs, "operation") == Some(operation) && Get(fs, "amount") == Some(amount) &&
      Get(fs, "id") == id && Get(fs, "slot") == Some(slot)
  {
    var fs := ModifierFields(name, attribute, operation, amount, id, slot);
    ModifierKeys(name, attribute, operation, amount, id, slot);
    var head := [("name", name), ("attribute", attribute), ("operation", operation), ("amount", amount)];
    if id.Some? {
      assert fs == head + [("id", id.value), ("slot", slot)];
      GetAt(fs, 0); GetAt(fs, 1); GetAt(fs, 2); GetAt(fs, 3); GetAt(fs, 4); GetAt(fs, 5);
    } else {
      assert fs == head + [("slot", slot)];
      GetAt(fs, 0); GetAt(fs, 1); GetAt(fs, 2); GetAt(fs, 3); GetAt(fs, 4);
      GetSome(fs, "id");
    }
  }

  /** `SetAttributesAttribute.serialize`, with its loop over the slots. Every
      `add` goes to a fresh object under a name not yet in it, so each one
      appends (`PutKeys`). */
  method SerializeAttribute(game: Game, ctx: Option<Context>, a: SetAttributesAttribute)
    returns (r: Result<Json, Error>)
    ensures r == AttributeJson(game, ctx, a)
  {
    var o: Fields := [("name", if a.name.Some? then JStr(a.name.value) else JNull)];
    if a.attribute !in game.attributeIds {
      return Failure(NullPointer);
    }
    o := o + [("attribute", JStr(game.attributeIds[a.attribute]))];
    o := o + [("operation", JStr(OperationName(a.operation)))];
    if ctx.None? {
      return Failure(NullPointer);
    }
    o := o + [("amount", ctx.value.render(a.amountRange))];
    if a.id.Some? {
      o := o + [("id", JStr(a.id.value))];
    }
    ghost var head := o;
    assert head == [("name", if a.name.Some? then JStr(a.name.value) else JNull),
                    ("attribute", JStr(game.attributeIds[a.attribute])),
                    ("operation", JStr(OperationName(a.operation))),
                    ("amount", ctx.value.render(a.amountRange))]
                   + Member("id", if a.id.Some? then Some(JStr(a.id.value)) else None);
    if |a.slots| == 1 {
      o := o + [("slot", JStr(SlotName(a.slots[0])))];
    } else {
      var items: seq<Json> := [];
      var i := 0;
      while i < |a.slots|
        invariant 0 <= i <= |a.slots|
        invariant |items| == i && forall k :: 0 <= k < i ==> items[k] == JStr(SlotName(a.slots[k]))
      {
        items := items + [JStr(SlotName(a.slots[i]))];
        i := i + 1;
      }
      assert JArr(items) == SlotJson(a.slots);
      o := o + [("slot", JArr(items))];
    }
    assert o == head + [("slot", SlotJson(a.slots))];
    return Success(JObj(o));
  }

  /** The "modifiers" array of `setAttributes`: every modifier in order, or
      the exception of the first one that throws. */
  function AttributesJson(game: Game, ctx: Option<Context>, attrs: seq<SetAttributesAttribute>): (r: Result<seq<Json>, Error>)
    ensures r.Success? <==> forall i :: 0 <= i < |attrs| ==> AttributeJson(game, ctx, attrs[i]).Success?
    ensures r.Success? ==>
      |r.value| == |attrs| && forall i :: 0 <= i < |attrs| ==> r.value[i] == AttributeJson(game, ctx, attrs[i]).value
    ensures r.Failure? ==> r.error == NullPointer
  {
    if attrs == [] then Success([])
    else
      var head := AttributeJson(game, ctx, attrs[0]);
      if head.Failure? then Failure(head.error)
      else
        var rest := AttributesJson(game, ctx, attrs[1..]);
        assert forall i :: 0 <= i < |attrs| - 1 ==> attrs[1..][i] == attrs[i + 1];
        if rest.Failure? then Failure(rest.error) else Success([head.value] + rest.value)
  }

  /** The first objects of a list of pairs, in order. */
  function Firsts<K, V>(ps: seq<(K, V)>): (ks: seq<K>)
    ensures |ks| == |ps| && forall i :: 0 <= i < |ps| ==> ks[i] == ps[i].0
  {
    seq(|ps|, i requires 0 <= i < |ps| => ps[i].0)
  }

  /** The "effects" array of `setStewEffect`, one object per status effect in
      iteration order. The first effect decides when there is no context: its
      unknown id throws first, otherwise the context does. With a context,
      the first unknown id throws. */
  function StewEffectsJson(game: Game, ctx: Option<Context>, effects: seq<(Handle, Handle)>): (r: Result<seq<Json>, Error>)
    ensures ctx.None? && effects != [] ==>
      r == Failure(if effects[0].0 in game.statusEffectIds then NullPointer else UnknownStatusEffect(effects[0].0))
    ensures ctx.Some? ==>
      match LookupAll(game.statusEffectIds, Firsts(effects))
      case Failure(e) => r == Failure(UnknownStatusEffect(e))
      case Success(ids) =>
        r.Success? && |r.value| == |effects| &&
        (forall i :: 0 <= i < |effects| ==>
          r.value[i] == JObj([("type", JStr(ids[i])), ("duration", ctx.value.render(effects[i].1))]))
    ensures effects == [] ==> r == Success([])
  {
    if effects == [] then Success([])
    else if effects[0].0 !in game.statusEffectIds then Failure(UnknownStatusEffect(effects[0].0))
    else if ctx.None? then Failure(NullPointer)
    else
      var rest := StewEffectsJson(game, ctx, effects[1..]);
      assert Firsts(effects)[1..] == Firsts(effects[1..]);
      match rest
      case Failure(e) => Failure(e)
      case Success(tail) =>
        Success([JObj([("type", JStr(game.statusEffectIds[effects[0].0])),
                       ("duration", ctx.value.render(effects[0].1))])] + tail)
  }

  /** The destination of `explorationMap`: written only when it is not the
      default (buried treasure), through the context, which throws when there
      is none. */
  function MapDestinationStep(ps: Fields, game: Game, ctx: Option<Context>, destination: Handle): (r: Step)
    ensures r.outcome.Fail? <==> ctx.None? && destination != game.buriedTreasure
    ensures r.outcome.Fail? ==> r == Step(ps, Fail(NullPointer))
    ensures Get(r.properties, "destination") ==
      if ctx.Some? && destination != game.buriedTreasure
      then Some(JStr(game.structureName(destination))) else Get(ps, "destination")
    ensures forall k :: k != "destination" ==> Get(r.properties, k) == Get(ps, k)
  {
    if destination == game.buriedTreasure then Step(ps, Pass)
    else if ctx.None? then Step(ps, Fail(NullPointer))
    else Step(Put(ps, "destination", JStr(game.structureName(destination))), Pass)
  }

  /** The decoration of `explorationMap`: written lower-cased only when it is
      not the default (MANSION), through the context, which throws when there
      is none. */
  function MapDecorationStep(ps: Fields, ctx: Option<Context>, decoration: ConstantName): (r: Step)
    ensures r.outcome.Fail? <==> ctx.None? && decoration != DefaultDecoration
    ensures r.outcome.Fail? ==> r == Step(ps, Fail(NullPointer))
    ensures Get(r.properties, "decoration") ==
      if ctx.Some? && decoration != DefaultDecoration
      then Some(JStr(Lower(decoration))) else Get(ps, "decoration")
    ensures forall k :: k != "decoration" ==> Get(r.properties, k) == Get(ps, k)
  {
    if decoration == DefaultDecoration then Step(ps, Pass)
    else if ctx.None? then Step(ps, Fail(NullPointer))
    else Step(Put(ps, "decoration", JStr(Lower(decoration))), Pass)
  }

  /** The second half of `explorationMap`: zoom, search_radius and
      skip_existing_chunks are each written only when they differ from the
      game's defaults (2, 50 and true). */
  function MapSettings(ps: Fields, zoom: Byte, searchRadius: Int32, skipExistingChunks: bool): (r: Fields)
    ensures Get(r, "zoom") == if zoom != 2 then Some(JNum(Int(zoom))) else Get(ps, "zoom")
    ensures Get(r, "search_radius") ==
      if searchRadius != 50 then Some(JNum(Int(searchRadius))) else Get(ps, "search_radius")
    ensures Get(r, "skip_existing_chunks") ==
      if !skipExistingChunks then Some(JBool(false)) else Get(ps, "skip_existing_chunks")
    ensures forall k :: k != "zoom" && k != "search_radius" && k != "skip_existing_chunks" ==> Get(r, k) == Get(ps, k)
  {
    var p := PutIf(ps, zoom != 2, "zoom", JNum(Int(zoom)));
    var p := PutIf(p, searchRadius != 50, "search_radius", JNum(Int(searchRadius)));
    PutIf(p, !skipExistingChunks, "skip_existing_chunks", JBool(skipExistingChunks))
  }

  /** `explorationMap`: destination, decoration, then the settings; a throw
      at either target leaves everything after it unwritten. */
  function ExplorationMapStep(ps: Fields, game: Game, ctx: Option<Context>, destination: Handle,
                              decoration: ConstantName, zoom: Byte, searchRadius: Int32,
                              skipExistingChunks: bool): Step
  {
    var d := MapDestinationStep(ps, game, ctx, destination);
    if d.outcome.Fail? then d else
    var c := MapDecorationStep(d.properties, ctx, decoration);
    if c.outcome.Fail? then c else
    Step(MapSettings(c.properties, zoom, searchRadius, skipExistingChunks), Pass)
  }

  /** With every argument at the game's default, `explorationMap` writes
      nothing, and needs no context. */
  lemma ExplorationMapDefaults(ps: Fields, game: Game, ctx: Option<Context>)
    ensures ExplorationMapStep(ps, game, ctx, game.buriedTreasure, DefaultDecoration, 2, 50, true) == Step(ps, Pass)
  {
  }

  /** `lootingEnchant`: the count range through the context, then the limit
      only when it is positive. Without a context nothing is written. */
  function LootingEnchantStep(ps: Fields, ctx: Option<Context>, countRange: Handle, limit: Int32): (r: Step)
    ensures r.outcome.Fail? <==> ctx.None?
    ensures r.outcome.Fail? ==> r == Step(ps, Fail(NullPointer))
    ensures r.outcome.Pass? ==> Get(r.properties, "count") == Some(ctx.value.render(countRange))
    ensures Get(r.properties, "limit") ==
      if ctx.Some? && limit > 0 then Some(JNum(Int(limit))) else Get(ps, "limit")
    ensures forall k :: k != "count" && k != "limit" ==> Get(r.properties, k) == Get(ps, k)
  {
    if ctx.None? then Step(ps, Fail(NullPointer))
    else
      var p := Put(ps, "count", ctx.value.render(countRange));
      Step(PutIf(p, limit > 0, "limit", JNum(Int(limit))), Pass)
  }

  /** `setName`: the text is written when given (without the context), then
      the entity target, through the context, when given. */
  function SetNameStep(ps: Fields, game: Game, ctx: Option<Context>, name: Option<Handle>, entity: Option<Handle>): (r: Step)
    ensures r.outcome.Fail? <==> entity.Some? && ctx.None?
    ensures r.outcome.Fail? ==> r.outcome.error == NullPointer
    ensures Get(r.properties, "name") ==
      if name.Some? then Some(game.textJson(name.value)) else Get(ps, "name")
    ensures Get(r.properties, "entity") ==
      if entity.Some? && ctx.Some? then Some(ctx.value.render(entity.value)) else Get(ps, "entity")
    ensures forall k :: k != "name" && k != "entity" ==> Get(r.properties, k) == Get(ps, k)
  {
    var p := if name.Some? then Put(ps, "name", game.textJson(name.value)) else ps;
    if entity.None? then Step(p, Pass)
    else if ctx.None? then Step(p, Fail(NullPointer))
    else Step(Put(p, "entity", ctx.value.render(entity.value)), Pass)
  }

  /** `applyBonus`: the enchantment's id (an unknown enchantment throws before
      anything is written), the formula's id, and the formula's parameters
      only when it has any. */
  function ApplyBonusStep(ps: Fields, game: Game, enchantment: Handle, formula: Handle): (r: Step)
    ensures r.outcome.Fail? <==> enchantment !in game.enchantmentIds
    ensures r.outcome.Fail? ==> r == Step(ps, Fail(NullPointer))
    ensures r.outcome.Pass? ==>
      Get(r.properties, "enchantment") == Some(JStr(game.enchantmentIds[enchantment])) &&
      Get(r.properties, "formula") == Some(JStr(game.formulaId(formula))) &&
      Get(r.properties, "parameters") ==
        (if |game.formulaParameters(formula)| > 0 then Some(JObj(game.formulaParameters(formula)))
         else Get(ps, "parameters"))
    ensures forall k :: k != "enchantment" && k != "formula" && k != "parameters" ==>
      Get(r.properties, k) == Get(ps, k)
  {
    if enchantment !in game.enchantmentIds then Step(ps, Fail(NullPointer))
    else
      var p := Put(ps, "enchantment", JStr(game.enchantmentIds[enchantment]));
      var p := Put(p, "formula", JStr(game.formulaId(formula)));
      var parameters := game.formulaParameters(formula);
      Step(PutIf(p, |parameters| > 0, "parameters", JObj(parameters)), Pass)
  }

  /** `setLootTable`: the table's id, then the seed only when it is not 0. */
  function SetLootTableProperties(ps: Fields, id: Identifier, seed: Int64): (r: Fields)
    ensures Get(r, "name") == Some(JStr(id))
    ensures Get(r, "seed") == if seed != 0 then Some(JNum(Int(seed))) else Get(ps, "seed")
    ensures forall k :: k != "name" && k != "seed" ==> Get(r, k) == Get(ps, k)
  {
    PutIf(Put(ps, "name", JStr(id)), seed != 0, "seed", JNum(Int(seed)))
  }

  /** `addLore`: the replace flag, the lore lines in order, then the entity
      target, through the context, when given. */
  function AddLoreStep(ps: Fields, game: Game, ctx: Option<Context>, replace: bool,
                       lore: seq<Handle>, entity: Option<Handle>): (r: Step)
    ensures r.outcome.Fail? <==> entity.Some? && ctx.None?
    ensures r.outcome.Fail? ==> r.outcome.error == NullPointer
    ensures Get(r.properties, "replace") == Some(JBool(replace))
    ensures Get(r.properties, "lore").Some? && Get(r.properties, "lore").value.JArr?
    ensures var lines := Get(r.properties, "lore").value.items;
      |lines| == |lore| && forall i :: 0 <= i < |lore| ==> lines[i] == game.textJson(lore[i])
    ensures Get(r.properties, "entity") ==
      if entity.Some? && ctx.Some? then Some(ctx.value.render(entity.value)) else Get(ps, "entity")
    ensures forall k :: k != "replace" && k != "lore" && k != "entity" ==> Get(r.properties, k) == Get(ps, k)
  {
    var p := Put(ps, "replace", JBool(replace));
    var p := Put(p, "lore", JArr(Map(game.textJson, lore)));
    if entity.None? then Step(p, Pass)
    else if ctx.None? then Step(p, Fail(NullPointer))
    else Step(Put(p, "entity", ctx.value.render(entity.value)), Pass)
  }

  class JFunction {
    var properties: Fields
    var functionId: Option<Identifier>   // the `function` field
    var conditions: Option<seq<JCondition>>   // None: the list was never created
    var context: Option<Context>              // the context of the last serialization

    /** `add` never repeats a property name. */
    ghost predicate Valid()
      reads this`properties
    {
      UniqueKeys(properties)
    }

    /** The JSON the serializer produces: the function identifier (null when
        unset), then the conditions when the list exists. */
    ghost function ToJson(): Json
      reads *
    {
      JObj([("function", if functionId.Some? then JStr(functionId.value) else JNull)]
           + Member("conditions", if conditions.Some? then Some(JArr(ConditionsJson(conditions.value))) else None))
    }

    constructor (id: Identifier)
      ensures properties == [] && functionId == Some(id)
      ensures conditions == None && context == None
      ensures Valid()
      ensures ToJson() == JObj([("function", JStr(id))])
    {
      properties := [];
      functionId := Some(id);
      conditions := None;
      context := None;
    }

    /** The deprecated String constructor: the name goes into the property
        object, which is never serialized, and the function identifier stays
        null. */
    constructor OfString(name: string)
      ensures properties == [("function", JStr(name))] && functionId == None
      ensures conditions == None && context == None
      ensures Valid()
      ensures ToJson() == JObj([("function", JNull)])
    {
      properties := [("function", JStr(name))];
      functionId := None;
      conditions := None;
      context := None;
    }

    /** `add(String, JsonElement)`. */
    method Add(key: string, value: Json)
      requires Valid()
      modifies this`properties
      ensures Valid()
      ensures properties == Put(old(properties), key, value)
    {
      PutUnique(properties, key, value);
      properties := Put(properties, key, value);
    }

    /** The deprecated `add(String, Object)`: the object's `toString`. */
    method AddText(key: string, text: string)
      requires Valid()
      modifies this`properties
      ensures Valid()
      ensures properties == Put(old(properties), key, JStr(text))
    {
      Add(key, JStr(text));
    }

    method SetCount(countRange: Handle) returns (r: Outcome<Error>)
      requires Valid()
      modifies this`properties
      ensures Valid()
      ensures r == if context.None? then Fail(NullPointer) else Pass
      ensures properties ==
        if context.None? then old(properties) else Put(old(properties), "count", context.value.renderRange(countRange))
    {
      if context.None? {
        return Fail(NullPointer);
      }
      Add("count", context.value.renderRange(countRange));
      return Pass;
    }

    method EnchantWithLevels(range: Handle, treasureEnchantmentsAllowed: bool) returns (r: Outcome<Error>)
      requires Valid()
      modifies this`properties
      ensures Valid()
      ensures r == if context.None? then Fail(NullPointer) else Pass
      ensures properties == if context.None? then old(properties) else
        PutAll(old(properties), [("levels", context.value.renderRange(range)),
                                 ("treasure", JBool(treasureEnchantmentsAllowed))])
    {
      if context.None? {
        return Fail(NullPointer);
      }
      PutAllTwo(properties, ("levels", context.value.renderRange(range)), ("treasure", JBool(treasureEnchantmentsAllowed)));
      Add("levels", context.value.renderRange(range));
      Add("treasure", JBool(treasureEnchantmentsAllowed));
      return Pass;
    }

    /** `enchantRandomly`: an empty list writes nothing; otherwise every
        enchantment's id, in order, or the first unknown one throws before
        anything is written. */
    method EnchantRandomly(game: Game, enchantments: seq<Handle>) returns (r: Outcome<Error>)
      requires Valid()
      modifies this`properties
      ensures Valid()
      ensures enchantments == [] ==> r == Pass && properties == old(properties)
      ensures enchantments != [] ==>
        match LookupAll(game.enchantmentIds, enchantments)
        case Failure(e) => r == Fail(UnknownEnchantment(e)) && properties == old(properties)
        case Success(ids) => r == Pass && properties == Put(old(properties), "enchantments", JArr(Map(AsString, ids)))
    {
      if enchantments == [] {
        return Pass;
      }
      var items: seq<Json> := [];
      var i := 0;
      while i < |enchantments|
        invariant 0 <= i <= |enchantments|
        invariant properties == old(properties)
        invariant forall k :: 0 <= k < i ==> enchantments[k] in game.enchantmentIds
        invariant |items| == i && forall k :: 0 <= k < i ==> items[k] == JStr(game.enchantmentIds[enchantments[k]])
      {
        var e := enchantments[i];
        if e !in game.enchantmentIds {
          LookupAllFirstMissing(game.enchantmentIds, enchantments, i);
          return Fail(UnknownEnchantment(e));
        }
        items := items + [JStr(game.enchantmentIds[e])];
        i := i + 1;
      }
      ghost var ids := LookupAll(game.enchantmentIds, enchantments).value;
      assert items == Map(AsString, ids);
      Add("enchantments", JArr(items));
      return Pass;
    }

    method SetNbtLoot(game: Game, tag: Handle)
      requires Valid()
      modifies this`properties
      ensures Valid()
      ensures properties == Put(old(properties), "tag", JStr(game.nbtText(tag)))
    {
      Add("tag", JStr(game.nbtText(tag)));
    }

    method LootingEnchant(countRange: Handle, limit: Int32) returns (r: Outcome<Error>)
      requires Valid()
      modifies this`properties
      ensures Valid()
      ensures Step(properties, r) == LootingEnchantStep(old(properties), context, countRange, limit)
    {
      if context.None? {
        return Fail(NullPointer);
      }
      Add("count", context.value.render(countRange));
      if limit > 0 {
        Add("limit", JNum(Int(limit)));
      }
      return Pass;
    }

    /** `setDamage`: the durability range goes under "count". */
    method SetDamage(durabilityRange: Handle) returns (r: Outcome<Error>)
      requires Valid()
      modifies this`properties
      ensures Valid()
      ensures r == if context.None? then Fail(NullPointer) else Pass
      ensures properties ==
        if context.None? then old(properties) else Put(old(properties), "count", context.value.render(durabilityRange))
    {
      if context.None? {
        return Fail(NullPointer);
      }
      Add("count", context.value.render(durabilityRange));
      return Pass;
    }

    /** `setAttributes`: "modifiers" holds every modifier in order; a modifier
        that throws leaves the properties as they were. */
    method SetAttributes(game: Game, attributes: seq<SetAttributesAttribute>) returns (r: Outcome<Error>)
      requires Valid()
      modifies this`properties
      ensures Valid()
      ensures match AttributesJson(game, context, attributes)
        case Failure(e) => r == Fail(e) && properties == old(properties)
        case Success(ms) => r == Pass && properties == Put(old(properties), "modifiers", JArr(ms))
    {
      var items: seq<Json> := [];
      var i := 0;
      while i < |attributes|
        invariant 0 <= i <= |attributes|
        invariant properties == old(properties)
        invariant |items| == i
        invariant forall k :: 0 <= k < i ==>
          AttributeJson(game, context, attributes[k]).Success? && items[k] == AttributeJson(game, context, attributes[k]).value
      {
        var m := SerializeAttribute(game, context, attributes[i]);
        if m.Failure? {
          return Fail(m.error);
        }
        items := items + [m.value];
        i := i + 1;
      }
      assert items == AttributesJson(game, context, attributes).value;
      Add("modifiers", JArr(items));
      return Pass;
    }

    method SetName(game: Game, name: Option<Handle>, entity: Option<Handle>) returns (r: Outcome<Error>)
      requires Valid()
      modifies this`properties
      ensures Valid()
      ensures Step(properties, r) == SetNameStep(old(properties), game, context, name, entity)
    {
      if name.Some? {
        Add("name", game.textJson(name.value));
      }
      if entity.Some? {
        if context.None? {
          return Fail(NullPointer);
        }
        Add("entity", context.value.render(entity.value));
      }
      return Pass;
    }

    method ExplorationMap(game: Game, destination: Handle, decoration: ConstantName, zoom: Byte,
                          searchRadius: Int32, skipExistingChunks: bool) returns (r: Outcome<Error>)
      requires Valid()
      modifies this`properties
      ensures Valid()
      ensures Step(properties, r) ==
        ExplorationMapStep(old(properties), game, context, destination, decoration, zoom, searchRadius, skipExistingChunks)
    {
      if destination != game.buriedTreasure {
        if context.None? {
          return Fail(NullPointer);
        }
        Add("destination", JStr(game.structureName(destination)));
      }
      if decoration != DefaultDecoration {
        if context.None? {
          return Fail(NullPointer);
        }
        Add("decoration", JStr(Lower(decoration)));
      }
      if zoom != 2 {
        Add("zoom", JNum(Int(zoom)));
      }
      if searchRadius != 50 {
        Add("search_radius", JNum(Int(searchRadius)));
      }
      if !skipExistingChunks {
        Add("skip_existing_chunks", JBool(skipExistingChunks));
      }
      return Pass;
    }

    /** `setStewEffect`: an empty map writes nothing; otherwise "effects" holds
        one object per effect, or the first effect that throws leaves the
        properties as they were. */
    method SetStewEffect(game: Game, effects: seq<(Handle, Handle)>) returns (r: Outcome<Error>)
      requires Valid()
      modifies this`properties
      ensures Valid()
      ensures effects == [] ==> r == Pass && properties == old(properties)
      ensures effects != [] ==>
        match StewEffectsJson(game, context, effects)
        case Failure(e) => r == Fail(e) && properties == old(properties)
        case Success(es) => r == Pass && properties == Put(old(properties), "effects", JArr(es))
    {
      if effects == [] {
        return Pass;
      }
      var items: seq<Json> := [];
      var i := 0;
      while i < |effects|
        invariant 0 <= i <= |effects|
        invariant properties == old(properties)
        invariant i > 0 ==> context.Some?
        invariant forall k :: 0 <= k < i ==> effects[k].0 in game.statusEffectIds
        invariant |items| == i
        invariant forall k :: 0 <= k < i ==>
          context.Some? && effects[k].0 in game.statusEffectIds &&
          items[k] == JObj([("type", JStr(game.statusEffectIds[effects[k].0])),
                            ("duration", context.value.render(effects[k].1))])
      {
        var (effect, duration) := effects[i];
        if effect !in game.statusEffectIds {
          if context.Some? {
            LookupAllFirstMissing(game.statusEffectIds, Firsts(effects), i);
          }
          return Fail(UnknownStatusEffect(effect));
        }
        if context.None? {
          return Fail(NullPointer);
        }
        var o := [("type", JStr(game.statusEffectIds[effect]))];
        o := o + [("duration", context.value.render(duration))];
        items := items + [JObj(o)];
        i := i + 1;
      }
      assert items == StewEffectsJson(game, context, effects).value;
      Add("effects", JArr(items));
      return Pass;
    }

    /** `copyName`: the source's name. */
    method CopyName(source: string)
      requires Valid()
      modifies this`properties
      ensures Valid()
      ensures properties == Put(old(properties), "source", JStr(source))
    {
      Add("source", JStr(source));
    }

    /** `setContents`: the list of entries, through the context. */
    method SetContents(entries: Handle) returns (r: Outcome<Error>)
      requires Valid()
      modifies this`properties
      ensures Valid()
      ensures r == if context.None? then Fail(NullPointer) else Pass
      ensures properties ==
        if context.None? then old(properties) else Put(old(properties), "entries", context.value.render(entries))
    {
      if context.None? {
        return Fail(NullPointer);
      }
      Add("entries", context.value.render(entries));
      return Pass;
    }

    method LimitCount(limit: Handle) returns (r: Outcome<Error>)
      requires Valid()
      modifies this`properties
      ensures Valid()
      ensures r == if context.None? then Fail(NullPointer) else Pass
      ensures properties ==
        if context.None? then old(properties) else Put(old(properties), "limit", context.value.render(limit))
    {
      if context.None? {
        return Fail(NullPointer);
      }
      Add("limit", context.value.render(limit));
      return Pass;
    }

    method ApplyBonus(game: Game, enchantment: Handle, formula: Handle) returns (r: Outcome<Error>)
      requires Valid()
      modifies this`properties
      ensures Valid()
      ensures Step(properties, r) == ApplyBonusStep(old(properties), game, enchantment, formula)
    {
      if enchantment !in game.enchantmentIds {
        return Fail(NullPointer);
      }
      Add("enchantment", JStr(game.enchantmentIds[enchantment]));
      Add("formula", JStr(game.formulaId(formula)));
      var parameters := game.formulaParameters(formula);
      if |parameters| > 0 {
        Add("parameters", JObj(parameters));
      }
      return Pass;
    }

    method SetLootTable(id: Identifier, seed: Int64)
      requires Valid()
      modifies this`properties
      ensures Valid()
      ensures properties == SetLootTableProperties(old(properties), id, seed)
    {
      Add("name", JStr(id));
      if seed != 0 {
        Add("seed", JNum(Int(seed)));
      }
    }

    method AddLore(game: Game, replace: bool, lore: seq<Handle>, entity: Option<Handle>) returns (r: Outcome<Error>)
      requires Valid()
      modifies this`properties
      ensures Valid()
      ensures Step(properties, r) == AddLoreStep(old(properties), game, context, replace, lore, entity)
    {
      Add("replace", JBool(replace));
      var lines: seq<Json> := [];
      var i := 0;
      while i < |lore|
        invariant 0 <= i <= |lore|
        invariant |lines| == i && forall k :: 0 <= k < i ==> lines[k] == game.textJson(lore[k])
      {
        lines := lines + [game.textJson(lore[i])];
        i := i + 1;
      }
      assert lines == Map(game.textJson, lore);
      Add("lore", JArr(lines));
      if entity.Some? {
        if context.None? {
          return Fail(NullPointer);
        }
        Add("entity", context.value.render(entity.value));
      }
      return Pass;
    }

    method FillPlayerHead(entity: Handle) returns (r: Outcome<Error>)
      requires Valid()
      modifies this`properties
      ensures Valid()
      ensures r == if context.None? then Fail(NullPointer) else Pass
      ensures properties ==
        if context.None? then old(properties) else Put(old(properties), "entity", context.value.render(entity))
    {
      if context.None? {
        return Fail(NullPointer);
      }
      Add("entity", context.value.render(entity));
      return Pass;
    }

    /** `copyNbt`: the source's name, then every operation in order. */
    method CopyNbt(game: Game, source: string, operations: seq<Handle>)
      requires Valid()
      modifies this`properties
      ensures Valid()
      ensures properties == PutAll(old(properties),
        [("source", JStr(source)), ("ops", JArr(Map(game.nbtOperationJson, operations)))])
    {
      PutAllTwo(properties, ("source", JStr(source)), ("ops", JArr(Map(game.nbtOperationJson, operations))));
      Add("source", JStr(source));
      var ops: seq<Json> := [];
      var i := 0;
      while i < |operations|
        invariant 0 <= i <= |operations|
        invariant |ops| == i && forall k :: 0 <= k < i ==> ops[k] == game.nbtOperationJson(operations[k])
      {
        ops := ops + [game.nbtOperationJson(operations[i])];
        i := i + 1;
      }
      assert ops == Map(game.nbtOperationJson, operations);
      Add("ops", JArr(ops));
    }

    /** `copyState`: the block's id (an unknown block throws before anything
        is written), then the names of the properties in iteration order. */
    method CopyState(game: Game, block: Handle, stateProperties: seq<Handle>) returns (r: Outcome<Error>)
      requires Valid()
      modifies this`properties
      ensures Valid()
      ensures r == if block !in game.blockIds then Fail(NullPointer) else Pass
      ensures properties == if block !in game.blockIds then old(properties) else
        PutAll(old(properties), [("block", JStr(game.blockIds[block])),
                                 ("properties", JArr(Map(AsString, Map(game.propertyName, stateProperties))))])
    {
      if block !in game.blockIds {
        return Fail(NullPointer);
      }
      PutAllTwo(properties, ("block", JStr(game.blockIds[block])),
                ("properties", JArr(Map(AsString, Map(game.propertyName, stateProperties)))));
      Add("block", JStr(game.blockIds[block]));
      var names: seq<Json> := [];
      var i := 0;
      while i < |stateProperties|
        invariant 0 <= i <= |stateProperties|
        invariant |names| == i && forall k :: 0 <= k < i ==> names[k] == JStr(game.propertyName(stateProperties[k]))
      {
        names := names + [JStr(game.propertyName(stateProperties[i]))];
        i := i + 1;
      }
      assert names == Map(AsString, Map(game.propertyName, stateProperties));
      Add("properties", JArr(names));
      return Pass;
    }

    method GetOrCreateConditions()
      modifies this`conditions
      ensures conditions == Some(old(conditions).GetOr([]))
    {
      if conditions.None? {
        conditions := Some([]);
      }
    }

    /** `condition(JCondition)`, and the deprecated `add(JCondition)` that does
        the same: the condition is appended to the list, created when absent. */
    method Condition(condition: JCondition)
      modifies this`conditions
      ensures conditions == Some(old(conditions).GetOr([]) + [condition])
    {
      GetOrCreateConditions();
      conditions := Some(conditions.value + [condition]);
    }

    /** Gson.serialize: stores the context (so that the context-using
        mutators work afterwards), then renders. */
    method Serialize(ctx: Context) returns (j: Json)
      modifies this`context
      ensures context == Some(ctx)
      ensures j == ToJson()
    {
      context := Some(ctx);
      j := Render();
    }

    /** The object the serializer builds: the function identifier (null when
        unset), then the conditions array when the list exists. Nothing is
        changed. */
    method Render() returns (j: Json)
      ensures j == ToJson()
    {
      // a fresh object: each `add` appends
      var fields := [("function", if functionId.Some? then JStr(functionId.value) else JNull)];
      if conditions.Some? {
        var items := SerializeConditions(conditions.value);
        fields := fields + [("conditions", JArr(items))];
      }
      j := JObj(fields);
    }
  }

  /** The serialized function has "function" first, "conditions" exactly when
      the list exists, and nothing else: no property is ever written. */
  lemma FunctionMembers(f: JFunction)
    ensures Keys(f.ToJson().fields) == ["function"] + (if f.conditions.Some? then ["conditions"] else [])
    ensures Get(f.ToJson().fields, "function") ==
      Some(if f.functionId.Some? then JStr(f.functionId.value) else JNull)
    ensures forall k :: k != "function" && k != "conditions" ==> Get(f.ToJson().fields, k) == None
  {
    var fs := f.ToJson().fields;
    assert Keys(fs) == ["function"] + (if f.conditions.Some? then ["conditions"] else []);
    forall k | k != "function" && k != "conditions" {
      GetSome(fs, k);
    }
  }
}
