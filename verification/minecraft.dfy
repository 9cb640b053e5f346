/** The game-side collaborators the loot builders call but do not define:
    identifiers, live game objects, the registries that name them, the Gson
    serialization context, and the exceptions the builders can end in. */
module Minecraft {
  import opened Wrappers
  import opened Gson

  /** A namespaced identifier, kept as its canonical "namespace:path" string. */
  type Identifier = string

  /** A live game object (an enchantment, a status effect, a block, a loot
      table range, an entity target, a text, ...) the model does not look into. */
  datatype Handle = Handle(id: nat)

  type Byte = x: int | -0x80 <= x < 0x80
  type Int32 = x: int | -0x8000_0000 <= x < 0x8000_0000
  type Int64 = x: int | -0x8000_0000_0000_0000 <= x < 0x8000_0000_0000_0000

  datatype BlockPos = BlockPos(x: Int32, y: Int32, z: Int32)

  /** Gson's JsonSerializationContext. Strings, numbers, booleans, identifiers
      and the loot builders themselves are rendered by Gson and the registered
      serializers; `render` stands for everything else it is handed (ranges,
      entity targets, number operators, lists of entries), and `renderRange`
      for the game's range serializer, which calls back into the context. */
  class Context {
    const render: Handle -> Json       // `context.serialize(x)`
    const renderRange: Handle -> Json  // `LootTableRanges.toJson(range, context)`

    constructor (render: Handle -> Json, renderRange: Handle -> Json)
      ensures this.render == render && this.renderRange == renderRange
    {
      this.render := render;
      this.renderRange := renderRange;
    }
  }

  /** The game's registries (partial maps: `getId` answers null outside them)
      and the foreign functions the builders call on game objects. */
  datatype Game = Game(
    parseIdentifier: string -> Option<Identifier>,  // `new Identifier(String)`; None: it throws
    enchantmentIds: map<Handle, Identifier>,        // Registry.ENCHANTMENT
    statusEffectIds: map<Handle, Identifier>,       // Registry.STATUS_EFFECT
    blockIds: map<Handle, Identifier>,              // Registry.BLOCK
    attributeIds: map<Handle, Identifier>,          // Registry.ATTRIBUTE
    textJson: Handle -> Json,                       // Text.Serializer.toJsonTree
    nbtText: Handle -> string,                      // CompoundTag.toString
    structureName: Handle -> string,                // StructureFeature.getName
    buriedTreasure: Handle,                         // StructureFeature.BURIED_TREASURE
    propertyName: Handle -> string,                 // Property.getName
    nbtOperationJson: Handle -> Json,               // CopyNbtLootFunction.Operation.toJson
    formulaId: Handle -> Identifier,                // ApplyBonusLootFunction.Formula.getId
    formulaParameters: Handle -> Fields             // what Formula.toJson adds to an empty object
  )

  /** The exceptions the builders can end in. */
  datatype Error =
    | NullPointer                          // a null context, or a null registry id dereferenced
    | UnknownEnchantment(enchantment: Handle)
    | UnknownStatusEffect(effect: Handle)
    | InvalidIdentifier(text: string)

  datatype EquipmentSlot = MainHand | OffHand | Feet | Legs | Chest | Head

  /** `EquipmentSlot.getName`. */
  function SlotName(slot: EquipmentSlot): string {
    match slot
    case MainHand => "mainhand"
    case OffHand => "offhand"
    case Feet => "feet"
    case Legs => "legs"
    case Chest => "chest"
    case Head => "head"
  }

  /** `EntityAttributeModifier.Operation`. */
  datatype Operation = Addition | MultiplyBase | MultiplyTotal

  /** The name of a Java enum constant (upper-case letters, digits, '_'), the
      form `toString` gives a `MapIcon.Type`. */
  predicate IsConstantName(s: string) {
    forall i :: 0 <= i < |s| ==> 'A' <= s[i] <= 'Z' || '0' <= s[i] <= '9' || s[i] == '_'
  }

  type ConstantName = s: string | IsConstantName(s) witness "MANSION"

  /** `ExplorationMapLootFunction.DEFAULT_DECORATION`, the `MapIcon.Type.MANSION` icon. */
  const DefaultDecoration: ConstantName := "MANSION"

  /** `toLowerCase(Locale.ROOT)`, which on these names only lowers 'A'..'Z'. */
  function Lower(s: ConstantName): (r: string)
    ensures |r| == |s|
    ensures forall i :: 0 <= i < |s| ==>
      r[i] == if 'A' <= s[i] <= 'Z' then (s[i] as int + 32) as char else s[i]
  {
    if s == [] then [] else
      var c := if 'A' <= s[0] <= 'Z' then (s[0] as int + 32) as char else s[0];
      [c] + Lower(s[1..])
  }
}
