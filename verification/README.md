# ARRP loot builders in Dafny

This project models the three loot-table builders of ARRP (`net.devtech.arrp.json.loot`) and the
JSON their Gson serializers produce:

- `JCondition` (module `LootCondition`) has a fixed condition identifier, a lazily created
  parameter object that the named mutators fill, and one predicate slot. Its serializer writes
  `condition`, then every parameter at the top level in insertion order, then a `predicate`
  member that is always present.
- `JFunction` (module `LootFunction`) has an optional function identifier, a property object
  that its many mutators write, a lazily created condition list, and the serialization context
  it last saw. Its serializer stores that context and writes `function` and, when the list
  exists, `conditions`. The property object is never written.
- `JEntry` (module `LootEntry`) is a recursive node. It has three lazily created lists
  (conditions, functions, children) and five optional scalars. Its serializer writes one member
  per non-null field in a fixed order. Children are serialized recursively.

Gson's JSON tree and the behaviour of `JsonObject.add` (module `Gson`) come first: a name
already present keeps its position and gets the new value, and a new name is appended. The game
objects the builders only pass along (module `Minecraft`) are also modelled: registries as
partial maps, and the serialization context and the foreign `toJson`/`toString` calls as
functions. Every builder is a class whose mutators carry `modifies` and `ensures` clauses. The
serializers are methods proved against ghost functions (`ToJson`), and the lemmas state the
shape of those functions.

A thrown exception becomes an `Outcome`/`Result` failure. The effects made before the throw are
kept. Two consequences of the source are stated in the contracts:

- `JCondition` never assigns its serialization context. So `alternative`, `inverted`,
  `tableBonus`, `timeCheck` and `entityScores` always end in a null dereference, after their
  partial writes.
- `JFunction`'s context-using mutators fail until the function has been serialized once.

`child(String)` creates the children list before it parses the name. An invalid name therefore
leaves an existing, possibly empty, list (`LootEntry.JEntry.ChildNamed`). This is why
`EmittedListsNonEmpty` assumes that every list grew only through the appenders.

## Model

Source paths are relative to the repository root.

| member | source | states |
|---|---|---|
| LootCondition.JCondition.constructor | src/main/java/net/devtech/arrp/json/loot/JCondition.java:38-40 | a new condition has the given identifier, no parameter object and a null predicate, and serializes to `condition` followed by `predicate: null` |
| LootCondition.JCondition.FromString | src/main/java/net/devtech/arrp/json/loot/JCondition.java:34-36 | a fresh condition exactly when the string parses as an identifier; otherwise the parse exception |
| LootCondition.JCondition.GetOrCreateParameters | src/main/java/net/devtech/arrp/json/loot/JCondition.java:171-175 | creates an empty parameter object only when none exists and never replaces an existing one |
| LootCondition.JCondition.Alternative | src/main/java/net/devtech/arrp/json/loot/JCondition.java:51-56 | creates the parameters, then fails on the never-assigned context; nothing is written |
| LootCondition.JCondition.BlockStateProperties | src/main/java/net/devtech/arrp/json/loot/JCondition.java:58-65 | parameters become the old ones (or empty) after `add("block")` then `add("properties")` |
| LootCondition.JCondition.DamageSourceProperties | src/main/java/net/devtech/arrp/json/loot/JCondition.java:67-72 | the parameter "predicate" is added or replaced in place |
| LootCondition.JCondition.Inverted | src/main/java/net/devtech/arrp/json/loot/JCondition.java:74-79 | creates the parameters, then fails on the never-assigned context |
| LootCondition.JCondition.KilledByPlayer | src/main/java/net/devtech/arrp/json/loot/JCondition.java:81-83 | changes nothing |
| LootCondition.JCondition.RandomChance | src/main/java/net/devtech/arrp/json/loot/JCondition.java:85-90 | the parameter "chance" holds the float's bits; other parameters are kept |
| LootCondition.JCondition.RandomChanceWithLooting | src/main/java/net/devtech/arrp/json/loot/JCondition.java:92-98 | exactly "chance" then "looting_multiplier" are written over the old parameters |
| LootCondition.JCondition.Reference | src/main/java/net/devtech/arrp/json/loot/JCondition.java:100-105 | the parameter "name" holds the identifier |
| LootCondition.JCondition.TableBonus | src/main/java/net/devtech/arrp/json/loot/JCondition.java:107-114 | "enchantment" is written, then the call fails on the never-assigned context |
| LootCondition.JCondition.TimeCheck | src/main/java/net/devtech/arrp/json/loot/JCondition.java:116-123 | "period" is written, then the call fails on the never-assigned context |
| LootCondition.JCondition.WeatherCheck | src/main/java/net/devtech/arrp/json/loot/JCondition.java:125-131 | exactly "raining" then "thundering" are written over the old parameters |
| LootCondition.JCondition.DamageSource | src/main/java/net/devtech/arrp/json/loot/JCondition.java:133-138 | same effect as `damageSourceProperties` |
| LootCondition.JCondition.EntityScores | src/main/java/net/devtech/arrp/json/loot/JCondition.java:140-151 | a non-empty score map fails before anything is written; an empty one writes "scores": {} and then fails on the entity target |
| LootCondition.JCondition.MatchTool | src/main/java/net/devtech/arrp/json/loot/JCondition.java:153-157 | sets the predicate slot and nothing else |
| LootCondition.JCondition.LocationCheck | src/main/java/net/devtech/arrp/json/loot/JCondition.java:159-169 | sets the predicate slot, creates the parameters and writes the non-zero offsets |
| LootCondition.LocationCheckParameters | src/main/java/net/devtech/arrp/json/loot/JCondition.java:162-166 | offsetX/Y/Z is written exactly when that component is non-zero, and every other parameter is kept |
| LootCondition.JCondition.Serialize | src/main/java/net/devtech/arrp/json/loot/JCondition.java:192-204 | the `add` loop over the parameters yields the condition's `ToJson` |
| LootCondition.SerializeConditions | src/main/java/net/devtech/arrp/json/loot/JEntry.java:158-162 | a conditions array is each condition's serialization, in list order |
| LootCondition.ConditionShape | src/main/java/net/devtech/arrp/json/loot/JCondition.java:192-204 | output = `condition`, then the parameters with "predicate" added or replaced in place |
| LootCondition.ConditionFirst | src/main/java/net/devtech/arrp/json/loot/JCondition.java:195-195 | the first member is always `condition` holding the constructed identifier |
| LootCondition.PredicateAlwaysPresent | src/main/java/net/devtech/arrp/json/loot/JCondition.java:202-202 | `predicate` is always present and holds the slot, or null when it was never set |
| LootCondition.ConditionKeys | src/main/java/net/devtech/arrp/json/loot/JCondition.java:197-202 | member names are "condition", the parameter names in insertion order, then "predicate" unless a parameter had that name |
| LootCondition.ConditionParameter | src/main/java/net/devtech/arrp/json/loot/JCondition.java:197-200 | every parameter other than "predicate" appears with its value |
| LootCondition.PredicateOverridesParameter | src/main/java/net/devtech/arrp/json/loot/JCondition.java:197-202 | a "predicate" parameter from `damageSource` keeps its position but is overwritten by the slot, or by null; every other parameter stays where and as it was |
| Gson.PutInPlace | src/main/java/net/devtech/arrp/json/loot/JCondition.java:202-202 | `add` of a name already present keeps every member's position and replaces only that member's value |
| Gson.PutAllGet | src/main/java/net/devtech/arrp/json/loot/JCondition.java:197-200 | after the copy loop, each copied name holds its copied value and every other member is as before |
| LootFunction.LookupAll | src/main/java/net/devtech/arrp/json/loot/JFunction.java:91-97 | every registry id in order, or exactly the first object the registry does not know |
| LootFunction.LookupAllFirstMissing | src/main/java/net/devtech/arrp/json/loot/JFunction.java:91-97 | the lookups stop at the first unknown object |
| LootFunction.OperationName | src/main/java/net/devtech/arrp/json/loot/JFunction.java:362-373 | ADDITION, MULTIPLY_BASE and MULTIPLY_TOTAL map one-to-one to addition, multiply_base and multiply_total |
| LootFunction.SlotJson | src/main/java/net/devtech/arrp/json/loot/JFunction.java:386-397 | a scalar exactly when there is one slot; otherwise an array of the slot names in order, empty for none |
| LootFunction.AttributeJson | src/main/java/net/devtech/arrp/json/loot/JFunction.java:376-400 | succeeds exactly when the attribute has an id and there is a context; the names are name, attribute, operation, amount, id (only when the UUID is non-null), slot, in that order; operation is `getNameOperation`'s name, slot is `SlotJson` |
| LootFunction.ModifierKeys | src/main/java/net/devtech/arrp/json/loot/JFunction.java:377-397 | a modifier object never repeats a name; its names are name, attribute, operation, amount, then id only when the UUID is non-null, then slot |
| LootFunction.ModifierGet | src/main/java/net/devtech/arrp/json/loot/JFunction.java:377-397 | each name of a modifier object holds the value added under it, and "id" is absent when the UUID is null |
| LootFunction.SerializeAttribute | src/main/java/net/devtech/arrp/json/loot/JFunction.java:376-400 | the step-by-step object, including the slot loop, is `AttributeJson` |
| LootFunction.AttributesJson | src/main/java/net/devtech/arrp/json/loot/JFunction.java:124-134 | all modifiers in order, or the null dereference of the first that fails |
| LootFunction.StewEffectsJson | src/main/java/net/devtech/arrp/json/loot/JFunction.java:172-192 | with a context: one type/duration object per effect in order, or the first unknown effect; without one, the first effect decides which exception is thrown |
| LootFunction.MapDestinationStep | src/main/java/net/devtech/arrp/json/loot/JFunction.java:155-156 | "destination" is omitted exactly for buried treasure, and otherwise needs the context |
| LootFunction.MapDecorationStep | src/main/java/net/devtech/arrp/json/loot/JFunction.java:158-160 | "decoration" is omitted exactly for the default icon, and is written lower-cased |
| Minecraft.Lower | src/main/java/net/devtech/arrp/json/loot/JFunction.java:159-160 | `toLowerCase(Locale.ROOT)` on an enum name: lowers A-Z only, same length |
| LootFunction.MapSettings | src/main/java/net/devtech/arrp/json/loot/JFunction.java:162-166 | zoom iff ≠ 2, search_radius iff ≠ 50, skip_existing_chunks (false) iff false; other names kept |
| LootFunction.ExplorationMapDefaults | src/main/java/net/devtech/arrp/json/loot/JFunction.java:148-170 | all-default arguments write nothing and need no context |
| LootFunction.LootingEnchantStep | src/main/java/net/devtech/arrp/json/loot/JFunction.java:113-117 | "count" through the context; "limit" only when > 0; nothing without a context |
| LootFunction.SetNameStep | src/main/java/net/devtech/arrp/json/loot/JFunction.java:136-146 | the name when given, then the entity through the context when given |
| LootFunction.ApplyBonusStep | src/main/java/net/devtech/arrp/json/loot/JFunction.java:209-220 | an unknown enchantment throws before any write; "parameters" only when the formula object is non-empty |
| LootFunction.SetLootTableProperties | src/main/java/net/devtech/arrp/json/loot/JFunction.java:229-236 | "name" always; "seed" only when ≠ 0; others kept |
| LootFunction.AddLoreStep | src/main/java/net/devtech/arrp/json/loot/JFunction.java:238-251 | replace, the lore lines in order, then the entity through the context when given |
| LootFunction.JFunction.constructor | src/main/java/net/devtech/arrp/json/loot/JFunction.java:40-42 | identifier set, empty properties, no conditions; serializes to `{"function": id}` |
| LootFunction.JFunction.OfString | src/main/java/net/devtech/arrp/json/loot/JFunction.java:47-49 | the name goes only into the properties; serializes to `{"function": null}` |
| LootFunction.JFunction.Add | src/main/java/net/devtech/arrp/json/loot/JFunction.java:72-75 | `JsonObject.add` on the properties; names stay unique |
| LootFunction.JFunction.AddText | src/main/java/net/devtech/arrp/json/loot/JFunction.java:60-63 | the object's string form is added |
| LootFunction.JFunction.SetCount | src/main/java/net/devtech/arrp/json/loot/JFunction.java:77-80 | "count" via the range serializer; null dereference without a context |
| LootFunction.JFunction.EnchantWithLevels | src/main/java/net/devtech/arrp/json/loot/JFunction.java:82-86 | "levels" then "treasure"; nothing without a context |
| LootFunction.JFunction.EnchantRandomly | src/main/java/net/devtech/arrp/json/loot/JFunction.java:88-106 | empty list: unchanged; an unknown enchantment throws before the write; else the ids in order |
| LootFunction.JFunction.SetNbtLoot | src/main/java/net/devtech/arrp/json/loot/JFunction.java:108-111 | "tag" holds the tag's text |
| LootFunction.JFunction.LootingEnchant | src/main/java/net/devtech/arrp/json/loot/JFunction.java:113-117 | the loop-free step equals `LootingEnchantStep` |
| LootFunction.JFunction.SetDamage | src/main/java/net/devtech/arrp/json/loot/JFunction.java:119-122 | the durability range goes under "count" |
| LootFunction.JFunction.SetAttributes | src/main/java/net/devtech/arrp/json/loot/JFunction.java:124-134 | "modifiers" is `AttributesJson`; a failing modifier leaves the properties as they were |
| LootFunction.JFunction.SetName | src/main/java/net/devtech/arrp/json/loot/JFunction.java:136-146 | new state and outcome equal `SetNameStep` |
| LootFunction.JFunction.ExplorationMap | src/main/java/net/devtech/arrp/json/loot/JFunction.java:148-170 | new state and outcome equal `ExplorationMapStep` |
| LootFunction.JFunction.SetStewEffect | src/main/java/net/devtech/arrp/json/loot/JFunction.java:172-192 | empty map: unchanged; else "effects" from `StewEffectsJson`, or its exception with the properties unchanged |
| LootFunction.JFunction.CopyName | src/main/java/net/devtech/arrp/json/loot/JFunction.java:194-197 | "source" holds the source's name |
| LootFunction.JFunction.SetContents | src/main/java/net/devtech/arrp/json/loot/JFunction.java:199-202 | "entries" through the context; null dereference without one |
| LootFunction.JFunction.LimitCount | src/main/java/net/devtech/arrp/json/loot/JFunction.java:204-207 | "limit" through the context; null dereference without one |
| LootFunction.JFunction.ApplyBonus | src/main/java/net/devtech/arrp/json/loot/JFunction.java:209-220 | new state and outcome equal `ApplyBonusStep` |
| LootFunction.JFunction.SetLootTable | src/main/java/net/devtech/arrp/json/loot/JFunction.java:229-236 | new properties equal `SetLootTableProperties` |
| LootFunction.JFunction.AddLore | src/main/java/net/devtech/arrp/json/loot/JFunction.java:238-251 | new state and outcome equal `AddLoreStep` |
| LootFunction.JFunction.FillPlayerHead | src/main/java/net/devtech/arrp/json/loot/JFunction.java:253-256 | "entity" through the context |
| LootFunction.JFunction.CopyNbt | src/main/java/net/devtech/arrp/json/loot/JFunction.java:258-266 | "source" then "ops" with every operation in order |
| LootFunction.JFunction.CopyState | src/main/java/net/devtech/arrp/json/loot/JFunction.java:268-276 | "block" then the property names in order; a block missing from the registry map fails before any write (see Left out) |
| LootFunction.JFunction.GetOrCreateConditions | src/main/java/net/devtech/arrp/json/loot/JFunction.java:308-312 | creates the list only when absent |
| LootFunction.JFunction.Condition | src/main/java/net/devtech/arrp/json/loot/JFunction.java:286-302 | both `add(JCondition)` and `condition` append at the end of the list, creating it first |
| LootFunction.JFunction.Serialize | src/main/java/net/devtech/arrp/json/loot/JFunction.java:325-337 | stores the context, and returns `ToJson` |
| LootFunction.JFunction.Render | src/main/java/net/devtech/arrp/json/loot/JFunction.java:326-336 | the fresh object built by the serializer equals `ToJson` |
| LootFunction.FunctionMembers | src/main/java/net/devtech/arrp/json/loot/JFunction.java:325-337 | names are "function" then "conditions" iff the list exists; no property is ever emitted |
| LootEntry.MembersKeys | src/main/java/net/devtech/arrp/json/loot/JEntry.java:156-196 | a run of guarded `add`s on a fresh object yields exactly the present names, in order |
| LootEntry.MembersGet | src/main/java/net/devtech/arrp/json/loot/JEntry.java:156-196 | each name maps to its value when present and to nothing otherwise |
| LootEntry.PresentOrdered | src/main/java/net/devtech/arrp/json/loot/JEntry.java:156-196 | the present names keep the fixed relative order |
| LootEntry.EntryFieldsGet | src/main/java/net/devtech/arrp/json/loot/JEntry.java:158-194 | the eight blocks put value i under name i and nothing under any other name |
| LootEntry.EntryFieldsOrdered | src/main/java/net/devtech/arrp/json/loot/JEntry.java:158-194 | the eight blocks give unique names, all from the fixed order, in that order |
| LootEntry.JEntry.constructor | src/main/java/net/devtech/arrp/json/loot/JEntry.java:23-24 | nothing is set; serializes to `{}` |
| LootEntry.JEntry.OfType | src/main/java/net/devtech/arrp/json/loot/JEntry.java:29-31 | only the type is set; serializes to `{"type": t}` |
| LootEntry.JEntry.Condition | src/main/java/net/devtech/arrp/json/loot/JEntry.java:33-39 | creates the list on first use and appends at the end; lists stay non-empty |
| LootEntry.JEntry.Function | src/main/java/net/devtech/arrp/json/loot/JEntry.java:126-132 | creates the list on first use and appends at the end |
| LootEntry.JEntry.Child | src/main/java/net/devtech/arrp/json/loot/JEntry.java:113-119 | creates the list on first use and appends at the end; the footprints grow by the child's |
| LootEntry.JEntry.SetType | src/main/java/net/devtech/arrp/json/loot/JEntry.java:62-65 | the type becomes the argument; null clears it |
| LootEntry.JEntry.SetTypeString | src/main/java/net/devtech/arrp/json/loot/JEntry.java:49-52 | the parsed identifier reaches the same field; a bad string throws and changes nothing |
| LootEntry.JEntry.SetName | src/main/java/net/devtech/arrp/json/loot/JEntry.java:86-89 | the name becomes the argument; null clears it |
| LootEntry.JEntry.SetNameString | src/main/java/net/devtech/arrp/json/loot/JEntry.java:75-78 | the parsed identifier reaches the same field; a bad string throws and changes nothing |
| LootEntry.JEntry.SetExpand | src/main/java/net/devtech/arrp/json/loot/JEntry.java:121-124 | only `expand` changes |
| LootEntry.JEntry.SetWeight | src/main/java/net/devtech/arrp/json/loot/JEntry.java:134-137 | only `weight` changes |
| LootEntry.JEntry.SetQuality | src/main/java/net/devtech/arrp/json/loot/JEntry.java:139-142 | only `quality` changes |
| LootEntry.NamedItem | src/main/java/net/devtech/arrp/json/loot/JEntry.java:103-103 | a fresh entry with only type and name set, or the exception of the parse that failed |
| LootEntry.JEntry.ChildNamed | src/main/java/net/devtech/arrp/json/loot/JEntry.java:99-105 | the list always exists afterwards; success appends one fresh entry with type "minecraft:item" and the parsed name, and failure appends nothing |
| LootEntry.ItemJson | src/main/java/net/devtech/arrp/json/loot/JEntry.java:99-105 | an entry with only type and name set serializes to exactly those two members, type first |
| LootEntry.JEntry.Serialize | src/main/java/net/devtech/arrp/json/loot/JEntry.java:155-197 | returns `ToJson`; every function reachable from the entry stores the context; a function of the entry's footprint keeps its context or gets the same one, and no function outside the footprint changes |
| LootEntry.JEntry.HandContext | src/main/java/net/devtech/arrp/json/loot/JEntry.java:164-182 | every function reachable through the entry and its descendants stores the context |
| LootEntry.JEntry.HandOwn | src/main/java/net/devtech/arrp/json/loot/JEntry.java:164-168 | each of the entry's own functions stores the context |
| LootEntry.JEntry.HandChildren | src/main/java/net/devtech/arrp/json/loot/JEntry.java:178-182 | the functions under the children from position i on store the context, and earlier ones keep it |
| LootEntry.JEntry.HandChild | src/main/java/net/devtech/arrp/json/loot/JEntry.java:178-182 | one child's functions store the context, and those handled earlier keep it |
| LootEntry.JEntry.Render | src/main/java/net/devtech/arrp/json/loot/JEntry.java:155-197 | the object built block by block equals `ToJson`, recursively |
| LootEntry.JEntry.RenderLists | src/main/java/net/devtech/arrp/json/loot/JEntry.java:158-182 | the three arrays, each element-wise |
| LootEntry.JEntry.RenderConditions | src/main/java/net/devtech/arrp/json/loot/JEntry.java:158-162 | the conditions array, each condition serialized in order |
| LootEntry.JEntry.RenderFunctions | src/main/java/net/devtech/arrp/json/loot/JEntry.java:164-168 | the functions array, each function serialized in order |
| LootEntry.JEntry.RenderChildren | src/main/java/net/devtech/arrp/json/loot/JEntry.java:178-182 | the children array, each child rendered recursively in order |
| LootEntry.JEntry.ChildrenJsonAt | src/main/java/net/devtech/arrp/json/loot/JEntry.java:178-182 | element i of the children array is child i serialized |
| LootEntry.EntryOrdered | src/main/java/net/devtech/arrp/json/loot/JEntry.java:156-196 | no name twice, all names from the fixed order conditions…quality, and in that order |
| LootEntry.EntryMembers | src/main/java/net/devtech/arrp/json/loot/JEntry.java:156-196 | each member is present iff its field is non-null and holds the field's serialization; arrays keep length and order; no other names |
| LootEntry.EmittedListsNonEmpty | src/main/java/net/devtech/arrp/json/loot/JEntry.java:158-182 | when the lists were only appended to, every emitted array is non-empty |

## Left out

- `clone()` in all three classes is a shallow copy that shares the containers with the original. The model keeps containers as values, so it cannot express that sharing; `clone` is not modelled.
- Java `null` where the source does not check for it is not modelled. This covers a null condition, function or child appended to a list, a null argument to a mutator, and `add(String, Object)` with a null object. The model takes a value in each case.
- LootEntry.JEntry.Serialize: the model keeps ghost footprints (`Entries`, `Functions`), which `Child` copies from the child when it is attached. If an attached entry later gains a function or a child, its ancestors are not `Valid` until the ghost `LootEntry.JEntry.Refresh` has been applied to each of them, from the changed entry upwards. Java needs no such step and serializes that tree as it is. `Render`, `EntryMembers`, `EntryOrdered` and `EmittedListsNonEmpty` need `Valid` in the same way.
- LootFunction.JFunction.CopyState: `Registry.BLOCK` is a defaulted registry that answers `minecraft:air` for an unregistered block. The model treats it as a partial map, like the other registries, so an unregistered block fails where the game would write `minecraft:air`.
- LootEntry.JEntry.Child requires that the appended entry does not contain this entry. In Java, a cycle makes serialization recurse until the stack overflows.
- Java `Map`/`Set` iteration order (`setStewEffect`, `copyState`) is an input: the caller passes the elements as a sequence. `entityScores` takes a map; its order does not matter because the call always fails.
- Floats (`randomChance`, `tableBonus`) are opaque 32-bit patterns. No arithmetic is done on them.
- Gson's context and the foreign calls are not modelled. `context.serialize` of game objects is the function `Context.render`, and `LootTableRanges.toJson` is `Context.renderRange`. `Formula.toJson` is `Game.formulaParameters`. `Text.Serializer`, `CompoundTag.toString`, `CopyNbtLootFunction.Operation.toJson`, `Property.getName` and `StructureFeature.getName` are `Game` functions. The registries are partial maps, and `new Identifier(String)` is `Game.parseIdentifier`.
- An identifier handed to the context is rendered as its string form.
- `setContents` renders its entries through the context, not through `JEntry`'s serializer.
- The fresh `JsonObject`s and `JsonArray`s the serializers build are values; each `add` on a fresh object appends.
- `JFunction`'s serializer writes only `function` and `conditions`. The property object is never written (JFunction.java:325-337).
- `LootEntry.JEntry.Serialize` hands the context to every reachable function before rendering. The source does this while rendering. No rendering reads the stored context, so the final state and the JSON are the same.
