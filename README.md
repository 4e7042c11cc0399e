# Serenity world core in Dafny

A verified model of four pieces of the Serenity Bedrock server's core:

- **The world** (`world.dfy`, module `WorldModel`): a registry of dimensions
  keyed by identifier and iterated in registration order, the tick driver
  that ticks every dimension once per world tick, the player list gathered
  from all dimensions, the dimension lookup with its default, and the three
  world-wide broadcasts (chat text, a player's full ability state, a
  player's full attribute state). `World` is a class whose `dimensions` map
  and `order` sequence together stand for the insertion-ordered JavaScript
  `Map`; `Dimension` is a class whose own tick is a counter.
- **Item components** (`item_component.dfy`, module `ItemComponents`): a
  component's constructor files it in its item stack's component map;
  `Clone` builds a component of the same class on another stack and copies
  every own property except the `item` back-reference, in `Object.entries`
  order; the registry of component classes per item type (`Register`,
  `Bind`) is one `ComponentRegistry` object in place of the static maps.
- **The equipment handler** (`mob_equipment.dfy`, module
  `MobEquipmentHandler`): `Handle` resolves the player, reads the slot,
  writes the selected slot, compares type then count, and either
  disconnects or broadcasts a fresh packet built from the server's item. Its
  outcome is the `Outcome` datatype; the inventory is a class it updates in
  place.
- **The poison effect** (`poison.dfy`, module `PoisonEffect`): the tick hook
  as a pure function returning the damage it applies, if any.

`common.dfy` (module `Common`) holds `Option` and the sequence facts
(`Distinct`, `Count`, `Flatten`) the others share.

Behaviour worth knowing:

- The poison interval is 10 ticks for every amplifier: the halving formula
  gives 25 ticks at amplifier 1, but `max(…, 12)` followed by `min(…, 10)`
  always yields 10.
- The handler writes the selected slot before it validates the packet, so a
  rejected packet still changes it, and nothing keeps the selected slot
  inside the hotbar range.
- A clone shares every reference-typed property with its original (the copy
  is shallow), so original and clone can share mutable state.
- Poison stops at health 1 or below. Taking the entity's `applyDamage` to
  lower health by exactly the amount (see "## Left out"), this keeps
  whole-number health at 1 or more and never takes positive health to 0 or
  below, but takes a fractional health such as 1.5 to 0.5.

## Model

| member | source | states |
|---|---|---|
| `WorldModel.World.constructor` | launcher/src/world/world.ts:65-78 | a new world has no dimensions, an empty iteration order and nothing broadcast |
| `WorldModel.World.RegisterDimension` | launcher/src/world/world.ts:114-137 | a new identifier gets a fresh dimension with that identifier, type and generator, added under exactly that key and appended to the iteration order, every other entry unchanged; an existing identifier logs the error, returns the stored dimension and leaves map and order unchanged; the registry invariant is kept |
| `WorldModel.World.Tick` | launcher/src/world/world.ts:83-88 | the dimensions are ticked in registration order (the trace grows by exactly the iteration order) and every registered dimension's tick count grows by exactly one |
| `WorldModel.TickVisitsEachOnce` | launcher/src/world/world.ts:85-87 | each registered identifier occurs exactly once in the iteration order and no other identifier occurs in it |
| `Common.DistinctCountsOnce` | launcher/src/world/world.ts:85 | an element of a sequence without repetitions occurs in it exactly once |
| `WorldModel.World.PlayerLists` | launcher/src/world/world.ts:96-98 | one player list per dimension, in iteration order, each the list that dimension holds |
| `WorldModel.World.GetPlayers` | launcher/src/world/world.ts:95-101 | the world's players are the dimensions' player lists concatenated in dimension order; their number is the sum of the lists' lengths |
| `Common.Flatten` | launcher/src/world/world.ts:100 | flattening a list of lists yields as many elements as the lists hold together |
| `Common.FlattenMembers` | launcher/src/world/world.ts:100 | an element is in the flattened list exactly when one of the inner lists holds it |
| `Common.FlattenAppend` | launcher/src/world/world.ts:100 | flattening keeps order: flattening two runs of lists one after the other is flattening each and concatenating |
| `WorldModel.GetPlayersMembers` | launcher/src/world/world.ts:95-101 | a player is among the world's players exactly when some registered dimension holds it |
| `WorldModel.World.GetDimension` | launcher/src/world/world.ts:110-112 | the lookup key is the given name, or the default dimension's identifier when none is given; the result is present exactly when that key is registered and is then the dimension stored under that key, whose identifier is that key |
| `WorldModel.DefaultDimensionLookup` | launcher/src/world/world.ts:110-112 | asking with no name is the same as asking for the default dimension by name |
| `WorldModel.World.SendMessage` | launcher/src/world/world.ts:144-159 | exactly one chat message is broadcast, after everything broadcast before |
| `WorldModel.MessagePacket` | launcher/src/world/world.ts:146-155 | the chat message is raw, untranslated, has no source player and no parameters, empty xuid and platform chat id, and carries the given text |
| `WorldModel.AbilityFlags` | launcher/src/world/world.ts:172-177 | one flag entry per ability component, in the same order, with `flag` from the component's flag and `value` from its current value |
| `WorldModel.AbilityFlagsAppend` | launcher/src/world/world.ts:172-177 | the ability mapping is order preserving over concatenation |
| `WorldModel.AbilitiesPacket` | launcher/src/world/world.ts:163-181 | the ability message names the player's unique id, has permission and command permission level 2 and a single base layer whose flags mirror the player's abilities |
| `WorldModel.World.UpdateAbilitiesOf` | launcher/src/world/world.ts:161-185 | exactly that ability message is broadcast, after everything broadcast before |
| `WorldModel.AttributeRecords` | launcher/src/world/world.ts:193-202 | one record per attribute component, in the same order, with name, min, max, current and default copied from identifier, effective min, effective max, current value and default value, and no modifiers |
| `WorldModel.AttributeRecordsAppend` | launcher/src/world/world.ts:193-202 | the attribute mapping is order preserving over concatenation |
| `WorldModel.AttributesPacket` | launcher/src/world/world.ts:189-203 | the attribute message names the player's runtime id, carries one record per attribute component, and its tick is 0 |
| `WorldModel.World.UpdateAttributesOf` | launcher/src/world/world.ts:187-207 | exactly that attribute message is broadcast, after everything broadcast before |
| `ItemComponents.ItemComponent.constructor` | packages/world/src/components/item/item-component.ts:40-46 | the component is bound to its item and filed in the item's component map under its identifier, replacing any earlier one, every other key unchanged |
| `ItemComponents.ItemComponent.Clone` | packages/world/src/components/item/item-component.ts:68-86 | the clone is a fresh component of the same class and identifier bound to the new item and filed in the new item's map; its properties other than `item` equal the original's, in the same enumeration order (shared values, a shallow copy); the original is unchanged |
| `ItemComponents.WithRegistration` | packages/world/src/components/item/item-component.ts:52-61 | registering appends the class to the end of the item type's list, which is a one-element list for an unseen type; every other type's list is unchanged |
| `ItemComponents.ComponentRegistry.Register` | packages/world/src/components/item/item-component.ts:52-61 | the registry becomes the old registry with the class registered under the item type's identifier |
| `ItemComponents.RegisterTwiceKeepsBoth` | packages/world/src/components/item/item-component.ts:57 | registering the same class twice for one type leaves it in the list twice |
| `ItemComponents.ComponentRegistry.Bind` | packages/world/src/components/item/item-component.ts:110-122 | the class is registered for the class's identifiers in order, each that the catalogue resolves, and then recorded in the component map under its identifier |
| `ItemComponents.BindAllLookup` | packages/world/src/components/item/item-component.ts:110-119 | after binding, each item type's list is its old list followed by one copy of the class per identifier that resolved to that type; unresolved identifiers contribute nothing |
| `ItemComponents.BindAllKeys` | packages/world/src/components/item/item-component.ts:110-119 | binding adds exactly the resolved item types to the registry's keys |
| `MobEquipmentHandler.Container.GetItem` | launcher/src/handlers/mob-equipment.ts:27 | the slot's item for an index inside the container, empty otherwise |
| `MobEquipmentHandler.Handle` | launcher/src/handlers/mob-equipment.ts:10-64 | without a player: disconnect with `InvalidPlayer` and the invalid-player message, no state changed; with a player: the selected slot becomes the packet's on every path including rejection, the slots are unchanged, and the outcome is the reconciliation of the packet against the slot read before the write |
| `MobEquipmentHandler.Check` | launcher/src/handlers/mob-equipment.ts:34-50 | an empty slot passes unchecked; a different network type is reported as a runtime id mismatch; a matching type with a different count as a count mismatch; it passes exactly when the slot is empty or type and count both match |
| `MobEquipmentHandler.RejectionIsBadPacket` | launcher/src/handlers/mob-equipment.ts:34-49 | a non-empty slot whose type or count differs disconnects with `BadPacket` and the runtime id message when the type differs (even if the count differs too), the count message otherwise |
| `MobEquipmentHandler.AcceptedBroadcast` | launcher/src/handlers/mob-equipment.ts:34-63 | a broadcast happens exactly when the slot is empty or type and count match; it goes to the player's dimension except the player, names the player's runtime id, carries the server's item and copies slot, selected slot and container id from the incoming packet |
| `MobEquipmentHandler.AcceptedItemMatchesReport` | launcher/src/handlers/mob-equipment.ts:34-57 | an accepted non-empty slot is broadcast with the reported type and count; an empty slot always as the network-0 placeholder |
| `MobEquipmentHandler.ToItemStack` | launcher/src/handlers/mob-equipment.ts:57 | an empty slot serialises to network id 0 with no stack size; an item to its network id and amount |
| `PoisonEffect.NewPoison` | packages/world/src/effect/poison.ts:13-15 | a poison effect is of type poison and not instant |
| `PoisonEffect.HalfPower` | packages/world/src/effect/poison.ts:19 | a power of one half is positive |
| `PoisonEffect.HalfPowerHalves` | packages/world/src/effect/poison.ts:19 | raising the exponent by one halves the power, for every integer exponent, negative ones included |
| `PoisonEffect.TickInterval` | packages/world/src/effect/poison.ts:18-21 | the damage interval is 10 for every amplifier |
| `PoisonEffect.HalvingIntervalValues` | packages/world/src/effect/poison.ts:18-21 | examples only: the unclamped formula gives 25, 12.5 and 6.25 at amplifiers 1 to 3, yet the clamped interval is 10 at amplifiers 1 and 3 (the all-amplifier result is `TickInterval`) |
| `PoisonEffect.OnTick` | packages/world/src/effect/poison.ts:17-30 | damage is applied exactly when the tick is a multiple of 10, the entity is not a creative-mode player and its health is above 1; it is then exactly 1 point of magic damage |
| `PoisonEffect.PoisonNeverKills` | packages/world/src/effect/poison.ts:28-29 | over any sequence of ticks, poison keeps positive health positive |
| `PoisonEffect.PoisonKeepsWholeHealthAtLeastOne` | packages/world/src/effect/poison.ts:28-29 | over any sequence of ticks, whole-number health of at least 1 stays a whole number of at least 1 |
| `PoisonEffect.FractionalHealthCanDropBelowOne` | packages/world/src/effect/poison.ts:28-29 | a health of 1.5 is taken to 0.5 on a damaging tick |

## Left out

- Dimension internals: what a dimension's own `tick()` and `getPlayers()` do is not part of this model; a dimension's tick is a counter and its players a plain list.
- The trace of ticked identifiers kept by `World.Tick` is an observation added by the model; the code only makes the calls.
- The world's collaborators (`WorldNetwork`, `BlockMapper`, `ItemMapper`, the provider, the default properties) and the world's `gamemode` field: persistence and network plumbing. The world takes its default dimension identifier as a constructor argument instead of from the properties.
- The dimension's back-reference to its world is not modelled. With it, a dimension's own tick could register a new dimension during the world's tick, and JavaScript's `Map` iterator would then tick that dimension in the same pass; the model's dimension tick cannot register dimensions, so the tick trace is exactly the registration order at the start of the tick.
- Logger calls and `network.broadcast`: modelled as recorded events (the world's `errors` and `outbox`, the handler's `warning`), not as I/O.
- `WorldModel.AbilitiesPacket`: the fly and walk speeds (floating-point constants 0.05 and 0.1) are not modelled.
- `WorldModel.AttributesPacket`: the tick field is a 64-bit integer in the protocol; the model uses an unbounded integer.
- Protocol serialisation: `ToItemStack` keeps only the network id and the stack size of the real serialiser's output.
- `MobEquipmentHandler.Container.GetItem`: the container is not part of this model; an index outside it is taken to give an empty slot (`null`), which is how the handler then treats it.
- `MobEquipmentHandler.Handle`: the player's `runtime` property, which the handler reads for the broadcast, is taken to be the player's runtime id.
- `ItemComponents.ItemComponent.Clone`: `this.constructor` is modelled by the base constructor, so anything a concrete subclass constructor does beyond it is not captured.
- The optional item-use hooks (`onStartUse`, `onStopUse`, `onUse`) and the poison effect's `onAdd`/`onRemove` are declarations without bodies in the source; nothing to model.
- `ItemComponents.ComponentRegistry.Register`: the source pushes the class into the array already stored in the registry, so any code holding that array sees the addition; the model replaces the list by value and does not capture that aliasing.
- `PoisonEffect.AfterTick`: the entity's `applyDamage(amount, cause)` is not part of this model; it is taken to subtract `amount` from the health value and do nothing else. `PoisonNeverKills`, `PoisonKeepsWholeHealthAtLeastOne` and `FractionalHealthCanDropBelowOne` rest on that assumption.
- `PoisonEffect.OnTick`: an entity without a health component (where the hook's `getCurrentValue()` call would fail) is out of scope; every modelled entity has a health value.
- `ItemType.get` is a parameter: a catalogue map from identifier to item type.
- `PoisonEffect.OnTick`: the conversion of the world's big-integer tick to a float (`Number(...)`) and its loss of precision above 2^53 are not modelled; the interval is computed over exact reals, not floats, which does not change it, and NaN amplifiers are out of scope.
- The darkness effect (every hook body is empty) and the item component type map (`types/components/item.ts`, types only) have no behaviour to model.
- Concurrency between ticks and packets: none of the modelled code has any.
