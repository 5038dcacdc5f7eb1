# Doppelganger, modelled in Dafny

Doppelganger is a Bukkit server plugin. A player builds a configured *shape*
of blocks, then places a block named after a player (or any name) on top of
it. The shape vanishes, and a creature of a configured *creature type* is
summoned in its place. That creature is often a player's "doppelganger"
wearing that player's head. This project models the summoning core of the
plugin and proves properties of it. The core is:

- weighted random choice of creature types (`WeightedSelection`);
- shape matching against the world, and vaporising the shape (`CreatureShape`);
- the registry of shapes, custom creature types and player doppelgangers,
  loaded from the configuration. Spawning resolves custom types through
  their bases and mounts (`CreatureFactory`);
- a creature type's clamped settings, its customisation of a spawned entity,
  and its spawn effects and escorts (`CreatureType`);
- the predefined vanilla variants: wither skeleton, saddled pig, zombie
  villager and the five villager professions (`PredefinedCreature`);
- typed lookups in configuration list entries (`ConfigMap`);
- spheres and boxes (`Volume`);
- the two event handlers: summoning on block placement, and moving
  near-certain drops into the drop list on death (`Doppelganger`).

One Dafny module per source file:

- `Weighted` (WeightedSelection.dfy) models `WeightedSelection.java`;
- `Shapes` (CreatureShape.dfy) models `CreatureShape.java`;
- `Factory` (CreatureFactory.dfy) models `CreatureFactory.java`;
- `Types` (CreatureType.dfy) models `CreatureType.java`;
- `Predefined` (PredefinedCreature.dfy) models `PredefinedCreature.java`;
- `ConfigMaps` (ConfigMap.dfy) models `ConfigMap.java`;
- `Volumes` (Volume.dfy) models `Volume.java`;
- `Plugin` (Doppelganger.dfy) models `Doppelganger.java`.

Four modules stand in for what the plugin uses but does not define:

- `Wrappers`: `Option` and `Result`.
- `JavaLang`: Java's exceptions as error values. Also ASCII case mapping,
  32-bit wrap-around, the `(short)` cast, `Math.round` and the double-to-int
  cast.
- `Config`: the Bukkit configuration tree and its getters.
- `Host`: the Bukkit host:
  - locations and the world (a map from block position to material id);
  - items and equipment;
  - living entities (a class);
  - the server's effects (a class);
  - the random number stream (a class);
  - the server's lookup tables (materials, entity types, sounds, potion
    types), given as functions in a `Tables` value.

Java `null` is `Option.None`. A thrown exception is `Result.Err`.
Randomness is a stream of draws in [0, 1) that a `Rng` object walks through.
Where one call needs a single draw, that draw is a parameter.

The model follows the code, also where the code's own documentation comments
promise something else:

- `ConfigMap.get` logs "Using default" for a value of the wrong class, but
  returns the stored value anyway. The typed getter then throws
  `ClassCastException`.
- Loading is described as never failing. Yet a key under `shapes`,
  `creatures` or `players` whose value is not a section makes `load` throw
  `NullPointerException`. For `shapes` the exception handler dereferences
  the missing section again. For `creatures` `CreatureType.loadFromSection`
  reads the spawn setting from the missing section, outside any handler. For
  `players` the spawn lookup dereferences it.
- `spawnCreature` is documented to return null when nothing spawns. In fact
  its last statement dereferences the null entity. So the model returns an
  error, and the mount's null dereference on line 330 cannot be reached.
- A generic shape with no creature types gives a null type name. The
  validity check then calls `toLowerCase` on that null, which throws.

## Model

| member | source | states |
|---|---|---|
| Weighted.WeightedSelection.constructor | src/io/github/totemo/doppelganger/WeightedSelection.java:23-37 | a new selection has no choices and total 0 |
| Weighted.WeightedSelection.AddChoice | src/io/github/totemo/doppelganger/WeightedSelection.java:47-54 | a weight of 0 or less leaves the entries and total as they were; a positive weight stores the choice under old total + weight, above every earlier key, so nothing is overwritten; the total stays the sum of the positive weights added |
| Weighted.IgnoredChoice | src/io/github/totemo/doppelganger/WeightedSelection.java:47-54 | adding a choice with weight of 0 or less changes neither the entries nor the total |
| Weighted.TotalNonNegative | src/io/github/totemo/doppelganger/WeightedSelection.java:49-52 | the running total is never negative |
| Weighted.EntriesAscending | src/io/github/totemo/doppelganger/WeightedSelection.java:49-52 | the keys are strictly increasing, positive and at most the total; there are no entries exactly when the total is 0; the largest key is the total |
| Weighted.EntriesMatchKept | src/io/github/totemo/doppelganger/WeightedSelection.java:49-52 | entry i holds the i-th choice added with a positive weight, and its bucket is exactly as wide as that weight |
| Weighted.LastKeyIsTotalWeight | src/io/github/totemo/doppelganger/WeightedSelection.java:51-52 | the largest key equals the total weight, which is positive whenever there is an entry |
| Weighted.WeightedSelection.TotalWeight | src/io/github/totemo/doppelganger/WeightedSelection.java:91-94 | getTotalWeight is the sum of the positive weights added, never negative, and 0 exactly when there are no choices |
| Weighted.CeilingIndex | src/io/github/totemo/doppelganger/WeightedSelection.java:70 | ceilingEntry: the first entry whose key is at least u, with every earlier key below u; none when every key is below u |
| Weighted.CeilingIsBucket | src/io/github/totemo/doppelganger/WeightedSelection.java:66-71 | on ascending keys the ceiling lookup picks entry i exactly when u lies in (previous key, key i], so a boundary value goes to the lower bucket |
| Weighted.ScaledDrawBelowTotal | src/io/github/totemo/doppelganger/WeightedSelection.java:64 | a draw in [0, 1) times a positive total lies in [0, total) |
| Weighted.CeilingChoice | src/io/github/totemo/doppelganger/WeightedSelection.java:64-71 | no entries give no choice; with entries and a draw in [0, 1) a choice is always found, and it is the one whose bucket holds draw * total |
| Weighted.WeightedSelection.Choose | src/io/github/totemo/doppelganger/WeightedSelection.java:62-72 | choose returns null with no choices and a choice for every draw in [0, 1) otherwise, namely the one whose bucket holds draw * total; it reads the selection and changes nothing |
| Shapes.GroundIsMinimum | src/io/github/totemo/doppelganger/CreatureShape.java:215-223 | after any sequence of added blocks the ground offset is at most 0 and at most every Y offset, and is 0 or one of them: min(0, every Y) |
| Shapes.CreatureShape.constructor | src/io/github/totemo/doppelganger/CreatureShape.java:138-143 | a new shape has the name, trigger id and enabled flag given, no blocks, ground offset 0 and no creature types |
| Shapes.CreatureShape.AddCreatureBlock | src/io/github/totemo/doppelganger/CreatureShape.java:215-223 | the material and offset lists grow by one in lockstep, and the ground offset drops to the new Y offset if that is lower |
| Shapes.CreatureShape.CreatureBlock | src/io/github/totemo/doppelganger/CreatureShape.java:297-303 | block i lies exactly its offset away from the trigger's block |
| Shapes.CreatureShape.AddCreatureType | src/io/github/totemo/doppelganger/CreatureShape.java:189-192 | one more weighted choice of creature type name |
| Shapes.CreatureShape.ChooseCreatureType | src/io/github/totemo/doppelganger/CreatureShape.java:203-206 | no type when the shape has none; otherwise a type for every draw in [0, 1), and always one of the shape's types |
| Shapes.CreatureShape.IsCreatureShape | src/io/github/totemo/doppelganger/CreatureShape.java:251-261 | true exactly when every body block's position around the trigger holds its material; an empty body always matches |
| Shapes.CreatureShape.IsComplete | src/io/github/totemo/doppelganger/CreatureShape.java:236-239 | true exactly when the shape is enabled, the placed id is the trigger id and the body matches; a disabled shape never completes |
| Shapes.CreatureShape.Vaporise | src/io/github/totemo/doppelganger/CreatureShape.java:268-274 | exactly the body positions become air; every other block is unchanged |
| Shapes.CreatureShape.VaporisedShapeIsGone | src/io/github/totemo/doppelganger/CreatureShape.java:268-274 | after vaporising, a body with any non-air block no longer matches at that place |
| Shapes.BodyLoad | src/io/github/totemo/doppelganger/CreatureShape.java:73-92 | the blocks read from the body list come in matching material and offset pairs |
| Shapes.BodyOutcome | src/io/github/totemo/doppelganger/CreatureShape.java:74-91 | the body load ends the way the first entry that adds no block ends it |
| Shapes.RejectedAt | src/io/github/totemo/doppelganger/CreatureShape.java:80-91 | a run of entries is rejected exactly when some entry is invalid and every entry before it added a block |
| Shapes.BodyRejectedAt | src/io/github/totemo/doppelganger/CreatureShape.java:74-91 | a shape's body is rejected exactly when an entry with an unknown material or an offset that is not three numbers is reached before any entry that throws |
| Shapes.CreatureShape.ReadBlock | src/io/github/totemo/doppelganger/CreatureShape.java:76-91 | reading one body entry adds its block, rejects the shape or throws, and the rest of the load goes on accordingly |
| Shapes.CreatureShape.LoadBody | src/io/github/totemo/doppelganger/CreatureShape.java:69-98 | the body loop adds the blocks in list order and reports rejection exactly when the body load is rejected; an exception ends the list and keeps the blocks read so far |
| Shapes.CreatureShape.LoadSummons | src/io/github/totemo/doppelganger/CreatureShape.java:100-117 | each summon entry's (spawn, weight) is added in order, defaults "" and 1.0, up to the first entry that throws |
| Shapes.LoadFromSection | src/io/github/totemo/doppelganger/CreatureShape.java:51-126 | a missing section throws NullPointerException; no shape exactly when the head material is unknown or the body is rejected; otherwise a new shape with the head as trigger, the enabled flag (default true), the body and the summons loaded |
| Types.LightningSpread | src/io/github/totemo/doppelganger/CreatureType.java:107-111 | min strikes is the configured one clamped at 0; max strikes is the configured max when that is at least the min, else the min (also the default); min range (default 2) is clamped at 0 and max range (default 5) is clamped to it; duration defaults to 30, clamped at 0 |
| Types.EscortSpread | src/io/github/totemo/doppelganger/CreatureType.java:700-704 | min escorts clamped at 0; max escorts the configured max when at least the min, else the min (also the default); min range (default 1) clamped at 0, max range (default: the min range) clamped to it; duration defaults to 30; no escorts section means no escorts |
| Types.AtLeast | src/io/github/totemo/doppelganger/CreatureType.java:81-92 | an override is present exactly when its key is set, is at least the lower bound, and is taken as written when already in range |
| Types.SoundOf | src/io/github/totemo/doppelganger/CreatureType.java:94-105 | a sound is kept, upper-cased, exactly when it is a non-empty name the server knows |
| Types.LoadItem | src/io/github/totemo/doppelganger/CreatureType.java:596-609 | no section or an unknown material gives no item; otherwise one item of that material whose damage is clamped at 0 and narrowed to a short: kept when below 0x8000, wrapped modulo 2^16 into the short range above that |
| Types.LoadGear | src/io/github/totemo/doppelganger/CreatureType.java:125-130 | each slot holds the item loaded from that slot's own section; a slot without a section holds nothing |
| Types.ItemAt | src/io/github/totemo/doppelganger/CreatureType.java:125-130 | an item is found only under the slot's own section, as one item with no head owner |
| Types.TranslateAll | src/io/github/totemo/doppelganger/CreatureType.java:619-623 | each lore line translated, in order |
| Types.DropChance | src/io/github/totemo/doppelganger/CreatureType.java:132-151 | a slot's drop chance is overridden exactly when "slot.dropchance" is set |
| Types.DropChances | src/io/github/totemo/doppelganger/CreatureType.java:132-151 | every slot's drop chance is overridden exactly when its key is set |
| Types.LoadSettings | src/io/github/totemo/doppelganger/CreatureType.java:70-151 | every override is present exactly when its key is set; health >= 1, air >= 0, invulnerable ticks >= 0; lightning and escorts normalised |
| Types.InRangeValuesKept | src/io/github/totemo/doppelganger/CreatureType.java:81-92 | a configured health, air or invulnerability already in range is stored as written |
| Types.AddPotion | src/io/github/totemo/doppelganger/CreatureType.java:339 | an effect whose type is already present is refused; any other is appended |
| Types.AddPotionsSpec | src/io/github/totemo/doppelganger/CreatureType.java:339 | adding the type's effects keeps the entity's effects, adds only listed ones and leaves every listed type present |
| Types.AddPresentPotions | src/io/github/totemo/doppelganger/CreatureType.java:339 | when every listed type is present already, adding them changes nothing |
| Types.AddPotionsDistinct | src/io/github/totemo/doppelganger/CreatureType.java:339 | an entity never ends up with two effects of one type |
| Types.PotionStep | src/io/github/totemo/doppelganger/CreatureType.java:552-575 | a potion entry yields an effect only of a type the server knows |
| Types.PotionsLoaded | src/io/github/totemo/doppelganger/CreatureType.java:550-580 | at most one effect per potion entry |
| Types.EscortStep | src/io/github/totemo/doppelganger/CreatureType.java:712-723 | an escort entry is added only with a non-empty spawn and a positive weight |
| Types.EscortsLoaded | src/io/github/totemo/doppelganger/CreatureType.java:705-730 | every escort choice loaded has a non-empty spawn and a positive weight |
| Types.ScaledRoundBounds | src/io/github/totemo/doppelganger/CreatureType.java:270 | a draw in [0, 1) times k >= 0, rounded, lies in [0, k] |
| Types.Count | src/io/github/totemo/doppelganger/CreatureType.java:270 | with normalised bounds the number of strikes or escorts lies in [min, max] for every draw |
| Types.Delay | src/io/github/totemo/doppelganger/CreatureType.java:295 | each scheduled delay lies in [0, duration] |
| Types.Strikes | src/io/github/totemo/doppelganger/CreatureType.java:275-278 | count strikes are scheduled, each with a delay in [0, duration] |
| Types.Escorts | src/io/github/totemo/doppelganger/CreatureType.java:293-305 | count escorts are scheduled, each with a delay in [0, duration] |
| Types.ScheduleRandomStrike | src/io/github/totemo/doppelganger/CreatureType.java:747-759 | three draws are taken and one strike is scheduled with the first as its delay |
| Types.OverlayItems | src/io/github/totemo/doppelganger/CreatureType.java:340-375 | each slot takes the configured item when there is one and keeps its own otherwise |
| Types.OverlayChances | src/io/github/totemo/doppelganger/CreatureType.java:344-379 | each slot takes the configured drop chance when set and keeps its own otherwise |
| Types.Customised | src/io/github/totemo/doppelganger/CreatureType.java:315-380 | only overrides that are set change the entity: health sets max and current health, invulnerability sets both no-damage fields to 2 x ticks (32-bit) and the last damage to Integer.MAX_VALUE; the name and item pickup are untouched |
| Types.CustomiseIdempotent | src/io/github/totemo/doppelganger/CreatureType.java:315-380 | customising twice is the same as customising once |
| Types.NoOverridesNoChange | src/io/github/totemo/doppelganger/CreatureType.java:315-380 | a type that overrides nothing leaves the entity exactly as it was |
| Types.CreatureType.constructor | src/io/github/totemo/doppelganger/CreatureType.java:169-173 | a new type has the name, base and settings given, no potions and no escorts |
| Types.CreatureType.KeepHelmet | src/io/github/totemo/doppelganger/CreatureType.java:250-254 | true exactly when keephelmet is set to true; unset counts as false |
| Types.CreatureType.LoadPotions | src/io/github/totemo/doppelganger/CreatureType.java:546-586 | each potion entry that reads cleanly is appended in order; any other entry is skipped on its own |
| Types.CreatureType.LoadEscortTypes | src/io/github/totemo/doppelganger/CreatureType.java:705-730 | valid escort entries are added in order; the first entry that throws ends the list |
| Types.CreatureType.DoSpawnEffects | src/io/github/totemo/doppelganger/CreatureType.java:263-280 | the sound if any, then a strike count in [min, max]; with at least one strike, an immediate lightning effect and count - 1 scheduled strikes |
| Types.CreatureType.ScheduleStrikes | src/io/github/totemo/doppelganger/CreatureType.java:275-278 | count strikes scheduled, three draws each |
| Types.CreatureType.SpawnEscorts | src/io/github/totemo/doppelganger/CreatureType.java:290-306 | an escort count in [min, max], each escort scheduled with a delay in [0, duration] |
| Types.CreatureType.Customise | src/io/github/totemo/doppelganger/CreatureType.java:315-380 | the entity's attributes become the customised ones; its rider and target are untouched |
| Types.LoadFromSection | src/io/github/totemo/doppelganger/CreatureType.java:56-160 | a missing section throws NullPointerException; no type exactly when spawn is missing or empty; otherwise a new type with the section's name, its spawn as base, the loaded settings, potions and escort choices |
| Factory.ValidInIgnoresCase | src/io/github/totemo/doppelganger/CreatureFactory.java:279-287 | whether a name is a valid creature type does not depend on its case |
| Factory.ValidInGrows | src/io/github/totemo/doppelganger/CreatureFactory.java:279-287 | defining more custom types never makes a valid name invalid |
| Factory.CreatureFactory.VanillaLivingIsValid | src/io/github/totemo/doppelganger/CreatureFactory.java:279-287 | every predefined variant and every living entity type is valid and vanilla, whatever is loaded |
| Factory.CreatureFactory.IsValidCreatureType | src/io/github/totemo/doppelganger/CreatureFactory.java:279-287 | every defined custom type is valid; any other valid name is one the variants or the server know |
| Factory.CreatureFactory.IsVanillaCreatureType | src/io/github/totemo/doppelganger/CreatureFactory.java:266-268 | a predefined variant or any entity type |
| Factory.FindShape | src/io/github/totemo/doppelganger/CreatureFactory.java:181-183 | a shape is found exactly when one is stored under the key, and it is that one |
| Factory.FindShapeKept | src/io/github/totemo/doppelganger/CreatureFactory.java:60 | adding a shape in insertion order does not change what an existing key finds; the new key finds the new shape |
| Factory.CreatureFactory.GetCreatureShape | src/io/github/totemo/doppelganger/CreatureFactory.java:181-183 | found exactly when a shape is stored under the lower-cased name, and it is that shape |
| Factory.CreatureFactory.GetCreatureType | src/io/github/totemo/doppelganger/CreatureFactory.java:224-226 | the custom type stored under the lower-cased name, if any |
| Factory.CreatureFactory.GetPlayerCreature | src/io/github/totemo/doppelganger/CreatureFactory.java:238-240 | the type spawned for the lower-cased player name, if any |
| Factory.CreatureFactory.GetPlayerShapes | src/io/github/totemo/doppelganger/CreatureFactory.java:251-253 | the shapes listed for the lower-cased player name, if any |
| Factory.CreatureFactory.PlayerShapesValid | src/io/github/totemo/doppelganger/CreatureFactory.java:107-125 | every shape listed for a player is one of the loaded shapes |
| Factory.CreatureFactory.GetCreatureShapeAt | src/io/github/totemo/doppelganger/CreatureFactory.java:199-208 | the first shape, in definition order, that is complete at the location for the placed item; none when no shape is |
| Factory.LivingEntityType | src/io/github/totemo/doppelganger/CreatureFactory.java:31-34 | a recognised predefined variant's name, else the entity type's name |
| Factory.LivingEntityTypeRoundTrip | src/io/github/totemo/doppelganger/CreatureFactory.java:31-34 | the type name reported for a spawned predefined variant looks that variant up again |
| Factory.HeadFor | src/io/github/totemo/doppelganger/CreatureFactory.java:393-405 | the helmet becomes a player head (durability 3) owned by the name; an existing player head keeps its amount, name and lore, anything else is replaced by a new head |
| Factory.HeadForIdempotent | src/io/github/totemo/doppelganger/CreatureFactory.java:393-405 | setting the same player's head twice is the same as once |
| Factory.UsedName | src/io/github/totemo/doppelganger/CreatureFactory.java:355-356 | an explicit non-empty name is used; a missing or empty name on a custom type falls back to its default name; with no custom type the given name is used as is |
| Factory.HeadName | src/io/github/totemo/doppelganger/CreatureFactory.java:367-373 | a head name is never empty; none when the type keeps its helmet; a custom type's mask wins over every name (an empty mask gives no head); otherwise the used name when non-empty |
| Factory.Named | src/io/github/totemo/doppelganger/CreatureFactory.java:352-378 | a non-empty used name is shown, any other keeps the old name; the head, if any, becomes the helmet, otherwise the equipment is kept; the creature can no longer pick up items; potions, health and drop chances are kept |
| Config.ElementString | src/io/github/totemo/doppelganger/CreatureFactory.java:107 | a list element has text exactly when it is a string, a boolean, or an integer in the long range |
| Config.ElementStringFaithful | src/io/github/totemo/doppelganger/CreatureType.java:616 | a string element keeps its own text, a boolean is written true or false, and a long element's text reads back as that number |
| Config.StringsOf | src/io/github/totemo/doppelganger/CreatureType.java:616 | the string list has at most one entry per element |
| Config.StringsOfKept | src/io/github/totemo/doppelganger/CreatureFactory.java:107 | every element with a text contributes it, every entry comes from some element, and a list of convertible elements loses nothing |
| JavaLang.DigitsSpell | src/io/github/totemo/doppelganger/CreatureType.java:616 | the decimal digits of n are non-empty digits with no leading zero that spell n |
| JavaLang.LongToStringRoundTrip | src/io/github/totemo/doppelganger/CreatureType.java:616 | the text of a long parses back to that long |
| Factory.ShapesNamed | src/io/github/totemo/doppelganger/CreatureFactory.java:107-118 | a player's shapes are the stored shapes its list names, unknown names skipped |
| Factory.CreatureFactory.CollectShapes | src/io/github/totemo/doppelganger/CreatureFactory.java:107-118 | the loop collects exactly those shapes, in list order |
| Factory.ShapesLoadedStep | src/io/github/totemo/doppelganger/CreatureFactory.java:52-63 | reading one more shape key keeps earlier shapes and accounts for that key |
| Factory.TypesLoadedSkip | src/io/github/totemo/doppelganger/CreatureFactory.java:68-88 | a creature key not accepted against the types defined so far leaves the table as the fold of accepted keys says |
| Factory.TypesLoadedAdd | src/io/github/totemo/doppelganger/CreatureFactory.java:68-88 | a creature key accepted against the types defined so far, and stored, keeps earlier types, matches the fold and was loaded from its section |
| Factory.TypeKeysGrow | src/io/github/totemo/doppelganger/CreatureFactory.java:66-89 | reading further creature keys only adds custom type names |
| Factory.TypeKeysAccepted | src/io/github/totemo/doppelganger/CreatureFactory.java:69-86 | a key accepted at its turn (not yet valid, spawn present, not its own name, spawn valid against the types defined before it) ends up defined, and a key valid at its turn stays valid |
| Factory.TypeKeysFrom | src/io/github/totemo/doppelganger/CreatureFactory.java:69-86 | every custom type name read is the lower-cased name of a key that was accepted at its own turn |
| Factory.TypesFromKept | src/io/github/totemo/doppelganger/CreatureFactory.java:81 | every type registered was loaded from a key of the creatures section |
| Factory.PlayersLoadedSkip | src/io/github/totemo/doppelganger/CreatureFactory.java:93-128 | a player key refused keeps what has been read accounted for |
| Factory.PlayersLoadedAdd | src/io/github/totemo/doppelganger/CreatureFactory.java:93-128 | a player key registered keeps earlier players and accounts for that key |
| Factory.PlayersFromKept | src/io/github/totemo/doppelganger/CreatureFactory.java:124-125 | every player registered was read from a key of the players section |
| Factory.StoredShapesKept | src/io/github/totemo/doppelganger/CreatureFactory.java:60 | storing a shape keeps every player's shapes stored |
| Factory.PlayerAddedNamed | src/io/github/totemo/doppelganger/CreatureFactory.java:102-125 | a player registered under its lower-cased name with a valid spawn type keeps every player's type valid |
| Factory.PlayerAddedStored | src/io/github/totemo/doppelganger/CreatureFactory.java:107-125 | a player whose shapes are all stored keeps every player's shapes stored |
| Factory.PlayersNamedGrows | src/io/github/totemo/doppelganger/CreatureFactory.java:80-81 | defining more types keeps every player's spawn type valid |
| Factory.RegistryAdded | src/io/github/totemo/doppelganger/CreatureFactory.java:77-81 | registering a type whose name is not yet valid, on a base that is, keeps every base valid and every custom base defined first |
| Factory.RegisterKeepsBasesOrdered | src/io/github/totemo/doppelganger/CreatureFactory.java:77-81 | after such a registration each custom base still comes before the type based on it, so no chain of bases loops |
| Factory.TypesValidAdded | src/io/github/totemo/doppelganger/CreatureFactory.java:81 | adding a well-formed type keeps every type well formed |
| Factory.TypeAddedConsistent | src/io/github/totemo/doppelganger/CreatureFactory.java:77-81 | a new type's key was free, and the types and players stay consistent |
| Factory.CreatureFactory.BaseRankDecreases | src/io/github/totemo/doppelganger/CreatureFactory.java:77-81 | a custom type's base was defined strictly earlier |
| Factory.CreatureFactory.RootType | src/io/github/totemo/doppelganger/CreatureFactory.java:316-323 | following custom bases ends at a non-custom type, which is valid whenever the start is |
| Factory.CreatureFactory.constructor | src/io/github/totemo/doppelganger/CreatureFactory.java:414-430 | a new factory holds no shapes, types or players |
| Factory.CreatureFactory.Load | src/io/github/totemo/doppelganger/CreatureFactory.java:43-131 | the tables are cleared first, so a missing section leaves its table empty; they hold only what the sections define (each shape, type and player read from its section); on success every shape and player key is stored or refused for its reason, and the custom types are exactly the keys accepted in order, each against the types defined before it; the invariant holds; the only exception is NullPointerException |
| Factory.CreatureFactory.LoadShapes | src/io/github/totemo/doppelganger/CreatureFactory.java:50-64 | earlier shapes kept in order, each key stored or rejected, every new shape loaded from a key of the section |
| Factory.CreatureFactory.LoadShape | src/io/github/totemo/doppelganger/CreatureFactory.java:53-62 | afterwards the lower-cased key finds a stored shape or the section is rejected, so the first definition of a name wins; a shape added is appended under the lower-cased key and was loaded from that section |
| Factory.CreatureFactory.AddShape | src/io/github/totemo/doppelganger/CreatureFactory.java:60 | the shape is appended under its lower-cased name, keeping the invariant |
| Factory.CreatureFactory.LoadTypes | src/io/github/totemo/doppelganger/CreatureFactory.java:66-89 | earlier types kept; on success the type names are exactly those accepted key by key against the types defined before each; every new type loaded from a key of the section |
| Factory.CreatureFactory.LoadType | src/io/github/totemo/doppelganger/CreatureFactory.java:69-86 | it throws exactly when the name is not yet valid and its value is not a section; otherwise a type is added exactly when the name is not yet valid and its spawn is present, differs from the name (case-sensitively) and is valid; a type added is stored under the lower-cased name, which was free, with the section's spawn as base |
| Factory.CreatureFactory.AddType | src/io/github/totemo/doppelganger/CreatureFactory.java:81 | the type is stored under a fresh lower-cased key, keeping the invariant |
| Factory.CreatureFactory.LoadPlayers | src/io/github/totemo/doppelganger/CreatureFactory.java:91-130 | earlier players kept; afterwards every key is defined or spawns an invalid type; every new player was read from a key of the section |
| Factory.CreatureFactory.LoadPlayer | src/io/github/totemo/doppelganger/CreatureFactory.java:94-127 | afterwards the player is defined or its spawn (default: the player's name) is not a valid type; a player added is stored under the lower-cased name, which was free, with that spawn and the shapes its list names, even an empty list |
| Factory.CreatureFactory.AddPlayer | src/io/github/totemo/doppelganger/CreatureFactory.java:124-125 | both player tables gain the lower-cased name, keeping the invariant |
| Factory.CreatureFactory.SpawnCreature | src/io/github/totemo/doppelganger/CreatureFactory.java:312-380 | a null or invalid type throws NullPointerException; a spawned creature is new, at the location, of a valid type, and cannot pick up items; it is of the root vanilla type its custom bases lead to, and a vanilla type always spawns; the used name (given, else the type's default) is shown; the head of the mask or used name is worn unless the type keeps its helmet; a custom type's creature carries that type's overrides under its name and head, and a valid mount of the type is spawned at the location with the creature riding it |
| Factory.CreatureFactory.SpawnCustomNamed | src/io/github/totemo/doppelganger/CreatureFactory.java:316-380 | a custom type's creature is its customised base, then given the used name and the head; it is new, at the location, of the root vanilla type, with its valid mount spawned beneath it; exhausted stack depth throws StackOverflowError |
| Factory.CreatureFactory.SpawnCustom | src/io/github/totemo/doppelganger/CreatureFactory.java:316-332 | the base is spawned at the location, of the root vanilla type of the custom type's base, and then carries the type's overrides; a valid mount is a new, different creature at the location with the base as its passenger; running out of stack depth throws StackOverflowError |
| Factory.CreatureFactory.PlayEffects | src/io/github/totemo/doppelganger/CreatureFactory.java:318-319 | the spawn effects and escorts take at least two draws and never remove an effect |
| Factory.CreatureFactory.SpawnVanilla | src/io/github/totemo/doppelganger/CreatureFactory.java:333-350 | spawns exactly for a non-empty predefined variant or living entity type name, as that variant or type, at the location |
| Predefined.SpawnTraits | src/io/github/totemo/doppelganger/PredefinedCreature.java:25-163 | each variant spawns as its own entity class |
| Predefined.SpawnIsInstance | src/io/github/totemo/doppelganger/PredefinedCreature.java:25-163 | each variant's spawn is accepted by its own recogniser |
| Predefined.IsInstance | src/io/github/totemo/doppelganger/PredefinedCreature.java:28-154 | a recognised entity has the variant's class (a zombie villager may be a pig zombie); a villager variant is recognised exactly by its profession |
| Predefined.RecognisersDisjoint | src/io/github/totemo/doppelganger/PredefinedCreature.java:25-163 | no entity is an instance of two variants |
| Predefined.AllValues | src/io/github/totemo/doppelganger/PredefinedCreature.java:23-163 | values() lists every variant |
| Predefined.FirstInstance | src/io/github/totemo/doppelganger/PredefinedCreature.java:185-195 | the first variant in order whose recogniser accepts the entity, or none when no variant does |
| Predefined.FromLivingEntity | src/io/github/totemo/doppelganger/PredefinedCreature.java:185-195 | a recognised variant, and null exactly when no variant recognises the entity |
| Predefined.FromSpawnRoundTrip | src/io/github/totemo/doppelganger/PredefinedCreature.java:25-195 | recognising a variant's spawn gives that variant back |
| Predefined.LookupFinds | src/io/github/totemo/doppelganger/PredefinedCreature.java:224-230 | a BY_NAME lookup finds a variant with that lower-cased name, and fails only when there is none |
| Predefined.LowerNames | src/io/github/totemo/doppelganger/PredefinedCreature.java:224-230 | the key each variant is stored under |
| Predefined.LowerNamesDistinct | src/io/github/totemo/doppelganger/PredefinedCreature.java:224-230 | no two variants share a key, so none overwrites another |
| Predefined.FromNameExactlyVariants | src/io/github/totemo/doppelganger/PredefinedCreature.java:172-175 | fromName succeeds exactly for the eight variant names in any case, and finds that variant |
| Predefined.FromNameOfName | src/io/github/totemo/doppelganger/PredefinedCreature.java:172-175 | every variant's name, as written or lower-cased, finds it |
| Predefined.FromNameCaseInsensitive | src/io/github/totemo/doppelganger/PredefinedCreature.java:172-175 | lower-casing a name first does not change the result |
| Predefined.FromName | src/io/github/totemo/doppelganger/PredefinedCreature.java:172-175 | a variant found has the name asked for, ignoring case; none found means no variant has that name |
| ConfigMaps.Raw | src/io/github/totemo/doppelganger/ConfigMap.java:120 | a stored null reads as missing |
| ConfigMaps.Get | src/io/github/totemo/doppelganger/ConfigMap.java:118-135 | a missing or null entry yields the default; a present one is returned as stored even with the wrong class; a warning is logged exactly when the result is non-null and of the wrong class |
| ConfigMaps.GetString | src/io/github/totemo/doppelganger/ConfigMap.java:41-44 | the default when missing; the string when a string is stored; ClassCastException otherwise |
| ConfigMaps.GetBoolean | src/io/github/totemo/doppelganger/ConfigMap.java:55-58 | the default when missing; the boolean when one is stored; ClassCastException otherwise |
| ConfigMaps.GetInteger | src/io/github/totemo/doppelganger/ConfigMap.java:69-72 | the default when missing; the value when it is a 32-bit integer; ClassCastException otherwise |
| ConfigMaps.GetDouble | src/io/github/totemo/doppelganger/ConfigMap.java:83-88 | null exactly when the entry and the default are both null; any number is converted to a double; ClassCastException for a non-number |
| ConfigMaps.GetNumberList | src/io/github/totemo/doppelganger/ConfigMap.java:102-106 | the default when missing; any stored list, its elements unchecked; ClassCastException otherwise |
| ConfigMaps.WarningMeansClassCast | src/io/github/totemo/doppelganger/ConfigMap.java:126-134 | whenever the lookup warns "Using default", the typed getter throws instead of using the default |
| Volumes.DistanceSquared | src/io/github/totemo/doppelganger/Volume.java:56 | a squared distance is never negative |
| Volumes.MakeBox | src/io/github/totemo/doppelganger/Volume.java:115-130 | corners in different worlds throw IllegalArgumentException; otherwise a box whose first corner is componentwise at most its second |
| Volumes.Contains | src/io/github/totemo/doppelganger/Volume.java:53-57 | nothing in another world is contained; a sphere of radius 0 contains nothing |
| Volumes.SphereRadiusSign | src/io/github/totemo/doppelganger/Volume.java:53-57 | only the square of the radius matters, so a negative radius acts as its absolute value |
| Volumes.SphereGrows | src/io/github/totemo/doppelganger/Volume.java:53-57 | a larger sphere about the same centre contains everything a smaller one does |
| Volumes.SphereSurfaceOutside | src/io/github/totemo/doppelganger/Volume.java:53-57 | the bound is strict: points exactly one radius away are outside |
| Volumes.BoxContainsCorners | src/io/github/totemo/doppelganger/Volume.java:115-143 | a box built from two corners contains both |
| Volumes.BoxContainsBetweenCorners | src/io/github/totemo/doppelganger/Volume.java:137-143 | a box contains exactly the points of its world lying between the two corners, inclusive, on every axis |
| Volumes.BoxCornerOrderIrrelevant | src/io/github/totemo/doppelganger/Volume.java:115-143 | box containment does not depend on the order the corners are given |
| Plugin.RelocateAppendsNew | src/io/github/totemo/doppelganger/Doppelganger.java:195-244 | the drops only grow, each by an item not yet among them that sat in a slot with a drop chance above 0.999f |
| Plugin.RelocateNoDuplicates | src/io/github/totemo/doppelganger/Doppelganger.java:195-244 | drops without duplicates stay without duplicates |
| Plugin.RelocateOnlyClears | src/io/github/totemo/doppelganger/Doppelganger.java:195-244 | a slot with drop chance at most 0.999f keeps its item; any slot keeps its item or is emptied |
| Plugin.RelocateForcedDropped | src/io/github/totemo/doppelganger/Doppelganger.java:195-244 | the item of every slot with drop chance above 0.999f ends up among the drops |
| Plugin.RelocateForced | src/io/github/totemo/doppelganger/Doppelganger.java:189-244 | a drop is forced exactly when some slot has a drop chance above 0.999f |
| Plugin.RelocateSlot | src/io/github/totemo/doppelganger/Doppelganger.java:195-204 | one slot moves into the drops as the relocation function says |
| Plugin.SlotRelocate | src/io/github/totemo/doppelganger/Doppelganger.java:195-204 | drops are only appended to, by at most this slot's item; other slots are untouched; a chance at most 0.999f changes nothing; the drop is forced exactly when already forced or the chance is above 0.999f |
| Plugin.Relocate | src/io/github/totemo/doppelganger/Doppelganger.java:195-244 | each visited slot adds at most one drop after the earlier ones; slots not visited keep their items |
| Plugin.OnEntityDeath | src/io/github/totemo/doppelganger/Doppelganger.java:187-265 | a non-Creature is left unchanged; a Creature's five slots are relocated in order; the drops are logged exactly when a drop was forced and the entity has a custom name |
| Plugin.Doppelganger.Route | src/io/github/totemo/doppelganger/Doppelganger.java:83-170 | anything but a named block is ignored; an invalid name is refused when so configured; a name with player shapes searches only those; any other name searches the configured shapes; a draw is taken only on the generic path with a bordered shape |
| Plugin.Doppelganger.PlayerRoute | src/io/github/totemo/doppelganger/Doppelganger.java:108-136 | the first complete player shape decides: with its border the player's creature type is summoned, without it the player is told to leave a gap, and later shapes are not tried; no complete shape means "not how you summon" |
| Plugin.Doppelganger.GenericRoute | src/io/github/totemo/doppelganger/Doppelganger.java:138-167 | no complete shape does nothing; the first complete shape needs its border; the chosen type is validated before a summon; a shape without types throws NullPointerException |
| Plugin.Doppelganger.DoDoppelganger | src/io/github/totemo/doppelganger/Doppelganger.java:297-344 | the placement is cancelled; a stack of more than one loses one item, a last item empties the hand; exactly the shape's blocks become air; a spawned creature appears at trigger + (0.5, ground offset, 0.5), shows a non-empty name, and targets the player if it is a Creature |
| Plugin.GroundLocation | src/io/github/totemo/doppelganger/Doppelganger.java:325-327 | the creature stands in the trigger block's world and column, ground offset blocks above it |
| Plugin.Doppelganger.OnBlockPlace | src/io/github/totemo/doppelganger/Doppelganger.java:83-170 | a spawn is attempted exactly on a summon route, and a spawned creature stands at the shape's ground location; any other route changes neither the world nor the event |

## Left out

- `Commands.java`, `Help.java`, `Configuration.java` and `IPredefinedCreature.java` are not part of this model. They hold the command interface, help text from the JAR, a reload wrapper and an interface.
- Chat messages and log lines are only the outcomes they report: `Placement` values, the death handler's log value and error values. Their text and formatting (`describe`, `describeItem`, `listConfiguration`, `dump`) are left out.
- `CreatureShape.hasBorder` is not part of this model. It is a function parameter of the `Doppelganger` class. The `warnOnInvalidName` and `isArbitraryNameAllowed` settings are constant flags of that class.
- `isComplete` takes `(World, Location, int)`, but its callers pass `(Location, Material)` or `(Location, int)`. The model passes the world, the location and the placed item's material id everywhere.
- Plugin.Doppelganger.OnBlockPlace: the generic path's `event.getPlayer().getItemInHand()` is taken to be the event's placed item, as it is when a block is placed.
- `randomLocation`: the angle and range draws are taken from the stream, but the trigonometry is left out. The scheduler is modelled as effects appended with their delay. An escort's type is chosen only when its task runs, and that run is left out.
- Sound, lightning and spawned escorts are effect values. The world does not change for them.
- `loadItem`: book title, author and pages, and enchantments, are left out (foreign Bukkit metadata). Colour-code translation is a host function.
- `loadPotions`: a potion effect keeps its type, duration, amplifier and ambient flag. Its behaviour in the game is not modelled.
- Floating point: weights, ranges and drop chances are reals. The `(float)` narrowing of ranges, and `floatValue()` of drop chances in `customise`, are not modelled. The death handler compares against the exact binary value of `0.999f`.
- `Lower` and `Upper` map only ASCII letters. Java's `toLowerCase` and `toUpperCase` also map other letters, depending on the locale; that is not modelled.
- `Config`: Bukkit's `getString` on a non-string value returns its `toString()`. The model returns the default there.
- Config.ElementString: `getStringList` writes a double list element as `Double.toString` gives it. The model skips doubles, because it has no model of floating-point text. Integers beyond the long range, which YAML reads as BigInteger, are skipped as Bukkit skips them.
- Factory.CreatureFactory.LoadTypes: states each new type's name and base as read from its section, not its other settings. `Types.LoadFromSection` states those.
- Factory.CreatureFactory.SpawnCreature: the fuel parameter bounds the depth of custom-type and mount recursion, standing in for the call stack. An indirect mount cycle (A rides B, B rides A) gives StackOverflowError once the fuel runs out.
- Factory.CreatureFactory.PlayEffects: states only that draws are taken and effects added. `DoSpawnEffects` and `SpawnEscorts` state exactly which.
- Plugin.Doppelganger.DoDoppelganger: the target is stated only for a spawned Creature.
- `WeightedSelection.entrySet` is the `choices` field itself. The selection's own `Random` is not stored; the caller passes the draw to `Choose`.
- Item stacks are values. The in-place `setAmount` on the player's stack is modelled as the new item in the event's hand. `drops.contains` compares items by value, as `ItemStack.equals` does.
- Volume: a sphere keeps its centre as a value, so later changes to the caller's location cannot affect it.
