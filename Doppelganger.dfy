/**
 * Doppelganger: the plugin's event handlers. A named block placed on top of
 * a configured shape summons a creature; a dying creature whose equipment has
 * a (near) certain drop chance has that equipment moved into its drops.
 *
 * Chat messages and log lines are modelled by the outcome they report; the
 * world is a value that a summon returns changed.
 */
module Plugin {
  import opened Wrappers
  import opened JavaLang
  import opened Volumes
  import opened Host
  import Shapes
  import Factory

  // ---------------------------------------------------------------------------
  // Equipment relocation on death

  /** The float 0.999f, written out exactly; drop chances are floats compared against it. */
  const NEAR_UNITY: real := 0.999000012874603271484375

  /** The slots in the order the death handler visits them. */
  const SLOTS: seq<Slot> := [Helmet, Chestplate, Leggings, Boots, Hand]

  /** The equipment, the drops and whether some slot had a forced drop, as the handler goes. */
  datatype Relocation = Relocation(equipment: Gear<Option<Item>>, drops: seq<Item>, forced: bool)

  /**
   * One slot: with a drop chance above NEAR_UNITY the drop is forced, and an
   * item not yet among the drops (by value) moves there from the slot.
   */
  function SlotRelocate(r: Relocation, chances: Gear<real>, s: Slot): (r': Relocation)
    // Drops are only appended to, by at most this slot's item.
    ensures |r.drops| <= |r'.drops| <= |r.drops| + 1 && r'.drops[..|r.drops|] == r.drops
    ensures |r'.drops| > |r.drops| ==> r.equipment.Get(s) == Some(r'.drops[|r.drops|])
    // Other slots are untouched, and a drop chance at most NEAR_UNITY changes nothing.
    ensures forall o :: o != s ==> r'.equipment.Get(o) == r.equipment.Get(o)
    ensures chances.Get(s) <= NEAR_UNITY ==> r' == r
    ensures r'.forced <==> r.forced || chances.Get(s) > NEAR_UNITY
  {
    if chances.Get(s) > NEAR_UNITY then
      var item := r.equipment.Get(s);
      if item.Some? && item.value !in r.drops then Relocation(r.equipment.Set(s, None), r.drops + [item.value], true)
      else r.(forced := true)
    else r
  }

  /** The slots visited in order. */
  function Relocate(r: Relocation, chances: Gear<real>, slots: seq<Slot>): (r': Relocation)
    // Each visited slot adds at most one drop, after the earlier drops.
    ensures |r.drops| <= |r'.drops| <= |r.drops| + |slots| && r'.drops[..|r.drops|] == r.drops
    // Slots not visited keep their items.
    ensures forall o :: o !in slots ==> r'.equipment.Get(o) == r.equipment.Get(o)
    decreases |slots|
  {
    if |slots| == 0 then r else Relocate(SlotRelocate(r, chances, slots[0]), chances, slots[1..])
  }

  ghost predicate NoDuplicates(s: seq<Item>)
  {
    forall i, j :: 0 <= i < j < |s| ==> s[i] != s[j]
  }

  /**
   * The drops only grow, each by an item that was not yet among them and that
   * sat in a visited slot whose drop is forced.
   */
  lemma {:induction false} RelocateAppendsNew(r: Relocation, chances: Gear<real>, slots: seq<Slot>)
    ensures var r' := Relocate(r, chances, slots);
      |r.drops| <= |r'.drops| && r'.drops[..|r.drops|] == r.drops &&
      (forall i :: |r.drops| <= i < |r'.drops| ==>
        r'.drops[i] !in r'.drops[..i] &&
        exists s :: s in slots && chances.Get(s) > NEAR_UNITY && r.equipment.Get(s) == Some(r'.drops[i]))
    decreases |slots|
  {
    if |slots| > 0 {
      var r1 := SlotRelocate(r, chances, slots[0]);
      RelocateAppendsNew(r1, chances, slots[1..]);
      var r' := Relocate(r, chances, slots);
      assert r'.drops[..|r1.drops|] == r1.drops by {
        assert r' == Relocate(r1, chances, slots[1..]);
      }
      forall i | |r.drops| <= i < |r'.drops|
        ensures r'.drops[i] !in r'.drops[..i]
        ensures exists s :: s in slots && chances.Get(s) > NEAR_UNITY && r.equipment.Get(s) == Some(r'.drops[i])
      {
        if i < |r1.drops| {
          assert r1.drops != r.drops;
          assert r'.drops[..i] == r.drops && r'.drops[i] == r1.drops[i];
          assert slots[0] in slots;
        } else {
          var s :| s in slots[1..] && chances.Get(s) > NEAR_UNITY && r1.equipment.Get(s) == Some(r'.drops[i]);
          assert s in slots;
        }
      }
    }
  }

  /** Items already among the drops are never added again: drops without duplicates stay so. */
  lemma RelocateNoDuplicates(r: Relocation, chances: Gear<real>, slots: seq<Slot>)
    requires NoDuplicates(r.drops)
    ensures NoDuplicates(Relocate(r, chances, slots).drops)
  {
    var r' := Relocate(r, chances, slots);
    RelocateAppendsNew(r, chances, slots);
    forall i, j | 0 <= i < j < |r'.drops| ensures r'.drops[i] != r'.drops[j] {
      if j >= |r.drops| {
        assert r'.drops[i] in r'.drops[..j];
      } else {
        assert r'.drops[i] == r.drops[i] && r'.drops[j] == r.drops[j];
      }
    }
  }

  /**
   * A slot whose drop chance is not above NEAR_UNITY keeps its item; any
   * other slot keeps its item or is emptied, and never gets a different one.
   */
  lemma {:induction false} RelocateOnlyClears(r: Relocation, chances: Gear<real>, slots: seq<Slot>)
    ensures forall s :: chances.Get(s) <= NEAR_UNITY ==> Relocate(r, chances, slots).equipment.Get(s) == r.equipment.Get(s)
    ensures forall s :: Relocate(r, chances, slots).equipment.Get(s) in {None, r.equipment.Get(s)}
    decreases |slots|
  {
    if |slots| > 0 {
      RelocateOnlyClears(SlotRelocate(r, chances, slots[0]), chances, slots[1..]);
    }
  }

  /**
   * The item of every visited slot whose drop is forced ends up among the
   * drops, moved there or already there.
   */
  lemma {:induction false} RelocateForcedDropped(r: Relocation, chances: Gear<real>, slots: seq<Slot>)
    ensures forall s :: s in slots && chances.Get(s) > NEAR_UNITY && r.equipment.Get(s).Some? ==>
      r.equipment.Get(s).value in Relocate(r, chances, slots).drops
    decreases |slots|
  {
    if |slots| > 0 {
      var r1 := SlotRelocate(r, chances, slots[0]);
      RelocateForcedDropped(r1, chances, slots[1..]);
      RelocateAppendsNew(r1, chances, slots[1..]);
      var r' := Relocate(r, chances, slots);
      forall s | s in slots && chances.Get(s) > NEAR_UNITY && r.equipment.Get(s).Some?
        ensures r.equipment.Get(s).value in r'.drops
      {
        var x := r.equipment.Get(s).value;
        if s == slots[0] {
          assert x in r1.drops;
          assert x in r'.drops[..|r1.drops|];
        } else {
          assert s in slots[1..];
        }
      }
    }
  }

  /** A drop is forced exactly when some visited slot has a drop chance above NEAR_UNITY. */
  lemma {:induction false} RelocateForced(r: Relocation, chances: Gear<real>, slots: seq<Slot>)
    ensures Relocate(r, chances, slots).forced <==> r.forced || exists s :: s in slots && chances.Get(s) > NEAR_UNITY
    decreases |slots|
  {
    if |slots| > 0 {
      RelocateForced(SlotRelocate(r, chances, slots[0]), chances, slots[1..]);
      if exists s :: s in slots && chances.Get(s) > NEAR_UNITY {
        var s :| s in slots && chances.Get(s) > NEAR_UNITY;
        if s != slots[0] {
          assert s in slots[1..];
        }
      }
    }
  }

  /** The death event: the entity that died and the list of items it drops. */
  class EntityDeathEvent {
    const entity: LivingEntity
    var drops: seq<Item>

    constructor (entity: LivingEntity, drops: seq<Item>)
      ensures this.entity == entity && this.drops == drops
    {
      this.entity := entity;
      this.drops := drops;
    }
  }

  /** One slot of onEntityDeath, on the event's entity and drops. */
  method RelocateSlot(event: EntityDeathEvent, s: Slot, forced: bool) returns (forced': bool)
    modifies event, event.entity
    ensures var r := SlotRelocate(Relocation(old(event.entity.attrs.equipment), old(event.drops), forced),
                                  old(event.entity.attrs.dropChances), s);
      event.entity.attrs == old(event.entity.attrs).(equipment := r.equipment) &&
      event.drops == r.drops && forced' == r.forced
    ensures unchanged(event.entity`passenger, event.entity`target)
  {
    forced' := forced;
    var equipment := event.entity.attrs.equipment;
    if event.entity.attrs.dropChances.Get(s) > NEAR_UNITY {
      forced' := true;
      var item := equipment.Get(s);
      if item.Some? && item.value !in event.drops {
        event.drops := event.drops + [item.value];
        event.entity.attrs := event.entity.attrs.(equipment := equipment.Set(s, None));
      }
    }
  }

  /**
   * onEntityDeath: for a Creature, visit the five slots in order; the log line
   * (the block position and the drops) is written when some drop was forced
   * and the entity has a custom name.
   */
  method OnEntityDeath(event: EntityDeathEvent) returns (log: Option<(Pos, seq<Item>)>)
    modifies event, event.entity
    ensures var r0 := Relocation(old(event.entity.attrs.equipment), old(event.drops), false);
      var r := if event.entity.entityType.creature then Relocate(r0, old(event.entity.attrs.dropChances), SLOTS) else r0;
      event.entity.attrs == old(event.entity.attrs).(equipment := r.equipment) && event.drops == r.drops &&
      log == if r.forced && event.entity.attrs.customName.Some? then Some((BlockOf(event.entity.location), r.drops)) else None
    ensures unchanged(event.entity`passenger, event.entity`target)
  {
    var forced := false;
    if event.entity.entityType.creature {
      ghost var chances := event.entity.attrs.dropChances;
      ghost var r := Relocation(event.entity.attrs.equipment, event.drops, false);
      ghost var slots := SLOTS;
      ghost var r0 := r;
      forced := RelocateSlot(event, Helmet, forced);
      r, slots := SlotRelocate(r, chances, Helmet), slots[1..];
      forced := RelocateSlot(event, Chestplate, forced);
      r, slots := SlotRelocate(r, chances, Chestplate), slots[1..];
      forced := RelocateSlot(event, Leggings, forced);
      r, slots := SlotRelocate(r, chances, Leggings), slots[1..];
      forced := RelocateSlot(event, Boots, forced);
      r, slots := SlotRelocate(r, chances, Boots), slots[1..];
      forced := RelocateSlot(event, Hand, forced);
      r, slots := SlotRelocate(r, chances, Hand), slots[1..];
      assert Relocation(event.entity.attrs.equipment, event.drops, forced) == r == Relocate(r, chances, slots);
    }
    if forced && event.entity.attrs.customName.Some? {
      return Some((BlockOf(event.entity.location), event.drops));
    }
    return None;
  }

  // ---------------------------------------------------------------------------
  // Summoning on block placement

  /** A character of the pattern class \w without the Unicode flag: an ASCII letter, digit or underscore. */
  predicate WordChar(c: char)
  {
    'a' <= c <= 'z' || 'A' <= c <= 'Z' || '0' <= c <= '9' || c == '_'
  }

  /** The name pattern ^\w+$ matched against the whole display name. */
  predicate ValidName(name: string)
  {
    |name| > 0 && forall i :: 0 <= i < |name| ==> WordChar(name[i])
  }

  /** A block placement: who placed what where. The handler may cancel it and change the player's hand. */
  class BlockPlaceEvent {
    const player: string
    /** The location of the placed block (whole-block coordinates). */
    const block: Location
    const itemInHand: Item
    var cancelled: bool
    /** The item the player holds. */
    var hand: Option<Item>

    constructor (player: string, block: Location, itemInHand: Item)
      ensures this.player == player && this.block == block && this.itemInHand == itemInHand
      ensures !cancelled && hand == Some(itemInHand)
    {
      this.player := player;
      this.block := block;
      this.itemInHand := itemInHand;
      cancelled := false;
      hand := Some(itemInHand);
    }
  }

  /**
   * What a placement leads to. Each outcome other than Summon and Ignored is
   * a message to the player (InvalidType: a warning in the log); on the
   * player-specific path NeedsGap is followed by the NotHowToSummon message.
   */
  datatype Placement =
    | Ignored
    | InvalidName
    | NotHowToSummon
    | NoShape
    | NeedsGap(shape: Shapes.CreatureShape)
    | InvalidType(chosen: string, shape: Shapes.CreatureShape)
    | Summon(name: string, creatureType: Option<string>, shape: Shapes.CreatureShape)

  /** Shape i of the list is complete and none before it is. */
  ghost predicate FirstIn(list: seq<Shapes.CreatureShape>, world: World, loc: Location, placedItemId: int, i: nat)
    reads set j | 0 <= j < |list| :: list[j]
  {
    i < |list| && Factory.Complete(list[i], world, loc, placedItemId) &&
    forall j :: 0 <= j < i ==> !Factory.Complete(list[j], world, loc, placedItemId)
  }

  /** A block's own location: whole-number coordinates, the block's lowest corner. */
  predicate IsBlockCorner(loc: Location)
  {
    loc.x == loc.x.Floor as real && loc.y == loc.y.Floor as real && loc.z == loc.z.Floor as real
  }

  /** The ground location for a creature summoned at block: its centre column, at the shape's ground offset. */
  function GroundLocation(block: Location, groundOffset: int): (r: Location)
    ensures r.world == block.world
    // A block's own location stands in that block's column, groundOffset blocks up.
    ensures IsBlockCorner(block) ==> BlockOf(r) == Offset(BlockOf(block), (0, groundOffset, 0))
  {
    Location(block.world, block.x + 0.5, block.y + groundOffset as real, block.z + 0.5)
  }

  class Doppelganger {
    const factory: Factory.CreatureFactory
    /** Configuration: refuse names that are not valid player names ... */
    const warnOnInvalidName: bool
    /** ... unless arbitrary names are allowed. */
    const arbitraryNameAllowed: bool
    /** CreatureShape.hasBorder, which is not part of this model: a one block gap around the shape. */
    const hasBorder: (Shapes.CreatureShape, Location) -> bool

    constructor (factory: Factory.CreatureFactory, warnOnInvalidName: bool, arbitraryNameAllowed: bool,
                 hasBorder: (Shapes.CreatureShape, Location) -> bool)
      ensures this.factory == factory && this.hasBorder == hasBorder
      ensures this.warnOnInvalidName == warnOnInvalidName && this.arbitraryNameAllowed == arbitraryNameAllowed
    {
      this.factory := factory;
      this.warnOnInvalidName := warnOnInvalidName;
      this.arbitraryNameAllowed := arbitraryNameAllowed;
      this.hasBorder := hasBorder;
    }

    /** The placed item is a block with a display name. */
    predicate Named(item: Item)
    {
      factory.tables.isBlock(item.material) && item.meta.displayName.Some?
    }

    /** The name is refused as not a player name. */
    predicate Refused(name: string)
    {
      warnOnInvalidName && !arbitraryNameAllowed && !ValidName(name)
    }

    /** The player-specific search: the first complete shape of the list decides. */
    ghost predicate PlayerRouted(list: seq<Shapes.CreatureShape>, world: World, loc: Location, id: int, name: string,
                                 r: Result<Placement, Exception>)
      reads this, factory, set j | 0 <= j < |list| :: list[j]
    {
      r.Ok? &&
      match r.value
      case Summon(n, c, sh) =>
        n == name && c == factory.GetPlayerCreature(name) && hasBorder(sh, loc) &&
        exists i: nat :: FirstIn(list, world, loc, id, i) && list[i] == sh
      case NeedsGap(sh) =>
        !hasBorder(sh, loc) && exists i: nat :: FirstIn(list, world, loc, id, i) && list[i] == sh
      case NotHowToSummon =>
        forall j :: 0 <= j < |list| ==> !Factory.Complete(list[j], world, loc, id)
      case _ => false
    }

    /** The generic search: the first complete configured shape, its border, and the type drawn from it. */
    ghost predicate GenericRouted(world: World, loc: Location, id: int, name: string, draw: real, r: Result<Placement, Exception>)
      reads this, factory, set i | 0 <= i < |factory.shapes| :: factory.shapes[i].1
      reads set i | 0 <= i < |factory.shapes| :: factory.shapes[i].1.types
      requires Factory.ShapesValid(factory.shapes)
    {
      var shapes := factory.shapes;
      match r
      case Ok(NoShape) => forall j :: 0 <= j < |shapes| ==> !Factory.Complete(shapes[j].1, world, loc, id)
      case Ok(NeedsGap(sh)) =>
        !hasBorder(sh, loc) &&
        exists i :: 0 <= i < |shapes| && factory.FirstComplete(world, loc, id, i) && shapes[i].1 == sh
      case Ok(Summon(n, c, sh)) =>
        n == name && hasBorder(sh, loc) && c.Some? && factory.IsValidCreatureType(c.value) &&
        exists i :: 0 <= i < |shapes| && factory.FirstComplete(world, loc, id, i) && shapes[i].1 == sh &&
          c == shapes[i].1.ChooseCreatureType(draw)
      case Ok(InvalidType(c, sh)) =>
        hasBorder(sh, loc) && !factory.IsValidCreatureType(c) &&
        exists i :: 0 <= i < |shapes| && factory.FirstComplete(world, loc, id, i) && shapes[i].1 == sh &&
          Some(c) == shapes[i].1.ChooseCreatureType(draw)
      case Err(e) =>
        e == NullPointer &&
        exists i :: 0 <= i < |shapes| && factory.FirstComplete(world, loc, id, i) &&
          hasBorder(shapes[i].1, loc) && shapes[i].1.ChooseCreatureType(draw).None?
      case _ => false
    }

    /**
     * onBlockPlace up to the summon: ignore anything but a named block; refuse
     * an invalid name when so configured; then search the name's player shapes
     * if it has any, or else the configured shapes. The generic search draws u
     * from the random stream exactly when drew is set.
     */
    method Route(world: World, event: BlockPlaceEvent, u: real) returns (r: Result<Placement, Exception>, drew: bool)
      requires factory.Valid()
      ensures !Named(event.itemInHand) ==> r == Ok(Ignored)
      ensures var name := event.itemInHand.meta.displayName.GetOr("");
        Named(event.itemInHand) && Refused(name) ==> r == Ok(InvalidName)
      ensures var name := event.itemInHand.meta.displayName.GetOr("");
        Named(event.itemInHand) && !Refused(name) && factory.GetPlayerShapes(name).Some? ==>
        PlayerRouted(factory.GetPlayerShapes(name).value, world, event.block, event.itemInHand.material, name, r)
      ensures var name := event.itemInHand.meta.displayName.GetOr("");
        Named(event.itemInHand) && !Refused(name) && factory.GetPlayerShapes(name).None? ==>
        GenericRouted(world, event.block, event.itemInHand.material, name, u, r)
      // Only a generic shape with its border draws from the random stream.
      ensures var name := event.itemInHand.meta.displayName.GetOr("");
        drew <==> (Named(event.itemInHand) && !Refused(name) && factory.GetPlayerShapes(name).None? &&
                   (r.Err? || r.value.Summon? || r.value.InvalidType?))
      ensures r.Ok? && r.value.Summon? ==> r.value.shape.Valid()
    {
      var item := event.itemInHand;
      drew := false;
      if !factory.tables.isBlock(item.material) || item.meta.displayName.None? {
        return Ok(Ignored), drew;
      }
      var name := item.meta.displayName.value;
      if warnOnInvalidName && !arbitraryNameAllowed && !ValidName(name) {
        return Ok(InvalidName), drew;
      }
      var playerShapes := factory.GetPlayerShapes(name);
      if playerShapes.Some? {
        factory.PlayerShapesValid(name);
        r := PlayerRoute(world, event.block, item.material, name, playerShapes.value);
      } else {
        r, drew := GenericRoute(world, event.block, item.material, name, u);
      }
    }

    /** The player-specific search: stop at the first complete shape, which needs its border. */
    method PlayerRoute(world: World, loc: Location, id: int, name: string, list: seq<Shapes.CreatureShape>)
      returns (r: Result<Placement, Exception>)
      requires forall k :: 0 <= k < |list| ==> list[k].Valid()
      ensures PlayerRouted(list, world, loc, id, name, r)
      ensures r.Ok? && r.value.Summon? ==> r.value.shape.Valid()
    {
      var i := 0;
      while i < |list|
        invariant 0 <= i <= |list|
        invariant forall j :: 0 <= j < i ==> !Factory.Complete(list[j], world, loc, id)
      {
        var complete := list[i].IsComplete(world, loc, id);
        if complete {
          assert FirstIn(list, world, loc, id, i);
          if hasBorder(list[i], loc) {
            return Ok(Summon(name, factory.GetPlayerCreature(name), list[i]));
          }
          return Ok(NeedsGap(list[i]));
        }
        i := i + 1;
      }
      return Ok(NotHowToSummon);
    }

    /**
     * The generic search: the first complete configured shape, which needs its
     * border; then a creature type chosen from it with one draw, which must be
     * valid. A shape with no creature types makes the validity check
     * dereference null.
     */
    method GenericRoute(world: World, loc: Location, id: int, name: string, u: real)
      returns (r: Result<Placement, Exception>, drew: bool)
      requires factory.Valid()
      ensures GenericRouted(world, loc, id, name, u, r)
      ensures drew <==> r.Err? || r.value.Summon? || r.value.InvalidType?
      ensures r.Ok? && r.value.Summon? ==> r.value.shape.Valid()
    {
      var shape := factory.GetCreatureShapeAt(world, loc, id);
      drew := false;
      if shape.None? {
        return Ok(NoShape), drew;
      }
      if !hasBorder(shape.value, loc) {
        return Ok(NeedsGap(shape.value)), drew;
      }
      drew := true;
      var creatureType := shape.value.ChooseCreatureType(u);
      if creatureType.None? {
        return Err(NullPointer), drew;
      }
      if !factory.IsValidCreatureType(creatureType.value) {
        return Ok(InvalidType(creatureType.value, shape.value)), drew;
      }
      return Ok(Summon(name, creatureType, shape.value)), drew;
    }

    /**
     * doDoppelganger: cancel the placement, take one trigger item from the
     * player's hand (emptying it when it held the last one), vaporise the
     * shape, spawn the creature at the ground location with the given name
     * and, when it is a Creature, make it target the player. A spawn that
     * throws leaves the earlier effects in place.
     */
    method DoDoppelganger(world: World, event: BlockPlaceEvent, name: string, creatureType: Option<string>,
                          shape: Shapes.CreatureShape, server: Server, rng: Rng, fuel: nat)
      returns (w: World, r: Result<LivingEntity, Exception>)
      requires factory.Settled() && shape.Valid() && rng.Valid()
      modifies event, server, rng
      ensures event.cancelled
      ensures event.hand == if event.itemInHand.amount > 1
        then Some(event.itemInHand.(amount := event.itemInHand.amount - 1)) else None
      ensures forall p :: BlockAt(w, p) == if shape.InBody(event.block, p, |shape.offsets|) then AIR else BlockAt(world, p)
      ensures creatureType.None? ==> r == Err(NullPointer)
      ensures r.Ok? ==> fresh(r.value) && r.value.location == GroundLocation(event.block, shape.groundOffset)
      ensures r.Ok? && name != "" ==> r.value.attrs.customName == Some(name)
      ensures r.Ok? && r.value.entityType.creature ==> r.value.target == Some(event.player)
    {
      event.cancelled := true;
      var placed := event.itemInHand;
      if placed.amount > 1 {
        event.hand := Some(placed.(amount := placed.amount - 1));
      } else {
        event.hand := None;
      }
      w := shape.Vaporise(world, event.block);
      var ground := GroundLocation(event.block, shape.groundOffset);
      r := SpawnTargeting(server, rng, creatureType, ground, name, event.player, fuel);
    }

    /** The spawn at the end of doDoppelganger: named, and targeting the player when it is a Creature. */
    method SpawnTargeting(server: Server, rng: Rng, creatureType: Option<string>, ground: Location, name: string,
                          player: string, fuel: nat)
      returns (r: Result<LivingEntity, Exception>)
      requires factory.Settled() && rng.Valid()
      modifies server, rng
      ensures creatureType.None? ==> r == Err(NullPointer)
      ensures r.Ok? ==> fresh(r.value) && r.value.location == ground
      ensures r.Ok? && name != "" ==> r.value.attrs.customName == Some(name)
      ensures r.Ok? && r.value.entityType.creature ==> r.value.target == Some(player)
    {
      r := factory.SpawnCreature(server, rng, creatureType, ground, Some(name), fuel);
      if r.Ok? && r.value.entityType.creature {
        r.value.target := Some(player);
      }
    }

    /**
     * onBlockPlace: the route, then the summon it leads to, with what the
     * spawn gave or threw. A route other than a summon changes neither the
     * world nor the event.
     */
    method OnBlockPlace(world: World, event: BlockPlaceEvent, server: Server, rng: Rng, fuel: nat)
      returns (route: Result<Placement, Exception>, w: World, spawned: Option<Result<LivingEntity, Exception>>)
      requires factory.Valid() && factory.Settled() && rng.Valid()
      modifies event, server, rng
      ensures spawned.Some? <==> route.Ok? && route.value.Summon?
      ensures spawned.None? ==> w == world && unchanged(event)
      ensures spawned.Some? ==> event.cancelled
      ensures spawned.Some? && spawned.value.Ok? ==>
        fresh(spawned.value.value) && spawned.value.value.location == GroundLocation(event.block, route.value.shape.groundOffset)
    {
      var drew;
      route, drew := Route(world, event, rng.stream(rng.next));
      if drew {
        var _ := rng.Random();
      }
      w, spawned := world, None;
      if route.Ok? && route.value.Summon? {
        var summon := route.value;
        var s;
        w, s := DoDoppelganger(world, event, summon.name, summon.creatureType, summon.shape, server, rng, fuel);
        spawned := Some(s);
      }
    }
  }
}
