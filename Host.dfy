/**
 * The parts of the game server that the plugin talks to, reduced to what the
 * plugin reads and writes: a world of block type ids, items, living entities
 * with their equipment and attributes, the effects and scheduled tasks the
 * plugin asks for, a source of uniform random draws, and the server's name
 * tables (materials, entity types, sounds, potion types) as opaque functions.
 */
module Host {
  import opened Wrappers
  import opened JavaLang
  import opened Volumes

  /** Integer block coordinates. */
  type Pos = (int, int, int)

  /** The block type id at each position; positions not in the map hold air (id 0). */
  type World = map<Pos, int>

  const AIR: int := 0

  function BlockAt(w: World, p: Pos): int
  {
    if p in w then w[p] else AIR
  }

  /** getBlockX/Y/Z: the block that holds a location. */
  function BlockOf(loc: Location): Pos
  {
    (loc.x.Floor, loc.y.Floor, loc.z.Floor)
  }

  function Offset(p: Pos, d: Pos): Pos
  {
    (p.0 + d.0, p.1 + d.1, p.2 + d.2)
  }

  /** The entity classes that the predefined variants tell apart. */
  datatype Kind = Skeleton | Pig | Zombie | PigZombie | Villager | OtherKind

  /** `instanceof Zombie`: a zombie pigman is a zombie too. */
  predicate IsZombie(k: Kind) { k == Zombie || k == PigZombie }

  datatype Profession = FARMER | LIBRARIAN | PRIEST | BLACKSMITH | BUTCHER

  /** The variant attributes of an entity: its class and the flags that refine it. */
  datatype Traits = Traits(kind: Kind, wither: bool, saddled: bool, villagerZombie: bool, profession: Profession)

  /** An entity type as named by the server: its name and whether it is living and a Creature. */
  datatype EntityType = EntityType(name: string, living: bool, creature: bool, kind: Kind)

  /** The item metadata the plugin sets: display name, lore and the owner of a player head. */
  datatype ItemMeta = ItemMeta(displayName: Option<string>, lore: seq<string>, skullOwner: Option<string>)

  /** An item stack, compared by value as ItemStack.equals does. */
  datatype Item = Item(material: int, amount: int, durability: int, meta: ItemMeta)

  /** The five equipment slots. */
  datatype Slot = Helmet | Chestplate | Leggings | Boots | Hand

  /** One value per equipment slot. */
  datatype Gear<T> = Gear(helmet: T, chestplate: T, leggings: T, boots: T, hand: T)
  {
    function Get(s: Slot): T
    {
      match s
      case Helmet => helmet
      case Chestplate => chestplate
      case Leggings => leggings
      case Boots => boots
      case Hand => hand
    }

    function Set(s: Slot, v: T): (r: Gear<T>)
      ensures r.Get(s) == v
      ensures forall t :: t != s ==> r.Get(t) == Get(t)
    {
      match s
      case Helmet => this.(helmet := v)
      case Chestplate => this.(chestplate := v)
      case Leggings => this.(leggings := v)
      case Boots => this.(boots := v)
      case Hand => this.(hand := v)
    }
  }

  /** A potion effect: its type name, duration, amplifier and whether it is ambient. */
  datatype Potion = Potion(effect: string, duration: int, amplifier: int, ambient: bool)

  /** The attributes of a living entity that the plugin reads or sets. */
  datatype Attrs = Attrs(
    maxHealth: int,
    health: int,
    maximumAir: int,
    maxNoDamageTicks: int,
    noDamageTicks: int,
    lastDamage: int,
    removeWhenFarAway: bool,
    potions: seq<Potion>,
    equipment: Gear<Option<Item>>,
    dropChances: Gear<real>,
    customName: Option<string>,
    customNameVisible: bool,
    canPickupItems: bool)

  /** A living entity in the world. Its type and variant are fixed when it is spawned. */
  class LivingEntity {
    const entityType: EntityType
    const traits: Traits
    const location: Location
    var attrs: Attrs
    /** The entity riding this one. */
    var passenger: Option<LivingEntity>
    /** The player a Creature has been told to attack. */
    var target: Option<string>

    constructor (t: EntityType, tr: Traits, loc: Location, a: Attrs)
      ensures entityType == t && traits == tr && location == loc && attrs == a
      ensures passenger.None? && target.None?
    {
      entityType := t;
      traits := tr;
      location := loc;
      attrs := a;
      passenger := None;
      target := None;
    }
  }

  /** What the plugin asks of the world and the scheduler, in order. */
  datatype Effect =
    | SoundPlayed(at: Location, sound: string)
    | LightningEffect(at: Location)
    /** A lightning effect scheduled after the given number of ticks. */
    | StrikeScheduled(delay: int)
    /** An escort spawn scheduled after the given number of ticks. */
    | EscortScheduled(delay: int)

  /** The record of effects requested from the server. */
  class Server {
    var effects: seq<Effect>

    constructor ()
      ensures effects == []
    {
      effects := [];
    }
  }

  /** Math.random(): a stream of draws in [0, 1), consumed one at a time. */
  class Rng {
    const stream: nat -> real
    var next: nat

    ghost predicate Valid()
    {
      forall i: nat :: 0.0 <= stream(i) < 1.0
    }

    constructor (s: nat -> real)
      requires forall i: nat :: 0.0 <= s(i) < 1.0
      ensures Valid() && stream == s && next == 0
    {
      stream := s;
      next := 0;
    }

    method Random() returns (d: real)
      requires Valid()
      modifies this
      ensures d == stream(old(next)) && next == old(next) + 1
      ensures 0.0 <= d < 1.0
    {
      d := stream(next);
      next := next + 1;
    }
  }

  /** The server's name tables and item rules, which the plugin only queries. */
  datatype Tables = Tables(
    /** Material.matchMaterial: a material id for a name, if it names one. */
    matchMaterial: string -> Option<int>,
    /** Material.getMaterial: a material id for an exact upper-case name. */
    getMaterial: string -> Option<int>,
    /** Material.isBlock. */
    isBlock: int -> bool,
    /** The id of Material.PLAYER_HEAD. */
    playerHead: int,
    /** EntityType.fromName, by lower-case name (see EntityTypeNamed). */
    entityType: string -> Option<EntityType>,
    /** The entity type that World.spawn gives for an entity class. */
    entityOfKind: Kind -> EntityType,
    /** Sound.valueOf succeeds for the name. */
    isSound: string -> bool,
    /** PotionEffectType.getByName: the canonical type name, if any. */
    potionType: string -> Option<string>,
    /** The colour-code translation applied to item names and lore. */
    translate: string -> string,
    /** The variant of a freshly spawned entity of a type, before the plugin changes it. */
    freshTraits: EntityType -> Traits,
    /** The attributes of a freshly spawned entity of a type. */
    freshAttrs: EntityType -> Attrs)

  /** EntityType.fromName: the lookup ignores the case of the name. */
  function EntityTypeNamed(tables: Tables, name: string): Option<EntityType>
  {
    tables.entityType(Lower(name))
  }
}
