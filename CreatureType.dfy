/**
 * CreatureType: a named kind of creature to summon, defined in terms of a base
 * creature type, with overrides of the spawned entity's attributes (health,
 * air, invulnerability, despawning, potion effects, armour, weapon and drop
 * chances), a mount, a mask, a default name, lightning and sound effects on
 * spawning, and escorts of weighted random types.
 */
module Types {
  import opened Wrappers
  import opened JavaLang
  import opened Config
  import CM = ConfigMaps
  import opened Volumes
  import opened Host
  import opened Weighted

  /** How many strikes or escorts, how far away, and over how many ticks. */
  datatype Spread = Spread(minCount: int, maxCount: int, minRange: real, maxRange: real, duration: int)

  /** The clamps applied on loading: counts and ranges are ordered and non-negative. */
  predicate Normalised(s: Spread)
  {
    0 <= s.minCount <= s.maxCount && 0.0 <= s.minRange <= s.maxRange && 0 <= s.duration
  }

  /** Everything loadFromSection reads into the type apart from the potion and escort lists. */
  datatype Settings = Settings(
    mount: Option<string>,
    mask: Option<string>,
    defaultName: Option<string>,
    keepHelmet: Option<bool>,
    despawns: Option<bool>,
    health: Option<Int32>,
    air: Option<Int32>,
    invulnerableTicks: Option<Int32>,
    sound: Option<string>,
    lightning: Spread,
    gear: Gear<Option<Item>>,
    dropChances: Gear<Option<real>>,
    escorts: Spread)

  predicate SettingsValid(s: Settings)
  {
    (s.health.Some? ==> s.health.value >= 1) &&
    (s.air.Some? ==> s.air.value >= 0) &&
    (s.invulnerableTicks.Some? ==> s.invulnerableTicks.value >= 0) &&
    Normalised(s.lightning) && Normalised(s.escorts)
  }

  function MaxInt(a: int, b: int): int { if a >= b then a else b }

  /** The lightning settings, each bound clamped to the one before it. */
  function LightningSpread(sec: Section): (s: Spread)
    ensures Normalised(s)
    ensures s.minCount == MaxInt(0, GetInt(sec, ["lightning", "min"], 0))
    // The maximum is the configured one when that is not below the minimum, else the minimum.
    ensures var max := GetInt(sec, ["lightning", "max"], s.minCount);
      s.maxCount == if max >= s.minCount then max else s.minCount
    ensures s.minRange == Max(0.0, GetDouble(sec, ["lightning", "minrange"], 2.0))
    ensures var maxRange := GetDouble(sec, ["lightning", "maxrange"], 5.0);
      s.maxRange == if maxRange >= s.minRange then maxRange else s.minRange
    ensures s.duration == MaxInt(0, GetInt(sec, ["lightning", "duration"], 30))
  {
    var minStrikes := MaxInt(0, GetInt(sec, ["lightning", "min"], 0));
    var maxStrikes := MaxInt(minStrikes, GetInt(sec, ["lightning", "max"], minStrikes));
    var minRange := Max(0.0, GetDouble(sec, ["lightning", "minrange"], 2.0));
    var maxRange := Max(minRange, GetDouble(sec, ["lightning", "maxrange"], 5.0));
    Spread(minStrikes, maxStrikes, minRange, maxRange, MaxInt(0, GetInt(sec, ["lightning", "duration"], 30)))
  }

  /** The numeric part of loadEscorts; a type without an escorts section has none. */
  function EscortSpread(escorts: Option<Section>): (s: Spread)
    ensures Normalised(s)
    ensures escorts.None? ==> s == Spread(0, 0, 0.0, 0.0, 0)
    ensures escorts.Some? ==>
      var e := escorts.value;
      s.minCount == MaxInt(0, GetInt(e, ["min"], 0)) &&
      // An unset maximum count or range defaults to the minimum.
      (var max := GetInt(e, ["max"], s.minCount); s.maxCount == if max >= s.minCount then max else s.minCount) &&
      s.minRange == Max(0.0, GetDouble(e, ["minrange"], 1.0)) &&
      (var maxRange := GetDouble(e, ["maxrange"], s.minRange);
       s.maxRange == if maxRange >= s.minRange then maxRange else s.minRange) &&
      s.duration == MaxInt(0, GetInt(e, ["duration"], 30))
  {
    match escorts
    case None => Spread(0, 0, 0.0, 0.0, 0)
    case Some(e) =>
      var minEscorts := MaxInt(0, GetInt(e, ["min"], 0));
      var maxEscorts := MaxInt(minEscorts, GetInt(e, ["max"], minEscorts));
      var minRange := Max(0.0, GetDouble(e, ["minrange"], 1.0));
      var maxRange := Max(minRange, GetDouble(e, ["maxrange"], minRange));
      Spread(minEscorts, maxEscorts, minRange, maxRange, MaxInt(0, GetInt(e, ["duration"], 30)))
  }

  /** loadItem, without book pages and enchantments: no section or an unknown material gives no item. */
  function LoadItem(tables: Tables, section: Option<Section>): (r: Option<Item>)
    ensures section.None? ==> r.None?
    ensures section.Some? ==>
      var mat := tables.getMaterial(Upper(GetString(section.value, ["item"], Some("")).GetOr("")));
      (r.Some? <==> mat.Some?) &&
      var damage := GetInt(section.value, ["damage"], 0);
      (r.Some? ==> r.value.material == mat.value && r.value.amount == 1 && r.value.meta.skullOwner.None? &&
                   // The damage is clamped at 0, then narrowed to a short.
                   (0 <= damage < 0x8000 ==> r.value.durability == damage) &&
                   (damage < 0 ==> r.value.durability == 0) &&
                   // A damage beyond a short wraps around, as Java's (short) cast does.
                   (damage >= 0x8000 ==> r.value.durability == ToShort(damage) &&
                                         (r.value.durability - damage) % 0x1_0000 == 0))
  {
    match section
    case None => None
    case Some(sec) =>
      match tables.getMaterial(Upper(GetString(sec, ["item"], Some("")).GetOr("")))
      case None => None
      case Some(material) =>
        var damage := MaxInt(0, GetInt(sec, ["damage"], 0));
        var name := GetString(sec, ["name"], None);
        var lore := GetStringList(sec, ["lore"]);
        var displayName := if name.Some? then Some(tables.translate(name.value)) else None;
        Some(Item(material, 1, ToShort(damage), ItemMeta(displayName, TranslateAll(tables, lore), None)))
  }

  function TranslateAll(tables: Tables, lines: seq<string>): (r: seq<string>)
    ensures |r| == |lines| && forall i :: 0 <= i < |lines| ==> r[i] == tables.translate(lines[i])
  {
    seq(|lines|, i requires 0 <= i < |lines| => tables.translate(lines[i]))
  }

  /** The configuration key of each equipment slot; the hand is the "weapon". */
  function SlotKey(s: Slot): string
  {
    match s
    case Helmet => "helmet"
    case Chestplate => "chestplate"
    case Leggings => "leggings"
    case Boots => "boots"
    case Hand => "weapon"
  }

  /** A drop chance is overridden only where "<slot>.dropchance" is set. */
  function DropChance(sec: Section, s: Slot): (r: Option<real>)
    ensures r.Some? <==> IsSet(sec, [SlotKey(s), "dropchance"])
  {
    if IsSet(sec, [SlotKey(s), "dropchance"]) then Some(GetDouble(sec, [SlotKey(s), "dropchance"], 0.0)) else None
  }

  /** The armour and weapon: the item loaded from each slot's section. */
  function LoadGear(tables: Tables, sec: Section): (g: Gear<Option<Item>>)
    ensures forall slot :: g.Get(slot) == ItemAt(tables, sec, slot)
    // A slot without its own section is left as the creature spawned it.
    ensures forall slot :: GetSection(sec, [SlotKey(slot)]).None? ==> g.Get(slot).None?
  {
    Gear(ItemAt(tables, sec, Helmet), ItemAt(tables, sec, Chestplate), ItemAt(tables, sec, Leggings),
         ItemAt(tables, sec, Boots), ItemAt(tables, sec, Hand))
  }

  /** The item configured in a slot's own section. */
  function ItemAt(tables: Tables, sec: Section, slot: Slot): (r: Option<Item>)
    ensures r.Some? ==> GetSection(sec, [SlotKey(slot)]).Some?
    ensures r.Some? ==> r.value.amount == 1 && r.value.meta.skullOwner.None?
  {
    LoadItem(tables, GetSection(sec, [SlotKey(slot)]))
  }

  /** The drop chances of all slots. */
  function DropChances(sec: Section): (g: Gear<Option<real>>)
    ensures forall slot :: g.Get(slot).Some? <==> IsSet(sec, [SlotKey(slot), "dropchance"])
  {
    Gear(DropChance(sec, Helmet), DropChance(sec, Chestplate), DropChance(sec, Leggings),
         DropChance(sec, Boots), DropChance(sec, Hand))
  }

  /** A sound name is kept, upper-cased, only if the server knows it. */
  function SoundOf(tables: Tables, name: Option<string>): (r: Option<string>)
    ensures r.Some? ==> tables.isSound(r.value) && name.Some? && r.value == Upper(name.value)
    ensures name.Some? && name.value != "" && tables.isSound(Upper(name.value)) ==> r.Some?
  {
    if name.Some? && |name.value| != 0 && tables.isSound(Upper(name.value)) then Some(Upper(name.value)) else None
  }

  /** `Math.max(lo, getInt(key, def))` when the key is set; nothing otherwise. */
  function AtLeast(sec: Section, key: string, lo: Int32, def: Int32): (r: Option<Int32>)
    ensures r.Some? <==> IsSet(sec, [key])
    ensures r.Some? ==> r.value >= lo
    // A configured value already in range is taken as written.
    ensures r.Some? && GetInt(sec, [key], def) >= lo ==> r.value == GetInt(sec, [key], def)
  {
    if IsSet(sec, [key]) then Some(MaxInt(lo, GetInt(sec, [key], def))) else None
  }

  /** The straight-line part of loadFromSection: optional overrides, clamped counts, items. */
  function LoadSettings(tables: Tables, sec: Section): (s: Settings)
    ensures SettingsValid(s)
    ensures s.health.Some? <==> IsSet(sec, ["health"])
    ensures s.air.Some? <==> IsSet(sec, ["air"])
    ensures s.invulnerableTicks.Some? <==> IsSet(sec, ["invulnerableticks"])
    ensures s.keepHelmet.Some? <==> IsSet(sec, ["keephelmet"])
    ensures s.despawns.Some? <==> IsSet(sec, ["despawns"])
    ensures s.gear == LoadGear(tables, sec) && s.dropChances == DropChances(sec)
  {
    var escorts := if IsSection(sec, ["escorts"]) then GetSection(sec, ["escorts"]) else None;
    Settings(
      GetString(sec, ["mount"], None),
      GetString(sec, ["mask"], None),
      GetString(sec, ["defaultname"], None),
      if IsSet(sec, ["keephelmet"]) then Some(GetBool(sec, ["keephelmet"], false)) else None,
      if IsSet(sec, ["despawns"]) then Some(GetBool(sec, ["despawns"], false)) else None,
      AtLeast(sec, "health", 1, 20),
      AtLeast(sec, "air", 0, 0),
      AtLeast(sec, "invulnerableticks", 0, 0),
      SoundOf(tables, GetString(sec, ["sound"], None)),
      LightningSpread(sec),
      LoadGear(tables, sec),
      DropChances(sec),
      EscortSpread(escorts))
  }

  /** A configured health, air or invulnerability that is already in range is taken as written. */
  lemma InRangeValuesKept(tables: Tables, sec: Section)
    ensures IsSet(sec, ["health"]) && GetInt(sec, ["health"], 20) >= 1 ==>
      LoadSettings(tables, sec).health == Some(GetInt(sec, ["health"], 20))
    ensures IsSet(sec, ["air"]) && GetInt(sec, ["air"], 0) >= 0 ==>
      LoadSettings(tables, sec).air == Some(GetInt(sec, ["air"], 0))
    ensures IsSet(sec, ["invulnerableticks"]) && GetInt(sec, ["invulnerableticks"], 0) >= 0 ==>
      LoadSettings(tables, sec).invulnerableTicks == Some(GetInt(sec, ["invulnerableticks"], 0))
  {
  }

  // ---------------------------------------------------------------------------
  // Potion effects

  predicate HasType(ps: seq<Potion>, effect: string)
  {
    exists i :: 0 <= i < |ps| && ps[i].effect == effect
  }

  /** LivingEntity.addPotionEffect without force: an effect of a type already present is refused. */
  function AddPotion(current: seq<Potion>, p: Potion): (r: seq<Potion>)
    ensures HasType(current, p.effect) ==> r == current
    ensures !HasType(current, p.effect) ==> r == current + [p]
  {
    if HasType(current, p.effect) then current else current + [p]
  }

  /** addPotionEffects: each effect in turn. */
  function AddPotions(current: seq<Potion>, ps: seq<Potion>): seq<Potion>
    decreases |ps|
  {
    if |ps| == 0 then current else AddPotions(AddPotion(current, ps[0]), ps[1..])
  }

  /** Adding keeps what was there, adds only effects from the list, and leaves every listed type present. */
  lemma {:induction false} AddPotionsSpec(current: seq<Potion>, ps: seq<Potion>)
    ensures current <= AddPotions(current, ps)
    ensures forall q :: q in AddPotions(current, ps) ==> q in current || q in ps
    ensures forall i :: 0 <= i < |ps| ==> HasType(AddPotions(current, ps), ps[i].effect)
    decreases |ps|
  {
    if |ps| > 0 {
      var next := AddPotion(current, ps[0]);
      AddPotionsSpec(next, ps[1..]);
      var r := AddPotions(current, ps);
      assert HasType(next, ps[0].effect) by {
        if !HasType(current, ps[0].effect) {
          assert next[|current|] == ps[0];
        }
      }
      forall i | 0 <= i < |ps| ensures HasType(r, ps[i].effect) {
        if i == 0 {
          var k :| 0 <= k < |next| && next[k].effect == ps[0].effect;
          assert r[k] == next[k];
        } else {
          assert ps[i] == ps[1..][i - 1];
        }
      }
      forall q | q in r ensures q in current || q in ps {
        if q in ps[1..] {
          assert q in ps;
        }
      }
    }
  }

  /** When every listed type is already present, adding the list changes nothing. */
  lemma {:induction false} AddPresentPotions(current: seq<Potion>, ps: seq<Potion>)
    requires forall i :: 0 <= i < |ps| ==> HasType(current, ps[i].effect)
    ensures AddPotions(current, ps) == current
    decreases |ps|
  {
    if |ps| > 0 {
      assert HasType(current, ps[0].effect);
      forall i | 0 <= i < |ps[1..]| ensures HasType(current, ps[1..][i].effect) {
        assert ps[1..][i] == ps[i + 1];
      }
      AddPresentPotions(current, ps[1..]);
    }
  }

  /** No two effects of one type. */
  predicate DistinctTypes(ps: seq<Potion>)
  {
    forall i, j :: 0 <= i < j < |ps| ==> ps[i].effect != ps[j].effect
  }

  /** An entity never ends up with two effects of one type. */
  lemma {:induction false} AddPotionsDistinct(current: seq<Potion>, ps: seq<Potion>)
    requires DistinctTypes(current)
    ensures DistinctTypes(AddPotions(current, ps))
    decreases |ps|
  {
    if |ps| > 0 {
      var next := AddPotion(current, ps[0]);
      if !HasType(current, ps[0].effect) {
        forall i, j | 0 <= i < j < |next| ensures next[i].effect != next[j].effect {
          if j == |current| {
            assert next[i] == current[i];
          } else {
            assert next[i] == current[i] && next[j] == current[j];
          }
        }
      }
      AddPotionsDistinct(next, ps[1..]);
    }
  }

  /** One potion list entry as loadPotions reads it; None when it is skipped or its reading throws. */
  function PotionStep(tables: Tables, m: CM.ConfigMap): (r: Option<Potion>)
    ensures r.Some? ==> exists n :: tables.potionType(n) == Some(r.value.effect)
  {
    match CM.GetString(m, "type", None)
    case Err(_) => None
    case Ok(None) => None
    case Ok(Some(typeName)) =>
      match tables.potionType(typeName)
      case None => None
      case Some(effect) =>
        match CM.GetInteger(m, "duration", Some(INT_MAX))
        case Err(_) => None
        case Ok(duration) =>
          match CM.GetInteger(m, "amplifier", Some(1))
          case Err(_) => None
          case Ok(amplifier) =>
            match CM.GetBoolean(m, "ambient", Some(true))
            case Err(_) => None
            case Ok(ambient) =>
              Some(Potion(effect, duration.GetOr(INT_MAX), amplifier.GetOr(1), ambient.GetOr(true)))
  }

  /** The effects loaded from a potion list: every entry that reads cleanly, in order. */
  function PotionsLoaded(tables: Tables, entries: seq<seq<(string, Value)>>, context: string): (r: seq<Potion>)
    ensures |r| <= |entries|
  {
    if |entries| == 0 then []
    else
      var rest := PotionsLoaded(tables, entries[1..], context);
      match PotionStep(tables, CM.ConfigMap(entries[0], context))
      case None => rest
      case Some(p) => [p] + rest
  }

  /** One escort summon entry: Err when reading it throws, None when it is skipped as invalid. */
  function EscortStep(m: CM.ConfigMap): (r: Result<Option<(string, real)>, Exception>)
    ensures r.Ok? && r.value.Some? ==> r.value.value.0 != "" && r.value.value.1 > 0.0
  {
    match CM.GetDouble(m, "weight", Some(1.0))
    case Err(e) => Err(e)
    case Ok(w) =>
      match CM.GetString(m, "spawn", None)
      case Err(e) => Err(e)
      case Ok(spawn) =>
        var weight := w.GetOr(1.0);
        if spawn.None? || |spawn.value| == 0 || weight <= 0.0 then Ok(None)
        else Ok(Some((spawn.value, weight)))
  }

  /** The escort choices added, in order, up to the first entry whose reading throws. */
  function EscortsLoaded(entries: seq<seq<(string, Value)>>, context: string): (r: seq<(string, real)>)
    ensures forall i :: 0 <= i < |r| ==> r[i].0 != "" && r[i].1 > 0.0
  {
    if |entries| == 0 then []
    else
      match EscortStep(CM.ConfigMap(entries[0], context))
      case Err(_) => []
      case Ok(None) => EscortsLoaded(entries[1..], context)
      case Ok(Some(c)) => [c] + EscortsLoaded(entries[1..], context)
  }

  // ---------------------------------------------------------------------------
  // Random counts and delays

  /** A uniform draw d in [0, 1) scaled by k >= 0 and rounded lies in [0, k]. */
  lemma ScaledRoundBounds(d: real, k: int)
    ensures 0.0 <= d < 1.0 && k >= 0 ==> 0 <= Round(d * k as real) <= k
  {
    if 0.0 <= d < 1.0 && k >= 0 {
      var x := d * k as real;
      assert 0.0 <= x by {
        MulNonNegative(d, k as real);
      }
      assert x <= k as real by {
        MulNonNegative(1.0 - d, k as real);
        assert k as real - x == (1.0 - d) * k as real;
      }
    }
  }

  lemma MulNonNegative(a: real, b: real)
    requires 0.0 <= a && 0.0 <= b
    ensures 0.0 <= a * b
  {
  }

  /** `min + (int) Math.round(d * (max - min))`: the number of strikes or escorts. */
  function Count(s: Spread, d: real): (n: int)
    ensures Normalised(s) && 0.0 <= d < 1.0 ==> s.minCount <= n <= s.maxCount
  {
    ScaledRoundBounds(d, s.maxCount - s.minCount);
    s.minCount + Round(d * (s.maxCount - s.minCount) as real)
  }

  /** `Math.round(d * maxDelay)`: the delay in ticks of a scheduled strike or escort. */
  function Delay(d: real, maxDelay: int): (t: int)
    ensures 0.0 <= d < 1.0 && maxDelay >= 0 ==> 0 <= t <= maxDelay
  {
    ScaledRoundBounds(d, maxDelay);
    Round(d * maxDelay as real)
  }

  /** The strikes scheduled with draws taken from `start` on, three draws each (delay, range, angle). */
  function Strikes(stream: nat -> real, start: nat, count: nat, maxDelay: int): (r: seq<Effect>)
    requires forall i: nat :: 0.0 <= stream(i) < 1.0
    requires maxDelay >= 0
    ensures |r| == count
    ensures forall k :: 0 <= k < count ==> r[k].StrikeScheduled? && 0 <= r[k].delay <= maxDelay
  {
    seq(count, k requires 0 <= k < count => StrikeScheduled(Delay(stream(start + 3 * k), maxDelay)))
  }

  /** The escorts scheduled with draws taken from `start` on, three draws each (delay, range, angle). */
  function Escorts(stream: nat -> real, start: nat, count: nat, maxDelay: int): (r: seq<Effect>)
    requires forall i: nat :: 0.0 <= stream(i) < 1.0
    requires maxDelay >= 0
    ensures |r| == count
    ensures forall k :: 0 <= k < count ==> r[k].EscortScheduled? && 0 <= r[k].delay <= maxDelay
  {
    seq(count, k requires 0 <= k < count => EscortScheduled(Delay(stream(start + 3 * k), maxDelay)))
  }

  /**
   * scheduleRandomStrike: a delay drawn up to maxDelay, then the two draws of
   * randomLocation (its angle and distance are not modelled).
   */
  method ScheduleRandomStrike(server: Server, rng: Rng, maxDelay: int)
    requires rng.Valid() && maxDelay >= 0
    modifies server, rng
    ensures rng.next == old(rng.next) + 3
    ensures server.effects == old(server.effects) + Strikes(rng.stream, old(rng.next), 1, maxDelay)
  {
    var d := rng.Random();
    var range := rng.Random();
    var angle := rng.Random();
    server.effects := server.effects + [StrikeScheduled(Delay(d, maxDelay))];
  }

  // ---------------------------------------------------------------------------
  // Customising a spawned entity

  function OverlayItems(base: Gear<Option<Item>>, over: Gear<Option<Item>>): (r: Gear<Option<Item>>)
    ensures forall s :: r.Get(s) == if over.Get(s).Some? then over.Get(s) else base.Get(s)
  {
    Gear(
      if over.helmet.Some? then over.helmet else base.helmet,
      if over.chestplate.Some? then over.chestplate else base.chestplate,
      if over.leggings.Some? then over.leggings else base.leggings,
      if over.boots.Some? then over.boots else base.boots,
      if over.hand.Some? then over.hand else base.hand)
  }

  function OverlayChances(base: Gear<real>, over: Gear<Option<real>>): (r: Gear<real>)
    ensures forall s :: r.Get(s) == if over.Get(s).Some? then over.Get(s).value else base.Get(s)
  {
    Gear(
      over.helmet.GetOr(base.helmet),
      over.chestplate.GetOr(base.chestplate),
      over.leggings.GetOr(base.leggings),
      over.boots.GetOr(base.boots),
      over.hand.GetOr(base.hand))
  }

  /** The attributes of an entity after customise: each configured override applied, the rest as they were. */
  function Customised(s: Settings, potions: seq<Potion>, a: Attrs): (r: Attrs)
    ensures s.health.Some? ==> r.maxHealth == s.health.value && r.health == s.health.value
    ensures s.health.None? ==> r.maxHealth == a.maxHealth && r.health == a.health
    ensures r.maximumAir == if s.air.Some? then s.air.value else a.maximumAir
    ensures s.invulnerableTicks.Some? ==>
      r.maxNoDamageTicks == Wrap32(2 * s.invulnerableTicks.value) &&
      r.noDamageTicks == Wrap32(2 * s.invulnerableTicks.value) && r.lastDamage == INT_MAX
    ensures s.invulnerableTicks.None? ==>
      r.maxNoDamageTicks == a.maxNoDamageTicks && r.noDamageTicks == a.noDamageTicks && r.lastDamage == a.lastDamage
    ensures r.removeWhenFarAway == if s.despawns.Some? then s.despawns.value else a.removeWhenFarAway
    ensures r.potions == AddPotions(a.potions, potions)
    ensures forall slot :: r.equipment.Get(slot) == if s.gear.Get(slot).Some? then s.gear.Get(slot) else a.equipment.Get(slot)
    ensures forall slot :: r.dropChances.Get(slot) == s.dropChances.Get(slot).GetOr(a.dropChances.Get(slot))
    ensures r.customName == a.customName && r.customNameVisible == a.customNameVisible
    ensures r.canPickupItems == a.canPickupItems
  {
    var a1 := if s.health.Some? then a.(maxHealth := s.health.value, health := s.health.value) else a;
    var a2 := if s.air.Some? then a1.(maximumAir := s.air.value) else a1;
    var a3 := if s.invulnerableTicks.Some? then
                var ticks := Wrap32(2 * s.invulnerableTicks.value);
                a2.(maxNoDamageTicks := ticks, noDamageTicks := ticks, lastDamage := INT_MAX)
              else a2;
    var a4 := if s.despawns.Some? then a3.(removeWhenFarAway := s.despawns.value) else a3;
    a4.(potions := AddPotions(a4.potions, potions),
        equipment := OverlayItems(a4.equipment, s.gear),
        dropChances := OverlayChances(a4.dropChances, s.dropChances))
  }

  /** Customising an entity a second time changes nothing more. */
  lemma CustomiseIdempotent(s: Settings, potions: seq<Potion>, a: Attrs)
    ensures Customised(s, potions, Customised(s, potions, a)) == Customised(s, potions, a)
  {
    var once := Customised(s, potions, a);
    AddPotionsSpec(a.potions, potions);
    AddPresentPotions(once.potions, potions);
    var twice := Customised(s, potions, once);
    assert twice.equipment == once.equipment by {
      assert forall slot :: twice.equipment.Get(slot) == once.equipment.Get(slot);
      GearExtensional(twice.equipment, once.equipment);
    }
    assert twice.dropChances == once.dropChances by {
      assert forall slot :: twice.dropChances.Get(slot) == once.dropChances.Get(slot);
      GearExtensional(twice.dropChances, once.dropChances);
    }
  }

  /** Two gear values that agree on every slot are equal. */
  lemma GearExtensional<T>(g: Gear<T>, h: Gear<T>)
    requires forall slot :: g.Get(slot) == h.Get(slot)
    ensures g == h
  {
    assert g.Get(Helmet) == h.Get(Helmet) && g.Get(Chestplate) == h.Get(Chestplate);
    assert g.Get(Leggings) == h.Get(Leggings) && g.Get(Boots) == h.Get(Boots) && g.Get(Hand) == h.Get(Hand);
  }

  /** A type that overrides nothing leaves the entity exactly as it was. */
  lemma NoOverridesNoChange(s: Settings, a: Attrs)
    requires s.health.None? && s.air.None? && s.invulnerableTicks.None? && s.despawns.None?
    requires forall slot :: s.gear.Get(slot).None? && s.dropChances.Get(slot).None?
    ensures Customised(s, [], a) == a
  {
    var r := Customised(s, [], a);
    GearExtensional(r.equipment, a.equipment);
    GearExtensional(r.dropChances, a.dropChances);
  }

  // ---------------------------------------------------------------------------

  class CreatureType {
    /** The unique name of this type. */
    const name: string
    /** The type it is based on: a custom type, a predefined variant or an entity type. */
    const creatureType: string
    const settings: Settings
    /** Potion effects to apply on spawning, in configuration order. */
    var potions: seq<Potion>
    /** The weighted choice of escort types. */
    const escortTypes: WeightedSelection<string>

    ghost predicate Valid()
      reads this, escortTypes
    {
      SettingsValid(settings) && escortTypes.Valid()
    }

    constructor (name: string, creatureType: string, settings: Settings)
      requires SettingsValid(settings)
      ensures Valid() && fresh(escortTypes)
      ensures this.name == name && this.creatureType == creatureType && this.settings == settings
      ensures potions == [] && escortTypes.added == []
    {
      this.name := name;
      this.creatureType := creatureType;
      this.settings := settings;
      potions := [];
      escortTypes := new WeightedSelection<string>();
    }

    /** getKeepHelmet: an unset flag counts as false. */
    function KeepHelmet(): (b: bool)
      ensures b <==> settings.keepHelmet == Some(true)
    {
      settings.keepHelmet.Some? && settings.keepHelmet.value
    }

    /** loadPotions: each entry that reads cleanly is appended; any other is skipped on its own. */
    method LoadPotions(tables: Tables, entries: seq<seq<(string, Value)>>)
      modifies this
      ensures potions == old(potions) + PotionsLoaded(tables, entries, name)
    {
      var i := 0;
      while i < |entries|
        invariant 0 <= i <= |entries|
        invariant old(potions) + PotionsLoaded(tables, entries, name) == potions + PotionsLoaded(tables, entries[i..], name)
      {
        assert entries[i..][1..] == entries[i + 1..];
        var p := PotionStep(tables, CM.ConfigMap(entries[i], name));
        if p.Some? {
          potions := potions + [p.value];
        }
        i := i + 1;
      }
      assert entries[i..] == [];
    }

    /** The summon loop of loadEscorts: valid entries are added; the first entry that throws ends the list. */
    method LoadEscortTypes(summons: seq<seq<(string, Value)>>)
      requires Valid()
      modifies escortTypes
      ensures Valid() && escortTypes.added == old(escortTypes.added) + EscortsLoaded(summons, "escorts")
    {
      var i := 0;
      while i < |summons|
        invariant 0 <= i <= |summons| && Valid()
        invariant old(escortTypes.added) + EscortsLoaded(summons, "escorts") ==
          escortTypes.added + EscortsLoaded(summons[i..], "escorts")
      {
        assert summons[i..][1..] == summons[i + 1..];
        var step := EscortStep(CM.ConfigMap(summons[i], "escorts"));
        if step.Err? {
          return;
        }
        if step.value.Some? {
          escortTypes.AddChoice(step.value.value.0, step.value.value.1);
        }
        i := i + 1;
      }
      assert summons[i..] == [];
    }

    /**
     * doSpawnEffects: the spawn sound, then a strike count drawn between the
     * bounds; the first strike is immediate and the rest are scheduled.
     */
    method DoSpawnEffects(server: Server, rng: Rng, loc: Location)
      requires SettingsValid(settings) && rng.Valid()
      modifies server, rng
      ensures
        var n := Count(settings.lightning, rng.stream(old(rng.next)));
        var sound := if settings.sound.Some? then [SoundPlayed(loc, settings.sound.value)] else [];
        settings.lightning.minCount <= n <= settings.lightning.maxCount &&
        (n > 0 ==>
          rng.next == old(rng.next) + 1 + 3 * (n - 1) &&
          server.effects == old(server.effects) + sound + [LightningEffect(loc)] +
            Strikes(rng.stream, old(rng.next) + 1, n - 1, settings.lightning.duration)) &&
        (n <= 0 ==> rng.next == old(rng.next) + 1 && server.effects == old(server.effects) + sound)
    {
      if settings.sound.Some? {
        server.effects := server.effects + [SoundPlayed(loc, settings.sound.value)];
      }
      var d := rng.Random();
      var strikes := Count(settings.lightning, d);
      if strikes > 0 {
        server.effects := server.effects + [LightningEffect(loc)];
        ScheduleStrikes(server, rng, strikes - 1, settings.lightning.duration);
      }
    }

    /** The loop of doSpawnEffects after the first strike: count strikes scheduled at random. */
    static method ScheduleStrikes(server: Server, rng: Rng, count: nat, maxDelay: int)
      requires rng.Valid() && maxDelay >= 0
      modifies server, rng
      ensures rng.next == old(rng.next) + 3 * count
      ensures server.effects == old(server.effects) + Strikes(rng.stream, old(rng.next), count, maxDelay)
    {
      var i := 0;
      while i < count
        invariant 0 <= i <= count
        invariant rng.next == old(rng.next) + 3 * i
        invariant server.effects == old(server.effects) + Strikes(rng.stream, old(rng.next), i, maxDelay)
      {
        ScheduleRandomStrike(server, rng, maxDelay);
        assert Strikes(rng.stream, old(rng.next), i + 1, maxDelay) ==
          Strikes(rng.stream, old(rng.next), i, maxDelay) + Strikes(rng.stream, old(rng.next) + 3 * i, 1, maxDelay);
        i := i + 1;
      }
    }

    /**
     * spawnEscorts: an escort count drawn between the bounds, each escort
     * scheduled after a random delay (its type is chosen when the task runs).
     */
    method SpawnEscorts(server: Server, rng: Rng)
      requires SettingsValid(settings) && rng.Valid()
      modifies server, rng
      ensures
        var n := Count(settings.escorts, rng.stream(old(rng.next)));
        settings.escorts.minCount <= n <= settings.escorts.maxCount &&
        rng.next == old(rng.next) + 1 + 3 * n &&
        server.effects == old(server.effects) + Escorts(rng.stream, old(rng.next) + 1, n, settings.escorts.duration)
    {
      ghost var start := rng.next;
      var d := rng.Random();
      var escorts := Count(settings.escorts, d);
      ghost var before := server.effects;
      var i := 0;
      while i < escorts
        invariant 0 <= i <= escorts
        invariant rng.next == start + 1 + 3 * i
        invariant server.effects == before + Escorts(rng.stream, start + 1, i, settings.escorts.duration)
      {
        var delay := rng.Random();
        var range := rng.Random();
        var angle := rng.Random();
        server.effects := server.effects + [EscortScheduled(Delay(delay, settings.escorts.duration))];
        assert Escorts(rng.stream, start + 1, i + 1, settings.escorts.duration) ==
          Escorts(rng.stream, start + 1, i, settings.escorts.duration) + [EscortScheduled(Delay(delay, settings.escorts.duration))];
        i := i + 1;
      }
    }

    /** customise: the entity takes this type's overrides. */
    method Customise(e: LivingEntity)
      modifies e
      ensures e.attrs == Customised(settings, potions, old(e.attrs))
      ensures e.passenger == old(e.passenger) && e.target == old(e.target)
    {
      e.attrs := Customised(settings, potions, e.attrs);
    }
  }

  /**
   * loadFromSection. A missing section throws NullPointerException; a missing
   * or empty "spawn" gives no type. Potions load only from a list and escort
   * choices only from an "escorts" section.
   */
  method LoadFromSection(tables: Tables, section: Option<Section>) returns (r: Result<Option<CreatureType>, Exception>)
    ensures section.None? <==> r.Err?
    ensures r.Err? ==> r.error == NullPointer
    ensures r.Ok? ==> (r.value.None? <==> GetString(section.value, ["spawn"], None).GetOr("") == "")
    ensures r.Ok? && r.value.Some? ==>
      var sec := section.value;
      var t := r.value.value;
      fresh(t) && fresh(t.escortTypes) && t.Valid() &&
      t.name == sec.name && t.creatureType == GetString(sec, ["spawn"], None).value && t.creatureType != "" &&
      t.settings == LoadSettings(tables, sec) &&
      t.potions == (if IsList(sec, ["potions"]) then PotionsLoaded(tables, GetMapList(sec, ["potions"]), sec.name) else []) &&
      t.escortTypes.added ==
        (if IsSection(sec, ["escorts"]) then EscortsLoaded(GetMapList(GetSection(sec, ["escorts"]).value, ["summon"]), "escorts") else [])
  {
    if section.None? {
      return Err(NullPointer);
    }
    var sec := section.value;
    var spawn := GetString(sec, ["spawn"], None);
    if spawn.None? || |spawn.value| == 0 {
      return Ok(None);
    }
    var t := new CreatureType(sec.name, spawn.value, LoadSettings(tables, sec));
    if IsList(sec, ["potions"]) {
      t.LoadPotions(tables, GetMapList(sec, ["potions"]));
    }
    if IsSection(sec, ["escorts"]) {
      var escorts := GetSection(sec, ["escorts"]).value;
      if IsList(escorts, ["summon"]) {
        t.LoadEscortTypes(GetMapList(escorts, ["summon"]));
      } else {
        assert GetMapList(escorts, ["summon"]) == [];
      }
    }
    return Ok(Some(t));
  }
}
