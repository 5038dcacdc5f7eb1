/**
 * CreatureFactory: the loaded shapes, custom creature types and player
 * doppelgangers, keyed by lower-cased name, and the spawning of a creature of
 * any valid type: a custom type (spawned as its base type and customised,
 * possibly riding a mount), a predefined variant or a living entity type.
 */
module Factory {
  import opened Wrappers
  import opened JavaLang
  import opened Config
  import opened Volumes
  import opened Host
  import opened Predefined
  import Shapes
  import Types
  import Weighted

  /** isValidCreatureType for a given set of custom type keys. */
  predicate ValidIn(tables: Tables, keys: set<string>, name: string)
  {
    Lower(name) in keys || FromName(name).Some? ||
    (EntityTypeNamed(tables, name).Some? && EntityTypeNamed(tables, name).value.living)
  }

  /** Validity depends on the name only through its lower-case form. */
  lemma ValidInIgnoresCase(tables: Tables, keys: set<string>, n: string, m: string)
    requires Lower(n) == Lower(m)
    ensures ValidIn(tables, keys, n) == ValidIn(tables, keys, m)
  {
    FromNameCaseInsensitive(n);
    FromNameCaseInsensitive(m);
  }

  /** Defining more custom types never makes a valid name invalid. */
  lemma ValidInGrows(tables: Tables, keys: set<string>, more: set<string>, name: string)
    requires keys <= more && ValidIn(tables, keys, name)
    ensures ValidIn(tables, more, name)
  {
  }

  /** The first shape stored under key. */
  function FindShape(shapes: seq<(string, Shapes.CreatureShape)>, key: string): (r: Option<Shapes.CreatureShape>)
    ensures r.Some? <==> exists i :: 0 <= i < |shapes| && shapes[i].0 == key
    ensures r.Some? ==> exists i :: 0 <= i < |shapes| && shapes[i] == (key, r.value)
  {
    if |shapes| == 0 then None
    else if shapes[0].0 == key then Some(shapes[0].1)
    else
      var r := FindShape(shapes[1..], key);
      assert forall i :: 1 <= i < |shapes| ==> shapes[i] == shapes[1..][i - 1];
      r
  }

  /**
   * Each custom type's base, when it is itself a custom type, was defined
   * earlier: the chain of bases is well founded.
   */
  ghost predicate BasesOrdered(registered: seq<string>, types: map<string, Types.CreatureType>)
  {
    forall i :: 0 <= i < |registered| && registered[i] in types && Lower(types[registered[i]].creatureType) in types ==>
      exists j :: 0 <= j < i && registered[j] == Lower(types[registered[i]].creatureType)
  }

  /** The position of x in a sequence without repetitions. */
  function IndexOf(s: seq<string>, x: string): (i: nat)
    requires x in s
    ensures i < |s| && s[i] == x
  {
    if s[0] == x then 0 else 1 + IndexOf(s[1..], x)
  }

  ghost predicate Distinct(s: seq<string>)
  {
    forall i, j :: 0 <= i < j < |s| ==> s[i] != s[j]
  }

  /** getLivingEntityType: a predefined variant's name, else the entity type's name. */
  function LivingEntityType(e: EntityType, t: Traits): (r: string)
    ensures FromLivingEntity(t).Some? ==> r == Name(FromLivingEntity(t).value)
    ensures FromLivingEntity(t).None? ==> r == e.name
  {
    match FromLivingEntity(t)
    case Some(p) => Name(p)
    case None => e.name
  }

  /** The type name reported for a spawned predefined variant leads back to that variant. */
  lemma LivingEntityTypeRoundTrip(p: PredefinedCreature, e: EntityType, base: Traits)
    ensures FromName(LivingEntityType(e, SpawnTraits(p, base))) == Some(p)
  {
    FromSpawnRoundTrip(p, base);
    FromNameOfName(p);
  }

  /**
   * setPlayerHead: the creature's helmet becomes the head of the named player;
   * a helmet that is already a player head is reused with its other metadata.
   */
  function HeadFor(helmet: Option<Item>, playerHead: int, owner: string): (h: Item)
    ensures h.material == playerHead && h.meta.skullOwner == Some(owner) && h.durability == 3
    ensures helmet.Some? && helmet.value.material == playerHead ==>
      h.amount == helmet.value.amount && h.meta.displayName == helmet.value.meta.displayName &&
      h.meta.lore == helmet.value.meta.lore
    ensures (helmet.None? || helmet.value.material != playerHead) ==> h.amount == 1 && h.meta.displayName.None?
  {
    var head := if helmet.None? || helmet.value.material != playerHead
                then Item(playerHead, 1, 0, ItemMeta(None, [], None))
                else helmet.value;
    head.(meta := head.meta.(skullOwner := Some(owner)), durability := 3)
  }

  /** Putting the same player's head on twice is the same as once. */
  lemma HeadForIdempotent(helmet: Option<Item>, playerHead: int, owner: string)
    ensures HeadFor(Some(HeadFor(helmet, playerHead, owner)), playerHead, owner) == HeadFor(helmet, playerHead, owner)
  {
  }

  /** The name given to a spawned creature: the type's default name when none is given. */
  function UsedName(t: Option<Types.CreatureType>, name: Option<string>): (r: Option<string>)
    ensures name.Some? && name.value != "" ==> r == name
    ensures (name.None? || name.value == "") && t.Some? ==> r == t.value.settings.defaultName
    ensures t.None? ==> r == name
  {
    if (name.None? || name.value == "") && t.Some? then t.value.settings.defaultName else name
  }

  /** The player whose head the creature wears, if any: the mask, else the used name, unless the type keeps its helmet. */
  function HeadName(t: Option<Types.CreatureType>, name: Option<string>): (r: Option<string>)
    ensures r.Some? ==> r.value != ""
    ensures t.Some? && t.value.KeepHelmet() ==> r.None?
    ensures t.None? && name.Some? && name.value != "" ==> r == name
    // The type's mask, when it has one, is chosen over the name, even an empty mask.
    ensures t.Some? && !t.value.KeepHelmet() && t.value.settings.mask.Some? ==>
      r == if t.value.settings.mask.value != "" then t.value.settings.mask else None
    ensures (t.None? || (!t.value.KeepHelmet() && t.value.settings.mask.None?)) ==>
      var used := UsedName(t, name);
      r == if used.Some? && used.value != "" then used else None
  {
    if t.Some? && t.value.KeepHelmet() then None
    else
      var head := if t.Some? && t.value.settings.mask.Some? then t.value.settings.mask else UsedName(t, name);
      if head.Some? && head.value != "" then head else None
  }

  /** The attributes after naming: name tag, player head, and no picking up of items. */
  function Named(a: Attrs, used: Option<string>, head: Option<string>, playerHead: int): (r: Attrs)
    ensures used.Some? && used.value != "" ==> r.customName == used && r.customNameVisible
    ensures !(used.Some? && used.value != "") ==> r.customName == a.customName && r.customNameVisible == a.customNameVisible
    ensures head.Some? ==> r.equipment.helmet == Some(HeadFor(a.equipment.helmet, playerHead, head.value))
    ensures head.None? ==> r.equipment == a.equipment
    ensures !r.canPickupItems
    ensures r.potions == a.potions && r.maxHealth == a.maxHealth && r.health == a.health && r.dropChances == a.dropChances
  {
    var a1 := if used.Some? && used.value != "" then a.(customName := used, customNameVisible := true) else a;
    var a2 := if head.Some? then a1.(equipment := a1.equipment.Set(Helmet, Some(HeadFor(a1.equipment.helmet, playerHead, head.value)))) else a1;
    a2.(canPickupItems := false)
  }

  /** isComplete: the shape is enabled, triggered by the placed item and built around loc. */
  ghost predicate Complete(shape: Shapes.CreatureShape, world: World, loc: Location, placedItemId: int)
    reads shape
  {
    shape.enabled && shape.triggerMaterialId == placedItemId &&
    |shape.materialIds| == |shape.offsets| && shape.Matches(world, loc)
  }

  /** Appending a shape does not change what an existing name finds. */
  lemma {:induction false} FindShapeKept(shapes: seq<(string, Shapes.CreatureShape)>, x: (string, Shapes.CreatureShape), key: string)
    ensures FindShape(shapes, key).Some? ==> FindShape(shapes + [x], key) == FindShape(shapes, key)
    ensures FindShape(shapes, key).None? && x.0 == key ==> FindShape(shapes + [x], key) == Some(x.1)
    ensures FindShape(shapes, key).None? && x.0 != key ==> FindShape(shapes + [x], key).None?
  {
    if |shapes| > 0 && shapes[0].0 != key {
      assert (shapes + [x])[1..] == shapes[1..] + [x];
      FindShapeKept(shapes[1..], x, key);
    }
  }

  /**
   * The shapes named in a player's list, in list order; names that are not
   * shapes are skipped.
   */
  function ShapesNamed(shapes: seq<(string, Shapes.CreatureShape)>, names: seq<string>): (r: seq<Shapes.CreatureShape>)
    ensures |r| <= |names|
    ensures forall i :: 0 <= i < |r| ==> Stored(shapes, r[i])
    ensures forall n :: n in names && FindShape(shapes, Lower(n)).Some? ==> FindShape(shapes, Lower(n)).value in r
    decreases |names|
  {
    if |names| == 0 then []
    else
      var init := ShapesNamed(shapes, names[..|names| - 1]);
      var found := FindShape(shapes, Lower(names[|names| - 1]));
      assert forall n :: n in names ==> n in names[..|names| - 1] || n == names[|names| - 1];
      if found.Some? then init + [found.value] else init
  }

  /** A shape key has been stored under its lower-cased name, or its section is rejected. */
  ghost predicate ShapeAccounted(tables: Tables, shapes: seq<(string, Shapes.CreatureShape)>, sec: Section, c: string)
  {
    FindShape(shapes, Lower(c)).Some? ||
    (GetSection(sec, [c]).Some? && Shapes.ShapeRejected(tables, GetSection(sec, [c]).value))
  }

  /**
   * The shapes section has been read up to key n: the shapes held before are
   * kept, each of the first n keys is accounted for, and every shape added was
   * loaded from a key of the section.
   */
  ghost predicate ShapesLoaded(tables: Tables, s0: seq<(string, Shapes.CreatureShape)>, shapes: seq<(string, Shapes.CreatureShape)>,
                               sec: Section, keys: seq<string>, n: nat)
  {
    n <= |keys| && |s0| <= |shapes| && shapes[..|s0|] == s0 &&
    (forall m :: 0 <= m < n ==> ShapeAccounted(tables, shapes, sec, keys[m])) &&
    (forall j :: |s0| <= j < |shapes| ==> FromSection(tables, sec, shapes[j].1))
  }

  /** Reading key n, which stored x or nothing, extends what has been read by one key. */
  lemma ShapesLoadedStep(tables: Tables, s0: seq<(string, Shapes.CreatureShape)>, shapes: seq<(string, Shapes.CreatureShape)>,
                         x: Option<(string, Shapes.CreatureShape)>, sec: Section, keys: seq<string>, n: nat)
    requires ShapesLoaded(tables, s0, shapes, sec, keys, n) && n < |keys| && keys[n] in Keys(sec)
    requires x.None? ==> ShapeAccounted(tables, shapes, sec, keys[n])
    requires x.Some? ==> ShapeAccounted(tables, shapes + [x.value], sec, keys[n]) && ShapeFrom(tables, sec, keys[n], x.value.1)
    ensures ShapesLoaded(tables, s0, if x.Some? then shapes + [x.value] else shapes, sec, keys, n + 1)
  {
    if x.Some? {
      var after := shapes + [x.value];
      assert after[..|s0|] == s0 by {
        assert after[..|shapes|] == shapes;
      }
      forall m | 0 <= m < n + 1
        ensures ShapeAccounted(tables, after, sec, keys[m])
      {
        if m < n {
          FindShapeKept(shapes, x.value, Lower(keys[m]));
        }
      }
      forall j | |s0| <= j < |after|
        ensures FromSection(tables, sec, after[j].1)
      {
        if j < |shapes| {
          assert after[j] == shapes[j];
        } else {
          assert after[j] == x.value;
        }
      }
    }
  }

  /** The shape was loaded from one of the keys of the section. */
  ghost predicate FromSection(tables: Tables, sec: Section, shape: Shapes.CreatureShape)
  {
    exists c :: c in Keys(sec) && ShapeFrom(tables, sec, c, shape)
  }

  /** The shape was loaded from the section of key c, which was not rejected. */
  ghost predicate ShapeFrom(tables: Tables, sec: Section, c: string, shape: Shapes.CreatureShape)
  {
    GetSection(sec, [c]).Some? && shape.name == c && !Shapes.ShapeRejected(tables, GetSection(sec, [c]).value)
  }

  /** The spawn setting of a creature section, "" when it is missing. */
  function SpawnSetting(sec: Section): string
  {
    GetString(sec, ["spawn"], None).GetOr("")
  }

  /**
   * Creature key c defines a new type, given the custom type keys defined
   * before it: c is not a valid type yet, its section exists, and its spawn
   * setting is non-empty, differs from c (case-sensitively) and is a valid
   * type at that point.
   */
  predicate TypeAccepted(tables: Tables, keys: set<string>, sec: Section, c: string)
  {
    !ValidIn(tables, keys, c) && GetSection(sec, [c]).Some? &&
    var spawn := SpawnSetting(GetSection(sec, [c]).value);
    spawn != "" && spawn != c && ValidIn(tables, keys, spawn)
  }

  /** The custom type keys after reading the creature keys in order, starting from the keys k0. */
  ghost function TypeKeysAfter(tables: Tables, sec: Section, keys: seq<string>, k0: set<string>): set<string>
    decreases |keys|
  {
    if keys == [] then k0
    else
      var prev := TypeKeysAfter(tables, sec, keys[..|keys| - 1], k0);
      if TypeAccepted(tables, prev, sec, keys[|keys| - 1]) then prev + {Lower(keys[|keys| - 1])} else prev
  }

  /** Reading more creature keys never removes a custom type. */
  lemma {:induction false} TypeKeysGrow(tables: Tables, sec: Section, keys: seq<string>, k0: set<string>, m: nat)
    requires m <= |keys|
    ensures k0 <= TypeKeysAfter(tables, sec, keys[..m], k0) <= TypeKeysAfter(tables, sec, keys, k0)
    decreases |keys|
  {
    if m < |keys| {
      var init := keys[..|keys| - 1];
      assert init[..m] == keys[..m];
      TypeKeysGrow(tables, sec, init, k0, m);
    } else {
      assert keys[..m] == keys;
      if keys != [] {
        TypeKeysGrow(tables, sec, keys[..|keys| - 1], k0, |keys| - 1);
      }
    }
  }

  /**
   * A creature key accepted at its turn is a custom type once all keys are
   * read, and a key already valid at its turn stays valid.
   */
  lemma TypeKeysAccepted(tables: Tables, sec: Section, keys: seq<string>, k0: set<string>, m: nat)
    requires m < |keys|
    ensures var before, after := TypeKeysAfter(tables, sec, keys[..m], k0), TypeKeysAfter(tables, sec, keys, k0);
      (TypeAccepted(tables, before, sec, keys[m]) ==> Lower(keys[m]) in after) &&
      (ValidIn(tables, before, keys[m]) ==> ValidIn(tables, after, keys[m]))
  {
    assert keys[..m + 1][..m] == keys[..m];
    TypeKeysGrow(tables, sec, keys, k0, m + 1);
    TypeKeysGrow(tables, sec, keys, k0, m);
  }

  /** Every custom type key not in k0 is the lower-cased name of a creature key accepted at its turn. */
  lemma {:induction false} TypeKeysFrom(tables: Tables, sec: Section, keys: seq<string>, k0: set<string>, k: string)
    requires k in TypeKeysAfter(tables, sec, keys, k0) && k !in k0
    ensures exists m :: (0 <= m < |keys| && Lower(keys[m]) == k &&
                         TypeAccepted(tables, TypeKeysAfter(tables, sec, keys[..m], k0), sec, keys[m]))
    decreases |keys|
  {
    var n := |keys| - 1;
    var init := keys[..n];
    if k in TypeKeysAfter(tables, sec, init, k0) {
      TypeKeysFrom(tables, sec, init, k0, k);
      var m :| 0 <= m < |init| && Lower(init[m]) == k &&
        TypeAccepted(tables, TypeKeysAfter(tables, sec, init[..m], k0), sec, init[m]);
      assert init[..m] == keys[..m];
    }
  }

  /** The custom type stored under k was loaded from the section of key c. */
  ghost predicate TypeFrom(tables: Tables, sec: Section, c: string, k: string, t: Types.CreatureType)
  {
    Lower(c) == k && GetSection(sec, [c]).Some? && t.name == c &&
    t.creatureType == SpawnSetting(GetSection(sec, [c]).value) && t.creatureType != c
  }

  /** The custom type stored under k was loaded from one of the keys of the section. */
  ghost predicate TypeFromSection(tables: Tables, sec: Section, k: string, t: Types.CreatureType)
  {
    exists c :: c in Keys(sec) && TypeFrom(tables, sec, c, k, t)
  }

  /**
   * The creatures section has been read up to key n: the types held before
   * are kept, the keys are exactly those the first n creature keys define,
   * and every type added was loaded from a key of the section.
   */
  ghost predicate TypesLoaded(tables: Tables, t0: map<string, Types.CreatureType>, types: map<string, Types.CreatureType>,
                              sec: Section, keys: seq<string>, n: nat)
  {
    n <= |keys| && t0.Keys <= types.Keys && (forall k :: k in t0 ==> types[k] == t0[k]) &&
    types.Keys == TypeKeysAfter(tables, sec, keys[..n], t0.Keys) &&
    (forall k :: k in types && k !in t0 ==> TypeFromSection(tables, sec, k, types[k]))
  }

  /** Reading a creature key that is not accepted extends what has been read by one key. */
  lemma TypesLoadedSkip(tables: Tables, t0: map<string, Types.CreatureType>, types: map<string, Types.CreatureType>,
                        sec: Section, keys: seq<string>, n: nat)
    requires TypesLoaded(tables, t0, types, sec, keys, n) && n < |keys|
    requires !TypeAccepted(tables, types.Keys, sec, keys[n])
    ensures TypesLoaded(tables, t0, types, sec, keys, n + 1)
  {
    assert keys[..n + 1][..n] == keys[..n];
  }

  /** Reading an accepted creature key into a new type t extends what has been read by one key. */
  lemma TypesLoadedAdd(tables: Tables, t0: map<string, Types.CreatureType>, types: map<string, Types.CreatureType>,
                       k: string, t: Types.CreatureType, sec: Section, keys: seq<string>, n: nat)
    requires TypesLoaded(tables, t0, types, sec, keys, n) && n < |keys| && keys[n] in Keys(sec)
    requires k !in types && TypeAccepted(tables, types.Keys, sec, keys[n]) && TypeFrom(tables, sec, keys[n], k, t)
    ensures TypesLoaded(tables, t0, types[k := t], sec, keys, n + 1)
  {
    assert keys[..n + 1][..n] == keys[..n];
    TypesFromKept(tables, t0, types, k, t, sec, keys[n]);
    EntriesKept(t0, types, k, t);
  }

  /** Adding a new key keeps every entry held before. */
  lemma EntriesKept<V>(t0: map<string, V>, m: map<string, V>, k: string, v: V)
    requires k !in m && t0.Keys <= m.Keys && forall j :: j in t0 ==> m[j] == t0[j]
    ensures t0.Keys <= m[k := v].Keys && forall j :: j in t0 ==> m[k := v][j] == t0[j]
  {
  }

  /** A type loaded from key c joins the types that were each loaded from a key of the section. */
  lemma TypesFromKept(tables: Tables, t0: map<string, Types.CreatureType>, types: map<string, Types.CreatureType>,
                      k: string, t: Types.CreatureType, sec: Section, c: string)
    requires c in Keys(sec) && TypeFrom(tables, sec, c, k, t)
    requires forall j :: j in types && j !in t0 ==> TypeFromSection(tables, sec, j, types[j])
    ensures forall j :: j in types[k := t] && j !in t0 ==> TypeFromSection(tables, sec, j, types[k := t][j])
  {
  }

  /** The creature type a player section spawns: its spawn setting, defaulting to the player's name. */
  function PlayerSpawn(psec: Section, player: string): string
  {
    GetString(psec, ["spawn"], Some(player)).GetOr(player)
  }

  /**
   * A player key is defined, or its section names a creature type that is not
   * valid for the given custom type keys.
   */
  ghost predicate PlayerAccounted(tables: Tables, keys: set<string>, pc: map<string, string>, sec: Section, p: string)
  {
    Lower(p) in pc ||
    (GetSection(sec, [p]).Some? && !ValidIn(tables, keys, PlayerSpawn(GetSection(sec, [p]).value, p)))
  }

  /** The player entry (spawn, found) under k was read from the section of key p. */
  ghost predicate PlayerFrom(shapes: seq<(string, Shapes.CreatureShape)>, sec: Section, p: string, k: string,
                             spawn: string, found: seq<Shapes.CreatureShape>)
  {
    Lower(p) == k && GetSection(sec, [p]).Some? &&
    spawn == PlayerSpawn(GetSection(sec, [p]).value, p) &&
    found == ShapesNamed(shapes, GetStringList(GetSection(sec, [p]).value, ["shapes"]))
  }

  /** The player entry under k was read from one of the keys of the section. */
  ghost predicate PlayerFromSection(shapes: seq<(string, Shapes.CreatureShape)>, sec: Section, k: string,
                                    spawn: string, found: seq<Shapes.CreatureShape>)
  {
    exists p :: p in Keys(sec) && PlayerFrom(shapes, sec, p, k, spawn, found)
  }

  /**
   * The players section has been read up to key n: the players held before
   * are kept and each of the first n keys is accounted for.
   */
  ghost predicate PlayersLoaded(tables: Tables, keys: set<string>,
                                pc0: map<string, string>, ps0: map<string, seq<Shapes.CreatureShape>>,
                                pc: map<string, string>, ps: map<string, seq<Shapes.CreatureShape>>,
                                sec: Section, pkeys: seq<string>, n: nat)
  {
    n <= |pkeys| && pc.Keys == ps.Keys &&
    (forall k :: k in pc0 ==> k in pc && pc[k] == pc0[k] && k in ps0 && ps[k] == ps0[k]) &&
    (forall m :: 0 <= m < n ==> PlayerAccounted(tables, keys, pc, sec, pkeys[m]))
  }

  /** Every player added since pc0 was read from a key of the section. */
  ghost predicate PlayersFrom(shapes: seq<(string, Shapes.CreatureShape)>, sec: Section, pc0: map<string, string>,
                              pc: map<string, string>, ps: map<string, seq<Shapes.CreatureShape>>)
  {
    forall k :: k in pc && k !in pc0 ==> k in ps && PlayerFromSection(shapes, sec, k, pc[k], ps[k])
  }

  /** Reading key n without adding a player extends what has been read by one key. */
  lemma PlayersLoadedSkip(tables: Tables, keys: set<string>,
                          pc0: map<string, string>, ps0: map<string, seq<Shapes.CreatureShape>>,
                          pc: map<string, string>, ps: map<string, seq<Shapes.CreatureShape>>,
                          sec: Section, pkeys: seq<string>, n: nat)
    requires PlayersLoaded(tables, keys, pc0, ps0, pc, ps, sec, pkeys, n) && n < |pkeys|
    requires PlayerAccounted(tables, keys, pc, sec, pkeys[n])
    ensures PlayersLoaded(tables, keys, pc0, ps0, pc, ps, sec, pkeys, n + 1)
  {
  }

  /** Reading key n into a new player under its lower-cased name extends what has been read by one key. */
  lemma PlayersLoadedAdd(tables: Tables, keys: set<string>,
                         pc0: map<string, string>, ps0: map<string, seq<Shapes.CreatureShape>>,
                         pc: map<string, string>, ps: map<string, seq<Shapes.CreatureShape>>,
                         k: string, spawn: string, found: seq<Shapes.CreatureShape>, sec: Section, pkeys: seq<string>, n: nat)
    requires PlayersLoaded(tables, keys, pc0, ps0, pc, ps, sec, pkeys, n) && n < |pkeys|
    requires k !in pc && k == Lower(pkeys[n])
    ensures PlayersLoaded(tables, keys, pc0, ps0, pc[k := spawn], ps[k := found], sec, pkeys, n + 1)
  {
    var pc2, ps2 := pc[k := spawn], ps[k := found];
    assert forall m :: 0 <= m < n ==> PlayerAccounted(tables, keys, pc2, sec, pkeys[m]);
    assert forall j :: j in pc0 ==> j in pc2 && pc2[j] == pc0[j] && j in ps0 && ps2[j] == ps0[j];
  }

  /** A player read from key p joins the players that were each read from a key of the section. */
  lemma PlayersFromKept(shapes: seq<(string, Shapes.CreatureShape)>, sec: Section, pc0: map<string, string>,
                        pc: map<string, string>, ps: map<string, seq<Shapes.CreatureShape>>,
                        k: string, spawn: string, found: seq<Shapes.CreatureShape>, p: string)
    requires p in Keys(sec) && PlayerFrom(shapes, sec, p, k, spawn, found) && PlayersFrom(shapes, sec, pc0, pc, ps)
    ensures PlayersFrom(shapes, sec, pc0, pc[k := spawn], ps[k := found])
  {
  }

  /** Storing one more shape keeps every player's shapes stored. */
  lemma StoredShapesKept(shapes: seq<(string, Shapes.CreatureShape)>, x: (string, Shapes.CreatureShape),
                         playerShapes: map<string, seq<Shapes.CreatureShape>>)
    requires PlayerShapesStored(shapes, playerShapes)
    ensures PlayerShapesStored(shapes + [x], playerShapes)
  {
    forall k, i | k in playerShapes && 0 <= i < |playerShapes[k]|
      ensures Stored(shapes + [x], playerShapes[k][i])
    {
      var j :| 0 <= j < |shapes| && shapes[j].1 == playerShapes[k][i];
      assert (shapes + [x])[j] == shapes[j];
    }
  }

  /** A new player, lower-cased and spawning a valid type, keeps the players well named. */
  lemma PlayerAddedNamed(tables: Tables, keys: set<string>, pc: map<string, string>, ps: map<string, seq<Shapes.CreatureShape>>,
                         k: string, spawn: string, found: seq<Shapes.CreatureShape>)
    requires PlayersNamed(tables, keys, pc, ps) && k == Lower(k) && ValidIn(tables, keys, spawn)
    ensures PlayersNamed(tables, keys, pc[k := spawn], ps[k := found])
  {
  }

  /** A new player whose shapes are all stored keeps every player's shapes stored. */
  lemma PlayerAddedStored(shapes: seq<(string, Shapes.CreatureShape)>, ps: map<string, seq<Shapes.CreatureShape>>,
                          k: string, found: seq<Shapes.CreatureShape>)
    requires PlayerShapesStored(shapes, ps) && forall i :: 0 <= i < |found| ==> Stored(shapes, found[i])
    ensures PlayerShapesStored(shapes, ps[k := found])
  {
  }

  /** Defining more custom types keeps every player's type valid. */
  lemma PlayersNamedGrows(tables: Tables, keys: set<string>, more: set<string>,
                          pc: map<string, string>, ps: map<string, seq<Shapes.CreatureShape>>)
    requires PlayersNamed(tables, keys, pc, ps) && keys <= more
    ensures PlayersNamed(tables, more, pc, ps)
  {
  }

  /** Registering a valid new type keeps the registry invariant. */
  lemma RegistryAdded(tables: Tables, types: map<string, Types.CreatureType>, registered: seq<string>,
                      c: string, t: Types.CreatureType)
    requires Registry(tables, types, registered)
    requires !ValidIn(tables, types.Keys, c) && ValidIn(tables, types.Keys, t.creatureType)
    requires Types.SettingsValid(t.settings)
    ensures Registry(tables, types[Lower(c) := t], registered + [Lower(c)])
  {
    LowerIdempotent(c);
    RegisterKeepsBasesOrdered(tables, registered, types, c, t);
    var t2 := types[Lower(c) := t];
    forall k | k in t2
      ensures k == Lower(k) && ValidIn(tables, t2.Keys, t2[k].creatureType)
    {
      if k != Lower(c) {
        ValidInGrows(tables, types.Keys, t2.Keys, types[k].creatureType);
      }
    }
  }

  /** Registering a type whose name is not valid yet, on a valid base, keeps bases defined first. */
  lemma RegisterKeepsBasesOrdered(tables: Tables, registered: seq<string>, types: map<string, Types.CreatureType>,
                                  c: string, t: Types.CreatureType)
    requires BasesOrdered(registered, types) && (forall k :: k in registered <==> k in types)
    requires forall k :: k in types ==> ValidIn(tables, types.Keys, types[k].creatureType)
    requires !ValidIn(tables, types.Keys, c) && ValidIn(tables, types.Keys, t.creatureType)
    ensures BasesOrdered(registered + [Lower(c)], types[Lower(c) := t])
  {
    LowerIdempotent(c);
    var r2 := registered + [Lower(c)];
    var t2 := types[Lower(c) := t];
    forall i | 0 <= i < |r2| && r2[i] in t2 && Lower(t2[r2[i]].creatureType) in t2
      ensures exists j :: 0 <= j < i && r2[j] == Lower(t2[r2[i]].creatureType)
    {
      var b := t2[r2[i]].creatureType;
      if i < |registered| {
        assert r2[i] == registered[i] && registered[i] in types;
        assert t2[r2[i]] == types[registered[i]];
      }
      assert ValidIn(tables, types.Keys, b);
      if Lower(b) == Lower(c) {
        ValidInIgnoresCase(tables, types.Keys, b, c);
        assert false;
      }
      assert Lower(b) in types;
      if i == |registered| {
        var j := IndexOf(registered, Lower(b));
        assert r2[j] == Lower(b);
      } else {
        var j :| 0 <= j < i && registered[j] == Lower(b);
        assert r2[j] == Lower(b);
      }
    }
  }

  /** Each shape is valid and stored under its lower-cased name. */
  ghost predicate ShapesValid(shapes: seq<(string, Shapes.CreatureShape)>)
    reads set i | 0 <= i < |shapes| :: shapes[i].1, set i | 0 <= i < |shapes| :: shapes[i].1.types
  {
    forall i :: 0 <= i < |shapes| ==> shapes[i].1.Valid() && shapes[i].0 == Lower(shapes[i].1.name)
  }

  /** No two shapes share a key. */
  ghost predicate KeysDistinct(shapes: seq<(string, Shapes.CreatureShape)>)
  {
    forall i, j :: 0 <= i < j < |shapes| ==> shapes[i].0 != shapes[j].0
  }

  /** Each custom type is valid. */
  ghost predicate TypesValid(types: map<string, Types.CreatureType>)
    reads types.Values, set t | t in types.Values :: t.escortTypes
  {
    forall k :: k in types ==> types[k].Valid()
  }

  /** Adding a valid type keeps every type valid. */
  lemma TypesValidAdded(types: map<string, Types.CreatureType>, k: string, t: Types.CreatureType)
    requires TypesValid(types) && t.Valid()
    ensures TypesValid(types[k := t])
  {
  }

  /** Each custom type's settings are consistent. */
  ghost predicate AllSettled(types: map<string, Types.CreatureType>)
  {
    forall k :: k in types ==> Types.SettingsValid(types[k].settings)
  }

  /**
   * The custom types: keys lower-cased, settings consistent, bases valid, and
   * registered in an order in which every custom base comes first.
   */
  ghost predicate Registry(tables: Tables, types: map<string, Types.CreatureType>, registered: seq<string>)
  {
    AllSettled(types) &&
    (forall k :: k in types ==> k == Lower(k) && ValidIn(tables, types.Keys, types[k].creatureType)) &&
    Distinct(registered) && (forall k :: k in registered <==> k in types) &&
    BasesOrdered(registered, types)
  }

  /** The players: keys lower-cased, each spawning a valid type. */
  ghost predicate PlayersNamed(tables: Tables, keys: set<string>,
                               playerCreatures: map<string, string>, playerShapes: map<string, seq<Shapes.CreatureShape>>)
  {
    playerCreatures.Keys == playerShapes.Keys &&
    forall k :: k in playerCreatures ==> k == Lower(k) && ValidIn(tables, keys, playerCreatures[k])
  }

  /** The custom types and the players agree with each other and with the host's tables. */
  ghost predicate Consistent(tables: Tables, types: map<string, Types.CreatureType>, registered: seq<string>,
                             pc: map<string, string>, ps: map<string, seq<Shapes.CreatureShape>>)
  {
    Registry(tables, types, registered) && PlayersNamed(tables, types.Keys, pc, ps)
  }

  /** Defining a new custom type on a valid base keeps the types and players consistent. */
  lemma TypeAddedConsistent(tables: Tables, types: map<string, Types.CreatureType>, registered: seq<string>,
                            pc: map<string, string>, ps: map<string, seq<Shapes.CreatureShape>>, c: string, t: Types.CreatureType)
    requires Consistent(tables, types, registered, pc, ps)
    requires !ValidIn(tables, types.Keys, c) && ValidIn(tables, types.Keys, t.creatureType)
    requires Types.SettingsValid(t.settings)
    ensures Lower(c) !in types
    ensures Consistent(tables, types[Lower(c) := t], registered + [Lower(c)], pc, ps)
  {
    RegistryAdded(tables, types, registered, c, t);
    PlayersNamedGrows(tables, types.Keys, types[Lower(c) := t].Keys, pc, ps);
  }

  /** The shape is stored under some key. */
  ghost predicate Stored(shapes: seq<(string, Shapes.CreatureShape)>, shape: Shapes.CreatureShape)
  {
    exists j :: 0 <= j < |shapes| && shapes[j].1 == shape
  }

  /** Every shape listed for a player is a stored shape. */
  ghost predicate PlayerShapesStored(shapes: seq<(string, Shapes.CreatureShape)>, playerShapes: map<string, seq<Shapes.CreatureShape>>)
  {
    forall k, i :: k in playerShapes && 0 <= i < |playerShapes[k]| ==> Stored(shapes, playerShapes[k][i])
  }

  class CreatureFactory {
    const tables: Tables
    /** Shapes by lower-cased name, in the order they were defined. */
    var shapes: seq<(string, Shapes.CreatureShape)>
    /** Custom creature types by lower-cased name. */
    var types: map<string, Types.CreatureType>
    /** The creature type spawned for each player name, by lower-cased player name. */
    var playerCreatures: map<string, string>
    /** The shapes that summon each player's doppelganger, by lower-cased player name. */
    var playerShapes: map<string, seq<Shapes.CreatureShape>>
    /** The custom type keys in the order they were defined. */
    ghost var registered: seq<string>

    /** The shapes and their weighted type selections. */
    ghost function ShapeObjects(): set<object>
      reads this
    {
      (set i | 0 <= i < |shapes| :: shapes[i].1 as object) + (set i | 0 <= i < |shapes| :: shapes[i].1.types as object)
    }

    /** The custom types and their weighted escort selections. */
    ghost function TypeObjects(): set<object>
      reads this
    {
      (set t: Types.CreatureType | t in types.Values :: t as object) +
      (set t: Types.CreatureType | t in types.Values :: t.escortTypes as object)
    }

    ghost predicate Valid()
      reads this, ShapeObjects(), TypeObjects()
    {
      ShapesValid(shapes) && KeysDistinct(shapes) && PlayerShapesStored(shapes, playerShapes) && TypesValid(types) &&
      Consistent(tables, types, registered, playerCreatures, playerShapes)
    }

    /** The custom-type registry alone (settings consistent, bases first); all that spawning needs of the factory. */
    ghost predicate Settled()
      reads this
    {
      Registry(tables, types, registered)
    }

    constructor (tables: Tables)
      ensures Valid() && this.tables == tables
      ensures shapes == [] && types == map[] && playerCreatures == map[] && playerShapes == map[]
    {
      this.tables := tables;
      shapes := [];
      types := map[];
      playerCreatures := map[];
      playerShapes := map[];
      registered := [];
    }

    /**
     * load: clear everything, then read the shapes, the custom creature types
     * and the players, each from its own section when that is present. A key
     * whose value is not a section makes the load throw part way through.
     */
    method Load(root: Section) returns (r: Result<(), Exception>)
      modifies this
      ensures Valid()
      ensures r.Err? ==> r.error == NullPointer
      ensures !IsSection(root, ["shapes"]) ==> shapes == []
      ensures !IsSection(root, ["creatures"]) ==> types == map[]
      ensures !IsSection(root, ["players"]) ==> playerCreatures == map[] && playerShapes == map[]
      ensures r.Ok? && IsSection(root, ["shapes"]) ==> ShapesAccounted(GetSection(root, ["shapes"]).value)
      ensures r.Ok? && IsSection(root, ["creatures"]) ==>
        var sec := GetSection(root, ["creatures"]).value;
        types.Keys == TypeKeysAfter(tables, sec, Keys(sec), {})
      ensures r.Ok? && IsSection(root, ["players"]) ==> PlayersAccounted(GetSection(root, ["players"]).value)
      // The tables hold only what the sections define.
      ensures IsSection(root, ["shapes"]) ==>
        forall j :: 0 <= j < |shapes| ==> FromSection(tables, GetSection(root, ["shapes"]).value, shapes[j].1)
      ensures IsSection(root, ["creatures"]) ==>
        forall k :: k in types ==> TypeFromSection(tables, GetSection(root, ["creatures"]).value, k, types[k])
      ensures IsSection(root, ["players"]) ==>
        PlayersFrom(shapes, GetSection(root, ["players"]).value, map[], playerCreatures, playerShapes)
    {
      shapes := [];
      types := map[];
      playerCreatures := map[];
      playerShapes := map[];
      registered := [];
      r := Ok(());
      var shapesSection := GetSection(root, ["shapes"]);
      if shapesSection.Some? {
        r := LoadShapes(shapesSection.value);
        if r.Err? {
          return;
        }
      }
      ghost var loadedShapes := shapes;
      var creaturesSection := GetSection(root, ["creatures"]);
      if creaturesSection.Some? {
        assert types.Keys == {};
        r := LoadTypes(creaturesSection.value);
        if r.Err? {
          return;
        }
        assert types.Keys == TypeKeysAfter(tables, creaturesSection.value, Keys(creaturesSection.value), {});
      }
      assert shapes == loadedShapes;
      ghost var loadedTypes := types;
      var playersSection := GetSection(root, ["players"]);
      if playersSection.Some? {
        r := LoadPlayers(playersSection.value);
      }
      assert shapes == loadedShapes && types == loadedTypes;
    }

    /** Every key of the shapes section is stored or rejected. */
    ghost predicate ShapesAccounted(sec: Section)
      reads this
    {
      forall m :: 0 <= m < |Keys(sec)| ==> ShapeAccounted(tables, shapes, sec, Keys(sec)[m])
    }

    /** Every key of the players section is defined or names a creature type that cannot be spawned. */
    ghost predicate PlayersAccounted(sec: Section)
      reads this
    {
      forall m :: 0 <= m < |Keys(sec)| ==> PlayerAccounted(tables, types.Keys, playerCreatures, sec, Keys(sec)[m])
    }

    /** The shapes part of load: each key not yet defined is loaded, and kept unless rejected. */
    method LoadShapes(sec: Section) returns (r: Result<(), Exception>)
      requires Valid()
      modifies this
      ensures Valid()
      ensures types == old(types) && registered == old(registered)
      ensures playerCreatures == old(playerCreatures) && playerShapes == old(playerShapes)
      ensures |old(shapes)| <= |shapes| && shapes[..|old(shapes)|] == old(shapes)
      ensures r.Err? ==> r.error == NullPointer
      ensures r.Ok? ==> ShapesAccounted(sec)
      ensures forall j :: |old(shapes)| <= j < |shapes| ==> FromSection(tables, sec, shapes[j].1)
    {
      var keys := Keys(sec);
      var i := 0;
      while i < |keys|
        invariant Valid()
        invariant types == old(types) && registered == old(registered)
        invariant playerCreatures == old(playerCreatures) && playerShapes == old(playerShapes)
        invariant ShapesLoaded(tables, old(shapes), shapes, sec, keys, i)
      {
        ghost var before := shapes;
        ghost var added;
        r, added := LoadShape(sec, keys[i]);
        if r.Err? {
          return;
        }
        ShapesLoadedStep(tables, old(shapes), before, added, sec, keys, i);
        i := i + 1;
      }
      return Ok(());
    }

    /** One key of the shapes section: skipped if already defined, else loaded and kept unless rejected. */
    method LoadShape(sec: Section, c: string) returns (r: Result<(), Exception>, ghost added: Option<(string, Shapes.CreatureShape)>)
      requires Valid()
      modifies this
      ensures Valid()
      ensures types == old(types) && registered == old(registered)
      ensures playerCreatures == old(playerCreatures) && playerShapes == old(playerShapes)
      ensures r.Err? ==> r.error == NullPointer && added.None?
      ensures r.Ok? ==> ShapeAccounted(tables, shapes, sec, c)
      ensures added.None? ==> shapes == old(shapes)
      ensures added.Some? ==>
        shapes == old(shapes) + [added.value] && added.value.0 == Lower(c) && ShapeFrom(tables, sec, c, added.value.1)
    {
      added := None;
      if GetCreatureShape(c).Some? {
        return Ok(()), None;
      }
      var loaded := Shapes.LoadFromSection(tables, GetSection(sec, [c]));
      if loaded.Err? {
        return Err(loaded.error), None;
      }
      if loaded.value.Some? {
        var shape := loaded.value.value;
        ghost var before := shapes;
        AddShape(Lower(c), shape);
        FindShapeKept(before, (Lower(c), shape), Lower(c));
        added := Some((Lower(c), shape));
      }
      r := Ok(());
    }

    /**
     * The creatures part of load: a key that is not already a valid type is
     * loaded, and kept when it defines something, is not defined in terms of
     * itself and is based on a type that is valid at that point.
     */
    method LoadTypes(sec: Section) returns (r: Result<(), Exception>)
      requires Valid()
      modifies this
      ensures Valid()
      ensures shapes == old(shapes)
      ensures playerCreatures == old(playerCreatures) && playerShapes == old(playerShapes)
      ensures old(types).Keys <= types.Keys && forall k :: k in old(types) ==> types[k] == old(types[k])
      ensures r.Err? ==> r.error == NullPointer
      ensures r.Ok? ==> types.Keys == TypeKeysAfter(tables, sec, Keys(sec), old(types).Keys)
      ensures forall k :: k in types && k !in old(types) ==> TypeFromSection(tables, sec, k, types[k])
    {
      var keys := Keys(sec);
      var i := 0;
      assert keys[..0] == [];
      while i < |keys|
        invariant Valid()
        invariant shapes == old(shapes)
        invariant playerCreatures == old(playerCreatures) && playerShapes == old(playerShapes)
        invariant TypesLoaded(tables, old(types), types, sec, keys, i)
      {
        r := LoadTypesStep(sec, keys, i, old(types));
        if r.Err? {
          return;
        }
        i := i + 1;
      }
      assert keys[..i] == keys;
      return Ok(());
    }

    /** Key i of the creatures section, read after the first i keys. */
    method LoadTypesStep(sec: Section, keys: seq<string>, i: nat, ghost t0: map<string, Types.CreatureType>)
      returns (r: Result<(), Exception>)
      requires Valid() && keys == Keys(sec) && i < |keys|
      requires TypesLoaded(tables, t0, types, sec, keys, i)
      modifies this
      ensures Valid()
      ensures shapes == old(shapes) && playerCreatures == old(playerCreatures) && playerShapes == old(playerShapes)
      ensures r.Err? ==> r.error == NullPointer && types == old(types)
      ensures r.Ok? ==> TypesLoaded(tables, t0, types, sec, keys, i + 1)
    {
      ghost var before := types;
      ghost var added;
      r, added := LoadType(sec, keys[i]);
      if r.Ok? {
        if added.Some? {
          TypesLoadedAdd(tables, t0, before, added.value.0, added.value.1, sec, keys, i);
        } else {
          TypesLoadedSkip(tables, t0, before, sec, keys, i);
        }
      }
    }

    /**
     * One key of the creatures section: skipped if already a valid type, else
     * loaded, and kept when it defines something, is not defined in terms of
     * itself and is based on a type that is valid at that point.
     */
    method LoadType(sec: Section, c: string) returns (r: Result<(), Exception>, ghost added: Option<(string, Types.CreatureType)>)
      requires Valid()
      modifies this
      ensures Valid()
      ensures shapes == old(shapes) && playerCreatures == old(playerCreatures) && playerShapes == old(playerShapes)
      ensures r.Err? ==> r.error == NullPointer && added.None?
      ensures r.Err? <==> !ValidIn(tables, old(types).Keys, c) && GetSection(sec, [c]).None?
      ensures r.Ok? ==> (added.Some? <==> TypeAccepted(tables, old(types).Keys, sec, c))
      ensures added.None? ==> types == old(types)
      ensures added.Some? ==>
        added.value.0 !in old(types) && types == old(types)[added.value.0 := added.value.1] &&
        TypeFrom(tables, sec, c, added.value.0, added.value.1)
    {
      added := None;
      if IsValidCreatureType(c) {
        return Ok(()), None;
      }
      var loaded := Types.LoadFromSection(tables, GetSection(sec, [c]));
      if loaded.Err? {
        return Err(loaded.error), None;
      }
      r := Ok(());
      if loaded.value.Some? {
        var t := loaded.value.value;
        if c != t.creatureType && IsValidCreatureType(t.creatureType) {
          AddType(c, t);
          added := Some((Lower(c), t));
        }
      }
    }

    /** _types.put: a new custom type under the lower-cased key c, on a base that is valid now. */
    method AddType(c: string, t: Types.CreatureType)
      requires Valid() && t.Valid() && !IsValidCreatureType(c) && IsValidCreatureType(t.creatureType)
      modifies this
      ensures Valid()
      ensures types == old(types)[Lower(c) := t] && Lower(c) !in old(types)
      ensures shapes == old(shapes) && playerCreatures == old(playerCreatures) && playerShapes == old(playerShapes)
    {
      TypeAddedConsistent(tables, types, registered, playerCreatures, playerShapes, c, t);
      TypesValidAdded(types, Lower(c), t);
      assert ShapesValid(shapes) && PlayerShapesStored(shapes, playerShapes);
      types, registered := types[Lower(c) := t], registered + [Lower(c)];
    }

    /**
     * The players part of load: a player not yet defined is kept when the
     * type it spawns (by default its own name) is valid, with the shapes its
     * list names.
     */
    method LoadPlayers(sec: Section) returns (r: Result<(), Exception>)
      requires Valid()
      modifies this
      ensures Valid()
      ensures shapes == old(shapes) && types == old(types) && registered == old(registered)
      ensures forall k :: k in old(playerCreatures) ==>
        k in playerCreatures && playerCreatures[k] == old(playerCreatures[k]) && playerShapes[k] == old(playerShapes[k])
      ensures r.Err? ==> r.error == NullPointer
      ensures r.Ok? ==> PlayersAccounted(sec)
      ensures PlayersFrom(shapes, sec, old(playerCreatures), playerCreatures, playerShapes)
    {
      var keys := Keys(sec);
      var i := 0;
      while i < |keys|
        invariant Valid()
        invariant shapes == old(shapes) && types == old(types) && registered == old(registered)
        invariant PlayersLoaded(tables, types.Keys, old(playerCreatures), old(playerShapes), playerCreatures, playerShapes, sec, keys, i)
        invariant PlayersFrom(shapes, sec, old(playerCreatures), playerCreatures, playerShapes)
      {
        ghost var pc, ps := playerCreatures, playerShapes;
        ghost var added;
        r, added := LoadPlayer(sec, keys[i]);
        if r.Err? {
          return;
        }
        if added.Some? {
          PlayersLoadedAdd(tables, types.Keys, old(playerCreatures), old(playerShapes), pc, ps,
                           added.value.0, added.value.1, added.value.2, sec, keys, i);
          PlayersFromKept(shapes, sec, old(playerCreatures), pc, ps, added.value.0, added.value.1, added.value.2, keys[i]);
        } else {
          PlayersLoadedSkip(tables, types.Keys, old(playerCreatures), old(playerShapes), pc, ps, sec, keys, i);
        }
        i := i + 1;
      }
      return Ok(());
    }

    /**
     * One key of the players section: a player not yet defined is kept when
     * the type it spawns (by default its own name) is valid, with the shapes
     * its list names; a missing section throws.
     */
    method LoadPlayer(sec: Section, c: string)
      returns (r: Result<(), Exception>, ghost added: Option<(string, string, seq<Shapes.CreatureShape>)>)
      requires Valid()
      modifies this
      ensures Valid()
      ensures shapes == old(shapes) && types == old(types) && registered == old(registered)
      ensures r.Err? ==> r.error == NullPointer && added.None?
      ensures r.Ok? && added.None? ==> PlayerAccounted(tables, types.Keys, playerCreatures, sec, c)
      ensures added.None? ==> playerCreatures == old(playerCreatures) && playerShapes == old(playerShapes)
      ensures added.Some? ==>
        added.value.0 !in old(playerCreatures) && added.value.0 == Lower(c) &&
        PlayerFrom(shapes, sec, c, added.value.0, added.value.1, added.value.2) &&
        playerCreatures == old(playerCreatures)[added.value.0 := added.value.1] &&
        playerShapes == old(playerShapes)[added.value.0 := added.value.2]
    {
      added := None;
      if GetPlayerCreature(c).Some? {
        return Ok(()), None;
      }
      var player := GetSection(sec, [c]);
      if player.None? {
        return Err(NullPointer), None;
      }
      r := Ok(());
      var spawn := PlayerSpawn(player.value, c);
      if IsValidCreatureType(spawn) {
        var found := CollectShapes(GetStringList(player.value, ["shapes"]));
        AddPlayer(c, spawn, found);
        added := Some((Lower(c), spawn, found));
      }
    }

    /** _playerShapes.put and _playerCreatures.put for a player not yet defined. */
    method AddPlayer(p: string, spawn: string, found: seq<Shapes.CreatureShape>)
      requires Valid() && Lower(p) !in playerCreatures && IsValidCreatureType(spawn)
      requires forall i :: 0 <= i < |found| ==> Stored(shapes, found[i])
      modifies this
      ensures Valid()
      ensures playerCreatures == old(playerCreatures)[Lower(p) := spawn]
      ensures playerShapes == old(playerShapes)[Lower(p) := found]
      ensures shapes == old(shapes) && types == old(types) && registered == old(registered)
    {
      LowerIdempotent(p);
      PlayerAddedNamed(tables, types.Keys, playerCreatures, playerShapes, Lower(p), spawn, found);
      PlayerAddedStored(shapes, playerShapes, Lower(p), found);
      playerShapes := playerShapes[Lower(p) := found];
      playerCreatures := playerCreatures[Lower(p) := spawn];
    }

    /** The loop over a player's shape list: the shapes it names, in order. */
    method CollectShapes(names: seq<string>) returns (found: seq<Shapes.CreatureShape>)
      ensures found == ShapesNamed(shapes, names)
    {
      found := [];
      var i := 0;
      while i < |names|
        invariant 0 <= i <= |names|
        invariant found == ShapesNamed(shapes, names[..i])
      {
        assert names[..i + 1][..i] == names[..i];
        var shape := GetCreatureShape(names[i]);
        if shape.Some? {
          found := found + [shape.value];
        }
        i := i + 1;
      }
      assert names[..i] == names;
    }

    /** _shapes.put: a new, valid shape under its lower-cased name, which is not yet taken. */
    method AddShape(key: string, shape: Shapes.CreatureShape)
      requires Valid() && shape.Valid() && key == Lower(shape.name)
      requires forall i :: 0 <= i < |shapes| ==> shapes[i].0 != key
      modifies this
      ensures Valid()
      ensures shapes == old(shapes) + [(key, shape)]
      ensures types == old(types) && registered == old(registered)
      ensures playerCreatures == old(playerCreatures) && playerShapes == old(playerShapes)
    {
      StoredShapesKept(shapes, (key, shape), playerShapes);
      shapes := shapes + [(key, shape)];
    }

    /** getCreatureShape(name): looked up by lower-cased name. */
    function GetCreatureShape(name: string): (r: Option<Shapes.CreatureShape>)
      reads this
      ensures r.Some? <==> exists i :: 0 <= i < |shapes| && shapes[i].0 == Lower(name)
      ensures r.Some? ==> exists i :: 0 <= i < |shapes| && shapes[i] == (Lower(name), r.value)
    {
      FindShape(shapes, Lower(name))
    }

    /** getCreatureType(name): looked up by lower-cased name. */
    function GetCreatureType(name: string): (r: Option<Types.CreatureType>)
      reads this
      ensures r.Some? <==> Lower(name) in types
      ensures r.Some? ==> r.value == types[Lower(name)]
    {
      if Lower(name) in types then Some(types[Lower(name)]) else None
    }

    /** getPlayerCreature(playerName). */
    function GetPlayerCreature(playerName: string): (r: Option<string>)
      reads this
      ensures r.Some? <==> Lower(playerName) in playerCreatures
      ensures r.Some? ==> r.value == playerCreatures[Lower(playerName)]
    {
      if Lower(playerName) in playerCreatures then Some(playerCreatures[Lower(playerName)]) else None
    }

    /** getPlayerShapes(playerName). */
    function GetPlayerShapes(playerName: string): (r: Option<seq<Shapes.CreatureShape>>)
      reads this
      ensures r.Some? <==> Lower(playerName) in playerShapes
      ensures r.Some? ==> r.value == playerShapes[Lower(playerName)]
    {
      if Lower(playerName) in playerShapes then Some(playerShapes[Lower(playerName)]) else None
    }

    /** Every shape listed for a player is one of the loaded shapes, and so well formed. */
    lemma PlayerShapesValid(playerName: string)
      requires Valid() && GetPlayerShapes(playerName).Some?
      ensures var list := GetPlayerShapes(playerName).value;
        forall k :: 0 <= k < |list| ==> list[k].Valid() && Stored(shapes, list[k])
    {
      var list := GetPlayerShapes(playerName).value;
      forall k | 0 <= k < |list| ensures list[k].Valid() && Stored(shapes, list[k]) {
        assert Stored(shapes, list[k]);
      }
    }

    /** isVanillaCreatureType: a predefined variant or any entity type. */
    function IsVanillaCreatureType(name: string): (b: bool)
      ensures b <==> FromName(name).Some? || EntityTypeNamed(tables, name).Some?
    {
      FromName(name).Some? || EntityTypeNamed(tables, name).Some?
    }

    /** isValidCreatureType: a custom type, a predefined variant, or a living entity type. */
    predicate IsValidCreatureType(name: string): (b: bool)
      reads this
      // Any defined custom type is valid, whatever it is based on.
      ensures Lower(name) in types ==> b
      // Anything else valid is a name the server or the variants know.
      ensures b && Lower(name) !in types ==> IsVanillaCreatureType(name)
    {
      ValidIn(tables, types.Keys, name)
    }

    /** Every predefined variant, and every vanilla type that is living, is valid whatever is loaded. */
    lemma VanillaLivingIsValid(name: string)
      requires FromName(name).Some? || (EntityTypeNamed(tables, name).Some? && EntityTypeNamed(tables, name).value.living)
      ensures IsVanillaCreatureType(name) && IsValidCreatureType(name)
    {
    }

    /** The rank of a name in the chain of custom bases: its definition index + 1, or 0 if not custom. */
    ghost function Rank(name: string): nat
      reads this
      requires Settled()
    {
      if Lower(name) in types then IndexOf(registered, Lower(name)) + 1 else 0
    }

    /** A custom type's base has a lower rank than the type itself. */
    lemma BaseRankDecreases(key: string)
      requires Settled() && key in types
      ensures Rank(types[key].creatureType) < Rank(key)
    {
      LowerIdempotent(key);
      var i := IndexOf(registered, key);
      var b := Lower(types[key].creatureType);
      if b in types {
        var j :| 0 <= j < i && registered[j] == b;
        var k := IndexOf(registered, b);
        assert k == j;
        LowerIdempotent(types[key].creatureType);
      }
    }

    /**
     * The vanilla type a name finally spawns as, following the chain of
     * custom bases; the chain is finite because bases are defined first.
     */
    ghost function RootType(name: string): (r: string)
      reads this
      requires Settled()
      ensures Lower(r) !in types
      ensures IsValidCreatureType(name) ==> IsValidCreatureType(r)
      decreases Rank(name)
    {
      if Lower(name) in types then
        BaseRankDecreases(Lower(name));
        LowerIdempotent(name);
        RootType(types[Lower(name)].creatureType)
      else name
    }

    /** Shape i is complete and none before it is. */
    ghost predicate FirstComplete(world: World, loc: Location, placedItemId: int, i: nat)
      reads this, ShapeObjects()
      requires i < |shapes|
    {
      Complete(shapes[i].1, world, loc, placedItemId) &&
      forall j :: 0 <= j < i ==> !Complete(shapes[j].1, world, loc, placedItemId)
    }

    /** getCreatureShape(loc, placedItem): the first complete shape, in definition order. */
    method GetCreatureShapeAt(world: World, loc: Location, placedItemId: int) returns (r: Option<Shapes.CreatureShape>)
      requires Valid()
      ensures r.Some? ==>
        exists i :: 0 <= i < |shapes| && shapes[i].1 == r.value && FirstComplete(world, loc, placedItemId, i)
      ensures r.None? ==> forall j :: 0 <= j < |shapes| ==> !Complete(shapes[j].1, world, loc, placedItemId)
    {
      var i := 0;
      while i < |shapes|
        invariant 0 <= i <= |shapes|
        invariant forall j :: 0 <= j < i ==> !Complete(shapes[j].1, world, loc, placedItemId)
      {
        var complete := shapes[i].1.IsComplete(world, loc, placedItemId);
        if complete {
          return Some(shapes[i].1);
        }
        i := i + 1;
      }
      return None;
    }

    /**
     * spawnCreature. A custom type plays its effects, schedules its escorts,
     * spawns its base type, customises it and, when its mount is valid, sets
     * it riding a newly spawned mount. The creature is then named, given a
     * player's head and stopped from picking up items. Nothing spawned means
     * the final call dereferences null. Each level of custom type or mount
     * uses up one unit of the call stack (fuel).
     */
    method SpawnCreature(server: Server, rng: Rng, creatureType: Option<string>, loc: Location, name: Option<string>, fuel: nat)
      returns (r: Result<LivingEntity, Exception>)
      requires Settled() && rng.Valid()
      modifies server, rng
      ensures creatureType.None? ==> r == Err(NullPointer)
      ensures creatureType.Some? && !IsValidCreatureType(creatureType.value) ==> r == Err(NullPointer)
      ensures r.Ok? ==> fresh(r.value) && creatureType.Some? && IsValidCreatureType(creatureType.value)
      ensures r.Ok? ==> r.value.location == loc
      ensures r.Ok? ==> !r.value.attrs.canPickupItems
      // A non-custom valid type always spawns, as that variant or that entity type.
      ensures creatureType.Some? && VanillaValid(creatureType.value) ==> r.Ok? && VanillaSpawn(creatureType.value, r.value)
      // The used name (the given one, else the type's default name) is shown on the creature.
      ensures r.Ok? ==>
        var used := UsedName(GetCreatureType(creatureType.value), name);
        used.Some? && used.value != "" ==> r.value.attrs.customName == used && r.value.attrs.customNameVisible
      // Whatever custom types it passes through, the creature is of its root vanilla type.
      ensures r.Ok? ==> VanillaSpawn(RootType(creatureType.value), r.value)
      // The creature wears the head of its mask or name unless its type keeps its helmet.
      ensures r.Ok? ==>
        var head := HeadName(GetCreatureType(creatureType.value), name);
        head.Some? ==> WearsHead(r.value.attrs, head.value)
      // A custom type's creature is its customised base, then named.
      ensures r.Ok? && GetCreatureType(creatureType.value).Some? ==>
        var t := GetCreatureType(creatureType.value);
        exists a: Attrs :: r.value.attrs ==
          Named(Types.Customised(t.value.settings, t.value.potions, a), UsedName(t, name), HeadName(t, name), tables.playerHead)
      // ... and rides a newly spawned mount when the type's mount is valid.
      ensures r.Ok? && GetCreatureType(creatureType.value).Some? ==>
        var mount := GetCreatureType(creatureType.value).value.settings.mount;
        mount.Some? && IsValidCreatureType(mount.value) ==>
          exists m: LivingEntity :: fresh(m) && m != r.value && m.location == loc && m.passenger == Some(r.value)
      decreases fuel, 2
    {
      if creatureType.None? {
        return Err(NullPointer);
      }
      var ct := creatureType.value;
      var t := GetCreatureType(ct);
      if t.Some? {
        ghost var mount;
        r, mount := SpawnCustomNamed(server, rng, t.value, loc, name, fuel);
        if r.Ok? {
          ghost var a :| r.value.attrs ==
            Named(Types.Customised(t.value.settings, t.value.potions, a), UsedName(t, name), HeadName(t, name), tables.playerHead);
        }
        return;
      }
      r := SpawnVanilla(ct, loc);
      if r.Ok? {
        var living := r.value;
        living.attrs := Named(living.attrs, UsedName(t, name), HeadName(t, name), tables.playerHead);
      }
    }

    /** The custom-type branch of spawnCreature: the customised base, then named. */
    method SpawnCustomNamed(server: Server, rng: Rng, ty: Types.CreatureType, loc: Location, name: Option<string>, fuel: nat)
      returns (r: Result<LivingEntity, Exception>, ghost mount: Option<LivingEntity>)
      requires Settled() && rng.Valid() && Types.SettingsValid(ty.settings)
      modifies server, rng
      ensures r.Ok? ==> fresh(r.value) && r.value.location == loc
      ensures r.Ok? ==> VanillaSpawn(RootType(ty.creatureType), r.value)
      ensures r.Ok? ==> exists a: Attrs :: (r.value.attrs ==
        Named(Types.Customised(ty.settings, ty.potions, a), UsedName(Some(ty), name), HeadName(Some(ty), name), tables.playerHead))
      ensures r.Ok? && ty.settings.mount.Some? && IsValidCreatureType(ty.settings.mount.value) ==>
        mount.Some? && fresh(mount.value) && mount.value != r.value &&
        mount.value.location == loc && mount.value.passenger == Some(r.value)
      ensures fuel == 0 ==> r == Err(StackOverflow)
      decreases fuel, 1
    {
      r, mount := SpawnCustom(server, rng, ty, loc, fuel);
      if r.Ok? {
        var living := r.value;
        ghost var a :| living.attrs == Types.Customised(ty.settings, ty.potions, a);
        living.attrs := Named(living.attrs, UsedName(Some(ty), name), HeadName(Some(ty), name), tables.playerHead);
        assert living.attrs ==
          Named(Types.Customised(ty.settings, ty.potions, a), UsedName(Some(ty), name), HeadName(Some(ty), name), tables.playerHead);
      }
    }

    /** The custom-type branch of spawnCreature, before naming. */
    method SpawnCustom(server: Server, rng: Rng, ty: Types.CreatureType, loc: Location, fuel: nat)
      returns (r: Result<LivingEntity, Exception>, ghost mount: Option<LivingEntity>)
      requires Settled() && rng.Valid() && Types.SettingsValid(ty.settings)
      modifies server, rng
      ensures r.Ok? ==> fresh(r.value) && r.value.location == loc
      ensures r.Ok? ==> VanillaSpawn(RootType(ty.creatureType), r.value)
      // The base creature carries the type's overrides.
      ensures r.Ok? ==> exists a: Attrs :: r.value.attrs == Types.Customised(ty.settings, ty.potions, a)
      // A valid mount is spawned at the same place, with the creature riding it.
      ensures r.Ok? && ty.settings.mount.Some? && IsValidCreatureType(ty.settings.mount.value) ==>
        mount.Some? && fresh(mount.value) && mount.value != r.value &&
        mount.value.location == loc && mount.value.passenger == Some(r.value)
      ensures fuel == 0 ==> r == Err(StackOverflow)
      decreases fuel, 0
    {
      mount := None;
      if fuel == 0 {
        return Err(StackOverflow), None;
      }
      PlayEffects(server, rng, ty, loc);
      var base := SpawnCreature(server, rng, Some(ty.creatureType), loc, None, fuel - 1);
      if base.Err? {
        return base, None;
      }
      var living := base.value;
      ghost var spawned := living.attrs;
      ty.Customise(living);
      assert living.attrs == Types.Customised(ty.settings, ty.potions, spawned);
      if ty.settings.mount.Some? && IsValidCreatureType(ty.settings.mount.value) {
        var ridden := SpawnCreature(server, rng, ty.settings.mount, loc, None, fuel - 1);
        if ridden.Err? {
          return ridden, None;
        }
        ridden.value.passenger := Some(living);
        mount := Some(ridden.value);
      }
      assert living.attrs == Types.Customised(ty.settings, ty.potions, spawned);
      return Ok(living), mount;
    }

    /** The spawn effects and escorts of a custom type, as its own methods state them. */
    static method PlayEffects(server: Server, rng: Rng, ty: Types.CreatureType, loc: Location)
      requires Types.SettingsValid(ty.settings) && rng.Valid()
      modifies server, rng
      ensures rng.next >= old(rng.next) + 2 && |server.effects| >= |old(server.effects)|
    {
      ty.DoSpawnEffects(server, rng, loc);
      ty.SpawnEscorts(server, rng);
    }

    /** A non-empty valid name that is not a custom type. */
    predicate VanillaValid(ct: string)
      reads this
    {
      ct != "" && GetCreatureType(ct).None? && IsValidCreatureType(ct)
    }

    /** The creature wears the named player's head. */
    predicate WearsHead(a: Attrs, owner: string)
    {
      a.equipment.helmet.Some? && a.equipment.helmet.value.material == tables.playerHead &&
      a.equipment.helmet.value.meta.skullOwner == Some(owner)
    }

    /** A vanilla spawn: the predefined variant named ct, else a living entity of the type named ct. */
    ghost predicate VanillaSpawn(ct: string, e: LivingEntity)
      reads e
    {
      if FromName(ct).Some? then FromLivingEntity(e.traits) == FromName(ct)
      else Some(e.entityType) == EntityTypeNamed(tables, ct) && e.entityType.living
    }

    /** The vanilla branch of spawnCreature: a predefined variant or an entity type; nothing for anything else. */
    method SpawnVanilla(ct: string, loc: Location) returns (r: Result<LivingEntity, Exception>)
      ensures r.Ok? ==> fresh(r.value) && ct != "" && VanillaSpawn(ct, r.value) && r.value.location == loc
      ensures r.Ok? <==> ct != "" && (FromName(ct).Some? || (EntityTypeNamed(tables, ct).Some? && EntityTypeNamed(tables, ct).value.living))
      ensures r.Err? ==> r.error == NullPointer
    {
      if ct == "" {
        // An empty name spawns nothing: the final dereference throws.
        return Err(NullPointer);
      }
      var predefined := FromName(ct);
      if predefined.Some? {
        var et := tables.entityOfKind(BaseKind(predefined.value));
        FromSpawnRoundTrip(predefined.value, tables.freshTraits(et));
        var living := new LivingEntity(et, SpawnTraits(predefined.value, tables.freshTraits(et)), loc, tables.freshAttrs(et));
        return Ok(living);
      }
      var et := EntityTypeNamed(tables, ct);
      if et.None? || !et.value.living {
        return Err(NullPointer);
      }
      var living := new LivingEntity(et.value, tables.freshTraits(et.value), loc, tables.freshAttrs(et.value));
      return Ok(living);
    }
  }
}
