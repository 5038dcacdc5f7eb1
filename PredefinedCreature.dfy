/**
 * PredefinedCreature: the vanilla variants that are spawned by setting an
 * attribute on a base entity class rather than by an entity type of their own.
 * Each variant has a recogniser and a spawn; the variants are looked up by
 * case-insensitive name and recognised in declaration order.
 */
module Predefined {
  import opened Wrappers
  import opened JavaLang
  import opened Host

  datatype PredefinedCreature =
    | WitherSkeleton | SaddledPig | ZombieVillager
    | Blacksmith | Butcher | Farmer | Librarian | Priest

  /** values(): the variants in declaration order. */
  const Values: seq<PredefinedCreature> :=
    [WitherSkeleton, SaddledPig, ZombieVillager, Blacksmith, Butcher, Farmer, Librarian, Priest]

  /** name(): the enum constant's name. */
  function Name(p: PredefinedCreature): string
  {
    match p
    case WitherSkeleton => "WitherSkeleton"
    case SaddledPig => "SaddledPig"
    case ZombieVillager => "ZombieVillager"
    case Blacksmith => "Blacksmith"
    case Butcher => "Butcher"
    case Farmer => "Farmer"
    case Librarian => "Librarian"
    case Priest => "Priest"
  }

  /** The entity class a variant is spawned as. */
  function BaseKind(p: PredefinedCreature): Kind
  {
    match p
    case WitherSkeleton => Skeleton
    case SaddledPig => Pig
    case ZombieVillager => Zombie
    case _ => Villager
  }

  /** The profession a villager variant is given. */
  function ProfessionOf(p: PredefinedCreature): Profession
    requires BaseKind(p) == Villager
  {
    match p
    case Blacksmith => BLACKSMITH
    case Butcher => BUTCHER
    case Farmer => FARMER
    case Librarian => LIBRARIAN
    case Priest => PRIEST
  }

  /** isInstance: the entity has the variant's class and its refining attribute. */
  predicate IsInstance(p: PredefinedCreature, t: Traits): (b: bool)
    // A recognised entity has the variant's class, or for a zombie villager the pig zombie class too.
    ensures b ==> t.kind == BaseKind(p) || (p == ZombieVillager && t.kind == PigZombie)
    // A villager variant is recognised by its profession alone.
    ensures BaseKind(p) == Villager ==> (b <==> t.kind == Villager && t.profession == ProfessionOf(p))
  {
    match p
    case WitherSkeleton => t.kind == Skeleton && t.wither
    case SaddledPig => t.kind == Pig && t.saddled
    case ZombieVillager => IsZombie(t.kind) && t.villagerZombie
    case _ => t.kind == Villager && t.profession == ProfessionOf(p)
  }

  /**
   * spawn: the entity of the variant's class that the world spawns (base),
   * with the variant's attribute set.
   */
  function SpawnTraits(p: PredefinedCreature, base: Traits): (t: Traits)
    ensures t.kind == BaseKind(p)
  {
    match p
    case WitherSkeleton => base.(kind := Skeleton, wither := true)
    case SaddledPig => base.(kind := Pig, saddled := true)
    case ZombieVillager => base.(kind := Zombie, villagerZombie := true)
    case _ => base.(kind := Villager, profession := ProfessionOf(p))
  }

  /** Each variant's spawn yields an entity its own recogniser accepts. */
  lemma SpawnIsInstance(p: PredefinedCreature, base: Traits)
    ensures IsInstance(p, SpawnTraits(p, base))
  {
  }

  /** No entity is an instance of two variants. */
  lemma RecognisersDisjoint(p: PredefinedCreature, q: PredefinedCreature, t: Traits)
    requires IsInstance(p, t) && IsInstance(q, t)
    ensures p == q
  {
  }

  /** The first variant, from the start of vs, whose recogniser accepts t. */
  function FirstInstance(vs: seq<PredefinedCreature>, t: Traits): (r: Option<PredefinedCreature>)
    ensures r.Some? ==> r.value in vs && IsInstance(r.value, t)
    ensures r.Some? ==> exists i :: 0 <= i < |vs| && vs[i] == r.value && forall j :: 0 <= j < i ==> !IsInstance(vs[j], t)
    ensures r.None? ==> forall q :: q in vs ==> !IsInstance(q, t)
  {
    if |vs| == 0 then None
    else if IsInstance(vs[0], t) then Some(vs[0])
    else
      var r := FirstInstance(vs[1..], t);
      assert forall i :: 1 <= i < |vs| ==> vs[i] == vs[1..][i - 1];
      if r.Some? then
        ghost var i :| 0 <= i < |vs[1..]| && vs[1..][i] == r.value && forall j :: 0 <= j < i ==> !IsInstance(vs[1..][j], t);
        assert vs[i + 1] == r.value;
        r
      else r
  }

  /** fromLivingEntity: the first variant in declaration order that recognises the entity. */
  function FromLivingEntity(t: Traits): (r: Option<PredefinedCreature>)
    ensures r.Some? ==> IsInstance(r.value, t)
    ensures r.None? <==> forall q: PredefinedCreature :: !IsInstance(q, t)
  {
    AllValues();
    FirstInstance(Values, t)
  }

  /** Every variant is among the values. */
  lemma AllValues()
    ensures forall q: PredefinedCreature :: q in Values
  {
    forall q: PredefinedCreature ensures q in Values {
      match q
      case WitherSkeleton => assert Values[0] == q;
      case SaddledPig => assert Values[1] == q;
      case ZombieVillager => assert Values[2] == q;
      case Blacksmith => assert Values[3] == q;
      case Butcher => assert Values[4] == q;
      case Farmer => assert Values[5] == q;
      case Librarian => assert Values[6] == q;
      case Priest => assert Values[7] == q;
    }
  }

  /** Recognising the spawn of a variant gives back that variant. */
  lemma FromSpawnRoundTrip(p: PredefinedCreature, base: Traits)
    ensures FromLivingEntity(SpawnTraits(p, base)) == Some(p)
  {
    SpawnIsInstance(p, base);
    var r := FromLivingEntity(SpawnTraits(p, base));
    RecognisersDisjoint(p, r.value, SpawnTraits(p, base));
  }

  /**
   * BY_NAME.get: the static initialiser puts every variant of values() under
   * its lower-cased name, so a lookup finds the variant whose lower-cased
   * name is the key. The lookup scans values() in order; the names are
   * distinct (LowerNamesDistinct), so that is the one variant stored there.
   */
  function ByNameGet(key: string): Option<PredefinedCreature>
  {
    Lookup(key, Values)
  }

  /** The first variant of ps whose lower-cased name is key. */
  function Lookup(key: string, ps: seq<PredefinedCreature>): Option<PredefinedCreature>
  {
    if ps == [] then None
    else if Lower(Name(ps[0])) == key then Some(ps[0])
    else Lookup(key, ps[1..])
  }

  /**
   * fromName: the lower-cased name looked up in BY_NAME. Its properties are
   * the lemmas below, so that uses of it stay cheap to verify.
   */
  function FromName(name: string): (r: Option<PredefinedCreature>)
    ensures r.Some? ==> Lower(Name(r.value)) == Lower(name)
    ensures r.None? ==> forall p: PredefinedCreature :: Lower(Name(p)) != Lower(name)
  {
    LookupFinds(Lower(name), Values);
    AllValues();
    ByNameGet(Lower(name))
  }

  /** A lookup finds a variant of ps with that lower-cased name, and fails only when there is none. */
  lemma {:induction false} LookupFinds(key: string, ps: seq<PredefinedCreature>)
    ensures Lookup(key, ps).Some? ==> Lookup(key, ps).value in ps && Lower(Name(Lookup(key, ps).value)) == key
    ensures Lookup(key, ps).None? ==> forall p :: p in ps ==> Lower(Name(p)) != key
  {
    if ps != [] && Lower(Name(ps[0])) != key {
      LookupFinds(key, ps[1..]);
      assert forall p :: p in ps ==> p == ps[0] || p in ps[1..];
    }
  }

  /** A string lower-cases to t when each of its characters does. */
  lemma LowerOf(s: string, t: string)
    requires |s| == |t| && forall i :: 0 <= i < |s| ==> LowerChar(s[i]) == t[i]
    ensures Lower(s) == t
  {
  }

  /** The lower-cased name of each variant, the key BY_NAME holds it under. */
  lemma LowerNames(p: PredefinedCreature)
    ensures Lower(Name(p)) == match p
      case WitherSkeleton => "witherskeleton"
      case SaddledPig => "saddledpig"
      case ZombieVillager => "zombievillager"
      case Blacksmith => "blacksmith"
      case Butcher => "butcher"
      case Farmer => "farmer"
      case Librarian => "librarian"
      case Priest => "priest"
  {
    match p
    case WitherSkeleton => LowerOf("WitherSkeleton", "witherskeleton");
    case SaddledPig => LowerOf("SaddledPig", "saddledpig");
    case ZombieVillager => LowerOf("ZombieVillager", "zombievillager");
    case Blacksmith => LowerOf("Blacksmith", "blacksmith");
    case Butcher => LowerOf("Butcher", "butcher");
    case Farmer => LowerOf("Farmer", "farmer");
    case Librarian => LowerOf("Librarian", "librarian");
    case Priest => LowerOf("Priest", "priest");
  }

  /** No two variants share a lower-cased name, so BY_NAME has one key per variant. */
  lemma LowerNamesDistinct(p: PredefinedCreature, q: PredefinedCreature)
    requires Lower(Name(p)) == Lower(Name(q))
    ensures p == q
  {
    LowerNames(p);
    LowerNames(q);
  }

  /** fromName succeeds on exactly the lower-cased variant names, and finds that variant. */
  lemma FromNameExactlyVariants(name: string)
    ensures FromName(name).Some? <==> exists p: PredefinedCreature :: Lower(name) == Lower(Name(p))
    ensures forall p: PredefinedCreature :: Lower(name) == Lower(Name(p)) ==> FromName(name) == Some(p)
  {
    LookupFinds(Lower(name), Values);
    AllValues();
    forall p: PredefinedCreature | Lower(name) == Lower(Name(p))
      ensures FromName(name) == Some(p)
    {
      LowerNamesDistinct(p, FromName(name).value);
    }
  }

  /** The name of every variant finds it again, whatever its case. */
  lemma FromNameOfName(p: PredefinedCreature)
    ensures FromName(Name(p)) == Some(p)
    ensures FromName(Lower(Name(p))) == Some(p)
  {
    FromNameExactlyVariants(Name(p));
    FromNameExactlyVariants(Lower(Name(p)));
    LowerIdempotent(Name(p));
  }

  /** Looking a name up is insensitive to its case. */
  lemma FromNameCaseInsensitive(name: string)
    ensures FromName(Lower(name)) == FromName(name)
  {
    LowerIdempotent(name);
  }
}
