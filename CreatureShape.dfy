/**
 * CreatureShape: the blocks that must stand around a placed trigger block for
 * a creature to be summoned. A shape holds the trigger's material id, the body
 * as parallel lists of material ids and integer offsets from the trigger, the
 * lowest body offset on the Y axis (never above 0), and a weighted choice of
 * the creature types it summons.
 */
module Shapes {
  import opened Wrappers
  import opened JavaLang
  import opened Config
  import CM = ConfigMaps
  import opened Volumes
  import opened Host
  import opened Weighted

  /** The ground offset after adding the given offsets in order: min(0, every Y offset). */
  function GroundOf(offsets: seq<Pos>): int
  {
    if |offsets| == 0 then 0
    else
      var g := GroundOf(offsets[..|offsets| - 1]);
      var y := offsets[|offsets| - 1].1;
      if y < g then y else g
  }

  /** The ground offset is the minimum of 0 and the Y offsets: a lower bound that is attained. */
  lemma {:induction false} GroundIsMinimum(offsets: seq<Pos>)
    ensures GroundOf(offsets) <= 0
    ensures forall i :: 0 <= i < |offsets| ==> GroundOf(offsets) <= offsets[i].1
    ensures GroundOf(offsets) == 0 || exists i :: 0 <= i < |offsets| && offsets[i].1 == GroundOf(offsets)
  {
    if |offsets| > 0 {
      var init := offsets[..|offsets| - 1];
      GroundIsMinimum(init);
      assert forall i :: 0 <= i < |init| ==> init[i] == offsets[i];
      if GroundOf(init) != 0 && GroundOf(offsets) == GroundOf(init) {
        var i :| 0 <= i < |init| && init[i].1 == GroundOf(init);
        assert offsets[i].1 == GroundOf(offsets);
      }
    }
  }

  class CreatureShape {
    const name: string
    const triggerMaterialId: int
    const enabled: bool
    /** Expected material id at the corresponding offset from the trigger block. */
    var materialIds: seq<int>
    var offsets: seq<Pos>
    /** The Y offset of the lowest body block, or 0 when none is below the trigger. */
    var groundOffset: int
    /** The weighted choice of creature type names to summon. */
    const types: WeightedSelection<string>

    ghost predicate Valid()
      reads this, types
    {
      |materialIds| == |offsets| && groundOffset == GroundOf(offsets) && types.Valid()
    }

    constructor (name: string, triggerMaterialId: int, enabled: bool)
      ensures Valid() && fresh(types)
      ensures this.name == name && this.triggerMaterialId == triggerMaterialId && this.enabled == enabled
      ensures materialIds == [] && offsets == [] && groundOffset == 0 && types.added == []
    {
      this.name := name;
      this.triggerMaterialId := triggerMaterialId;
      this.enabled := enabled;
      materialIds := [];
      offsets := [];
      groundOffset := 0;
      types := new WeightedSelection<string>();
    }

    /** addCreatureBlock: both lists grow in lockstep and the ground offset follows the lowest Y. */
    method AddCreatureBlock(material: int, offset: Pos)
      requires Valid()
      modifies this
      ensures Valid()
      ensures materialIds == old(materialIds) + [material] && offsets == old(offsets) + [offset]
      ensures groundOffset == if offset.1 < old(groundOffset) then offset.1 else old(groundOffset)
    {
      materialIds := materialIds + [material];
      offsets := offsets + [offset];
      if offset.1 < groundOffset {
        groundOffset := offset.1;
      }
      assert offsets[..|offsets| - 1] == old(offsets);
    }

    /** addCreatureType: one more weighted choice of creature type. */
    method AddCreatureType(typeName: string, weight: real)
      requires Valid()
      modifies types
      ensures Valid() && types.added == old(types.added) + [(typeName, weight)]
    {
      types.AddChoice(typeName, weight);
    }

    /** chooseCreatureType, with the uniform draw as a parameter. */
    function ChooseCreatureType(r: real): (c: Option<string>)
      reads this, types
      requires Valid()
      ensures types.choices == [] ==> c.None?
      ensures types.choices != [] && 0.0 <= r < 1.0 ==> c.Some?
      ensures c.Some? ==> exists i: nat :: i < |types.choices| && types.choices[i].1 == c.value
    {
      types.Choose(r)
    }

    /** getCreatureBlock: the position of body block i when the trigger is at loc. */
    function CreatureBlock(loc: Location, i: nat): (p: Pos)
      reads this
      requires i < |offsets|
      // Block i lies its own offset away from the trigger's block.
      ensures (p.0 - BlockOf(loc).0, p.1 - BlockOf(loc).1, p.2 - BlockOf(loc).2) == offsets[i]
    {
      Offset(BlockOf(loc), offsets[i])
    }

    /** Every body block is in place around a trigger at loc. */
    ghost predicate Matches(world: World, loc: Location)
      reads this
      requires |materialIds| == |offsets|
    {
      forall i :: 0 <= i < |materialIds| ==> BlockAt(world, CreatureBlock(loc, i)) == materialIds[i]
    }

    /** p is one of the first n body positions around a trigger at loc. */
    ghost predicate InBody(loc: Location, p: Pos, n: nat)
      reads this
      requires n <= |offsets|
    {
      exists j :: 0 <= j < n && CreatureBlock(loc, j) == p
    }

    /** isCreatureShape: the world holds each body material at its offset; an empty body always matches. */
    method IsCreatureShape(world: World, loc: Location) returns (b: bool)
      requires Valid()
      ensures b <==> Matches(world, loc)
      ensures materialIds == [] ==> b
    {
      var i := 0;
      while i < |materialIds|
        invariant 0 <= i <= |materialIds|
        invariant forall j :: 0 <= j < i ==> BlockAt(world, CreatureBlock(loc, j)) == materialIds[j]
      {
        if BlockAt(world, CreatureBlock(loc, i)) != materialIds[i] {
          return false;
        }
        i := i + 1;
      }
      return true;
    }

    /** isComplete: enabled, placed with the trigger material, and the body matches. */
    method IsComplete(world: World, loc: Location, placedItemId: int) returns (b: bool)
      requires Valid()
      ensures b <==> enabled && triggerMaterialId == placedItemId && Matches(world, loc)
      ensures !enabled ==> !b
    {
      if !enabled || triggerMaterialId != placedItemId {
        return false;
      }
      b := IsCreatureShape(world, loc);
    }

    /** vaporise: exactly the body positions become air; every other block is unchanged. */
    method Vaporise(world: World, loc: Location) returns (w: World)
      requires Valid()
      ensures forall p :: BlockAt(w, p) == if InBody(loc, p, |offsets|) then AIR else BlockAt(world, p)
    {
      w := world;
      var i := 0;
      while i < |offsets|
        invariant 0 <= i <= |offsets|
        invariant forall p :: BlockAt(w, p) == if InBody(loc, p, i) then AIR else BlockAt(world, p)
      {
        var p := CreatureBlock(loc, i);
        var before := w;
        w := w[p := AIR];
        forall q ensures BlockAt(w, q) == if InBody(loc, q, i + 1) then AIR else BlockAt(world, q) {
          if q == p {
            assert CreatureBlock(loc, i) == q;
          } else if InBody(loc, q, i + 1) {
            var j :| 0 <= j < i + 1 && CreatureBlock(loc, j) == q;
            assert InBody(loc, q, i);
          } else {
            assert BlockAt(w, q) == BlockAt(before, q);
          }
        }
        i := i + 1;
      }
    }

    /** Once vaporised, a body with any non-air block no longer stands around the trigger. */
    lemma VaporisedShapeIsGone(world: World, w: World, loc: Location, k: nat)
      requires Valid()
      requires forall p :: BlockAt(w, p) == if InBody(loc, p, |offsets|) then AIR else BlockAt(world, p)
      requires k < |materialIds| && materialIds[k] != AIR
      ensures !Matches(w, loc)
    {
      assert InBody(loc, CreatureBlock(loc, k), |offsets|);
    }

    /**
     * The body loop of loadFromSection: add each entry's block in order; stop
     * at an entry that throws, and report an entry that rejects the shape.
     */
    method LoadBody(tables: Tables, blocks: seq<seq<(string, Value)>>, context: string) returns (rejected: bool)
      requires Valid()
      modifies this
      ensures Valid()
      ensures rejected <==> BodyLoad(tables, blocks, context).outcome == Rejected
      ensures !rejected ==>
        materialIds == old(materialIds) + BodyLoad(tables, blocks, context).materials &&
        offsets == old(offsets) + BodyLoad(tables, blocks, context).offsets
    {
      var i := 0;
      ghost var ms: seq<int>, os: seq<Pos> := [], [];
      while i < |blocks|
        invariant 0 <= i <= |blocks| && Valid()
        invariant materialIds == old(materialIds) + ms && offsets == old(offsets) + os
        invariant BodyLoad(tables, blocks, context) == Prepend(ms, os, BodyLoad(tables, blocks[i..], context))
      {
        var step := ReadBlock(tables, blocks, i, context, ms, os);
        if step.Reject? {
          return true;
        } else if step.Throw? {
          return false;
        }
        AddCreatureBlock(step.material, step.offset);
        assert materialIds == old(materialIds) + (ms + [step.material]);
        assert offsets == old(offsets) + (os + [step.offset]);
        ms, os := ms + [step.material], os + [step.offset];
        i := i + 1;
      }
      assert blocks[i..] == [];
      assert ms + [] == ms && os + [] == os;
      return false;
    }

    /**
     * One entry of the body list: the block it adds, or whether it rejects
     * the shape or throws, and so how the load goes on after the blocks ms
     * and os already added.
     */
    static method ReadBlock(tables: Tables, blocks: seq<seq<(string, Value)>>, i: nat, context: string,
                            ghost ms: seq<int>, ghost os: seq<Pos>) returns (step: Step)
      requires i < |blocks|
      ensures
        var b := Prepend(ms, os, BodyLoad(tables, blocks[i..], context));
        match step
        case Reject => b == Body(ms, os, Rejected)
        case Throw => b == Body(ms, os, Stopped)
        case Add(m, o) => b == Prepend(ms + [m], os + [o], BodyLoad(tables, blocks[i + 1..], context))
    {
      BodyLoadUnfold(tables, blocks, i, context);
      step := BlockStep(tables, CM.ConfigMap(blocks[i], context));
      var rest := BodyLoad(tables, blocks[i + 1..], context);
      assert ms + [] == ms && os + [] == os;
      if step.Add? {
        assert ms + ([step.material] + rest.materials) == (ms + [step.material]) + rest.materials;
        assert os + ([step.offset] + rest.offsets) == (os + [step.offset]) + rest.offsets;
      }
    }

    /** The summon loop of loadFromSection: add each entry's choice in order, up to one that throws. */
    method LoadSummons(summons: seq<seq<(string, Value)>>, context: string)
      requires Valid()
      modifies types
      ensures Valid() && types.added == old(types.added) + SummonLoad(summons, context)
    {
      var i := 0;
      while i < |summons|
        invariant 0 <= i <= |summons| && Valid()
        invariant old(types.added) + SummonLoad(summons, context) == types.added + SummonLoad(summons[i..], context)
      {
        assert summons[i..][1..] == summons[i + 1..];
        match SummonStep(CM.ConfigMap(summons[i], context))
        case None =>
          return;
        case Some(c) =>
          AddCreatureType(c.0, c.1);
          i := i + 1;
      }
      assert summons[i..] == [];
    }
  }

  /** What loading one body entry does: add a block, reject the shape, or throw. */
  datatype Step = Add(material: int, offset: Pos) | Reject | Throw

  /** The checks and conversions for body entry m. */
  function BlockStep(tables: Tables, m: CM.ConfigMap): Step
  {
    match CM.GetString(m, "material", Some(""))
    case Err(_) => Throw
    case Ok(materialName) =>
      var mat := tables.matchMaterial(materialName.GetOr(""));
      match CM.GetNumberList(m, "offset", None)
      case Err(_) => Throw
      case Ok(offset) =>
        if mat.Some? && offset.Some? && |offset.value| == 3 then
          // Each element is cast to Number; a non-number throws ClassCastException.
          match (NumberToInt(offset.value[0]), NumberToInt(offset.value[1]), NumberToInt(offset.value[2]))
          case (Some(x), Some(y), Some(z)) => Add(mat.value, (x, y, z))
          case _ => Throw
        else Reject
  }

  datatype Outcome = Done | Stopped | Rejected

  /** The blocks a body list yields, and how loading it ends. */
  datatype Body = Body(materials: seq<int>, offsets: seq<Pos>, outcome: Outcome)

  /** The blocks ms and os added before a body load b. */
  function Prepend(ms: seq<int>, os: seq<Pos>, b: Body): Body
  {
    Body(ms + b.materials, os + b.offsets, b.outcome)
  }

  /** The body loaded from the entries: blocks up to the first entry that rejects the shape or throws. */
  function BodyLoad(tables: Tables, entries: seq<seq<(string, Value)>>, context: string): (b: Body)
    ensures |b.materials| == |b.offsets|
  {
    if |entries| == 0 then Body([], [], Done)
    else
      match BlockStep(tables, CM.ConfigMap(entries[0], context))
      case Reject => Body([], [], Rejected)
      case Throw => Body([], [], Stopped)
      case Add(m, o) =>
        var rest := BodyLoad(tables, entries[1..], context);
        Body([m] + rest.materials, [o] + rest.offsets, rest.outcome)
  }

  /** One step of the body loop: the load from entry i on, in terms of entry i and the load from i + 1 on. */
  lemma BodyLoadUnfold(tables: Tables, entries: seq<seq<(string, Value)>>, i: nat, context: string)
    requires i < |entries|
    ensures
      var rest := BodyLoad(tables, entries[i + 1..], context);
      BodyLoad(tables, entries[i..], context) ==
        match BlockStep(tables, CM.ConfigMap(entries[i], context))
        case Reject => Body([], [], Rejected)
        case Throw => Body([], [], Stopped)
        case Add(m, o) => Body([m] + rest.materials, [o] + rest.offsets, rest.outcome)
  {
    assert entries[i..][1..] == entries[i + 1..];
  }

  /** The step each body entry would take, read on its own. */
  function Steps(tables: Tables, entries: seq<seq<(string, Value)>>, context: string): (r: seq<Step>)
    ensures |r| == |entries|
    ensures forall i :: 0 <= i < |entries| ==> r[i] == BlockStep(tables, CM.ConfigMap(entries[i], context))
  {
    if |entries| == 0 then []
    else [BlockStep(tables, CM.ConfigMap(entries[0], context))] + Steps(tables, entries[1..], context)
  }

  /** How a run of steps ends: at the first step that is not an Add, or Done. */
  function OutcomeOf(steps: seq<Step>): Outcome
  {
    if |steps| == 0 then Done
    else match steps[0]
      case Reject => Rejected
      case Throw => Stopped
      case Add(_, _) => OutcomeOf(steps[1..])
  }

  lemma {:induction false} BodyOutcome(tables: Tables, entries: seq<seq<(string, Value)>>, context: string)
    ensures BodyLoad(tables, entries, context).outcome == OutcomeOf(Steps(tables, entries, context))
  {
    if |entries| > 0 {
      BodyOutcome(tables, entries[1..], context);
      assert Steps(tables, entries, context)[1..] == Steps(tables, entries[1..], context);
    }
  }

  /** A run of steps is rejected exactly when some step rejects and every step before it adds a block. */
  lemma {:induction false} RejectedAt(steps: seq<Step>)
    ensures OutcomeOf(steps) == Rejected <==>
      exists i :: 0 <= i < |steps| && steps[i] == Reject && forall j :: 0 <= j < i ==> steps[j].Add?
  {
    if |steps| > 0 {
      RejectedAt(steps[1..]);
      if steps[0].Add? {
        if OutcomeOf(steps) == Rejected {
          var i :| 0 <= i < |steps[1..]| && steps[1..][i] == Reject && forall j :: 0 <= j < i ==> steps[1..][j].Add?;
          assert steps[i + 1] == Reject;
          forall j | 0 <= j < i + 1 ensures steps[j].Add? {
            if j > 0 {
              assert steps[j] == steps[1..][j - 1];
            }
          }
        }
        if exists i :: 0 <= i < |steps| && steps[i] == Reject && forall j :: 0 <= j < i ==> steps[j].Add? {
          var i :| 0 <= i < |steps| && steps[i] == Reject && forall j :: 0 <= j < i ==> steps[j].Add?;
          assert steps[1..][i - 1] == steps[i];
          forall j | 0 <= j < i - 1 ensures steps[1..][j].Add? {
            assert steps[1..][j] == steps[j + 1];
          }
        }
      } else {
        assert steps[0] == Reject ==> OutcomeOf(steps) == Rejected;
      }
    }
  }

  /** A shape is rejected exactly when some entry, reached without an exception, is invalid. */
  lemma BodyRejectedAt(tables: Tables, entries: seq<seq<(string, Value)>>, context: string)
    ensures var steps := Steps(tables, entries, context);
      BodyLoad(tables, entries, context).outcome == Rejected <==>
      exists i :: 0 <= i < |entries| && steps[i] == Reject && forall j :: 0 <= j < i ==> steps[j].Add?
  {
    BodyOutcome(tables, entries, context);
    RejectedAt(Steps(tables, entries, context));
  }

  /** The (type, weight) pair one summon entry adds, or None when reading it throws. */
  function SummonStep(m: CM.ConfigMap): Option<(string, real)>
  {
    match CM.GetDouble(m, "weight", Some(1.0))
    case Err(_) => None
    case Ok(weight) =>
      match CM.GetString(m, "spawn", Some(""))
      case Err(_) => None
      case Ok(spawn) => Some((spawn.GetOr(""), weight.GetOr(1.0)))
  }

  /** The summon choices added, in order, up to the first entry that throws. */
  function SummonLoad(entries: seq<seq<(string, Value)>>, context: string): seq<(string, real)>
  {
    if |entries| == 0 then []
    else
      match SummonStep(CM.ConfigMap(entries[0], context))
      case None => []
      case Some(c) => [c] + SummonLoad(entries[1..], context)
  }

  /** A section that defines no shape: its head material is unknown, or a body entry is invalid. */
  predicate ShapeRejected(tables: Tables, sec: Section)
  {
    tables.matchMaterial(GetString(sec, ["head"], Some("")).GetOr("")).None? ||
    (IsList(sec, ["body"]) && BodyLoad(tables, GetMapList(sec, ["body"]), sec.name).outcome == Rejected)
  }

  /**
   * loadFromSection. A missing section throws NullPointerException (the
   * handler's own message dereferences the section again). An unknown head
   * material, or a body entry with an unknown material or an offset that is not
   * a list of three, gives no shape. An exception while reading the body or the
   * summons ends that list but keeps the shape.
   */
  method LoadFromSection(tables: Tables, section: Option<Section>) returns (r: Result<Option<CreatureShape>, Exception>)
    ensures section.None? ==> r == Err(NullPointer)
    ensures section.Some? ==> r.Ok?
    ensures section.Some? ==> (r == Ok(None) <==> ShapeRejected(tables, section.value))
    ensures r.Ok? && r.value.Some? ==>
      var sec := section.value;
      var shape := r.value.value;
      var body := if IsList(sec, ["body"]) then BodyLoad(tables, GetMapList(sec, ["body"]), sec.name) else Body([], [], Done);
      fresh(shape) && fresh(shape.types) && shape.Valid() &&
      Some(shape.triggerMaterialId) == tables.matchMaterial(GetString(sec, ["head"], Some("")).GetOr("")) &&
      shape.name == sec.name && shape.enabled == GetBool(sec, ["enabled"], true) &&
      body.outcome != Rejected && shape.materialIds == body.materials && shape.offsets == body.offsets &&
      shape.types.added == if IsList(sec, ["summon"]) then SummonLoad(GetMapList(sec, ["summon"]), sec.name) else []
  {
    if section.None? {
      return Err(NullPointer);
    }
    var sec := section.value;
    var headMaterial := tables.matchMaterial(GetString(sec, ["head"], Some("")).GetOr(""));
    if headMaterial.None? {
      return Ok(None);
    }
    var shape := new CreatureShape(sec.name, headMaterial.value, GetBool(sec, ["enabled"], true));
    if IsList(sec, ["body"]) {
      var rejected := shape.LoadBody(tables, GetMapList(sec, ["body"]), sec.name);
      if rejected {
        return Ok(None);
      }
    }
    if IsList(sec, ["summon"]) {
      shape.LoadSummons(GetMapList(sec, ["summon"]), sec.name);
    }
    return Ok(Some(shape));
  }
}
