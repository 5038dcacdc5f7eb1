/**
 * WeightedSelection: choices with positive probability weights, stored under
 * their cumulative weight in an ascending map, and chosen by a ceiling lookup
 * of a uniform draw scaled by the total weight.
 *
 * The ascending map of the source is modelled as the sequence of its
 * (key, value) entries in ascending key order. The random draw is a parameter.
 */
module Weighted {
  import opened Wrappers

  function PositivePart(w: real): (p: real)
    ensures p >= 0.0 && (w > 0.0 ==> p == w) && (w <= 0.0 ==> p == 0.0)
  {
    if w > 0.0 then w else 0.0
  }

  /** The sum of the positive weights in a log of added (choice, weight) pairs. */
  function Total<E>(added: seq<(E, real)>): real
  {
    if |added| == 0 then 0.0
    else Total(added[..|added| - 1]) + PositivePart(added[|added| - 1].1)
  }

  /** The entries the selection holds after the given additions: each positive weight at the running total. */
  function Entries<E>(added: seq<(E, real)>): seq<(real, E)>
  {
    if |added| == 0 then []
    else
      var init := added[..|added| - 1];
      var last := added[|added| - 1];
      if last.1 > 0.0 then Entries(init) + [(Total(init) + last.1, last.0)] else Entries(init)
  }

  /** The additions that were kept: those with a positive weight, in order. */
  function Kept<E>(added: seq<(E, real)>): seq<(E, real)>
  {
    if |added| == 0 then []
    else
      var init := added[..|added| - 1];
      var last := added[|added| - 1];
      if last.1 > 0.0 then Kept(init) + [last] else Kept(init)
  }

  ghost predicate StrictlyIncreasing<E>(es: seq<(real, E)>)
  {
    forall i, j :: 0 <= i < j < |es| ==> es[i].0 < es[j].0
  }

  /** The lower bound of entry i's bucket: the previous key, or 0 for the first. */
  function Floor<E>(es: seq<(real, E)>, i: nat): real
    requires i < |es|
  {
    if i == 0 then 0.0 else es[i - 1].0
  }

  /** u falls in the bucket (Floor, key] of entry i. */
  ghost predicate InBucket<E>(es: seq<(real, E)>, i: nat, u: real)
    requires i < |es|
  {
    (i == 0 || es[i - 1].0 < u) && u <= es[i].0
  }

  lemma {:induction false} TotalNonNegative<E>(added: seq<(E, real)>)
    ensures Total(added) >= 0.0
  {
    if |added| > 0 {
      TotalNonNegative(added[..|added| - 1]);
    }
  }

  /**
   * The keys are strictly increasing positive cumulative sums, so no addition
   * overwrites an earlier one, and the largest key is the total.
   */
  lemma {:induction false} EntriesAscending<E>(added: seq<(E, real)>)
    ensures StrictlyIncreasing(Entries(added))
    ensures forall i :: 0 <= i < |Entries(added)| ==> 0.0 < Entries(added)[i].0 <= Total(added)
    ensures Entries(added) == [] <==> Total(added) == 0.0
    ensures Entries(added) != [] ==> Entries(added)[|Entries(added)| - 1].0 == Total(added)
  {
    if |added| > 0 {
      var init := added[..|added| - 1];
      var last := added[|added| - 1];
      EntriesAscending(init);
      TotalNonNegative(init);
      var es := Entries(init);
      if last.1 > 0.0 {
        var es' := es + [(Total(init) + last.1, last.0)];
        assert Entries(added) == es';
        forall i, j | 0 <= i < j < |es'| ensures es'[i].0 < es'[j].0 {
          if j < |es| {
            assert es'[i] == es[i] && es'[j] == es[j];
          } else {
            assert es'[i] == es[i];
          }
        }
      }
    }
  }

  /** Entry i holds kept addition i, and its bucket is exactly as wide as that addition's weight. */
  ghost predicate Matched<E>(es: seq<(real, E)>, ks: seq<(E, real)>)
  {
    |es| == |ks| &&
    forall i :: 0 <= i < |es| ==> es[i].1 == ks[i].0 && es[i].0 - Floor(es, i) == ks[i].1
  }

  /** Entry i holds the i-th kept choice, and its bucket is exactly as wide as that choice's weight. */
  lemma {:induction false} EntriesMatchKept<E>(added: seq<(E, real)>)
    ensures Matched(Entries(added), Kept(added))
  {
    if |added| > 0 {
      var init := added[..|added| - 1];
      var last := added[|added| - 1];
      var es, ks := Entries(init), Kept(init);
      LastAddition(added);
      EntriesMatchKept(init);
      if last.1 > 0.0 {
        EntriesAscending(init);
        MatchSnoc(es, ks, Total(init), last);
      }
    }
  }

  /** The entries and kept additions after one more addition, in terms of those before it. */
  lemma LastAddition<E>(added: seq<(E, real)>)
    requires |added| > 0
    ensures var init, last := added[..|added| - 1], added[|added| - 1];
      Entries(added) == (if last.1 > 0.0 then Entries(init) + [(Total(init) + last.1, last.0)] else Entries(init)) &&
      Kept(added) == (if last.1 > 0.0 then Kept(init) + [last] else Kept(init))
  {
  }

  /** Appending an entry at total t plus a weight keeps entries and kept additions matched. */
  lemma MatchSnoc<E>(es: seq<(real, E)>, ks: seq<(E, real)>, t: real, last: (E, real))
    requires Matched(es, ks)
    requires if es == [] then t == 0.0 else es[|es| - 1].0 == t
    ensures Matched(es + [(t + last.1, last.0)], ks + [last])
  {
    var es', ks' := es + [(t + last.1, last.0)], ks + [last];
    forall i | 0 <= i < |es'|
      ensures es'[i].1 == ks'[i].0 && es'[i].0 - Floor(es', i) == ks'[i].1
    {
      if i < |es| {
        assert es'[i] == es[i] && ks'[i] == ks[i];
        assert Floor(es', i) == Floor(es, i);
      } else if i > 0 {
        assert Floor(es', i) == es[|es| - 1].0;
      }
    }
  }

  /** A choice with a weight of 0 or less changes neither the entries nor the total. */
  lemma IgnoredChoice<E>(added: seq<(E, real)>, choice: E, weight: real)
    requires weight <= 0.0
    ensures Entries(added + [(choice, weight)]) == Entries(added)
    ensures Total(added + [(choice, weight)]) == Total(added)
  {
    assert (added + [(choice, weight)])[..|added|] == added;
  }

  /** The index of the entry with the smallest key at least u (ceilingEntry), if there is one. */
  function CeilingIndex<E>(es: seq<(real, E)>, u: real): (r: Option<nat>)
    ensures r.Some? ==> r.value < |es| && u <= es[r.value].0 && forall j :: 0 <= j < r.value ==> es[j].0 < u
    ensures r.None? ==> forall j :: 0 <= j < |es| ==> es[j].0 < u
  {
    if |es| == 0 then None
    else if u <= es[0].0 then Some(0)
    else
      match CeilingIndex(es[1..], u)
      case None => None
      case Some(k) => Some(k + 1)
  }

  /** On ascending keys, the ceiling lookup picks entry i exactly when u lies in i's bucket. */
  lemma CeilingIsBucket<E>(es: seq<(real, E)>, u: real, i: nat)
    requires StrictlyIncreasing(es)
    requires i < |es|
    ensures CeilingIndex(es, u) == Some(i) <==> InBucket(es, i, u)
  {
  }

  /** A draw in [0, 1) scaled by a positive total stays below the total. */
  lemma ScaledDrawBelowTotal(r: real, total: real)
    ensures 0.0 <= r < 1.0 && total > 0.0 ==> 0.0 <= r * total < total
  {
    assert total - r * total == (1.0 - r) * total;
  }

  /** The ceiling lookup of r * total among entries whose last key is the total. */
  function CeilingChoice<E>(es: seq<(real, E)>, total: real, r: real): (c: Option<E>)
    requires es != [] ==> total > 0.0 && es[|es| - 1].0 == total
    ensures es == [] ==> c.None?
    ensures es != [] && 0.0 <= r < 1.0 ==> c.Some?
    ensures c.Some? ==> exists i: nat :: i < |es| && InBucket(es, i, r * total) && c.value == es[i].1
  {
    var u := r * total;
    match CeilingIndex(es, u)
    case None =>
      ScaledDrawBelowTotal(r, total);
      None
    case Some(i) =>
      assert InBucket(es, i, u);
      Some(es[i].1)
  }

  /** The largest key of ascending entries, or 0 when there are none. */
  function LastKey<E>(es: seq<(real, E)>): real
  {
    if es == [] then 0.0 else es[|es| - 1].0
  }

  /** The largest key of the built entries is the total of the additions. */
  lemma LastKeyIsTotalWeight<E>(added: seq<(E, real)>)
    ensures LastKey(Entries(added)) == Total(added)
    ensures Entries(added) != [] ==> Total(added) > 0.0
  {
    EntriesAscending(added);
  }

  class WeightedSelection<E> {
    /** The ascending map from cumulative weight to choice. */
    var choices: seq<(real, E)>
    /** The sum of all accepted weights. */
    var total: real
    /** Every (choice, weight) passed to AddChoice, in order, including ignored ones. */
    ghost var added: seq<(E, real)>

    /** The entries are those built from the additions, and the total is the largest key (0 when empty). */
    ghost predicate Valid()
      reads this
    {
      choices == Entries(added) &&
      (choices == [] ==> total == 0.0) &&
      (choices != [] ==> total > 0.0 && choices[|choices| - 1].0 == total)
    }

    constructor ()
      ensures Valid() && added == [] && choices == [] && total == 0.0 && total == Total(added)
    {
      choices := [];
      total := 0.0;
      added := [];
    }

    /** addChoice: a weight of 0 or less is ignored; otherwise the choice goes under the new running total. */
    method AddChoice(choice: E, weight: real)
      requires Valid()
      modifies this
      ensures Valid() && added == old(added) + [(choice, weight)] && total == Total(added)
      ensures weight <= 0.0 ==> choices == old(choices) && total == old(total)
      ensures weight > 0.0 ==> total == old(total) + weight && choices == old(choices) + [(total, choice)]
      // The new key lies above every existing key, so no earlier choice is overwritten.
      ensures weight > 0.0 ==> forall i :: 0 <= i < |old(choices)| ==> old(choices)[i].0 < total
    {
      EntriesAscending(added);
      LastKeyIsTotalWeight(added);
      TotalNonNegative(added);
      ghost var added' := added + [(choice, weight)];
      assert added'[..|added'| - 1] == added;
      if weight > 0.0 {
        total := total + weight;
        choices := choices + [(total, choice)];
      }
      added := added';
      LastKeyIsTotalWeight(added);
    }

    /** getTotalWeight: the sum of the positive weights added so far. */
    function TotalWeight(): (t: real)
      reads this
      requires Valid()
      ensures t == Total(added) && t >= 0.0
      ensures t == 0.0 <==> choices == []
    {
      LastKeyIsTotalWeight(added);
      TotalNonNegative(added);
      total
    }

    /**
     * choose, with the uniform draw r in [0, 1) as a parameter: the choice whose
     * bucket holds r * total; nothing when there are no choices.
     */
    function Choose(r: real): (c: Option<E>)
      reads this
      requires Valid()
      ensures choices == [] ==> c.None?
      ensures choices != [] && 0.0 <= r < 1.0 ==> c.Some?
      ensures c.Some? ==> exists i: nat :: i < |choices| && InBucket(choices, i, r * total) && c.value == choices[i].1
    {
      CeilingChoice(choices, total, r)
    }
  }
}
