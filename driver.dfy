/**
 * The enumeration of `main`: every trait set consistent with the evidence, every
 * one-copy set, every two-copy set drawn from the remaining people; each world is
 * scored, accumulated, and at the end every distribution is normalized.
 */
module Driver {
  import opened Wrappers
  import opened Lists
  import opened Pedigrees
  import opened Subsets
  import opened Joint
  import opened Distributions

  /** One world: who has the trait, who has one copy, who has two copies. */
  datatype World = World(haveTrait: set<string>, oneGene: set<string>, twoGenes: set<string>)

  /**
   * Some person's observed trait disagrees with membership in `haveTrait`: the set
   * misses someone observed with the trait or holds someone observed without it.
   */
  predicate FailsEvidence(ped: Pedigree, haveTrait: set<string>): (fails: bool)
    ensures !fails <==> Observed(ped, true) <= haveTrait && Observed(ped, false) !! haveTrait
  {
    exists n :: n in ped.people && ped.people[n].observed.Some? && ped.people[n].observed.value != (n in haveTrait)
  }

  /** The people whose trait is observed to be `b`. */
  ghost function Observed(ped: Pedigree, b: bool): set<string> {
    set n | n in ped.people && ped.people[n].observed == Some(b)
  }

  /**
   * The worlds the enumeration visits: subsets of the people, consistent with the
   * evidence, and with the two-copy set disjoint from the one-copy set.
   */
  ghost predicate IsWorld(ped: Pedigree, w: World) {
    w.haveTrait <= Elems(ped.names) && !FailsEvidence(ped, w.haveTrait) &&
    w.oneGene <= Elems(ped.names) && w.twoGenes <= Elems(ped.names) - w.oneGene
  }

  ghost function JointOfWorld(ped: Pedigree, w: World): real
    requires ped.Valid()
  {
    JointOf(ped, w.oneGene, w.twoGenes, w.haveTrait)
  }

  /** The table after accumulating the worlds `ws`, in order, starting from `t`. */
  ghost function Accumulate(ped: Pedigree, t: map<string, Record>, ws: seq<World>): (u: map<string, Record>)
    requires ped.Valid()
    requires forall n :: n in t ==> Shaped(t[n])
    ensures u.Keys == t.Keys && forall n :: n in u ==> Shaped(u[n])
  {
    if ws == [] then t
    else
      var w := ws[|ws| - 1];
      AddWorld(Accumulate(ped, t, ws[..|ws| - 1]), w.oneGene, w.twoGenes, w.haveTrait, JointOfWorld(ped, w))
  }

  /** The unnormalized weights: everyone starts at zero and every world of `ws` is added. */
  ghost function Weights(ped: Pedigree, ws: seq<World>): (u: map<string, Record>)
    requires ped.Valid()
    ensures forall n :: n in u <==> n in ped.names
    ensures forall n :: n in u ==> Shaped(u[n])
  {
    Accumulate(ped, ZeroTable(ped.names), ws)
  }

  /** Total probability of the worlds `ws`. */
  ghost function Mass(ped: Pedigree, ws: seq<World>): real
    requires ped.Valid()
  {
    if ws == [] then 0.0 else Mass(ped, ws[..|ws| - 1]) + JointOfWorld(ped, ws[|ws| - 1])
  }

  /** Any non-empty list of worlds has positive probability. */
  lemma {:induction false} MassPositive(ped: Pedigree, ws: seq<World>)
    requires ped.Valid()
    ensures Mass(ped, ws) >= 0.0
    ensures ws != [] ==> Mass(ped, ws) > 0.0
  {
    if ws != [] {
      MassPositive(ped, ws[..|ws| - 1]);
      var w := ws[|ws| - 1];
      JointInUnit(ped, w.oneGene, w.twoGenes, w.haveTrait);
    }
  }

  /** Each person's gene total and trait total each grow by the probability of every world added. */
  lemma {:induction false} AccumulateTotals(ped: Pedigree, t: map<string, Record>, ws: seq<World>, n: string)
    requires ped.Valid()
    requires forall m :: m in t ==> Shaped(t[m])
    requires n in t
    ensures Total(Accumulate(ped, t, ws)[n].gene) == Total(t[n].gene) + Mass(ped, ws)
    ensures Total(Accumulate(ped, t, ws)[n].traits) == Total(t[n].traits) + Mass(ped, ws)
  {
    if ws != [] {
      var init, w := ws[..|ws| - 1], ws[|ws| - 1];
      AccumulateTotals(ped, t, init, n);
      var before := Accumulate(ped, t, init);
      BumpAddsToOneBucket(before[n], CountOf(n, w.oneGene, w.twoGenes), n in w.haveTrait, JointOfWorld(ped, w));
    }
  }

  /**
   * For a person observed with trait value `b`, no world consistent with the evidence
   * adds anything to the bucket of the opposite value.
   */
  lemma {:induction false} AccumulateEvidence(ped: Pedigree, t: map<string, Record>, ws: seq<World>, n: string, b: bool)
    requires ped.Valid()
    requires forall m :: m in t ==> Shaped(t[m])
    requires n in t && n in ped.people && ped.people[n].observed == Some(b)
    requires forall i :: 0 <= i < |ws| ==> !FailsEvidence(ped, ws[i].haveTrait)
    ensures Accumulate(ped, t, ws)[n].traits[TraitIndex(!b)] == t[n].traits[TraitIndex(!b)]
  {
    if ws != [] {
      var init, w := ws[..|ws| - 1], ws[|ws| - 1];
      AccumulateEvidence(ped, t, init, n, b);
      var before := Accumulate(ped, t, init);
      assert (n in w.haveTrait) == b;
      BumpAddsToOneBucket(before[n], CountOf(n, w.oneGene, w.twoGenes), n in w.haveTrait, JointOfWorld(ped, w));
    }
  }

  /** The evidence itself (observed carriers of the trait, nobody with a copy) is a world. */
  lemma EvidenceWorld(ped: Pedigree)
    requires ped.Valid()
    ensures IsWorld(ped, World(Observed(ped, true), {}, {}))
  {
    forall n | n in Observed(ped, true) ensures n in Elems(ped.names) {
      assert n in ped.people;
    }
  }

  /** When the worlds are all the worlds, every person's weights can be normalized. */
  lemma WeightsNormalizable(ped: Pedigree, worlds: seq<World>)
    requires ped.Valid()
    requires forall w :: w in worlds <==> IsWorld(ped, w)
    ensures forall n :: n in ped.names ==> Normalizable(Weights(ped, worlds)[n])
  {
    EvidenceWorld(ped);
    assert World(Observed(ped, true), {}, {}) in worlds;
    MassPositive(ped, worlds);
    forall n | n in ped.names
      ensures Normalizable(Weights(ped, worlds)[n])
    {
      AccumulateTotals(ped, ZeroTable(ped.names), worlds, n);
    }
  }

  /**
   * The normalized weights over all worlds: each person's gene and trait
   * distributions sum to 1, and an observed trait value has posterior 1.
   */
  lemma PosteriorIsDistribution(ped: Pedigree, worlds: seq<World>)
    requires ped.Valid()
    requires forall w :: w in worlds <==> IsWorld(ped, w)
    ensures forall n :: n in ped.names ==> Normalizable(Weights(ped, worlds)[n])
    ensures forall n :: n in NormalizedTable(Weights(ped, worlds)) ==>
              Total(NormalizedTable(Weights(ped, worlds))[n].gene) == 1.0 &&
              Total(NormalizedTable(Weights(ped, worlds))[n].traits) == 1.0
    ensures forall n :: n in ped.people && ped.people[n].observed.Some? ==>
              NormalizedTable(Weights(ped, worlds))[n].traits[TraitIndex(ped.people[n].observed.value)] == 1.0
  {
    WeightsNormalizable(ped, worlds);
    var weights := Weights(ped, worlds);
    var posterior := NormalizedTable(weights);
    forall n | n in posterior
      ensures Total(posterior[n].gene) == 1.0 && Total(posterior[n].traits) == 1.0
    {
      NormalizedIsDistribution(weights[n]);
    }
    forall m | 0 <= m < |worlds| ensures !FailsEvidence(ped, worlds[m].haveTrait) {
      assert worlds[m] in worlds;
    }
    forall n | n in ped.people && ped.people[n].observed.Some?
      ensures posterior[n].traits[TraitIndex(ped.people[n].observed.value)] == 1.0
    {
      var b := ped.people[n].observed.value;
      AccumulateEvidence(ped, ZeroTable(ped.names), worlds, n, b);
      PinnedTrait(weights[n], b);
    }
  }

  /** Worlds listed so far by the innermost loop: those of `before`, then trait set `h`, one-copy set `o` and a two-copy set of `done`. */
  ghost predicate ListedTwo(worlds: seq<World>, before: seq<World>, h: set<string>, o: set<string>, done: seq<set<string>>) {
    forall w :: w in worlds <==> w in before || (w.haveTrait == h && w.oneGene == o && w.twoGenes in done)
  }

  /** Worlds listed after the innermost loop: every two-copy set drawn from `u` minus `o`. */
  ghost predicate ListedTwos(worlds: seq<World>, before: seq<World>, h: set<string>, o: set<string>, u: set<string>) {
    forall w :: w in worlds <==> w in before || (w.haveTrait == h && w.oneGene == o && w.twoGenes <= u - o)
  }

  /** Worlds listed so far by the middle loop: a one-copy set from `done`, any two-copy set from the rest. */
  ghost predicate ListedOne(worlds: seq<World>, before: seq<World>, h: set<string>, done: seq<set<string>>, u: set<string>) {
    forall w :: w in worlds <==> w in before || (w.haveTrait == h && w.oneGene in done && w.twoGenes <= u - w.oneGene)
  }

  /** Worlds listed after the middle loop: every disjoint pair of one-copy and two-copy sets. */
  ghost predicate ListedOnes(worlds: seq<World>, before: seq<World>, h: set<string>, u: set<string>) {
    forall w :: w in worlds <==> w in before || (w.haveTrait == h && w.oneGene <= u && w.twoGenes <= u - w.oneGene)
  }

  /** Worlds listed so far by the outer loop: the worlds whose trait set is in `done`. */
  ghost predicate ListedTraits(ped: Pedigree, worlds: seq<World>, done: seq<set<string>>) {
    forall w :: w in worlds <==> IsWorld(ped, w) && w.haveTrait in done
  }

  /** Appending the next two-copy set keeps the listing exact and free of repeats. */
  lemma ListedTwoStep(worlds: seq<World>, before: seq<World>, h: set<string>, o: set<string>, twoSets: seq<set<string>>, k: nat)
    requires k < |twoSets| && Distinct(twoSets) && Distinct(worlds)
    requires ListedTwo(worlds, before, h, o, twoSets[..k])
    requires forall w :: w in before ==> w.haveTrait != h || w.oneGene != o
    ensures ListedTwo(worlds + [World(h, o, twoSets[k])], before, h, o, twoSets[..k + 1])
    ensures Distinct(worlds + [World(h, o, twoSets[k])])
  {
    DistinctNotInPrefix(twoSets, k);
    assert twoSets[..k + 1] == twoSets[..k] + [twoSets[k]];
    DistinctSnoc(worlds, World(h, o, twoSets[k]));
  }

  /** Once the two-copy sets run through every subset of `u` minus `o`, all of them are listed. */
  lemma ListedTwoDone(worlds: seq<World>, before: seq<World>, h: set<string>, o: set<string>, twoSets: seq<set<string>>, u: set<string>)
    requires forall t :: t in twoSets <==> t <= u - o
    requires ListedTwo(worlds, before, h, o, twoSets)
    ensures ListedTwos(worlds, before, h, o, u)
  {
  }

  /** The next one-copy set has not been listed yet. */
  lemma ListedOneFresh(worlds: seq<World>, before: seq<World>, h: set<string>, oneSets: seq<set<string>>, j: nat, u: set<string>)
    requires j < |oneSets| && Distinct(oneSets)
    requires ListedOne(worlds, before, h, oneSets[..j], u)
    requires forall w :: w in before ==> w.haveTrait != h
    ensures forall w :: w in worlds ==> w.haveTrait != h || w.oneGene != oneSets[j]
  {
    DistinctNotInPrefix(oneSets, j);
  }

  /** Finishing the innermost loop for the next one-copy set extends the middle listing by it. */
  lemma ListedOneStep(worlds: seq<World>, next: seq<World>, before: seq<World>, h: set<string>, oneSets: seq<set<string>>, j: nat,
                      u: set<string>)
    requires j < |oneSets|
    requires ListedOne(worlds, before, h, oneSets[..j], u)
    requires ListedTwos(next, worlds, h, oneSets[j], u)
    ensures ListedOne(next, before, h, oneSets[..j + 1], u)
  {
    assert oneSets[..j + 1] == oneSets[..j] + [oneSets[j]];
  }

  /** Once the one-copy sets run through every subset of `u`, all pairs are listed. */
  lemma ListedOneDone(worlds: seq<World>, before: seq<World>, h: set<string>, oneSets: seq<set<string>>, u: set<string>)
    requires forall t :: t in oneSets <==> t <= u
    requires ListedOne(worlds, before, h, oneSets, u)
    ensures ListedOnes(worlds, before, h, u)
  {
  }

  /** The next trait set has not been listed yet. */
  lemma ListedTraitFresh(ped: Pedigree, worlds: seq<World>, traitSets: seq<set<string>>, i: nat)
    requires i < |traitSets| && Distinct(traitSets)
    requires ListedTraits(ped, worlds, traitSets[..i])
    ensures forall w :: w in worlds ==> w.haveTrait != traitSets[i]
  {
    DistinctNotInPrefix(traitSets, i);
  }

  /** A trait set that passes the evidence check adds all its worlds to the outer listing. */
  lemma ListedTraitStep(ped: Pedigree, worlds: seq<World>, next: seq<World>, traitSets: seq<set<string>>, i: nat)
    requires i < |traitSets| && traitSets[i] <= Elems(ped.names) && !FailsEvidence(ped, traitSets[i])
    requires ListedTraits(ped, worlds, traitSets[..i])
    requires ListedOnes(next, worlds, traitSets[i], Elems(ped.names))
    ensures ListedTraits(ped, next, traitSets[..i + 1])
  {
    assert traitSets[..i + 1] == traitSets[..i] + [traitSets[i]];
  }

  /** A trait set that fails the evidence check adds no world. */
  lemma ListedTraitSkip(ped: Pedigree, worlds: seq<World>, traitSets: seq<set<string>>, i: nat)
    requires i < |traitSets| && FailsEvidence(ped, traitSets[i])
    requires ListedTraits(ped, worlds, traitSets[..i])
    ensures ListedTraits(ped, worlds, traitSets[..i + 1])
  {
    assert traitSets[..i + 1] == traitSets[..i] + [traitSets[i]];
  }

  /** Once the trait sets run through every subset of the people, every world is listed. */
  lemma ListedTraitsDone(ped: Pedigree, worlds: seq<World>, traitSets: seq<set<string>>)
    requires forall t :: t in traitSets <==> t <= Elems(ped.names)
    requires ListedTraits(ped, worlds, traitSets)
    ensures forall w :: w in worlds <==> IsWorld(ped, w)
  {
  }

  /** Scores one world and, when every parent is known, adds it into the table. */
  method AddScoredWorld(ped: Pedigree, probabilities: Probabilities, w: World, ghost worlds: seq<World>)
    returns (failure: Option<Error>)
    requires ped.Valid()
    requires probabilities.Valid() && probabilities.names == ped.names
    requires probabilities.table == Weights(ped, worlds)
    modifies probabilities
    ensures probabilities.Valid() && probabilities.names == ped.names
    ensures failure.Some? <==> !ParentsKnown(ped)
    ensures failure.Some? ==> failure.value.name !in ped.people && MissingParentNamed(ped, failure.value.name)
    ensures failure.Some? ==> FirstMissingParent(ped, ped.names) == Some(failure.value.name)
    ensures failure.None? ==> probabilities.table == Weights(ped, worlds + [w])
  {
    var p := JointProbability(ped, w.oneGene, w.twoGenes, w.haveTrait);
    if p.Failure? {
      return Some(p.error);
    }
    probabilities.Update(w.oneGene, w.twoGenes, w.haveTrait, p.value);
    assert (worlds + [w])[..|worlds|] == worlds;
    failure := None;
  }

  /**
   * The innermost loop: for fixed trait and one-copy sets, every two-copy set drawn
   * from the other people is scored and added; a missing parent stops the run.
   */
  method EnumerateTwoGenes(ped: Pedigree, probabilities: Probabilities, haveTrait: set<string>, oneGene: set<string>,
                           ghost before: seq<World>)
    returns (failure: Option<Error>, ghost worlds: seq<World>)
    requires ped.Valid()
    requires probabilities.Valid() && probabilities.names == ped.names
    requires probabilities.table == Weights(ped, before) && Distinct(before)
    requires forall w :: w in before ==> w.haveTrait != haveTrait || w.oneGene != oneGene
    modifies probabilities
    ensures probabilities.Valid() && probabilities.names == ped.names
    ensures failure.Some? <==> !ParentsKnown(ped)
    ensures failure.Some? ==> failure.value.name !in ped.people && MissingParentNamed(ped, failure.value.name)
    ensures failure.Some? ==> FirstMissingParent(ped, ped.names) == Some(failure.value.name)
    ensures failure.None? ==>
              && probabilities.table == Weights(ped, worlds) && Distinct(worlds)
              && ListedTwos(worlds, before, haveTrait, oneGene, Elems(ped.names))
  {
    var rest := Without(ped.names, oneGene);
    var twoSets := Powerset(rest);
    PowersetDistinct(rest);
    assert {} in twoSets;
    worlds := before;
    var k := 0;
    while k < |twoSets|
      invariant 0 <= k <= |twoSets|
      invariant probabilities.Valid() && probabilities.names == ped.names
      invariant probabilities.table == Weights(ped, worlds) && Distinct(worlds)
      invariant k > 0 ==> ParentsKnown(ped)
      invariant ListedTwo(worlds, before, haveTrait, oneGene, twoSets[..k])
    {
      ghost var w := World(haveTrait, oneGene, twoSets[k]);
      failure := AddScoredWorld(ped, probabilities, World(haveTrait, oneGene, twoSets[k]), worlds);
      if failure.Some? {
        return;
      }
      ListedTwoStep(worlds, before, haveTrait, oneGene, twoSets, k);
      worlds := worlds + [w];
      k := k + 1;
    }
    assert twoSets[..k] == twoSets;
    ListedTwoDone(worlds, before, haveTrait, oneGene, twoSets, Elems(ped.names));
    failure := None;
  }

  /** The middle loop: for a fixed trait set, every one-copy set. */
  method EnumerateOneGene(ped: Pedigree, probabilities: Probabilities, haveTrait: set<string>, ghost before: seq<World>)
    returns (failure: Option<Error>, ghost worlds: seq<World>)
    requires ped.Valid()
    requires probabilities.Valid() && probabilities.names == ped.names
    requires probabilities.table == Weights(ped, before) && Distinct(before)
    requires forall w :: w in before ==> w.haveTrait != haveTrait
    modifies probabilities
    ensures probabilities.Valid() && probabilities.names == ped.names
    ensures failure.Some? <==> !ParentsKnown(ped)
    ensures failure.Some? ==> failure.value.name !in ped.people && MissingParentNamed(ped, failure.value.name)
    ensures failure.Some? ==> FirstMissingParent(ped, ped.names) == Some(failure.value.name)
    ensures failure.None? ==>
              && probabilities.table == Weights(ped, worlds) && Distinct(worlds)
              && ListedOnes(worlds, before, haveTrait, Elems(ped.names))
  {
    var oneSets := Powerset(ped.names);
    PowersetDistinct(ped.names);
    assert {} in oneSets;
    worlds := before;
    var j := 0;
    while j < |oneSets|
      invariant 0 <= j <= |oneSets|
      invariant probabilities.Valid() && probabilities.names == ped.names
      invariant probabilities.table == Weights(ped, worlds) && Distinct(worlds)
      invariant j > 0 ==> ParentsKnown(ped)
      invariant ListedOne(worlds, before, haveTrait, oneSets[..j], Elems(ped.names))
    {
      ListedOneFresh(worlds, before, haveTrait, oneSets, j, Elems(ped.names));
      ghost var prior := worlds;
      failure, worlds := EnumerateTwoGenes(ped, probabilities, haveTrait, oneSets[j], worlds);
      if failure.Some? {
        return;
      }
      ListedOneStep(prior, worlds, before, haveTrait, oneSets, j, Elems(ped.names));
      j := j + 1;
    }
    assert oneSets[..j] == oneSets;
    ListedOneDone(worlds, before, haveTrait, oneSets, Elems(ped.names));
    failure := None;
  }

  /**
   * The enumeration of the program's main routine followed by the normalization.
   * On success, `worlds` lists every world exactly once, and each person's
   * distributions are the normalized sums of those worlds' probabilities.
   */
  method Infer(ped: Pedigree) returns (r: Result<Probabilities, Error>, ghost worlds: seq<World>)
    requires ped.Valid()
    ensures r.Failure? <==> !ParentsKnown(ped)
    ensures r.Failure? ==> r.error.name !in ped.people && MissingParentNamed(ped, r.error.name)
    ensures r.Failure? ==> FirstMissingParent(ped, ped.names) == Some(r.error.name)
    ensures r.Success? ==> Distinct(worlds) && forall w :: w in worlds <==> IsWorld(ped, w)
    ensures r.Success? ==>
              && fresh(r.value) && r.value.Valid() && r.value.names == ped.names
              && (forall n :: n in ped.names ==> Normalizable(Weights(ped, worlds)[n]))
              && r.value.table == NormalizedTable(Weights(ped, worlds))
    ensures r.Success? ==>
              forall n :: n in r.value.table ==>
                Total(r.value.table[n].gene) == 1.0 && Total(r.value.table[n].traits) == 1.0
    ensures r.Success? ==>
              forall n :: n in ped.people && ped.people[n].observed.Some? ==>
                r.value.table[n].traits[TraitIndex(ped.people[n].observed.value)] == 1.0
  {
    var probabilities := new Probabilities(ped);
    var traitSets := Powerset(ped.names);
    PowersetDistinct(ped.names);
    worlds := [];
    var i := 0;
    while i < |traitSets|
      invariant 0 <= i <= |traitSets|
      invariant probabilities.Valid() && probabilities.names == ped.names
      invariant probabilities.table == Weights(ped, worlds) && Distinct(worlds)
      invariant worlds != [] ==> ParentsKnown(ped)
      invariant ListedTraits(ped, worlds, traitSets[..i])
    {
      var haveTrait := traitSets[i];
      if !FailsEvidence(ped, haveTrait) {
        ListedTraitFresh(ped, worlds, traitSets, i);
        ghost var prior := worlds;
        var failure;
        failure, worlds := EnumerateOneGene(ped, probabilities, haveTrait, worlds);
        if failure.Some? {
          return Failure(failure.value), worlds;
        }
        ListedTraitStep(ped, prior, worlds, traitSets, i);
      } else {
        ListedTraitSkip(ped, worlds, traitSets, i);
      }
      i := i + 1;
    }
    assert traitSets[..i] == traitSets;
    ListedTraitsDone(ped, worlds, traitSets);
    EvidenceWorld(ped);
    assert World(Observed(ped, true), {}, {}) in worlds;
    PosteriorIsDistribution(ped, worlds);
    var ok := probabilities.Normalize();
    assert ok;
    r := Success(probabilities);
  }
}
