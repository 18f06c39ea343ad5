/**
 * The inheritance factor of one person: the probability of the gene count the
 * world assigns, given the counts assigned to the parents (or the prior for a
 * founder). The three branches keep the closed forms of the source.
 */
module Inheritance {
  import opened Wrappers
  import opened Tables

  /** Factor a parent with `gp` copies contributes to a two-copy child. */
  function TransmitProb(gp: GeneCount): (p: real)
    ensures 0.0 < p < 1.0
    ensures gp == 1 ==> p == 0.5
  {
    if gp == 2 then 1.0 - Mutation else if gp == 1 then 0.5 else Mutation
  }

  /** Factor a parent with `gp` copies contributes to a zero-copy child. */
  function NonTransmitProb(gp: GeneCount): (p: real)
    ensures p == 1.0 - TransmitProb(gp)
  {
    if gp == 2 then Mutation else if gp == 1 then 0.5 else 1.0 - Mutation
  }

  /**
   * Factor for a one-copy child, split on the sum of the parents' counts.
   * There is no branch for a sum of 0, so that case keeps the initial factor 1.
   */
  function OneCopyProb(gm: GeneCount, gf: GeneCount): (p: real)
    ensures 0.0 < p <= 1.0
    ensures gm + gf > 0 ==> p == TransmitProb(gm) * NonTransmitProb(gf) + NonTransmitProb(gm) * TransmitProb(gf)
    ensures gm + gf == 0 ==> p == 1.0
  {
    var sum := gm + gf;
    if sum == 4 then 2.0 * Mutation * (1.0 - Mutation)
    else if sum == 3 then 0.5
    else if sum == 2 then (if gm == 1 then 0.5 else 1.0 - 2.0 * Mutation + 2.0 * Mutation * Mutation)
    else if sum == 1 then 0.5
    else 1.0
  }

  /** Inheritance factor of a person with `g` copies; `parents` holds the mother's and father's counts. */
  function InheritanceFactor(g: GeneCount, parents: Option<(GeneCount, GeneCount)>): (f: real)
    ensures 0.0 < f <= 1.0
  {
    match parents
    case None => GenePrior(g)
    case Some((gm, gf)) =>
      if g == 2 then TransmitProb(gm) * TransmitProb(gf)
      else if g == 1 then OneCopyProb(gm, gf)
      else NonTransmitProb(gm) * NonTransmitProb(gf)
  }

  /**
   * Reference model of one transmission: the parent passes one of its two copies
   * chosen uniformly, and the passed copy flips with probability `Mutation`.
   * Result: the probability that the child receives the gene from this parent.
   */
  function PassOn(gp: GeneCount): real {
    (gp as real / 2.0) * (1.0 - Mutation) + (1.0 - gp as real / 2.0) * Mutation
  }

  /** The per-parent tables agree with the transmission model, including the exact 1/2 for one copy. */
  lemma ParentTablesMatchPassOn(gp: GeneCount)
    ensures TransmitProb(gp) == PassOn(gp)
    ensures NonTransmitProb(gp) == 1.0 - PassOn(gp)
    ensures gp == 1 ==> PassOn(gp) == 0.5
  {
  }

  /** A founder's factor is the prior. */
  lemma FounderFactor(g: GeneCount)
    ensures InheritanceFactor(g, None) == GenePrior(g)
  {
  }

  /** Two-copy child: both parents pass the gene on. */
  lemma TwoCopyFactor(gm: GeneCount, gf: GeneCount)
    ensures InheritanceFactor(2, Some((gm, gf))) == PassOn(gm) * PassOn(gf)
  {
    ParentTablesMatchPassOn(gm);
    ParentTablesMatchPassOn(gf);
  }

  /** Zero-copy child: neither parent passes the gene on. */
  lemma ZeroCopyFactor(gm: GeneCount, gf: GeneCount)
    ensures InheritanceFactor(0, Some((gm, gf))) == (1.0 - PassOn(gm)) * (1.0 - PassOn(gf))
  {
    ParentTablesMatchPassOn(gm);
    ParentTablesMatchPassOn(gf);
  }

  /**
   * One-copy child whose parents carry at least one copy between them: exactly one
   * parent passes the gene on. The closed forms per parental sum are listed too.
   */
  lemma OneCopyFactor(gm: GeneCount, gf: GeneCount)
    requires gm + gf > 0
    ensures InheritanceFactor(1, Some((gm, gf)))
            == PassOn(gm) * (1.0 - PassOn(gf)) + (1.0 - PassOn(gm)) * PassOn(gf)
    ensures gm + gf == 4 ==> InheritanceFactor(1, Some((gm, gf))) == 2.0 * Mutation * (1.0 - Mutation)
    ensures gm + gf == 2 && gm != 1 ==>
              InheritanceFactor(1, Some((gm, gf))) == 1.0 - 2.0 * Mutation + 2.0 * Mutation * Mutation
    ensures gm + gf in {1, 3} || gm == gf == 1 ==> InheritanceFactor(1, Some((gm, gf))) == 0.5
  {
    ParentTablesMatchPassOn(gm);
    ParentTablesMatchPassOn(gf);
  }

  /**
   * One-copy child of two zero-copy parents: the source has no branch for a parental
   * sum of 0, so the factor stays 1 instead of the transmission model's 2m(1-m).
   */
  lemma OneCopyFromZeroParents()
    ensures InheritanceFactor(1, Some((0, 0))) == 1.0
    ensures PassOn(0) * (1.0 - PassOn(0)) + (1.0 - PassOn(0)) * PassOn(0) == 2.0 * Mutation * (1.0 - Mutation)
    ensures InheritanceFactor(1, Some((0, 0))) != 2.0 * Mutation * (1.0 - Mutation)
  {
  }

  /**
   * Over the child's three possible counts, the factors sum to 1 for every pair
   * of parents except two zero-copy parents, where they sum to 2 - 2m + 2m^2.
   */
  lemma ChildFactorsSum(gm: GeneCount, gf: GeneCount)
    ensures gm + gf > 0 ==>
      InheritanceFactor(0, Some((gm, gf))) + InheritanceFactor(1, Some((gm, gf))) + InheritanceFactor(2, Some((gm, gf))) == 1.0
    ensures gm + gf == 0 ==>
      InheritanceFactor(0, Some((gm, gf))) + InheritanceFactor(1, Some((gm, gf))) + InheritanceFactor(2, Some((gm, gf)))
      == 2.0 - 2.0 * Mutation + 2.0 * Mutation * Mutation
  {
  }
}
