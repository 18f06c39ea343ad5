/**
 * The constant probability tables of the model (`PROBS`), as exact rationals:
 * the unconditional prior over gene copies, the trait likelihood given the copies,
 * and the mutation rate.
 */
module Tables {

  /** How many copies of the gene a person carries. */
  type GeneCount = g: int | 0 <= g <= 2

  /** Probability that a copy flips while being passed from parent to child. */
  const Mutation: real := 0.01

  /** Unconditional probability of carrying `g` copies, for a person without recorded parents. */
  function GenePrior(g: GeneCount): (p: real)
    ensures 0.0 < p < 1.0
  {
    if g == 2 then 0.01 else if g == 1 then 0.03 else 0.96
  }

  /** Probability of showing the trait (`has`) or not showing it (`!has`) given `g` copies. */
  function TraitProb(g: GeneCount, has: bool): (p: real)
    ensures 0.0 < p < 1.0
  {
    if g == 2 then (if has then 0.65 else 0.35)
    else if g == 1 then (if has then 0.56 else 0.44)
    else (if has then 0.01 else 0.99)
  }

  /** The prior is a probability distribution over the three gene counts. */
  lemma GenePriorIsDistribution()
    ensures GenePrior(0) + GenePrior(1) + GenePrior(2) == 1.0
  {
  }

  /** For each gene count, the trait likelihood is a distribution over has / has not. */
  lemma TraitProbIsDistribution(g: GeneCount)
    ensures TraitProb(g, true) + TraitProb(g, false) == 1.0
  {
  }

  /** More copies make the trait strictly more likely. */
  lemma TraitRisesWithCopies()
    ensures TraitProb(0, true) < TraitProb(1, true) < TraitProb(2, true)
  {
  }
}
