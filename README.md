# Heredity: exact inference over a family pedigree

This project models, in Dafny, the inference core of `heredity.py`. The program takes a
pedigree: people, their optional mother and father, and an optional observation of
whether each shows a trait. For every person it computes the posterior distribution
over gene copies (0, 1 or 2) and over showing the trait.

It does this by brute-force enumeration. Every trait set is tried, and any set that
disagrees with an observation is skipped. For each remaining trait set, every one-copy
set is tried, and for each of those every two-copy set drawn from the rest. Each such
world is scored by `joint_probability` and added into per-person buckets by `update`.
At the end `normalize` makes each distribution sum to 1.

All numbers are exact `real`s, so the model has no float rounding.

Modules, one per concern of the source:

- `Tables`: the `PROBS` constants.
- `Pedigrees`: the people dictionary, parent truthiness and `genes_dict`.
- `Subsets`: `powerset`, plus `names - one_gene`.
- `Inheritance`: the per-person gene factor split into two-, one- and zero-copy branches.
- `Joint`: `joint_probability`.
- `Distributions`: the mutable `probabilities` dictionary as a class, with `update` and `normalize`.
- `Driver`: the loops of `main`.
- `Wrappers` and `Lists`: small helpers.

Representation choices:

- The people dictionary is `Pedigree(names, people)`. `names` is its key order and `people` its map. `Valid()` asks that the names are distinct and are exactly the keys.
- Python's `if mother and father` is `HasParents`: a parent counts only when present and non-empty.
- A parent name that is not a key raises `KeyError` in the source. Here `JointProbability` returns `Failure(UnknownPerson(name))`. The name is `Pedigrees.FirstMissingParent`: the first failed lookup in key order, with the mother looked up before the father, as in the source.
- The source loops over `[mother, father]`. The model writes this loop as the product of the two parents' factors (`TransmitProb` / `NonTransmitProb`).
- The two `+=` lines of `update` become one `Bump` of the person's record.
- `Probabilities.Normalize` reports a zero sum as `ok == false`, where the source raises `ZeroDivisionError`. `Driver.Infer` proves that this never happens after a full enumeration: the world that matches the evidence with no carriers has positive probability.
- When both parents carry zero copies and the child carries one, the source has no branch for a parental sum of 0. The factor then stays at its initial value 1. The model reproduces this (`Inheritance.OneCopyFromZeroParents`), and `Inheritance.ChildFactorsSum` shows that in this case alone a child's three factors do not sum to 1.
- A consequence of that missing branch: in every world where both of a person's recorded parents carry zero copies, the child's three possible factors add up to more than 1 (`Inheritance.ChildFactorsSum`). Those worlds carry too much weight, which pulls the parents' posteriors toward zero copies. So a founder who is someone's parent does not in general keep the prior as its posterior, even without evidence. That can hold at most for an unobserved founder who is nobody's parent.

## Model

| member | source | states |
|---|---|---|
| Tables.GenePrior | heredity.py:8-12 | the founder prior for 2, 1, 0 copies is 0.01, 0.03, 0.96, each strictly between 0 and 1 |
| Tables.TraitProb | heredity.py:14-33 | the trait likelihood table for each gene count, each entry strictly between 0 and 1 |
| Tables.GenePriorIsDistribution | heredity.py:8-12 | the prior sums to 1 over the three counts |
| Tables.TraitProbIsDistribution | heredity.py:14-33 | for each count, the trait likelihoods of true and false sum to 1 |
| Tables.TraitRisesWithCopies | heredity.py:14-33 | the trait becomes strictly more likely with each extra copy |
| Pedigrees.GenesDict | heredity.py:133-150 | the keys are exactly the people; each is mapped to 1 if in `one_gene`, else 2 if in `two_genes`, else 0 |
| Pedigrees.CountOfPartition | heredity.py:140-148 | with disjoint sets: count 1 iff in `one_gene`, count 2 iff in `two_genes`, count 0 iff in neither |
| Pedigrees.CountOfOverlap | heredity.py:141-145 | a person in both sets gets 1 (the one-copy test comes first) |
| Pedigrees.FirstMissingParentIsParent | heredity.py:177-231 | the first failed parent lookup, in key order, is a name that some person with both parents gives as mother or father and that is not a key. There is no failed lookup iff every recorded parent is a key |
| Subsets.Powerset | heredity.py:121-130 | the result has 2^n entries, and a set is among them iff it is a subset of the input (so it includes the empty set and the whole set) |
| Subsets.PowersetDistinct | heredity.py:121-130 | for an input without repeats, no subset is listed twice |
| Subsets.Without | heredity.py:80 | `names - one_gene`: its elements are the names minus the set, without repeats |
| Inheritance.InheritanceFactor | heredity.py:171-242 | each person's gene factor lies in (0, 1] |
| Inheritance.TransmitProb | heredity.py:179-188 | a parent's factor for a two-copy child lies strictly between 0 and 1, and is exactly 1/2 for a one-copy parent |
| Inheritance.NonTransmitProb | heredity.py:229-238 | a parent's factor for a zero-copy child is 1 minus its factor for a two-copy child |
| Inheritance.OneCopyProb | heredity.py:200-217 | lies in (0, 1]. For a parental sum above 0 it is the probability that exactly one parent passes the gene on; for a sum of 0 no branch matches and it stays 1 |
| Inheritance.ParentTablesMatchPassOn | heredity.py:179-188 | the per-parent factors agree with a model where a random copy is passed on and flips with probability `mutation`; a one-copy parent gives exactly 1/2 |
| Inheritance.FounderFactor | heredity.py:190-192 | a person without both parents gets the prior `PROBS["gene"][g]` |
| Inheritance.TwoCopyFactor | heredity.py:174-188 | two-copy child: the product of both parents' pass-on probabilities |
| Inheritance.ZeroCopyFactor | heredity.py:224-238 | zero-copy child: the product of both parents' non-pass-on probabilities |
| Inheritance.OneCopyFactor | heredity.py:195-217 | one-copy child with parental sum > 0: exactly one parent passes the gene on, together with the source's closed form per sum |
| Inheritance.OneCopyFromZeroParents | heredity.py:200-217 | parental sum 0 matches no branch, so the factor is 1, which differs from the transmission model's 2m(1-m) |
| Inheritance.ChildFactorsSum | heredity.py:171-242 | a child's three factors sum to 1 except when both parents have zero copies, where they sum to 2 - 2m + 2m^2 |
| Joint.ProductInUnit | heredity.py:249-251 | a product of factors in (0, 1] lies in (0, 1] |
| Joint.JointInUnit | heredity.py:153-253 | every world's joint probability lies in (0, 1] |
| Joint.FounderProb | heredity.py:190-192 | a founder's factor is the gene prior times the trait-table lookup |
| Joint.MultiplyOut | heredity.py:249-253 | the running product equals the product of the list |
| Joint.LookupParents | heredity.py:177-200 | fails iff the person has both parents and one of them is not a key, naming the mother first; otherwise returns both parents' counts in the world, or none for a founder |
| Joint.JointProbability | heredity.py:153-253 | fails iff some person with both parents names a parent that is not in the pedigree. The error names that parent: the first failed lookup in key order, mother before father. Otherwise returns the product, over the people, of the inheritance factor times `PROBS["trait"][g][person in have_trait]` |
| Distributions.ZeroTable | heredity.py:50-63 | one record per person, with three gene buckets and two trait buckets, all zero |
| Distributions.Bump | heredity.py:267-268 | adds `p` to the gene bucket of the person's count and the trait bucket of their trait state, leaving every other bucket unchanged |
| Distributions.BumpAddsToOneBucket | heredity.py:267-268 | one person's update grows both their gene total and their trait total by exactly `p` |
| Distributions.TotalUpdate | heredity.py:267-268 | adding `p` to one entry adds `p` to the sum |
| Distributions.TotalScale | heredity.py:284-285 | dividing every entry by `c` divides the sum by `c` |
| Distributions.NormalizedIsDistribution | heredity.py:271-285 | a normalized record sums to 1 in both distributions and keeps the ratios: new value times old total is the old value |
| Distributions.PinnedTrait | heredity.py:271-285 | if the other trait bucket is 0, the normalized bucket is 1 |
| Distributions.NormalizeGroup | heredity.py:279-285 | succeeds iff the sum is nonzero, and the result is every entry divided by that sum |
| Distributions.Probabilities.constructor | heredity.py:50-63 | the table starts with all-zero records for exactly the people |
| Distributions.Probabilities.Update | heredity.py:256-268 | the new table is the old one with that world's `p` added into each person's buckets; the keys are kept |
| Distributions.Probabilities.Normalize | heredity.py:271-285 | succeeds iff every person's two sums are nonzero, and the new table is then the normalized old table |
| Driver.FailsEvidence | heredity.py:70-76 | a trait set fails the evidence check iff it misses someone observed with the trait or contains someone observed without it |
| Driver.MassPositive | heredity.py:83-84 | the total probability of a non-empty list of worlds is positive |
| Driver.AccumulateTotals | heredity.py:83-84 | after the worlds are accumulated, each of a person's two totals is the starting total plus the worlds' combined probability |
| Driver.AccumulateEvidence | heredity.py:70-84 | for an observed person, no evidence-consistent world adds to the opposite trait bucket |
| Driver.EvidenceWorld | heredity.py:67-80 | the world with the observed carriers of the trait and no gene copies is always enumerated |
| Driver.WeightsNormalizable | heredity.py:86-87 | after the full enumeration no distribution sums to zero, so `normalize` cannot divide by zero |
| Driver.PosteriorIsDistribution | heredity.py:86-87 | the final distributions each sum to 1, and an observed trait value has posterior 1 |
| Driver.ListedTwoStep | heredity.py:80-84 | one more two-copy set adds exactly its world, with no repeats |
| Driver.ListedOneStep | heredity.py:79-84 | one more one-copy set adds exactly its worlds |
| Driver.ListedTraitStep | heredity.py:67-84 | one more evidence-consistent trait set adds exactly its worlds |
| Driver.ListedTraitSkip | heredity.py:75-76 | a trait set that fails the evidence adds no world |
| Driver.AddScoredWorld | heredity.py:83-84 | adds one world's probability into the table, or reports the first missing parent in key order, a name some person gives as mother or father |
| Driver.EnumerateTwoGenes | heredity.py:80-84 | adds every world for a fixed trait set and one-copy set, where the two-copy set is any subset of the other people; on a missing parent, reports the first one in key order |
| Driver.EnumerateOneGene | heredity.py:79-84 | adds every world with the given trait set and a disjoint pair of one-copy and two-copy sets; on a missing parent, reports the first one in key order |
| Driver.Infer | heredity.py:49-87 | fails iff some parent is missing, and then names the first missing parent in key order, mother before father. On success the worlds visited are exactly the evidence-consistent worlds with disjoint gene sets, each visited once. The table is the normalized sum of their probabilities, each distribution sums to 1, and each observed trait has posterior 1 |

## Left out

- `load_data` (reading the CSV into the dictionary): file I/O. Its result is the `Pedigree` value that `Driver.Infer` takes.
- The commented-out `sys.argv` check and the hard-coded `data/family0.csv` path: configuration. The pedigree is a parameter.
- The printing at the end of `main`, including the 4-digit rounding: output only.
- Floating-point arithmetic: the model uses exact rationals, so the results match the source's only up to rounding.
- The order in which `powerset` lists subsets, which comes from `itertools.combinations`: `Subsets.Powerset` lists the same subsets in a different order. Only the resulting sums depend on the set of worlds, and addition order matters only under rounding.
- Python `set` iteration order for `names`: the model follows the pedigree's key order.
- Probabilities.Normalize: if a sum is zero it stops with `ok == false` and leaves the table unspecified, where the source raises `ZeroDivisionError` with some people already divided.
- Driver.Infer: does not state that a founder who is unobserved and nobody's parent keeps the prior as its posterior. For a founder who is a parent this does not hold in general, because of the missing parental-sum-0 branch described above.
