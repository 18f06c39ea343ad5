/** Probability of one fully specified world: a gene count and a trait state for everyone. */
module Joint {
  import opened Wrappers
  import opened Tables
  import opened Pedigrees
  import opened Inheritance

  /** A failed dictionary lookup: the name of a parent that is not a key of the pedigree. */
  datatype Error = UnknownPerson(name: string)

  /** The parents' gene counts in the world, or `None` for a founder. */
  function ParentCounts(p: Person, oneGene: set<string>, twoGenes: set<string>): Option<(GeneCount, GeneCount)> {
    if HasParents(p) then Some((CountOf(p.mother.value, oneGene, twoGenes), CountOf(p.father.value, oneGene, twoGenes)))
    else None
  }

  /** Inheritance factor times trait factor of person `n`. */
  function PersonProb(ped: Pedigree, n: string, oneGene: set<string>, twoGenes: set<string>, haveTrait: set<string>): real
    requires n in ped.people
  {
    var g := CountOf(n, oneGene, twoGenes);
    InheritanceFactor(g, ParentCounts(ped.people[n], oneGene, twoGenes)) * TraitProb(g, n in haveTrait)
  }

  /** The per-person probabilities of `ns`, in order (`prob_list`). */
  function Factors(ped: Pedigree, ns: seq<string>, oneGene: set<string>, twoGenes: set<string>, haveTrait: set<string>)
    : seq<real>
    requires forall i :: 0 <= i < |ns| ==> ns[i] in ped.people
  {
    seq(|ns|, i requires 0 <= i < |ns| => PersonProb(ped, ns[i], oneGene, twoGenes, haveTrait))
  }

  /** Left-to-right product, starting from 1. */
  function Product(s: seq<real>): real {
    if s == [] then 1.0 else Product(s[..|s| - 1]) * s[|s| - 1]
  }

  /** The joint probability of a world: the product of everyone's probability. */
  ghost function JointOf(ped: Pedigree, oneGene: set<string>, twoGenes: set<string>, haveTrait: set<string>): real
    requires ped.Valid()
  {
    Product(Factors(ped, ped.names, oneGene, twoGenes, haveTrait))
  }

  /** Multiplying in one more factor. */
  lemma ProductSnoc(s: seq<real>, x: real)
    ensures Product(s + [x]) == Product(s) * x
  {
    assert (s + [x])[..|s|] == s;
  }

  /** A product of factors in (0, 1] lies in (0, 1]. */
  lemma {:induction false} ProductInUnit(s: seq<real>)
    requires forall i :: 0 <= i < |s| ==> 0.0 < s[i] <= 1.0
    ensures 0.0 < Product(s) <= 1.0
  {
    if s != [] {
      var init, last := s[..|s| - 1], s[|s| - 1];
      ProductInUnit(init);
      var a := Product(init);
      assert 0.0 < a * last <= a by {
        assert a * last <= a * 1.0;
      }
    }
  }

  /** Every world has a probability in (0, 1]: each factor is positive and at most 1. */
  lemma JointInUnit(ped: Pedigree, oneGene: set<string>, twoGenes: set<string>, haveTrait: set<string>)
    requires ped.Valid()
    ensures 0.0 < JointOf(ped, oneGene, twoGenes, haveTrait) <= 1.0
  {
    var fs := Factors(ped, ped.names, oneGene, twoGenes, haveTrait);
    forall i | 0 <= i < |fs|
      ensures 0.0 < fs[i] <= 1.0
    {
      var n := ped.names[i];
      var g := CountOf(n, oneGene, twoGenes);
      var a := InheritanceFactor(g, ParentCounts(ped.people[n], oneGene, twoGenes));
      var b := TraitProb(g, n in haveTrait);
      assert fs[i] == a * b;
      assert 0.0 < a * b <= a by {
        assert a * b <= a * 1.0;
      }
    }
    ProductInUnit(fs);
  }

  /** A founder's probability is the prior for its count times the trait likelihood. */
  lemma FounderProb(ped: Pedigree, n: string, oneGene: set<string>, twoGenes: set<string>, haveTrait: set<string>)
    requires n in ped.people && !HasParents(ped.people[n])
    ensures PersonProb(ped, n, oneGene, twoGenes, haveTrait)
            == GenePrior(CountOf(n, oneGene, twoGenes)) * TraitProb(CountOf(n, oneGene, twoGenes), n in haveTrait)
  {
  }

  /** The probability computed from the looked-up counts is the person's probability in the world. */
  lemma PersonProbOf(ped: Pedigree, n: string, oneGene: set<string>, twoGenes: set<string>, haveTrait: set<string>,
                     g: GeneCount, parents: Option<(GeneCount, GeneCount)>)
    requires n in ped.people
    requires g == CountOf(n, oneGene, twoGenes) && parents == ParentCounts(ped.people[n], oneGene, twoGenes)
    ensures InheritanceFactor(g, parents) * TraitProb(g, n in haveTrait) == PersonProb(ped, n, oneGene, twoGenes, haveTrait)
  {
  }

  /** Folds `prob_list` into the joint probability with a running product. */
  method MultiplyOut(probList: seq<real>) returns (joint: real)
    ensures joint == Product(probList)
  {
    joint := 1.0;
    var k := 0;
    while k < |probList|
      invariant 0 <= k <= |probList|
      invariant joint == Product(probList[..k])
    {
      assert probList[..k + 1] == probList[..k] + [probList[k]];
      ProductSnoc(probList[..k], probList[k]);
      joint := joint * probList[k];
      k := k + 1;
    }
    assert probList[..k] == probList;
  }

  /**
   * Looks up the parents' gene counts of `person` in `genes`, mother first; a
   * parent that is not a key is reported.
   */
  method LookupParents(ped: Pedigree, person: string, genes: map<string, GeneCount>, oneGene: set<string>, twoGenes: set<string>)
    returns (r: Result<Option<(GeneCount, GeneCount)>, Error>)
    requires person in ped.people
    requires forall n :: n in genes <==> n in ped.people
    requires forall n :: n in genes ==> genes[n] == CountOf(n, oneGene, twoGenes)
    ensures r.Failure? <==> MissingParent(ped, person).Some?
    ensures r.Failure? ==> r.error.name == MissingParent(ped, person).value
    ensures r.Success? ==> r.value == ParentCounts(ped.people[person], oneGene, twoGenes)
  {
    var p := ped.people[person];
    if !HasParents(p) {
      return Success(None);
    }
    if p.mother.value !in genes {
      return Failure(UnknownPerson(p.mother.value));
    }
    if p.father.value !in genes {
      return Failure(UnknownPerson(p.father.value));
    }
    r := Success(Some((genes[p.mother.value], genes[p.father.value])));
  }

  /**
   * Computes the joint probability of the world by filling `prob_list` and folding
   * it; a parent name that is not a key raises a lookup error.
   */
  method JointProbability(ped: Pedigree, oneGene: set<string>, twoGenes: set<string>, haveTrait: set<string>)
    returns (r: Result<real, Error>)
    requires ped.Valid()
    ensures r.Failure? <==> !ParentsKnown(ped)
    ensures r.Failure? ==> r.error.name !in ped.people && MissingParentNamed(ped, r.error.name)
    ensures r.Failure? ==> FirstMissingParent(ped, ped.names) == Some(r.error.name)
    ensures r.Success? ==> r.value == JointOf(ped, oneGene, twoGenes, haveTrait)
  {
    var genes := GenesDict(ped.names, oneGene, twoGenes);
    var probList: seq<real> := [];
    var i := 0;
    while i < |ped.names|
      invariant 0 <= i <= |ped.names|
      invariant FirstMissingParent(ped, ped.names) == FirstMissingParent(ped, ped.names[i..])
      invariant |probList| == i
      invariant forall j :: 0 <= j < i ==> probList[j] == PersonProb(ped, ped.names[j], oneGene, twoGenes, haveTrait)
    {
      var person := ped.names[i];
      assert ped.names[i..][1..] == ped.names[i + 1..];
      var g := genes[person];
      var lookup := LookupParents(ped, person, genes, oneGene, twoGenes);
      if lookup.Failure? {
        FirstMissingParentIsParent(ped, ped.names);
        return Failure(lookup.error);
      }
      var parents := lookup.value;
      var prob := InheritanceFactor(g, parents) * TraitProb(g, person in haveTrait);
      PersonProbOf(ped, person, oneGene, twoGenes, haveTrait, g, parents);
      probList := probList + [prob];
      i := i + 1;
    }
    assert ped.names[i..] == [];
    FirstMissingParentIsParent(ped, ped.names);
    var joint := MultiplyOut(probList);
    assert probList == Factors(ped, ped.names, oneGene, twoGenes, haveTrait);
    r := Success(joint);
  }
}
