/** People, their parent links and observed traits, and the gene count a world assigns. */
module Pedigrees {
  import opened Wrappers
  import opened Lists
  import opened Tables

  /** One row of the pedigree: optional parent names and an optional observed trait (`observed`). */
  datatype Person = Person(name: string, mother: Option<string>, father: Option<string>, observed: Option<bool>)

  /**
   * The `people` dictionary: `people` maps each name to its record and `names`
   * lists the keys in the dictionary's iteration order.
   */
  datatype Pedigree = Pedigree(names: seq<string>, people: map<string, Person>) {
    ghost predicate Valid() {
      Distinct(names) && forall n :: n in people <==> n in names
    }
  }

  /** Truth value of an optional parent name: present and not the empty string. */
  predicate Named(o: Option<string>) {
    o.Some? && o.value != ""
  }

  /** Both parents recorded; a person with only one recorded parent counts as a founder. */
  predicate HasParents(p: Person) {
    Named(p.mother) && Named(p.father)
  }

  /** Person `n` is a key, and if it has parents both of them are keys too. */
  ghost predicate ParentsKnownFor(ped: Pedigree, n: string) {
    n in ped.people &&
    (HasParents(ped.people[n]) ==>
       ped.people[n].mother.value in ped.people && ped.people[n].father.value in ped.people)
  }

  /** Every parent reference resolves to a person of the pedigree. */
  ghost predicate ParentsKnown(ped: Pedigree) {
    forall n :: n in ped.people ==> ParentsKnownFor(ped, n)
  }

  /** Gene count of `n` in the world given by the one-copy and two-copy sets; `oneGene` is tested first. */
  function CountOf(n: string, oneGene: set<string>, twoGenes: set<string>): GeneCount {
    if n in oneGene then 1 else if n in twoGenes then 2 else 0
  }

  /**
   * With disjoint sets, the three gene counts partition the people:
   * 1 exactly for `oneGene`, 2 exactly for `twoGenes`, 0 for everyone else.
   */
  lemma CountOfPartition(n: string, oneGene: set<string>, twoGenes: set<string>)
    requires oneGene !! twoGenes
    ensures CountOf(n, oneGene, twoGenes) == 1 <==> n in oneGene
    ensures CountOf(n, oneGene, twoGenes) == 2 <==> n in twoGenes
    ensures CountOf(n, oneGene, twoGenes) == 0 <==> n !in oneGene && n !in twoGenes
  {
  }

  /** On overlapping sets the one-copy set wins. */
  lemma CountOfOverlap(n: string, oneGene: set<string>, twoGenes: set<string>)
    requires n in oneGene && n in twoGenes
    ensures CountOf(n, oneGene, twoGenes) == 1
  {
  }

  /** Builds the person to gene-count map by one pass over the keys. */
  method GenesDict(names: seq<string>, oneGene: set<string>, twoGenes: set<string>)
    returns (genes: map<string, GeneCount>)
    ensures forall n :: n in genes <==> n in names
    ensures forall n :: n in genes ==> genes[n] == CountOf(n, oneGene, twoGenes)
  {
    genes := map[];
    var i := 0;
    while i < |names|
      invariant 0 <= i <= |names|
      invariant forall n :: n in genes <==> n in names[..i]
      invariant forall n :: n in genes ==> genes[n] == CountOf(n, oneGene, twoGenes)
    {
      var person := names[i];
      if person in oneGene {
        genes := genes[person := 1];
      } else if person in twoGenes {
        genes := genes[person := 2];
      } else {
        genes := genes[person := 0];
      }
      assert names[..i + 1] == names[..i] + [person];
      i := i + 1;
    }
    assert names[..i] == names;
  }

  /** `name` is the mother or the father of some person with both parents recorded. */
  ghost predicate MissingParentNamed(ped: Pedigree, name: string) {
    exists n :: n in ped.people && HasParents(ped.people[n]) && name in {ped.people[n].mother.value, ped.people[n].father.value}
  }

  /**
   * The parent of `n` whose lookup fails first, if any: the mother is looked up
   * before the father, and only for a person with both parents recorded.
   */
  function MissingParent(ped: Pedigree, n: string): Option<string> {
    if n !in ped.people || !HasParents(ped.people[n]) then None
    else if ped.people[n].mother.value !in ped.people then Some(ped.people[n].mother.value)
    else if ped.people[n].father.value !in ped.people then Some(ped.people[n].father.value)
    else None
  }

  /** The first failed parent lookup when the people of `ns` are visited in order. */
  function FirstMissingParent(ped: Pedigree, ns: seq<string>): Option<string> {
    if ns == [] then None
    else if MissingParent(ped, ns[0]).Some? then MissingParent(ped, ns[0])
    else FirstMissingParent(ped, ns[1..])
  }

  /**
   * For people of the pedigree, the first failed lookup is a parent that one of them
   * names and that is not a key; there is none exactly when all their parents are keys.
   */
  lemma {:induction false} FirstMissingParentIsParent(ped: Pedigree, ns: seq<string>)
    requires forall i :: 0 <= i < |ns| ==> ns[i] in ped.people
    ensures FirstMissingParent(ped, ns).Some? ==>
              FirstMissingParent(ped, ns).value !in ped.people && MissingParentNamed(ped, FirstMissingParent(ped, ns).value)
    ensures FirstMissingParent(ped, ns).None? <==> forall n :: n in ns ==> ParentsKnownFor(ped, n)
  {
    if ns != [] {
      var n0 := ns[0];
      assert n0 in ped.people;
      FirstMissingParentIsParent(ped, ns[1..]);
      assert forall n :: n in ns <==> n == n0 || n in ns[1..];
      if MissingParent(ped, n0).Some? {
        assert !ParentsKnownFor(ped, n0);
        assert MissingParent(ped, n0).value in {ped.people[n0].mother.value, ped.people[n0].father.value};
      } else {
        assert ParentsKnownFor(ped, n0);
      }
    }
  }
}
