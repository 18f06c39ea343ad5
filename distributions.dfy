/**
 * The `probabilities` table: for each person a gene distribution (buckets for 0, 1
 * and 2 copies) and a trait distribution (buckets for not having and having the
 * trait), accumulated world by world and then normalized in place.
 */
module Distributions {
  import opened Lists
  import opened Tables
  import opened Pedigrees

  /** One person's buckets: `gene[g]` for `g` copies; `traits[1]` for the trait, `traits[0]` for its absence. */
  datatype Record = Record(gene: seq<real>, traits: seq<real>)

  predicate Shaped(r: Record) {
    |r.gene| == 3 && |r.traits| == 2
  }

  /** Bucket index of a trait value. */
  function TraitIndex(has: bool): nat {
    if has then 1 else 0
  }

  /** Left-to-right sum, starting from 0. */
  function Total(s: seq<real>): real {
    if s == [] then 0.0 else Total(s[..|s| - 1]) + s[|s| - 1]
  }

  /** Every value divided by `c`. */
  function Scale(s: seq<real>, c: real): seq<real>
    requires c != 0.0
  {
    seq(|s|, i requires 0 <= i < |s| => s[i] / c)
  }

  /** The all-zero record every person starts with. */
  function ZeroRecord(): (r: Record)
    ensures Shaped(r) && Total(r.gene) == 0.0 && Total(r.traits) == 0.0
  {
    assert [0.0, 0.0, 0.0][..2] == [0.0, 0.0] && [0.0, 0.0][..1] == [0.0];
    Record([0.0, 0.0, 0.0], [0.0, 0.0])
  }

  /** Every person of `names` with the all-zero record. */
  function ZeroTable(names: seq<string>): (t: map<string, Record>)
    ensures forall n :: n in t <==> n in names
    ensures forall n :: n in t ==> Shaped(t[n]) && Total(t[n].gene) == 0.0 && Total(t[n].traits) == 0.0
  {
    map n | n in names :: ZeroRecord()
  }

  /** The record after one world of weight `p` in which the person has `g` copies and trait state `has`. */
  function Bump(r: Record, g: GeneCount, has: bool, p: real): (b: Record)
    requires Shaped(r)
    ensures Shaped(b)
    ensures forall k :: 0 <= k < 3 ==> b.gene[k] == r.gene[k] + (if k == g then p else 0.0)
    ensures forall k :: 0 <= k < 2 ==> b.traits[k] == r.traits[k] + (if k == TraitIndex(has) then p else 0.0)
  {
    Record(r.gene[g := r.gene[g] + p], r.traits[TraitIndex(has) := r.traits[TraitIndex(has)] + p])
  }

  /** Every person's record after one world of weight `p`. */
  function AddWorld(t: map<string, Record>, oneGene: set<string>, twoGenes: set<string>, haveTrait: set<string>, p: real)
    : (u: map<string, Record>)
    requires forall n :: n in t ==> Shaped(t[n])
    ensures u.Keys == t.Keys && forall n :: n in u ==> Shaped(u[n])
  {
    AddWorldTo(t, t.Keys, oneGene, twoGenes, haveTrait, p)
  }

  /** The records of the people in `done` after one world of weight `p`; the others as they were. */
  function AddWorldTo(t: map<string, Record>, done: set<string>, oneGene: set<string>, twoGenes: set<string>,
                      haveTrait: set<string>, p: real): (u: map<string, Record>)
    requires forall n :: n in t ==> Shaped(t[n])
    ensures u.Keys == t.Keys && forall n :: n in u ==> Shaped(u[n])
  {
    map n | n in t :: if n in done then Bump(t[n], CountOf(n, oneGene, twoGenes), n in haveTrait, p) else t[n]
  }

  /** Bumping one more person's record. */
  lemma AddWorldToStep(t: map<string, Record>, done: set<string>, n: string, oneGene: set<string>, twoGenes: set<string>,
                       haveTrait: set<string>, p: real)
    requires forall m :: m in t ==> Shaped(t[m])
    requires n in t && n !in done
    ensures AddWorldTo(t, done + {n}, oneGene, twoGenes, haveTrait, p)
            == AddWorldTo(t, done, oneGene, twoGenes, haveTrait, p)[n := Bump(t[n], CountOf(n, oneGene, twoGenes), n in haveTrait, p)]
  {
  }

  /** Neither distribution of the record has a zero total. */
  predicate Normalizable(r: Record) {
    Total(r.gene) != 0.0 && Total(r.traits) != 0.0
  }

  /** Both distributions of a record rescaled by their own totals. */
  function Normalized(r: Record): Record
    requires Normalizable(r)
  {
    Record(Scale(r.gene, Total(r.gene)), Scale(r.traits, Total(r.traits)))
  }

  /** All records normalized. */
  function NormalizedTable(t: map<string, Record>): (u: map<string, Record>)
    requires forall n :: n in t ==> Normalizable(t[n])
    ensures u.Keys == t.Keys
  {
    NormalizedTo(t, t.Keys)
  }

  /** The records of the people in `done` normalized; the others as they were. */
  function NormalizedTo(t: map<string, Record>, done: set<string>): (u: map<string, Record>)
    requires forall n :: n in t && n in done ==> Normalizable(t[n])
    ensures u.Keys == t.Keys
  {
    map n | n in t :: if n in done then Normalized(t[n]) else t[n]
  }

  /** Normalizing one more person's record. */
  lemma NormalizedToStep(t: map<string, Record>, done: set<string>, n: string)
    requires forall m :: m in t && m in done ==> Normalizable(t[m])
    requires n in t && n !in done && Normalizable(t[n])
    ensures NormalizedTo(t, done + {n}) == NormalizedTo(t, done)[n := Normalized(t[n])]
  {
  }

  /** Adding `p` to one bucket adds `p` to the total. */
  lemma {:induction false} TotalUpdate(s: seq<real>, k: nat, p: real)
    requires k < |s|
    ensures Total(s[k := s[k] + p]) == Total(s) + p
  {
    var s' := s[k := s[k] + p];
    if k == |s| - 1 {
      assert s'[..|s'| - 1] == s[..|s| - 1];
    } else {
      TotalUpdate(s[..|s| - 1], k, p);
      assert s'[..|s'| - 1] == s[..|s| - 1][k := s[k] + p];
    }
  }

  /** Dividing every value by `c` divides the total by `c`. */
  lemma {:induction false} TotalScale(s: seq<real>, c: real)
    requires c != 0.0
    ensures Total(Scale(s, c)) == Total(s) / c
  {
    if s != [] {
      var init := s[..|s| - 1];
      TotalScale(init, c);
      assert Scale(s, c)[..|s| - 1] == Scale(init, c);
      assert Total(init) / c + s[|s| - 1] / c == (Total(init) + s[|s| - 1]) / c;
    }
  }

  /**
   * One world adds `p` to exactly one gene bucket (the person's count) and one trait
   * bucket (the person's trait state), so each of the two totals grows by exactly `p`.
   */
  lemma BumpAddsToOneBucket(r: Record, g: GeneCount, has: bool, p: real)
    requires Shaped(r)
    ensures Total(Bump(r, g, has, p).gene) == Total(r.gene) + p
    ensures Total(Bump(r, g, has, p).traits) == Total(r.traits) + p
  {
    TotalUpdate(r.gene, g, p);
    TotalUpdate(r.traits, TraitIndex(has), p);
  }

  /** A nonzero value divided by itself is 1, stated once so the proofs below can cite it. */
  lemma DivSelf(c: real)
    requires c != 0.0
    ensures c / c == 1.0
  {
  }

  /** Dividing by the total gives values in the old proportions that sum to 1. */
  lemma ScaleByTotal(s: seq<real>)
    requires Total(s) != 0.0
    ensures Total(Scale(s, Total(s))) == 1.0
    ensures |Scale(s, Total(s))| == |s|
    ensures forall k :: 0 <= k < |s| ==> Scale(s, Total(s))[k] * Total(s) == s[k]
  {
    var c := Total(s);
    TotalScale(s, c);
    DivSelf(c);
  }

  /**
   * Normalizing makes each distribution sum to 1 and keeps every value in proportion:
   * each new value times the old total is the old value.
   */
  lemma NormalizedIsDistribution(r: Record)
    requires Normalizable(r)
    ensures Total(Normalized(r).gene) == 1.0 && Total(Normalized(r).traits) == 1.0
    ensures |Normalized(r).gene| == |r.gene| && |Normalized(r).traits| == |r.traits|
    ensures forall k :: 0 <= k < |r.gene| ==> Normalized(r).gene[k] * Total(r.gene) == r.gene[k]
    ensures forall k :: 0 <= k < |r.traits| ==> Normalized(r).traits[k] * Total(r.traits) == r.traits[k]
  {
    ScaleByTotal(r.gene);
    ScaleByTotal(r.traits);
  }

  /** A trait distribution whose other bucket is empty normalizes to certainty. */
  lemma PinnedTrait(r: Record, b: bool)
    requires Shaped(r) && Normalizable(r)
    requires r.traits[TraitIndex(!b)] == 0.0
    ensures Normalized(r).traits[TraitIndex(b)] == 1.0
  {
    var s := r.traits;
    assert s[..1][..0] == [];
    assert Total(s[..1]) == s[0];
    assert Total(s) == s[0] + s[1];
    DivSelf(Total(s));
  }

  /**
   * Normalizes one distribution: sums its values, then divides each value by that
   * sum; a zero sum is a division by zero (`ok` false, values left as they were).
   */
  method NormalizeGroup(s: seq<real>) returns (ok: bool, r: seq<real>)
    requires s != []
    ensures ok <==> Total(s) != 0.0
    ensures ok ==> r == Scale(s, Total(s))
    ensures !ok ==> r == s
  {
    var sum := 0.0;
    var i := 0;
    while i < |s|
      invariant 0 <= i <= |s|
      invariant sum == Total(s[..i])
    {
      assert s[..i + 1][..i] == s[..i];
      sum := sum + s[i];
      i := i + 1;
    }
    assert s[..i] == s;
    if sum == 0.0 {
      return false, s;
    }
    r := s;
    var j := 0;
    while j < |r|
      invariant 0 <= j <= |r| == |s|
      invariant forall k :: 0 <= k < j ==> r[k] == s[k] / sum
      invariant forall k :: j <= k < |r| ==> r[k] == s[k]
    {
      r := r[j := r[j] / sum];
      j := j + 1;
    }
    ok := true;
  }

  /** The per-person distributions, keyed in the order of `names`. */
  class Probabilities {
    var names: seq<string>
    var table: map<string, Record>

    ghost predicate Valid()
      reads this
    {
      Distinct(names) &&
      (forall n :: n in table <==> n in names) &&
      (forall n :: n in table ==> Shaped(table[n]))
    }

    /** Every person of the pedigree starts with all buckets at zero. */
    constructor (ped: Pedigree)
      requires ped.Valid()
      ensures Valid() && names == ped.names
      ensures table == ZeroTable(ped.names)
    {
      names := ped.names;
      table := map n | n in ped.names :: ZeroRecord();
    }

    /** Adds the weight `p` of one world into each person's gene bucket and trait bucket. */
    method Update(oneGene: set<string>, twoGenes: set<string>, haveTrait: set<string>, p: real)
      requires Valid()
      modifies this
      ensures Valid() && names == old(names)
      ensures table == AddWorld(old(table), oneGene, twoGenes, haveTrait, p)
    {
      var ns := names;
      ghost var t0 := table;
      var genes := GenesDict(ns, oneGene, twoGenes);
      ghost var done: set<string> := {};
      var i := 0;
      while i < |ns|
        invariant 0 <= i <= |ns|
        invariant names == ns
        invariant forall j :: 0 <= j < i ==> ns[j] in done
        invariant forall j :: i <= j < |ns| ==> ns[j] !in done
        invariant done <= t0.Keys
        invariant table == AddWorldTo(t0, done, oneGene, twoGenes, haveTrait, p)
      {
        var person := ns[i];
        var rec := table[person];
        assert rec == t0[person];
        var g := genes[person];
        assert g == CountOf(person, oneGene, twoGenes);
        AddWorldToStep(t0, done, person, oneGene, twoGenes, haveTrait, p);
        table := table[person := Bump(rec, g, person in haveTrait, p)];
        done := done + {person};
        i := i + 1;
      }
      assert done == t0.Keys;
    }

    /**
     * Normalizes, person by person, the gene and then the trait distribution; stops
     * with `ok` false at the first distribution whose total is zero.
     */
    method Normalize() returns (ok: bool)
      requires Valid()
      modifies this
      ensures Valid() && names == old(names)
      ensures ok <==> forall n :: n in old(table) ==> Normalizable(old(table)[n])
      ensures ok ==> table == NormalizedTable(old(table))
    {
      var ns := names;
      ghost var t0 := table;
      ghost var done: set<string> := {};
      var i := 0;
      while i < |ns|
        invariant 0 <= i <= |ns|
        invariant names == ns
        invariant forall j :: 0 <= j < i ==> ns[j] in done
        invariant forall j :: i <= j < |ns| ==> ns[j] !in done
        invariant done <= t0.Keys
        invariant forall n :: n in done ==> Normalizable(t0[n])
        invariant table == NormalizedTo(t0, done)
      {
        var person := ns[i];
        var rec := table[person];
        assert rec == t0[person];
        var okGene, gene := NormalizeGroup(rec.gene);
        if !okGene {
          return false;
        }
        var okTrait, traits := NormalizeGroup(rec.traits);
        if !okTrait {
          return false;
        }
        NormalizedToStep(t0, done, person);
        table := table[person := Record(gene, traits)];
        done := done + {person};
        i := i + 1;
      }
      assert done == t0.Keys;
      ok := true;
    }
  }
}
