/**
 Gene tally tables (gene to count, an absent gene counting 0) and the
 reference meaning of the two tallies the counter keeps: how many reads hit a
 gene, and how many of those reads are unique.
 */
module Tally {
  import opened Reads

  type Counts = map<Gene, nat>

  /** The count stored for a gene, 0 when the table has no entry for it. */
  function GetCount(counts: Counts, gene: Gene): (r: nat)
    ensures gene in counts ==> r == counts[gene]
    ensures gene !in counts ==> r == 0
    ensures r > 0 ==> gene in counts
  {
    if gene in counts then counts[gene] else 0
  }

  /** Adds one to a gene's count, entering it with count 1 when it is absent. */
  function IncrementCount(counts: Counts, gene: Gene): (r: Counts)
    ensures r.Keys == counts.Keys + {gene}
    ensures gene !in counts ==> r[gene] == 1
    ensures gene in counts ==> r[gene] == counts[gene] + 1
    ensures forall k :: k != gene && k in counts ==> r[k] == counts[k]
    ensures forall k :: GetCount(r, k) == GetCount(counts, k) + (if k == gene then 1 else 0)
  {
    if gene !in counts then counts[gene := 1] else counts[gene := counts[gene] + 1]
  }

  /** No entry of a table holds 0: entries are only ever made by an increment. */
  predicate Positive(counts: Counts)
  {
    forall g :: g in counts ==> counts[g] > 0
  }

  /** Pointwise, the unique tally never exceeds the total tally. */
  ghost predicate Dominated(unique: Counts, total: Counts)
  {
    forall g :: GetCount(unique, g) <= GetCount(total, g)
  }

  /** Two tables without zero entries are equal when they give every gene the
      same count: the counts describe the whole table. */
  lemma TablesEqual(a: Counts, b: Counts)
    requires Positive(a) && Positive(b)
    requires forall g :: GetCount(a, g) == GetCount(b, g)
    ensures a == b
  {
    assert a.Keys == b.Keys by {
      forall g ensures g in a <==> g in b {
        assert GetCount(a, g) == GetCount(b, g);
      }
    }
    forall g | g in a ensures a[g] == b[g] {
      assert GetCount(a, g) == GetCount(b, g);
    }
  }

  /** The number of reads among `groups` whose gene set contains `gene`. */
  function Hits(m: IsoformGeneMap, groups: seq<seq<Record>>, gene: Gene): (n: nat)
    requires Resolvable(m, groups)
    decreases |groups|
  {
    if |groups| == 0 then 0
    else
      var last := |groups| - 1;
      Hits(m, groups[..last], gene) + (if gene in GenesHit(m, groups[last]) then 1 else 0)
  }

  /** The number of unique reads among `groups` whose gene set contains `gene`. */
  function UniqueHits(m: IsoformGeneMap, groups: seq<seq<Record>>, gene: Gene): (n: nat)
    requires Resolvable(m, groups)
    decreases |groups|
  {
    if |groups| == 0 then 0
    else
      var last := |groups| - 1;
      UniqueHits(m, groups[..last], gene)
      + (if gene in GenesHit(m, groups[last]) && SameCoords(groups[last]) then 1 else 0)
  }

  /** The positions of the reads that hit `gene`. */
  function HitIndices(m: IsoformGeneMap, groups: seq<seq<Record>>, gene: Gene): (positions: set<nat>)
    requires Resolvable(m, groups)
  {
    set i: nat | i < |groups| && gene in GenesHit(m, groups[i])
  }

  /** The positions of the unique reads that hit `gene`. */
  function UniqueHitIndices(m: IsoformGeneMap, groups: seq<seq<Record>>, gene: Gene): (positions: set<nat>)
    requires Resolvable(m, groups)
  {
    set i: nat | i < |groups| && gene in GenesHit(m, groups[i]) && SameCoords(groups[i])
  }

  /** Dropping the last read keeps every remaining read resolvable. */
  lemma ResolvablePrefix(m: IsoformGeneMap, groups: seq<seq<Record>>, n: nat)
    requires Resolvable(m, groups) && n <= |groups|
    ensures Resolvable(m, groups[..n])
  {
    forall i | 0 <= i < n ensures ResolvableRead(m, groups[..n][i]) {
      assert groups[..n][i] == groups[i];
    }
  }

  /** The hit positions of a sequence of reads are those of all but its last
      read, plus the last position when the last read hits the gene. */
  lemma HitIndicesSnoc(m: IsoformGeneMap, groups: seq<seq<Record>>, gene: Gene)
    requires Resolvable(m, groups) && |groups| > 0
    ensures Resolvable(m, groups[..|groups| - 1])
    ensures HitIndices(m, groups, gene)
         == HitIndices(m, groups[..|groups| - 1], gene)
            + (if gene in GenesHit(m, groups[|groups| - 1]) then {|groups| - 1} else {})
    ensures UniqueHitIndices(m, groups, gene)
         == UniqueHitIndices(m, groups[..|groups| - 1], gene)
            + (if gene in GenesHit(m, groups[|groups| - 1]) && SameCoords(groups[|groups| - 1])
               then {|groups| - 1} else {})
  {
    var n := |groups| - 1;
    ResolvablePrefix(m, groups, n);
    forall i: nat | i < n ensures groups[..n][i] == groups[i] { }
  }

  /** Hits counts reads, not records: it is the number of reads hitting the gene. */
  lemma {:induction false} HitsIsNumberOfReads(m: IsoformGeneMap, groups: seq<seq<Record>>, gene: Gene)
    requires Resolvable(m, groups)
    ensures Hits(m, groups, gene) == |HitIndices(m, groups, gene)|
    decreases |groups|
  {
    if |groups| > 0 {
      var n := |groups| - 1;
      HitIndicesSnoc(m, groups, gene);
      HitsIsNumberOfReads(m, groups[..n], gene);
      assert n !in HitIndices(m, groups[..n], gene);
    }
  }

  /** UniqueHits is the number of unique reads hitting the gene. */
  lemma {:induction false} UniqueHitsIsNumberOfUniqueReads(m: IsoformGeneMap, groups: seq<seq<Record>>, gene: Gene)
    requires Resolvable(m, groups)
    ensures UniqueHits(m, groups, gene) == |UniqueHitIndices(m, groups, gene)|
    decreases |groups|
  {
    if |groups| > 0 {
      var n := |groups| - 1;
      HitIndicesSnoc(m, groups, gene);
      UniqueHitsIsNumberOfUniqueReads(m, groups[..n], gene);
      assert n !in UniqueHitIndices(m, groups[..n], gene);
    }
  }

  /** A gene's unique tally never exceeds its total tally. */
  lemma {:induction false} UniqueHitsAtMostHits(m: IsoformGeneMap, groups: seq<seq<Record>>, gene: Gene)
    requires Resolvable(m, groups)
    ensures UniqueHits(m, groups, gene) <= Hits(m, groups, gene)
    decreases |groups|
  {
    if |groups| > 0 {
      UniqueHitsAtMostHits(m, groups[..|groups| - 1], gene);
    }
  }

  /** Counting two batches of reads one after the other gives the sum of
      their separate tallies. */
  lemma {:induction false} HitsAppend(m: IsoformGeneMap, a: seq<seq<Record>>, b: seq<seq<Record>>, gene: Gene)
    requires Resolvable(m, a) && Resolvable(m, b)
    ensures Resolvable(m, a + b)
    ensures Hits(m, a + b, gene) == Hits(m, a, gene) + Hits(m, b, gene)
    ensures UniqueHits(m, a + b, gene) == UniqueHits(m, a, gene) + UniqueHits(m, b, gene)
    decreases |b|
  {
    assert Resolvable(m, a + b) by {
      forall i | 0 <= i < |a + b| ensures ResolvableRead(m, (a + b)[i]) {
        if i < |a| { assert (a + b)[i] == a[i]; } else { assert (a + b)[i] == b[i - |a|]; }
      }
    }
    if |b| > 0 {
      var n := |b| - 1;
      HitsAppend(m, a, b[..n], gene);
      assert (a + b)[..|a + b| - 1] == a + b[..n];
      assert (a + b)[|a + b| - 1] == b[n];
    } else {
      assert a + b == a;
    }
  }
}
