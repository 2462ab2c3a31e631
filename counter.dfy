/**
 The gene read counter: it folds every read (a group of alignment records)
 into a total and a unique tally per gene, then renders one row per gene of
 the sorted gene list.
 */
module ReadCounting {
  import opened Reads
  import opened Tally

  /** A Java reference that may be null. */
  datatype Option<T> = None | Some(value: T)

  /** One output line: gene, total count, unique count. */
  datatype Row = Row(gene: Gene, total: nat, unique: nat)

  /** The first pass over one read's records: the genes it hits, looked up in
      the counter's isoform-to-gene table `m`, and whether it is unique,
      decided by comparing each XG tag with the previous one. */
  method ClassifyRead(m: IsoformGeneMap, records: seq<Record>) returns (genes: set<Gene>, isUnique: bool)
    requires ResolvableRead(m, records)
    ensures genes == GenesHit(m, records)
    ensures isUnique <==> SameCoords(records)
    ensures |records| == 1 ==> isUnique
  {
    genes := {};
    isUnique := true;
    var prevGenomeCoords: Option<string> := None;
    for i := 0 to |records|
      invariant genes == GenesHit(m, records[..i])
      invariant isUnique <==> ConsecutiveSame(records[..i])
      invariant prevGenomeCoords == if i == 0 then None else Some(records[i - 1].coords)
    {
      var read := records[i];
      assert records[..i + 1][..i] == records[..i];
      genes := genes + {m.geneOf[read.isoform]};
      var genomeCoords := read.coords;
      if prevGenomeCoords.Some? && genomeCoords != prevGenomeCoords.value {
        isUnique := false;
      }
      prevGenomeCoords := Some(genomeCoords);
    }
    assert records[..|records|] == records;
    ConsecutiveSameIffSameCoords(records);
  }

  class GeneReadCounter {
    var totalGeneCounts: Counts
    var uniqueGeneCounts: Counts
    var isoformGeneMap: IsoformGeneMap

    /** The tables only hold counts made by increments, and no gene has more
        unique reads than reads. Because no entry is 0, the pointwise GetCount
        postconditions of TallyRead and CountGenes fix each whole table
        (Tally.TablesEqual). */
    ghost predicate Valid()
      reads this
    {
      Positive(totalGeneCounts) && Positive(uniqueGeneCounts)
      && Dominated(uniqueGeneCounts, totalGeneCounts)
    }

    /** A fresh counter: both tables empty, an empty isoform-to-gene table. */
    constructor ()
      ensures Valid()
      ensures totalGeneCounts == map[] && uniqueGeneCounts == map[]
      ensures isoformGeneMap == IsoformGeneMap(map[], [])
    {
      totalGeneCounts := map[];
      uniqueGeneCounts := map[];
      isoformGeneMap := IsoformGeneMap(map[], []);
    }

    /** The second pass over one read: one increment of the total tally per gene
        hit, and of the unique tally too when the read is unique. */
    method TallyRead(genes: set<Gene>, isUnique: bool)
      requires Valid()
      modifies this
      ensures Valid()
      ensures isoformGeneMap == old(isoformGeneMap)
      ensures forall g :: GetCount(totalGeneCounts, g)
                       == GetCount(old(totalGeneCounts), g) + (if g in genes then 1 else 0)
      ensures forall g :: GetCount(uniqueGeneCounts, g)
                       == GetCount(old(uniqueGeneCounts), g) + (if g in genes && isUnique then 1 else 0)
    {
      var rest := genes;
      while rest != {}
        invariant rest <= genes
        invariant Valid()
        invariant isoformGeneMap == old(isoformGeneMap)
        invariant forall g :: GetCount(totalGeneCounts, g)
                           == GetCount(old(totalGeneCounts), g) + (if g in genes - rest then 1 else 0)
        invariant forall g :: GetCount(uniqueGeneCounts, g)
                           == GetCount(old(uniqueGeneCounts), g) + (if g in genes - rest && isUnique then 1 else 0)
        decreases rest
      {
        var gene :| gene in rest;
        totalGeneCounts := IncrementCount(totalGeneCounts, gene);
        if isUnique {
          uniqueGeneCounts := IncrementCount(uniqueGeneCounts, gene);
        }
        rest := rest - {gene};
      }
    }

    /** Folds every read into the two tallies: afterwards each gene's total has
        grown by the number of reads hitting it and its unique count by the
        number of unique reads hitting it. */
    method CountGenes(groups: seq<seq<Record>>)
      requires Valid()
      requires Resolvable(isoformGeneMap, groups)
      modifies this
      ensures Valid()
      ensures isoformGeneMap == old(isoformGeneMap)
      ensures forall g :: GetCount(totalGeneCounts, g)
                       == GetCount(old(totalGeneCounts), g) + Hits(isoformGeneMap, groups, g)
      ensures forall g :: GetCount(uniqueGeneCounts, g)
                       == GetCount(old(uniqueGeneCounts), g) + UniqueHits(isoformGeneMap, groups, g)
    {
      for i := 0 to |groups|
        invariant Valid()
        invariant isoformGeneMap == old(isoformGeneMap)
        invariant Resolvable(isoformGeneMap, groups[..i])
        invariant forall g :: GetCount(totalGeneCounts, g)
                           == GetCount(old(totalGeneCounts), g) + Hits(isoformGeneMap, groups[..i], g)
        invariant forall g :: GetCount(uniqueGeneCounts, g)
                           == GetCount(old(uniqueGeneCounts), g) + UniqueHits(isoformGeneMap, groups[..i], g)
      {
        var records := groups[i];
        assert groups[..i + 1][..i] == groups[..i];
        assert groups[..i + 1][i] == records;
        var genes, isUnique := ClassifyRead(isoformGeneMap, records);
        TallyRead(genes, isUnique);
      }
      assert groups[..|groups|] == groups;
    }

    /** One row per gene of the sorted gene list, in that order, carrying the
        gene's total and unique counts (0 for a gene no read hit). */
    method OutputCounts() returns (rows: seq<Row>)
      ensures |rows| == |isoformGeneMap.sortedGenes|
      ensures forall i :: 0 <= i < |rows| ==>
                rows[i] == Row(isoformGeneMap.sortedGenes[i],
                               GetCount(totalGeneCounts, isoformGeneMap.sortedGenes[i]),
                               GetCount(uniqueGeneCounts, isoformGeneMap.sortedGenes[i]))
    {
      var genes := isoformGeneMap.sortedGenes;
      rows := [];
      for i := 0 to |genes|
        invariant |rows| == i
        invariant forall k :: 0 <= k < i ==>
                    rows[k] == Row(genes[k], GetCount(totalGeneCounts, genes[k]),
                                   GetCount(uniqueGeneCounts, genes[k]))
      {
        var gene := genes[i];
        var totalCount := GetCount(totalGeneCounts, gene);
        var uniqueCount := GetCount(uniqueGeneCounts, gene);
        rows := rows + [Row(gene, totalCount, uniqueCount)];
      }
    }

    /** Installs the isoform-to-gene table, counts every read on top of the
        tallies already held, then renders the rows; the tallies persist, so a
        later call renders the counts of both inputs. */
    method Count(m: IsoformGeneMap, groups: seq<seq<Record>>) returns (rows: seq<Row>)
      requires Valid()
      requires Resolvable(m, groups)
      modifies this
      ensures Valid()
      ensures isoformGeneMap == m
      ensures forall g :: GetCount(totalGeneCounts, g)
                       == GetCount(old(totalGeneCounts), g) + Hits(m, groups, g)
      ensures forall g :: GetCount(uniqueGeneCounts, g)
                       == GetCount(old(uniqueGeneCounts), g) + UniqueHits(m, groups, g)
      ensures |rows| == |m.sortedGenes|
      ensures forall i :: 0 <= i < |rows| ==>
                rows[i] == Row(m.sortedGenes[i],
                               GetCount(old(totalGeneCounts), m.sortedGenes[i]) + Hits(m, groups, m.sortedGenes[i]),
                               GetCount(old(uniqueGeneCounts), m.sortedGenes[i]) + UniqueHits(m, groups, m.sortedGenes[i]))
    {
      isoformGeneMap := m;
      CountGenes(groups);
      rows := OutputCounts();
    }
  }

  /** A whole run on a fresh counter: row i names the i-th sorted gene, the
      number of reads hitting it and the number of unique reads hitting it,
      and the unique count never exceeds the total. */
  method Run(m: IsoformGeneMap, groups: seq<seq<Record>>) returns (rows: seq<Row>)
    requires Resolvable(m, groups)
    ensures |rows| == |m.sortedGenes|
    ensures forall i :: 0 <= i < |rows| ==> rows[i].gene == m.sortedGenes[i]
    ensures forall i :: 0 <= i < |rows| ==> rows[i].total == Hits(m, groups, m.sortedGenes[i])
    ensures forall i :: 0 <= i < |rows| ==> rows[i].unique == UniqueHits(m, groups, m.sortedGenes[i])
    ensures forall i :: 0 <= i < |rows| ==> rows[i].unique <= rows[i].total
  {
    var counter := new GeneReadCounter();
    rows := counter.Count(m, groups);
    forall i | 0 <= i < |rows| ensures rows[i].unique <= rows[i].total {
      UniqueHitsAtMostHits(m, groups, m.sortedGenes[i]);
    }
  }

  /** Two calls of Count on one counter: the second call renders the tallies of
      both inputs, because the tables persist between calls. */
  method CountTwice(m: IsoformGeneMap, first: seq<seq<Record>>, second: seq<seq<Record>>)
    returns (rows: seq<Row>)
    requires Resolvable(m, first) && Resolvable(m, second)
    ensures |rows| == |m.sortedGenes|
    ensures forall i :: 0 <= i < |rows| ==>
              rows[i] == Row(m.sortedGenes[i],
                             Hits(m, first, m.sortedGenes[i]) + Hits(m, second, m.sortedGenes[i]),
                             UniqueHits(m, first, m.sortedGenes[i]) + UniqueHits(m, second, m.sortedGenes[i]))
  {
    var counter := new GeneReadCounter();
    var _ := counter.Count(m, first);
    rows := counter.Count(m, second);
  }
}
