/**
 The input of the gene read counter: alignment records grouped by read, and
 the isoform-to-gene table that turns each record's isoform into a gene.
 */
module Reads {

  type Isoform = string
  type Gene = string

  /** The two fields of an alignment record that the counter looks at: the
      reference name (an isoform) and the XG genomic-coordinate tag. */
  datatype Record = Record(isoform: Isoform, coords: string)

  /** The isoform-to-gene lookup, loaded once before counting, together with
      the sorted list of genes that fixes the order of the output rows. */
  datatype IsoformGeneMap = IsoformGeneMap(geneOf: map<Isoform, Gene>, sortedGenes: seq<Gene>)

  /** Every record of one read names an isoform the table knows. */
  predicate ResolvableRead(m: IsoformGeneMap, records: seq<Record>)
  {
    forall j :: 0 <= j < |records| ==> records[j].isoform in m.geneOf
  }

  /** Every record of every read names an isoform the table knows. */
  predicate Resolvable(m: IsoformGeneMap, groups: seq<seq<Record>>)
  {
    forall i :: 0 <= i < |groups| ==> ResolvableRead(m, groups[i])
  }

  /** The set of genes the records of one read map to, duplicates collapsed. */
  function GenesHit(m: IsoformGeneMap, records: seq<Record>): (genes: set<Gene>)
    requires ResolvableRead(m, records)
    decreases |records|
  {
    if |records| == 0 then {}
    else GenesHit(m, records[..|records| - 1]) + {m.geneOf[records[|records| - 1].isoform]}
  }

  /** A gene is hit by a read exactly when some record of the read maps to it. */
  lemma {:induction false} GenesHitMembers(m: IsoformGeneMap, records: seq<Record>, g: Gene)
    requires ResolvableRead(m, records)
    ensures g in GenesHit(m, records) <==> exists j :: 0 <= j < |records| && m.geneOf[records[j].isoform] == g
    decreases |records|
  {
    if |records| > 0 {
      var n := |records| - 1;
      var front := records[..n];
      assert ResolvableRead(m, front) by {
        forall j | 0 <= j < |front| ensures front[j].isoform in m.geneOf {
          assert front[j] == records[j];
        }
      }
      GenesHitMembers(m, front, g);
      if g in GenesHit(m, front) {
        var j :| 0 <= j < n && m.geneOf[front[j].isoform] == g;
        assert front[j] == records[j];
      } else if g == m.geneOf[records[n].isoform] {
      } else {
        forall j | 0 <= j < |records| ensures m.geneOf[records[j].isoform] != g {
          if j < n {
            assert front[j] == records[j];
          }
        }
      }
    }
  }

  /** The reference meaning of a unique read: all its XG tags are the same. */
  predicate SameCoords(records: seq<Record>)
  {
    forall i, j :: 0 <= i < |records| && 0 <= j < |records| ==> records[i].coords == records[j].coords
  }

  /** What the counter actually checks: each XG tag equals the one before it. */
  predicate ConsecutiveSame(records: seq<Record>)
  {
    forall k :: 0 < k < |records| ==> records[k].coords == records[k - 1].coords
  }

  lemma {:induction false} ConsecutiveSameFromFirst(records: seq<Record>, i: nat)
    requires ConsecutiveSame(records)
    requires i < |records|
    ensures records[i].coords == records[0].coords
  {
    if i > 0 {
      ConsecutiveSameFromFirst(records, i - 1);
    }
  }

  /** Comparing each tag with its predecessor decides the same thing as
      comparing all tags with each other. */
  lemma ConsecutiveSameIffSameCoords(records: seq<Record>)
    ensures ConsecutiveSame(records) <==> SameCoords(records)
  {
    if ConsecutiveSame(records) {
      forall i, j | 0 <= i < |records| && 0 <= j < |records|
        ensures records[i].coords == records[j].coords
      {
        ConsecutiveSameFromFirst(records, i);
        ConsecutiveSameFromFirst(records, j);
      }
    }
  }

  /** A read with a single record is always unique. */
  lemma SingleRecordIsUnique(r: Record)
    ensures SameCoords([r]) && ConsecutiveSame([r])
  {
  }

  /** Tags A, B, A: the third tag matches the first, yet the read is not
      unique, because the flag cleared at the second record never comes back. */
  lemma ReturningTagIsNotUnique(a: string, b: string, i1: Isoform, i2: Isoform, i3: Isoform)
    requires a != b
    ensures !ConsecutiveSame([Record(i1, a), Record(i2, b), Record(i3, a)])
    ensures !SameCoords([Record(i1, a), Record(i2, b), Record(i3, a)])
  {
    var records := [Record(i1, a), Record(i2, b), Record(i3, a)];
    assert records[1].coords != records[0].coords;
  }
}
