/**
 Worked examples of the two tallies on a three-isoform table:
 iso1 and iso2 belong to geneA, iso3 to geneB.
 */
module Scenarios {
  import opened Reads
  import opened Tally
  import opened ReadCounting

  function ExampleMap(): (m: IsoformGeneMap)
  {
    IsoformGeneMap(map["iso1" := "geneA", "iso2" := "geneA", "iso3" := "geneB"], ["geneA", "geneB"])
  }

  /** Two isoforms of one gene at the same XG locus: one total and one unique
      hit for that gene, nothing for the other. */
  lemma SameLocusTwoIsoforms()
    ensures Resolvable(ExampleMap(), [[Record("iso1", "chr1:100"), Record("iso2", "chr1:100")]])
    ensures Hits(ExampleMap(), [[Record("iso1", "chr1:100"), Record("iso2", "chr1:100")]], "geneA") == 1
    ensures UniqueHits(ExampleMap(), [[Record("iso1", "chr1:100"), Record("iso2", "chr1:100")]], "geneA") == 1
    ensures Hits(ExampleMap(), [[Record("iso1", "chr1:100"), Record("iso2", "chr1:100")]], "geneB") == 0
    ensures UniqueHits(ExampleMap(), [[Record("iso1", "chr1:100"), Record("iso2", "chr1:100")]], "geneB") == 0
  {
    var records := [Record("iso1", "chr1:100"), Record("iso2", "chr1:100")];
    var groups := [records];
    assert groups[..0] == [];
    assert records[..1][..0] == [];
    assert records[..1] == [Record("iso1", "chr1:100")];
    assert GenesHit(ExampleMap(), records) == {"geneA"};
    assert SameCoords(records);
  }

  /** Two genes at different loci: each gets a total hit, neither a unique one. */
  lemma TwoLociTwoGenes()
    ensures Resolvable(ExampleMap(), [[Record("iso1", "chr1:100"), Record("iso3", "chr2:500")]])
    ensures Hits(ExampleMap(), [[Record("iso1", "chr1:100"), Record("iso3", "chr2:500")]], "geneA") == 1
    ensures UniqueHits(ExampleMap(), [[Record("iso1", "chr1:100"), Record("iso3", "chr2:500")]], "geneA") == 0
    ensures Hits(ExampleMap(), [[Record("iso1", "chr1:100"), Record("iso3", "chr2:500")]], "geneB") == 1
    ensures UniqueHits(ExampleMap(), [[Record("iso1", "chr1:100"), Record("iso3", "chr2:500")]], "geneB") == 0
  {
    var records := [Record("iso1", "chr1:100"), Record("iso3", "chr2:500")];
    var groups := [records];
    assert groups[..0] == [];
    assert records[..1][..0] == [];
    assert records[..1] == [Record("iso1", "chr1:100")];
    assert GenesHit(ExampleMap(), records) == {"geneA", "geneB"};
    assert records[0].coords != records[1].coords;
    assert !SameCoords(records);
  }

  /** Two reads, each mapping once to geneB: two total and two unique hits. */
  lemma TwoSingleMappedReads()
    ensures Resolvable(ExampleMap(), [[Record("iso3", "chr2:500")], [Record("iso3", "chr2:500")]])
    ensures Hits(ExampleMap(), [[Record("iso3", "chr2:500")], [Record("iso3", "chr2:500")]], "geneB") == 2
    ensures UniqueHits(ExampleMap(), [[Record("iso3", "chr2:500")], [Record("iso3", "chr2:500")]], "geneB") == 2
    ensures Hits(ExampleMap(), [[Record("iso3", "chr2:500")], [Record("iso3", "chr2:500")]], "geneA") == 0
    ensures UniqueHits(ExampleMap(), [[Record("iso3", "chr2:500")], [Record("iso3", "chr2:500")]], "geneA") == 0
  {
    var records := [Record("iso3", "chr2:500")];
    var groups := [records, records];
    assert groups[..1] == [records];
    assert groups[..1][..0] == [];
    assert records[..0] == [];
    assert GenesHit(ExampleMap(), records) == {"geneB"};
    assert SameCoords(records);
  }

  /** The rows a whole run renders for the same-locus read. */
  method SameLocusTwoIsoformsRows() returns (rows: seq<Row>)
    ensures rows == [Row("geneA", 1, 1), Row("geneB", 0, 0)]
  {
    SameLocusTwoIsoforms();
    rows := Run(ExampleMap(), [[Record("iso1", "chr1:100"), Record("iso2", "chr1:100")]]);
  }

  /** The rows a whole run renders for the read at two loci. */
  method TwoLociTwoGenesRows() returns (rows: seq<Row>)
    ensures rows == [Row("geneA", 1, 0), Row("geneB", 1, 0)]
  {
    TwoLociTwoGenes();
    rows := Run(ExampleMap(), [[Record("iso1", "chr1:100"), Record("iso3", "chr2:500")]]);
  }

  /** The rows a whole run renders for the two single-mapped reads. */
  method TwoSingleMappedReadsRows() returns (rows: seq<Row>)
    ensures rows == [Row("geneA", 0, 0), Row("geneB", 2, 2)]
  {
    TwoSingleMappedReads();
    rows := Run(ExampleMap(), [[Record("iso3", "chr2:500")], [Record("iso3", "chr2:500")]]);
  }
}
