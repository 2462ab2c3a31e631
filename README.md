# Gene read counter

A Dafny model of `GeneReadCounter` from the UBU toolkit. The counter reads a
transcriptome-aligned BAM file whose alignments are grouped by read. For each
read it maps every alignment's isoform to its gene and collects the genes
hit, with duplicates collapsed. The read is *unique* when all its XG
genomic-coordinate tags are the same. Each gene hit gets one more total count,
and one more unique count when the read is unique. At the end the counter
writes one row per gene of the sorted gene list: gene, total, unique.

Layout:

- `reads.dfy` (module `Reads`): the alignment record (isoform and XG tag),
  the isoform-to-gene table with its sorted gene list, the gene set of a read
  (`GenesHit`), and the two readings of "unique". `SameCoords` says all tags
  are equal. `ConsecutiveSame` says each tag equals the previous one, which is
  what the code checks.
- `tally.dfy` (module `Tally`): the tally tables (`map<Gene, nat>`),
  `GetCount`, `IncrementCount`, and the reference counts `Hits` and
  `UniqueHits`: how many reads, or unique reads, hit a gene.
- `counter.dfy` (module `ReadCounting`): the class `GeneReadCounter` with the
  two tally maps as fields. `countGenes` is split into the per-read scan
  `ClassifyRead` (a module-level method given the counter's gene table, since
  it reads nothing else), the per-read increments `TallyRead`, and the loop
  over reads `CountGenes`. Then come `OutputCounts`, `Count`, and `Run`,
  which stands for `main` without its I/O.
- `scenarios.dfy` (module `Scenarios`): three worked examples on a small table,
  each stated on the reference counts and on the rows a whole run renders.

The Java `HashMap` fields become `map` fields that each increment reassigns.
The `for` loop over the `HashSet` of genes becomes a loop that picks an
arbitrary remaining gene, so no iteration order is assumed. A null
`prevGenomeCoords` is `None`.

## Model

| member | source | states |
|---|---|---|
| `Reads.GenesHitMembers` | src/main/java/edu/unc/bioinf/ubu/sam/GeneReadCounter.java:47-53 | a gene is in a read's gene set iff some record of the read has an isoform that maps to it |
| `Reads.ConsecutiveSameIffSameCoords` | src/main/java/edu/unc/bioinf/ubu/sam/GeneReadCounter.java:48-61 | comparing each XG tag with the one before it decides exactly "all XG tags of the read are equal", in both directions |
| `Reads.SingleRecordIsUnique` | src/main/java/edu/unc/bioinf/ubu/sam/GeneReadCounter.java:49-60 | a read with one record is unique under both readings |
| `Reads.ReturningTagIsNotUnique` | src/main/java/edu/unc/bioinf/ubu/sam/GeneReadCounter.java:56-58 | tags A, B, A with A != B are not unique under either reading, although the last tag matches the first |
| `Tally.GetCount` | src/main/java/edu/unc/bioinf/ubu/sam/GeneReadCounter.java:103-109 | the stored count for a present gene, 0 for an absent one, and a positive count only for a present gene |
| `Tally.IncrementCount` | src/main/java/edu/unc/bioinf/ubu/sam/GeneReadCounter.java:94-101 | an absent gene is entered with 1 and a present gene gets count + 1; the key set grows by that gene only; every other gene keeps its entry, so GetCount rises by 1 there and nowhere else |
| `Tally.TablesEqual` | src/main/java/edu/unc/bioinf/ubu/sam/GeneReadCounter.java:94-101 | two tables with no zero entry that give every gene the same GetCount are equal, so a table built by increments is fixed by what GetCount reports |
| `Tally.HitsIsNumberOfReads` | src/main/java/edu/unc/bioinf/ubu/sam/GeneReadCounter.java:45-69 | the total tally a gene receives is the number of reads whose gene set contains it |
| `Tally.UniqueHitsIsNumberOfUniqueReads` | src/main/java/edu/unc/bioinf/ubu/sam/GeneReadCounter.java:45-69 | the unique tally a gene receives is the number of unique reads whose gene set contains it |
| `Tally.UniqueHitsAtMostHits` | src/main/java/edu/unc/bioinf/ubu/sam/GeneReadCounter.java:63-69 | over any sequence of reads, a gene's unique tally is at most its total tally |
| `Tally.HitsAppend` | src/main/java/edu/unc/bioinf/ubu/sam/GeneReadCounter.java:45-70 | the tallies of two batches of reads counted in turn are the sums of their separate tallies |
| `ReadCounting.GeneReadCounter.constructor` | src/main/java/edu/unc/bioinf/ubu/sam/GeneReadCounter.java:22-25 | a new counter has two empty tables and an empty isoform-to-gene table, and satisfies the counter invariant |
| `ReadCounting.ClassifyRead` | src/main/java/edu/unc/bioinf/ubu/sam/GeneReadCounter.java:47-61 | the scan over a read's records returns exactly its gene set, and its flag is true iff all XG tags are equal; a one-record read is always unique |
| `ReadCounting.GeneReadCounter.TallyRead` | src/main/java/edu/unc/bioinf/ubu/sam/GeneReadCounter.java:63-69 | each gene in the set gains exactly 1 total and, only when the read is unique, exactly 1 unique; every other gene is unchanged; the invariant (positive entries, unique <= total) is kept |
| `ReadCounting.GeneReadCounter.CountGenes` | src/main/java/edu/unc/bioinf/ubu/sam/GeneReadCounter.java:41-71 | after all reads, each gene's total has grown by the number of reads hitting it and its unique count by the number of unique reads hitting it; the invariant holds and the gene table is untouched |
| `ReadCounting.GeneReadCounter.OutputCounts` | src/main/java/edu/unc/bioinf/ubu/sam/GeneReadCounter.java:73-92 | one row per entry of the sorted gene list, in that order, each with the gene, its total count and its unique count, both 0 for a gene with no entry |
| `ReadCounting.GeneReadCounter.Count` | src/main/java/edu/unc/bioinf/ubu/sam/GeneReadCounter.java:30-39 | installs the gene table; each table then holds its earlier counts plus this input's hits (total) or unique hits (unique) for every gene, so the tallies accumulate across calls; row i is the i-th sorted gene with those two counts |
| `ReadCounting.Run` | src/main/java/edu/unc/bioinf/ubu/sam/GeneReadCounter.java:122-125 | on a fresh counter, row i is the i-th sorted gene, the number of reads hitting it and the number of unique reads hitting it, with unique <= total |
| `ReadCounting.CountTwice` | src/main/java/edu/unc/bioinf/ubu/sam/GeneReadCounter.java:30-39 | two calls of count on one counter: the second call's row i holds the i-th sorted gene with the hits, and the unique hits, of both inputs added together |
| `Scenarios.SameLocusTwoIsoforms` | src/main/java/edu/unc/bioinf/ubu/sam/GeneReadCounter.java:45-70 | a read hitting two isoforms of geneA at one locus gives geneA 1 total and 1 unique, and geneB 0 and 0 |
| `Scenarios.TwoLociTwoGenes` | src/main/java/edu/unc/bioinf/ubu/sam/GeneReadCounter.java:45-70 | a read hitting geneA and geneB at different loci gives each gene 1 total and 0 unique |
| `Scenarios.TwoSingleMappedReads` | src/main/java/edu/unc/bioinf/ubu/sam/GeneReadCounter.java:45-70 | two reads each mapping once to geneB give geneB 2 total and 2 unique, and geneA 0 and 0 |
| `Scenarios.SameLocusTwoIsoformsRows` | src/main/java/edu/unc/bioinf/ubu/sam/GeneReadCounter.java:122-125 | a whole run on the same-locus read renders exactly the rows (geneA, 1, 1), (geneB, 0, 0) |
| `Scenarios.TwoLociTwoGenesRows` | src/main/java/edu/unc/bioinf/ubu/sam/GeneReadCounter.java:122-125 | a whole run on the two-loci read renders exactly the rows (geneA, 1, 0), (geneB, 1, 0) |
| `Scenarios.TwoSingleMappedReadsRows` | src/main/java/edu/unc/bioinf/ubu/sam/GeneReadCounter.java:122-125 | a whole run on the two single-mapped reads renders exactly the rows (geneA, 0, 0), (geneB, 2, 2) |

## Left out

- Output writing (`BufferedWriter`, `FileWriter`, `write`, `close`): rows are a sequence of `Row(gene, total, unique)` values. The decimal rendering with tab and newline separators is not modelled.
- `main`: argument handling, wall-clock timing and the elapsed-time message. `Run` keeps only the construction of a counter and the call to `count`.
- `SamMultiMappingReader` and the samtools `SAMRecord`: the input is the already grouped sequence of reads. Each read is a sequence of records with an isoform name and an XG tag. The model also accepts an empty read: it hits no gene, so it changes no count. The reader never produces one.
- `IsoformGeneMap`: its file loading is not part of this model. `getGene` is the `geneOf` map, and `getSortedGeneList` is the given `sortedGenes` sequence. An isoform missing from the table aborts the run, so every counting operation requires that each record's isoform is in the table (`Resolvable`).
- A record without an XG tag (a null `genomeCoords`): a tagless record that follows a tagged one throws at the `equals` comparison. Tagless records at the start of a read are passed over by the comparison, because they leave `prevGenomeCoords` null, so such a read, or one with no tags at all, can count as unique. The model makes the tag a required field of the record and covers neither case.
- `Long` overflow of the counters: counts are unbounded `nat`.
- The iteration order of the `HashSet` of genes: `TallyRead` picks any remaining gene, and its contract does not depend on the order.
