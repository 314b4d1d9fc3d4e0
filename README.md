# scipipe-demo workflows in Dafny

This project models three client programs of the scipipe flow-based
workflow library. Each one builds a graph of named processes whose ports
are wired together:

- **Cost grid search** (`mm/wffindcost.go`). `NewCrossValidateWorkflow`
  builds one sub-graph per replicate, train size, SVM cost value and
  cross-validation fold, using four nested loops. Each fold's RMSD cost goes
  to a substream collector for its cost value, and an averaging step reads
  that collector.
- **Cancer-analysis preprocessing** (`cawpre/cawpre.go`).
  - The tools are downloaded and unpacked.
  - For each sample type (normal, tumor), the lanes' read files are
    aligned, merged and duplicate-marked.
  - The two samples are realigned together.
  - Each sample is then recalibrated and printed.
  - Two hand-written generator processes feed the lane indexes
    (`ParamSource`) and the fastq files (`IPSource`).
- **RNA-seq preprocessing** (`rnaseqpre/rnaseqpre.go`).
  - For each sample prefix, both read files get a quality report.
  - The reports are collected, and the read pair is aligned.
  - The main function then lists the sorted process names and either
    reports a usage error, plots the graph, or runs it up to a name pattern.

The library is seen only from the outside:

- **Registry.** A `FlowGraph.Workflow` object holds the registered process
  records and the connections, in the order the client creates them.
  - A process is identified by its kind and the loop positions of the
    iteration that created it. That is the identity the client's pointers
    carry, because every iteration creates fresh process objects.
  - A process record holds its name, its in-ports, its parameter ports and
    its out-ports with their path rules.
- **Out-ports.** An out-port is the log of what was sent on it and whether
  it was closed.
- **Path functions.** The Go closures passed to `SetOutFunc` and
  `SetPathCustom` are evaluated by `FlowGraph.Eval`. It uses a model of
  Go's `filepath.Dir`, `filepath.Base` and `filepath.Clean` for Unix paths.
- **Go helpers.** `strconv.Itoa`, `strings.Join` and `sort.Strings` are
  modelled in `GoStrings`.

**How the builders are proved.** Each builder is imperative, like the Go
code: one method per loop body, with `for`/`while` loops that call
`AddProc`/`Connect` on the workflow object. Each method is proved to leave
the registry equal to a specification function, and the properties are
lemmas about those functions:

- the connections into each process (`Into`), per kind, against an
  independent reference wiring (`Inputs`);
- how many processes of each kind there are;
- that every process the loops create is registered exactly once, with the
  record `CrossValidate.ProcOf` describes (`CrossValidateRegistry`);
- that distinct train sizes and distinct folds get distinct name suffixes,
  and that copies under different ids, lanes or prefixes get different paths;
- that the graphs of the two preprocessing workflows are acyclic.

## Model

| member | source | states |
|---|---|---|
| GoStrings.Itoa | mm/wffindcost.go:141 | `%d` / `strconv.Itoa` text is non-empty, has no `_` or `/`, and starts with `-` exactly for negative numbers |
| GoStrings.NatText | rnaseqpre/rnaseqpre.go:66 | decimal text of a natural is all digits, one digit exactly below 10 |
| GoStrings.ItoaInjective | mm/wffindcost.go:141 | distinct integers print as distinct decimal texts |
| GoStrings.NatTextInjective | mm/wffindcost.go:197 | distinct naturals have distinct decimal texts |
| GoStrings.Join | rnaseqpre/rnaseqpre.go:121 | `strings.Join` of no parts is "" and of one part is that part |
| GoStrings.Split | rnaseqpre/rnaseqpre.go:121 | reference inverse of the `strings.Join` there, used to show that the listing loses no name: splitting always yields at least one piece (Go: `Split("")` is `[""]`) |
| GoStrings.JoinSplit | rnaseqpre/rnaseqpre.go:121 | joining the pieces of a split at `c` gives back the original text |
| GoStrings.SplitJoin | rnaseqpre/rnaseqpre.go:121 | a joined listing whose names contain no newline splits back into the same names |
| GoStrings.LessEqTotal | rnaseqpre/rnaseqpre.go:120 | Go's string order compares any two strings |
| GoStrings.LessEqTransitive | rnaseqpre/rnaseqpre.go:120 | Go's string order is transitive |
| GoStrings.LessEqAntisymmetric | rnaseqpre/rnaseqpre.go:120 | Go's string order is antisymmetric |
| GoStrings.Insert | rnaseqpre/rnaseqpre.go:120 | inserting into a sorted list gives a sorted list with one more copy of the element |
| GoStrings.SortStrings | rnaseqpre/rnaseqpre.go:120 | `sort.Strings` yields a sorted permutation of its input |
| GoStrings.SortedUnique | rnaseqpre/rnaseqpre.go:120 | two sorted lists with the same elements are equal |
| GoStrings.SortIgnoresOrder | rnaseqpre/rnaseqpre.go:117-120 | sorting depends only on the multiset of names, not on their collection order |
| GoPaths.Clean | mm/wffindcost.go:124 | `filepath.Clean` never returns the empty string |
| GoPaths.LastSlash | mm/wffindcost.go:124 | the index of the last `/`, or -1 when there is none; no `/` after it |
| GoPaths.TrimSlashes | mm/wffindcost.go:124 | a prefix of the path that ends in a non-`/`, only `/` cut off |
| GoPaths.BaseIsElement | mm/wffindcost.go:124 | `filepath.Base` of a path with an element is non-empty and holds no `/` |
| GoPaths.BaseOfAppended | mm/wffindcost.go:124 | `Base(prefix + "/" + b)` is `b` for a plain element `b` |
| GoPaths.CopyPathKeepsBase | mm/wffindcost.go:122-125 | `Dir(orig)/<sub>/Base(orig)` keeps the original file name |
| GoPaths.CopyPathInjective | mm/wffindcost.go:133-136 | different sub-directory names give different copy paths |
| Ports.OutPort.Send | cawpre/cawpre.go:226 | sending appends exactly one token to an open port's log |
| Ports.OutPort.Close | cawpre/cawpre.go:224 | the port is closed afterwards; a close is logged once |
| Ports.TokensAppend | cawpre/cawpre.go:225-227 | tokens and closes of a concatenated history add up |
| Generators.ParamSends | cawpre/cawpre.go:225-227 | one send per parameter, the k-th sending the k-th value |
| Generators.FileSends | cawpre/cawpre.go:250-252 | one file token per path, the k-th carrying the k-th path |
| Generators.SendsOnly | cawpre/cawpre.go:225-227 | a history of sends carries exactly its tokens and no close |
| Generators.ParamSourceHistory | cawpre/cawpre.go:223-228 | the port sees every value once, in order, then exactly one close; an empty list gives only the close |
| Generators.IPSourceHistory | cawpre/cawpre.go:248-253 | the port sees one file token per path, in order, then exactly one close |
| Generators.ParamSource.constructor | cawpre/cawpre.go:211-218 | the generator holds its name and list, with a fresh, empty out-port |
| Generators.ParamSource.Run | cawpre/cawpre.go:223-228 | the port's log grows by the sends of every parameter in order, then a close |
| Generators.IPSource.constructor | cawpre/cawpre.go:237-244 | the generator holds its name and paths, with a fresh, empty out-port |
| Generators.IPSource.Run | cawpre/cawpre.go:248-253 | the port's log grows by one file token per path in order, then a close |
| FlowGraph.Workflow.constructor | cawpre/cawpre.go:27 | a new workflow has its name and task limit and an empty registry |
| FlowGraph.Workflow.AddProc | cawpre/cawpre.go:29 | `wf.NewProc` appends one process record, nothing else changes |
| FlowGraph.Workflow.Connect | cawpre/cawpre.go:34 | a port connection appends one connection, nothing else changes |
| FlowGraph.IntoMember | mm/wffindcost.go:232 | the connections into `n` are exactly those of the list whose destination is `n` |
| FlowGraph.RankedIsAcyclic | cawpre/cawpre.go:27-195 | connections that all climb a ranking of process kinds form no cycle |
| CrossValidate.Replicates | mm/wffindcost.go:96-99 | the replicates are `[ReplicateID]` when it is set, otherwise `ReplicateIDs` |
| CrossValidate.SuffixSiblings | mm/wffindcost.go:103-197 | sibling iterations with equal name suffixes contributed equal pieces |
| CrossValidate.TrainSuffixesDistinct | mm/wffindcost.go:140-141 | within a replicate, distinct train sizes give distinct suffixes |
| CrossValidate.FoldSuffixesDistinct | mm/wffindcost.go:196-197 | within a cost iteration, distinct folds give distinct suffixes |
| CrossValidate.CopyKeepsName | mm/wffindcost.go:120-138 | run and replicate copies write `Dir(orig)/<runid or replid>/Base(orig)` and keep the file name |
| CrossValidate.CopiesSeparate | mm/wffindcost.go:122-136 | copying one file under different ids writes different paths |
| CrossValidate.ProcOf | mm/wffindcost.go:87-238 | the record for a process carries that process's identity; `CrossValidateRegistry.RegisteredOnce` shows it is the record the workflow registers |
| CrossValidate.NewCrossValidateWorkflow | mm/wffindcost.go:84-243 | the registry built is the cross-validation graph of the parameters, in creation order |
| CrossValidate.AddReplicate | mm/wffindcost.go:101-239 | a replicate iteration adds its three processes, then its train-size loop |
| CrossValidate.AddTrainSize | mm/wffindcost.go:140-240 | a train-size iteration adds its preparation, then its cost loop |
| CrossValidate.AddTrainPreparation | mm/wffindcost.go:145-187 | sampling, sparse conversion, unzip, line count, random bytes and shuffling, wired in code order |
| CrossValidate.AddCost | mm/wffindcost.go:192-238 | the collector, the folds `1..FoldsCount`, then the averaging step |
| CrossValidate.AddFold | mm/wffindcost.go:196-233 | fold creation, training, prediction, assessment, and the cost into the collector |
| CrossValidateWiring.FoldCosts | mm/wffindcost.go:196-232 | one connection per fold, the f-th from fold f's assessment |
| CrossValidateWiring.ReplicateHeadConns | mm/wffindcost.go:108-138 | the connections a replicate's head adds, in order |
| CrossValidateWiring.ReplicateHeadOther | mm/wffindcost.go:108-138 | a replicate's head connects nothing into processes of other iterations |
| CrossValidateWiring.ReplicateHeadIntoGenSign | mm/wffindcost.go:115 | signature generation reads the data source |
| CrossValidateWiring.ReplicateHeadIntoRunCopy | mm/wffindcost.go:126-127 | the run copy gets the run id and the signatures |
| CrossValidateWiring.ReplicateHeadIntoReplCopy | mm/wffindcost.go:137-138 | the replicate copy gets the replicate id and the signatures |
| CrossValidateWiring.ReplicateHeadInto | mm/wffindcost.go:108-138 | what a replicate's head adds into any created process |
| CrossValidateWiring.TrainHeadConns | mm/wffindcost.go:145-187 | the connections a train-size head adds, in order |
| CrossValidateWiring.TrainHeadOther | mm/wffindcost.go:145-187 | a train-size head connects nothing into processes of other iterations |
| CrossValidateWiring.TrainHeadIntoSampleTrainTest | mm/wffindcost.go:152 | sampling reads the replicate's copy |
| CrossValidateWiring.TrainHeadIntoSparseTrain | mm/wffindcost.go:160 | sparse conversion reads the sampled training set |
| CrossValidateWiring.TrainHeadIntoGunzipTrain | mm/wffindcost.go:163 | unzip reads the sparse training set |
| CrossValidateWiring.TrainHeadIntoCountTrain | mm/wffindcost.go:170 | the line count reads the unzipped file |
| CrossValidateWiring.TrainHeadIntoGenRand | mm/wffindcost.go:180 | random bytes read the unzipped file |
| CrossValidateWiring.TrainHeadIntoShufTrain | mm/wffindcost.go:186-187 | shuffling reads the unzipped file and the random bytes |
| CrossValidateWiring.TrainHeadInto | mm/wffindcost.go:145-187 | what a train-size head adds into any created process |
| CrossValidateWiring.FoldBodyConns | mm/wffindcost.go:198-232 | the connections a fold adds, in order |
| CrossValidateWiring.FoldBodyOther | mm/wffindcost.go:198-232 | a fold connects nothing into processes outside it except its cost's collector |
| CrossValidateWiring.FoldBodyIntoCreateFolds | mm/wffindcost.go:204-205 | fold creation reads the shuffled data and the line count |
| CrossValidateWiring.FoldBodyIntoTrainLin | mm/wffindcost.go:214 | training reads the fold's training part |
| CrossValidateWiring.FoldBodyIntoPredLin | mm/wffindcost.go:221-222 | prediction reads the model and the fold's test part |
| CrossValidateWiring.FoldBodyIntoAssess | mm/wffindcost.go:229-230 | assessment reads the test part and the prediction |
| CrossValidateWiring.FoldBodyIntoCostSubstream | mm/wffindcost.go:232 | a fold adds exactly its assessment's cost to its collector |
| CrossValidateWiring.FoldBodyInto | mm/wffindcost.go:198-232 | what a fold adds into any created process |
| CrossValidateWiring.TailInto | mm/wffindcost.go:235-238 | the averaging step gets its cost value and its own substream |
| CrossValidateWiring.PrefixStep | mm/wffindcost.go:101-196 | an iteration lies inside `at + [i]` exactly when it lies inside `at` at position i |
| CrossValidateWiring.ValidAtStep | mm/wffindcost.go:101-196 | an iteration of a reached loop is itself reached |
| CrossValidateWiring.ChildrenFeedStep | mm/wffindcost.go:101-196 | m iterations feed as m - 1 iterations followed by the last |
| CrossValidateWiring.TopFeed | mm/wffindcost.go:87-101 | every process other than the data source lies inside a replicate |
| CrossValidateWiring.HeadFeed | mm/wffindcost.go:101-192 | a replicate or train-size iteration feeds its own processes from its head, the rest from its loop |
| CrossValidateWiring.CostFeed | mm/wffindcost.go:192-238 | a cost iteration feeds its collector from its folds and its averaging step from the tail |
| CrossValidateWiring.FoldFeedsOf | mm/wffindcost.go:196-233 | a fold feeds its own processes and its cost's collector |
| CrossValidateWiring.BlockInto | mm/wffindcost.go:101-239 | the connections one iteration adds into any process, inner loops included |
| CrossValidateWiring.ReplicateLoopInto | mm/wffindcost.go:101 | the first m replicate iterations feed each process what they prescribe |
| CrossValidateWiring.TrainSizeLoopInto | mm/wffindcost.go:140 | the first m train-size iterations feed each process what they prescribe |
| CrossValidateWiring.CostLoopInto | mm/wffindcost.go:192 | the first m cost iterations feed each process what they prescribe |
| CrossValidateWiring.FoldLoopInto | mm/wffindcost.go:196 | the first m folds feed each process what they prescribe |
| CrossValidateWiring.LastChildInto | mm/wffindcost.go:101-196 | the m-th iteration adds its feed after the first m - 1 |
| CrossValidateWiring.CrossValidationInto | mm/wffindcost.go:84-243 | every created process receives exactly its reference inputs, in order |
| CrossValidateWiring.CostSubstreamCollectsFolds | mm/wffindcost.go:194-233 | each cost collector receives exactly `FoldsCount` connections, fold f's from fold f's assessment RMSD port |
| CrossValidateWiring.AvgRmsdReadsOwnSubstream | mm/wffindcost.go:235-238 | each averaging step reads its own cost value and only its own iteration's substream |
| CrossValidateWiring.CreateFoldsReadsGroup | mm/wffindcost.go:185-205 | every fold creation reads its (replicate, train size) group's shuffler and counter |
| CrossValidateWiring.FoldChainWiring | mm/wffindcost.go:214-230 | in one fold: training reads the training part; prediction reads the model and test part; assessment reads the same test part and the prediction |
| CrossValidateWiring.CopiesReadOwnSignatures | mm/wffindcost.go:120-138 | both copies read their replicate's signatures, tagged with the run id and replicate id |
| CrossValidateCounts.TopHeadCount | mm/wffindcost.go:87-90 | the data source is registered once before the loops |
| CrossValidateCounts.ReplicateHeadCount | mm/wffindcost.go:108-138 | a replicate's head registers one process of each depth-1 kind |
| CrossValidateCounts.TrainHeadCount | mm/wffindcost.go:145-187 | a train-size head registers one process of each depth-2 kind |
| CrossValidateCounts.CostHeadCount | mm/wffindcost.go:194 | a cost iteration first registers its collector |
| CrossValidateCounts.TailCount | mm/wffindcost.go:235-238 | a cost iteration ends by registering its averaging step |
| CrossValidateCounts.FoldBodyCount | mm/wffindcost.go:198-230 | a fold registers one process of each depth-4 kind |
| CrossValidateCounts.BlockCounts | mm/wffindcost.go:101-239 | one iteration registers, per kind, the number of its nested positions at that kind's depth |
| CrossValidateCounts.ReplicateLoopCounts | mm/wffindcost.go:101 | m replicate iterations add the sum of their counts |
| CrossValidateCounts.ReplicateStepCounts | mm/wffindcost.go:101 | the m-th replicate iteration adds one iteration's count |
| CrossValidateCounts.TrainSizeLoopCounts | mm/wffindcost.go:140 | m train-size iterations add the sum of their counts |
| CrossValidateCounts.TrainSizeStepCounts | mm/wffindcost.go:140 | the m-th train-size iteration adds one iteration's count |
| CrossValidateCounts.CostLoopCounts | mm/wffindcost.go:192 | m cost iterations add the sum of their counts |
| CrossValidateCounts.CostStepCounts | mm/wffindcost.go:192 | the m-th cost iteration adds one iteration's count |
| CrossValidateCounts.FoldLoopCounts | mm/wffindcost.go:196 | m folds add the sum of their counts |
| CrossValidateCounts.ChildrenCountClosed | mm/wffindcost.go:101-196 | m iterations of a loop hold m times one iteration's count |
| CrossValidateCounts.BlockCountSplit | mm/wffindcost.go:101-239 | an iteration's count is its own processes plus its loop's |
| CrossValidateCounts.TotalCount | mm/wffindcost.go:84-243 | the workflow registers, per kind, one process per loop position at its depth |
| CrossValidateCounts.PositionsFromTop | mm/wffindcost.go:96-196 | the number of positions at depth 1..4 is the product of the loop widths |
| CrossValidateCounts.ComponentCounts | mm/wffindcost.go:87-238 | 1 data source; 3 processes per replicate, 6 per (replicate, train size), 2 per cost, 4 per fold, as products of the loop lengths |
| CrossValidateRegistry.TopHeadRegisters | mm/wffindcost.go:87-90 | before the loops, the data source gets one record and no other process does |
| CrossValidateRegistry.ReplicateHeadRegisters | mm/wffindcost.go:108-138 | a replicate's head adds one record to each of its own three processes and none to any other |
| CrossValidateRegistry.TrainHeadRegisters | mm/wffindcost.go:145-187 | a train-size head adds one record to each of its own six processes and none to any other |
| CrossValidateRegistry.CostHeadRegisters | mm/wffindcost.go:194 | a cost iteration first adds one record, to its collector |
| CrossValidateRegistry.TailRegisters | mm/wffindcost.go:235-238 | a cost iteration ends by adding one record, to its averaging step |
| CrossValidateRegistry.FoldBodyRegisters | mm/wffindcost.go:198-230 | a fold adds one record to each of its own four processes and none to any other |
| CrossValidateRegistry.BlockHitsSplit | mm/wffindcost.go:101-239 | a process inside an iteration is one of its own or lies inside one iteration of its inner loop |
| CrossValidateRegistry.ChildrenHitsStep | mm/wffindcost.go:101-196 | the first m iterations of a loop hold a process exactly when the first m - 1 or the m-th does |
| CrossValidateRegistry.BlockRegisters | mm/wffindcost.go:101-239 | one iteration, inner loops included, adds one record to every process inside it and none to any other |
| CrossValidateRegistry.ReplicateLoopRegisters | mm/wffindcost.go:101 | m replicate iterations add one record to every process inside them and none to any other |
| CrossValidateRegistry.ReplicateStepRegisters | mm/wffindcost.go:101 | the m-th replicate iteration adds the records one iteration holds |
| CrossValidateRegistry.TrainSizeLoopRegisters | mm/wffindcost.go:140 | m train-size iterations add one record to every process inside them and none to any other |
| CrossValidateRegistry.TrainSizeStepRegisters | mm/wffindcost.go:140 | the m-th train-size iteration adds the records one iteration holds |
| CrossValidateRegistry.CostLoopRegisters | mm/wffindcost.go:192 | m cost iterations add one record to every process inside them and none to any other |
| CrossValidateRegistry.CostStepRegisters | mm/wffindcost.go:192 | the m-th cost iteration adds the records one iteration holds |
| CrossValidateRegistry.FoldLoopRegisters | mm/wffindcost.go:196 | m folds add one record to every process inside them and none to any other |
| CrossValidateRegistry.TopHeadDescribed | mm/wffindcost.go:87-90 | the data source's record is its `ProcOf` record |
| CrossValidateRegistry.ReplicateHeadDescribed | mm/wffindcost.go:108-138 | a replicate's head registers only `ProcOf` records |
| CrossValidateRegistry.TrainHeadDescribed | mm/wffindcost.go:145-187 | a train-size head registers only `ProcOf` records |
| CrossValidateRegistry.CostHeadDescribed | mm/wffindcost.go:194 | the collector's record is its `ProcOf` record |
| CrossValidateRegistry.TailDescribed | mm/wffindcost.go:235-238 | the averaging step's record is its `ProcOf` record |
| CrossValidateRegistry.FoldBodyDescribed | mm/wffindcost.go:198-230 | a fold registers only `ProcOf` records |
| CrossValidateRegistry.BlockDescribed | mm/wffindcost.go:101-239 | one iteration, inner loops included, registers only `ProcOf` records of processes it creates |
| CrossValidateRegistry.ChildrenDescribed | mm/wffindcost.go:101-196 | m iterations of a loop register only `ProcOf` records of processes they create |
| CrossValidateRegistry.RegisteredOnce | mm/wffindcost.go:84-243 | every process the four loops create has exactly one record, its `ProcOf` record; any other identity has none |
| CrossValidateRegistry.RegistryIsProcOf | mm/wffindcost.go:84-243 | every record the workflow holds is the `ProcOf` record of a process the loops create |
| Cawpre.Lookup | cawpre/cawpre.go:60 | a Go map read gives the empty list for a missing key |
| Cawpre.FastqList | cawpre/cawpre.go:62-65 | one path per lane, the k-th `…/tiny_<s>_L00<idx_k>_R<r>.fastq.gz` |
| Cawpre.FastqPathsDistinct | cawpre/cawpre.go:63-64 | different lanes have different fastq files |
| Cawpre.FastqReadsPaired | cawpre/cawpre.go:63-64 | a lane's R1 and R2 files differ, and only in the read number |
| Cawpre.Appended | cawpre/cawpre.go:63-64 | appending to one key extends its list and leaves every other key alone |
| Cawpre.AppendedSnoc | cawpre/cawpre.go:63-64 | appending twice is appending the concatenation |
| Cawpre.AppendFastqPaths | cawpre/cawpre.go:62-65 | the lane loop appends the R1 and R2 lists of the sample type's lanes |
| Cawpre.AlignPaths | cawpre/cawpre.go:82-85 | an alignment writes `tmp/<sampleType>_<index>.bam`; two alignment tasks write the same file only for the same sample type and index |
| Cawpre.MarkedBams | cawpre/cawpre.go:58-59 | the duplicate markers write `tmp/normal_0.md.bam` and `tmp/tumor_1.md.bam` (line 112) |
| Cawpre.NewPreprocessing | cawpre/cawpre.go:27-195 | the registry built is the preprocessing graph, in creation order |
| Cawpre.AddDownload | cawpre/cawpre.go:29-38 | download, unzip and untar, chained in code order |
| Cawpre.AddSamples | cawpre/cawpre.go:47-116 | both iterations of the first sample loop; the duplicate markers end up in the map by sample type |
| Cawpre.MarkedByTypeEntries | cawpre/cawpre.go:115 | after the loop, "normal" maps to the first marker and "tumor" to the second |
| Cawpre.AddSample | cawpre/cawpre.go:58-116 | one iteration: the fastq lists grow by that type's lanes, and the collector and marker are that iteration's |
| Cawpre.AddSources | cawpre/cawpre.go:59-71 | lane and read-file generators holding the lanes and their fastq lists, still unrun |
| Cawpre.AddAlignment | cawpre/cawpre.go:73-115 | alignment, collector, merge and duplicate marking of one sample type |
| Cawpre.AddRealignment | cawpre/cawpre.go:122-156 | target creation and indel realignment reading both markers from the map |
| Cawpre.AddRecalibrations | cawpre/cawpre.go:162-195 | both iterations of the second sample loop |
| Cawpre.AddRecalibration | cawpre/cawpre.go:164-194 | recalibration and printing of one sample type |
| CawpreWiring.DownloadConnsOther | cawpre/cawpre.go:29-38 | the download stretch connects nothing into other processes |
| CawpreWiring.DownloadConnsIntoUnzipApps | cawpre/cawpre.go:34 | unzip reads the download |
| CawpreWiring.DownloadConnsIntoUntarApps | cawpre/cawpre.go:38 | untar reads the unzipped archive |
| CawpreWiring.AlignConnsOther | cawpre/cawpre.go:73-113 | one sample's alignment stretch connects nothing into other processes |
| CawpreWiring.AlignConnsIntoAlignSamples | cawpre/cawpre.go:77-80 | alignment reads both read generators, the tools and the lane index |
| CawpreWiring.AlignConnsIntoBamSubstream | cawpre/cawpre.go:92 | the collector reads the alignment's BAMs |
| CawpreWiring.AlignConnsIntoMergeBams | cawpre/cawpre.go:95 | merging reads the collector's substream |
| CawpreWiring.AlignConnsIntoMarkDupes | cawpre/cawpre.go:113 | duplicate marking reads the merged BAM |
| CawpreWiring.RealignConnsOther | cawpre/cawpre.go:122-156 | the realignment stretch connects nothing into other processes |
| CawpreWiring.RealignConnsIntoRealignCreateTargets | cawpre/cawpre.go:134-135 | target creation reads both marked BAMs |
| CawpreWiring.RealignConnsIntoRealignIndels | cawpre/cawpre.go:154-156 | indel realignment reads the intervals and both marked BAMs |
| CawpreWiring.RecalConnsOther | cawpre/cawpre.go:164-194 | one sample's recalibration stretch connects nothing into other processes |
| CawpreWiring.RecalConnsIntoRecalibrate | cawpre/cawpre.go:178 | recalibration reads its sample's realigned BAM |
| CawpreWiring.RecalConnsIntoPrintReads | cawpre/cawpre.go:193-194 | printing reads the realigned BAM and the recalibration table |
| CawpreWiring.DownloadConnsInto | cawpre/cawpre.go:29-38 | what the download stretch connects into any process |
| CawpreWiring.AlignConnsInto | cawpre/cawpre.go:73-113 | what one alignment stretch connects into any process |
| CawpreWiring.RealignConnsInto | cawpre/cawpre.go:122-156 | what the realignment stretch connects into any process |
| CawpreWiring.RecalConnsInto | cawpre/cawpre.go:164-194 | what one recalibration stretch connects into any process |
| CawpreWiring.SampleLoopOther | cawpre/cawpre.go:58-116 | the first sample loop connects nothing into processes it has not yet created |
| CawpreWiring.SampleLoopFeeds | cawpre/cawpre.go:58-116 | the first sample loop gives each of its processes all of its inputs |
| CawpreWiring.RecalLoopOther | cawpre/cawpre.go:162-195 | the second sample loop connects nothing into processes it has not yet created |
| CawpreWiring.RecalLoopFeeds | cawpre/cawpre.go:162-195 | the second sample loop gives each of its processes all of its inputs |
| CawpreWiring.SampleLoopMakes | cawpre/cawpre.go:58-116 | the first sample loop makes the listed connections in order |
| CawpreWiring.RecalLoopMakes | cawpre/cawpre.go:162-195 | the second sample loop makes the listed connections in order |
| CawpreWiring.PreprocessingMakes | cawpre/cawpre.go:27-195 | the main function's connections are its stretches' connections in order |
| CawpreWiring.PreprocessingInto | cawpre/cawpre.go:27-195 | every process receives exactly its reference inputs, in order |
| CawpreWiring.RealignReadsMarkedSamples | cawpre/cawpre.go:134-135 | both realignment steps take `bamnormal` from `mark_dupes_normal` and `bamtumor` from `mark_dupes_tumor`; indel realignment also takes the intervals (lines 154-156) |
| CawpreWiring.RecalibrationReadsOwnSample | cawpre/cawpre.go:178-194 | `recalibrate_<s>` and `print_reads_<s>` read the declared port `realbam<s>`; printing also reads `recalibrate_<s>`'s table |
| CawpreWiring.AlignReadsOwnSources | cawpre/cawpre.go:60-80 | each alignment reads its own iteration's generators, which hold that type's lanes and fastq files |
| CawpreWiring.DownloadConnsRanked | cawpre/cawpre.go:34-38 | download connections climb the creation rank |
| CawpreWiring.AlignConnsRanked | cawpre/cawpre.go:77-113 | alignment connections climb the creation rank |
| CawpreWiring.RealignConnsRanked | cawpre/cawpre.go:134-156 | realignment connections climb the creation rank |
| CawpreWiring.RecalConnsRanked | cawpre/cawpre.go:178-194 | recalibration connections climb the creation rank |
| CawpreWiring.SampleLoopRanked | cawpre/cawpre.go:58-116 | the first sample loop keeps the connections ranked |
| CawpreWiring.RecalLoopRanked | cawpre/cawpre.go:162-195 | the second sample loop keeps the connections ranked |
| CawpreWiring.PreprocessingConnsRanked | cawpre/cawpre.go:27-195 | every connection goes from an earlier-created kind to a later one |
| CawpreWiring.PreprocessingAcyclic | cawpre/cawpre.go:27-197 | the graph handed to `wf.Run` has no cycle |
| RnaSeqPre.AlignReadsReportedFiles | rnaseqpre/rnaseqpre.go:90-91 | the two align sources name the same files as the quality reports for j = 1, 2 (line 69) |
| RnaSeqPre.FastqPathsDistinct | rnaseqpre/rnaseqpre.go:69 | read files are equal exactly for the same prefix and read number |
| RnaSeqPre.SuffixCancel | rnaseqpre/rnaseqpre.go:69 | strings with a common tail are equal exactly when their heads are |
| RnaSeqPre.FastqPathSplit | rnaseqpre/rnaseqpre.go:69 | a read file path is the data directory, prefix, `_` and the read number |
| RnaSeqPre.FastqcDoneIgnoresTask | rnaseqpre/rnaseqpre.go:79-81 | the quality report's marker is `tmp/rnaseqpre/fastqc/done.flag` for every task |
| RnaSeqPre.AlignedBams | rnaseqpre/rnaseqpre.go:106 | the aligner writes `tmp/rnaseqpre/star/<prefix>.chr11.bam`, different prefixes giving different files |
| RnaSeqPre.NewPreprocessing | rnaseqpre/rnaseqpre.go:34-113 | the registry built is the preprocessing graph; `starProcs` maps each prefix to its aligner |
| RnaSeqPre.AddDownload | rnaseqpre/rnaseqpre.go:37-42 | download and unpack, connected in code order |
| RnaSeqPre.AddSamples | rnaseqpre/rnaseqpre.go:47-113 | the sample loop, filling the collector and aligner maps by prefix |
| RnaSeqPre.AddSample | rnaseqpre/rnaseqpre.go:59-108 | collector, quality reports for j = 1, 2, then the alignment of one sample |
| RnaSeqPre.AddFastqc | rnaseqpre/rnaseqpre.go:64-84 | file source and quality report of read j, handed to the collector |
| RnaSeqPre.AddAlignment | rnaseqpre/rnaseqpre.go:90-108 | the two align sources and the aligner, wired to the collected reports |
| RnaSeqPre.Names | rnaseqpre/rnaseqpre.go:117-118 | the process names, one per registered process, in order |
| RnaSeqPre.ListProcNames | rnaseqpre/rnaseqpre.go:116-121 | `procNames` is a sorted permutation of the registry's names, joined with newlines |
| RnaSeqPre.ListingIgnoresOrder | rnaseqpre/rnaseqpre.go:117-121 | the listing is the same for every iteration order of the registry |
| RnaSeqPre.Decide | rnaseqpre/rnaseqpre.go:122-132 | an empty pattern, and only it, is a usage error with status 1 listing the names; otherwise plot iff the flag is set, else run up to the pattern |
| RnaSeqPre.RunPreprocessing | rnaseqpre/rnaseqpre.go:21-133 | the main function builds the graph, and its outcome depends on the registry only through its sorted listing |
| RnaSeqPreWiring.DownloadConnsOther | rnaseqpre/rnaseqpre.go:37-42 | the download stretch connects nothing into other processes |
| RnaSeqPreWiring.DownloadConnsIntoUntgzApps | rnaseqpre/rnaseqpre.go:42 | unpacking reads the download |
| RnaSeqPreWiring.FastqcConnsOther | rnaseqpre/rnaseqpre.go:64-84 | one inner-loop pass connects nothing into other processes |
| RnaSeqPreWiring.FastqcConnsIntoFastqcSample | rnaseqpre/rnaseqpre.go:77-78 | the quality report reads its file and the unpacking marker |
| RnaSeqPreWiring.FastqcConnsIntoCollectSubstream | rnaseqpre/rnaseqpre.go:83 | each pass hands its report to the sample's collector |
| RnaSeqPreWiring.AlignConnsOther | rnaseqpre/rnaseqpre.go:103-105 | the alignment connects nothing into other processes |
| RnaSeqPreWiring.AlignConnsIntoAlignSamples | rnaseqpre/rnaseqpre.go:103-105 | the aligner reads both align sources and the collected reports |
| RnaSeqPreWiring.SampleConnsSplit | rnaseqpre/rnaseqpre.go:59-113 | a sample iteration is its two passes, then its alignment |
| RnaSeqPreWiring.SampleConnsIntoCollect | rnaseqpre/rnaseqpre.go:63-83 | a sample iteration feeds its collector both reports |
| RnaSeqPreWiring.SampleConnsIntoFastqc | rnaseqpre/rnaseqpre.go:64-84 | a sample iteration feeds each quality report its inputs |
| RnaSeqPreWiring.SampleConnsIntoAlign | rnaseqpre/rnaseqpre.go:103-105 | a sample iteration feeds its aligner its inputs |
| RnaSeqPreWiring.SampleConnsOther | rnaseqpre/rnaseqpre.go:59-113 | a sample iteration connects nothing into other processes |
| RnaSeqPreWiring.SampleConnsFeeds | rnaseqpre/rnaseqpre.go:59-113 | a sample iteration gives each of its processes all of its inputs |
| RnaSeqPreWiring.SampleLoopOther | rnaseqpre/rnaseqpre.go:59-113 | the sample loop connects nothing into processes it has not yet created |
| RnaSeqPreWiring.SampleLoopFeeds | rnaseqpre/rnaseqpre.go:59-113 | the sample loop gives each of its processes all of its inputs |
| RnaSeqPreWiring.FastqcLoopMakes | rnaseqpre/rnaseqpre.go:64-84 | the inner loop makes the listed connections in order |
| RnaSeqPreWiring.SampleLoopMakes | rnaseqpre/rnaseqpre.go:59-113 | the sample loop makes the listed connections in order |
| RnaSeqPreWiring.PreprocessingMakes | rnaseqpre/rnaseqpre.go:35-113 | the main function's connections are its stretches' connections in order |
| RnaSeqPreWiring.PreprocessingInto | rnaseqpre/rnaseqpre.go:35-113 | every process receives exactly its reference inputs, in order |
| RnaSeqPreWiring.SampleWiring | rnaseqpre/rnaseqpre.go:63-105 | each collector receives exactly two connections, from `fastqc_sample_<prefix>_1` and `_2`; the aligner reads both align sources and the collected reports |
| RnaSeqPreWiring.FastqcWiring | rnaseqpre/rnaseqpre.go:77-78 | each quality report reads its own file source and the unpacking marker |
| RnaSeqPreWiring.DownloadConnsRanked | rnaseqpre/rnaseqpre.go:42 | download connections climb the rank |
| RnaSeqPreWiring.FastqcConnsRanked | rnaseqpre/rnaseqpre.go:77-83 | quality-report connections climb the rank |
| RnaSeqPreWiring.AlignConnsRanked | rnaseqpre/rnaseqpre.go:103-105 | alignment connections climb the rank |
| RnaSeqPreWiring.SampleConnsRanked | rnaseqpre/rnaseqpre.go:59-113 | a sample iteration's connections climb the rank |
| RnaSeqPreWiring.PreprocessingAcyclic | rnaseqpre/rnaseqpre.go:35-132 | the graph handed to `RunToRegex` has no cycle |

## Left out

- The library's scheduler, worker pool, channels and back-pressure are not modelled. Running a workflow (`wf.Run` at cawpre/cawpre.go:197, `RunToRegex` at rnaseqpre/rnaseqpre.go:132) is not modelled either: the model stops at the built graph and at the port histories of the two generators.
- The single-upstream rule for in-ports is not enforced by `Connect`. The code wires `FoldsCount` producers into one collector in-port, and the model follows the code.
- The insides of `StreamToSubStream`, `FileSource` and the component constructors (`NewGenSignFilterSubst`, `NewSampleTrainAndTest`, …) are not modelled. Their files are not part of this model. Each is a registered process whose ports are named after the accessors the client calls, and whose out-paths are recorded as `External` or `Batch`.
- Template substitution is not evaluated. The `{i:orig}.ungz` and `{p:cost}` paths and the `SetOut`/`SetPathStatic` templates are kept as `Pattern` or `Static` text. `SetPathReplace` is kept as a `Replace` rule.
- At mm/wffindcost.go:121, the `SetOut` template of `create_runcopy` is overridden by the `SetOutFunc` that follows it. Only the final path function is kept.
- Shell command strings, the external tools they run, and file I/O are not modelled.
- Cost values are carried as their `%f` text. Float formatting is not modelled, and `FromFloat` is treated like a literal parameter value.
- Components are configured with `MinHeight`, `MaxHeight`, `TestSize`, `SolverType`, `RandomDataSizeMB` and the thread count. None of these is modelled, because no name, path or connection depends on them.
- Flag parsing, `PlotGraph` and the dot file, `os.Exit`, the error log and `flag.PrintDefaults` are not modelled. They appear only as the `Outcome` that `RnaSeqPre.Decide` returns.
- RnaSeqPre.RunPreprocessing: the runtime's iteration order over the name-keyed registry is a parameter `keys`. The caller must provide a permutation of the registered names.
- The `main` of mm/wffindcost.go is not modelled. This covers its download workflow (lines 24-32) and its fixed parameter values (lines 34-51). Only `NewCrossValidateWorkflow` is modelled, for every parameter value.
- The commented-out Python (mm/wffindcost.go:249-339) is not code and is not modelled.
- The generator objects that `Cawpre.AddSources` creates are not kept once the method returns. Their runs are modelled by `Generators.ParamSource.Run` and `Generators.IPSource.Run`.
- Cawpre.AddSources: `NewParamSource` and `NewIPSource` (cawpre/cawpre.go:211-218, 237-244) call no `AddProc` themselves; they call `NewBaseProcess`, which is not part of this model. The model assumes that `NewBaseProcess` registers the process with the workflow, so that `wf.Run` (cawpre/cawpre.go:197) starts the three generators, and records them with `AddProc` (and so does the specification function `Cawpre.SourcesPart`).
- FlowGraph.Workflow.AddProc: the registry is a list in registration order, while the library keys processes by name. A repeated loop value (a train size, replicate id or cost text given twice) therefore gives two records here where the library keeps one. Names are proved distinct only for distinct train sizes and distinct fold indices (`CrossValidate.TrainSuffixesDistinct`, `CrossValidate.FoldSuffixesDistinct`).
- GoPaths.Clean: its contract states only that the result is non-empty. `filepath.Clean` is defined element by element for Unix paths, but its idempotence and its Windows behaviour are not proved.
- Ports.OutPort.Close: closing an already-closed port is modelled as a no-op. In Go that would panic, but the generators close only once.
- RnaSeqPreWiring.PreprocessingAcyclic: proved for the one sample prefix the program uses. The ranking argument does not depend on the prefix list, but the wiring lemmas are stated over the constant `SamplePrefixes`.
