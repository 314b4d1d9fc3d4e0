/** The RNA-seq preprocessing pipeline (rnaseqpre/rnaseqpre.go): download
    and unpack the tools, then per sample prefix run a quality report on
    both read files, collect the two reports, and align the pair of read
    files once the reports are done. After building the graph, the main
    function lists the process names and either reports a usage error,
    plots the graph, or runs it up to a name pattern. */
module RnaSeqPre {
  import opened GoStrings
  import opened FlowGraph

  const TmpDir := "tmp"
  const AppsDir := "data/apps"
  const RefDir := AppsDir + "/ref"
  const OrigDataDir := AppsDir + "/data"
  const DataDir := "data"
  const StarIndex := RefDir + "/star"

  /** The samples the main loop runs over. */
  const SamplePrefixes: seq<string> := ["SRR3222409"]

  datatype Kind =
    | DownloadApps | UntgzApps
    | CollectSubstream | FastqcFile | FastqcSample
    | AlignFile1 | AlignFile2 | AlignSamples

  /** Kinds created once per read file, inside the inner loop. */
  predicate PerReadFile(k: Kind) {
    k == FastqcFile || k == FastqcSample
  }

  /** Kinds created once per sample prefix, outside the inner loop. */
  predicate PerSample(k: Kind) {
    k == CollectSubstream || k == AlignFile1 || k == AlignFile2 || k == AlignSamples
  }

  /** The loop positions a process of each kind is created at: the index
      of its sample prefix, and for the quality report the read number j
      (1 or 2). */
  predicate Placed(n: Node<Kind>) {
    if PerReadFile(n.kind) then |n.at| == 2 && 0 <= n.at[0] < |SamplePrefixes| && 1 <= n.at[1] <= 2
    else if PerSample(n.kind) then |n.at| == 1 && 0 <= n.at[0] < |SamplePrefixes|
    else n.at == []
  }

  // ---------------------------------------------------------------------
  // Paths
  // ---------------------------------------------------------------------

  /** The read file j of a sample, as the quality-report loop names it. */
  function FastqPath(prefix: string, j: int): string {
    OrigDataDir + "/" + prefix + "_" + Itoa(j) + ".chr11.fq.gz"
  }

  /** The two read files the alignment reads, as spelled out in the code. */
  function AlignFastqPath1(prefix: string): string {
    OrigDataDir + "/" + prefix + "_1.chr11.fq.gz"
  }

  function AlignFastqPath2(prefix: string): string {
    OrigDataDir + "/" + prefix + "_2.chr11.fq.gz"
  }

  /** The alignment reads the same two files the quality reports read. */
  lemma AlignReadsReportedFiles(prefix: string)
    ensures AlignFastqPath1(prefix) == FastqPath(prefix, 1)
    ensures AlignFastqPath2(prefix) == FastqPath(prefix, 2)
  {
    assert Itoa(1) == "1" && Itoa(2) == "2";
  }

  /** Strings with a common tail are equal exactly when their heads are. */
  lemma SuffixCancel(x: string, y: string, t: string)
    ensures x + t == y + t <==> x == y
  {
    if x + t == y + t {
      assert |x| == |y|;
      assert x == (x + t)[..|x|] && y == (y + t)[..|y|];
    }
  }

  /** Different read numbers name different files of the same sample, and
      different samples never share a file. */
  lemma FastqPathsDistinct(p1: string, j1: int, p2: string, j2: int)
    requires '_' !in p1 && '_' !in p2
    ensures FastqPath(p1, j1) == FastqPath(p2, j2) <==> p1 == p2 && j1 == j2
  {
    if FastqPath(p1, j1) == FastqPath(p2, j2) {
      FastqPathSplit(p1, j1);
      FastqPathSplit(p2, j2);
      PrefixCancel(OrigDataDir + "/", p1 + ['_'] + (Itoa(j1) + ".chr11.fq.gz"), p2 + ['_'] + (Itoa(j2) + ".chr11.fq.gz"));
      SplitAtSeparator(p1, Itoa(j1) + ".chr11.fq.gz", p2, Itoa(j2) + ".chr11.fq.gz", '_');
      SuffixCancel(Itoa(j1), Itoa(j2), ".chr11.fq.gz");
      ItoaInjective(j1, j2);
    }
  }

  /** A read file's path is the data directory followed by the sample
      prefix, the separator and the read number. */
  lemma FastqPathSplit(prefix: string, j: int)
    ensures FastqPath(prefix, j) == (OrigDataDir + "/") + (prefix + ['_'] + (Itoa(j) + ".chr11.fq.gz"))
  {
  }

  /** The quality report's marker path: the same for every task. */
  const FastqcDonePath := TmpDir + "/rnaseqpre/fastqc/done.flag"
  const FastqcDone := FixedPath(FastqcDonePath)

  lemma FastqcDoneIgnoresTask(t1: Task, t2: Task)
    ensures Ready(FastqcDone, t1) && Ready(FastqcDone, t2)
    ensures Eval(FastqcDone, t1) == Eval(FastqcDone, t2) == FastqcDonePath
  {
  }

  /** The aligned BAM of a sample. */
  function AlignedBam(prefix: string): string {
    TmpDir + "/rnaseqpre/star/" + prefix + ".chr11.bam"
  }

  /** The aligner of a sample writes tmp/rnaseqpre/star/<prefix>.chr11.bam,
      and aligners of different samples write different files. */
  lemma AlignedBams(i: nat, p1: string, p2: string)
    requires i < |SamplePrefixes|
    ensures AlignSamplesProc(i).outs == [Output("bam_aligned", Pattern("tmp/rnaseqpre/star/" + SamplePrefixes[i] + ".chr11.bam"))]
    ensures AlignedBam(p1) == AlignedBam(p2) <==> p1 == p2
  {
    var d := TmpDir + "/rnaseqpre/star/";
    assert d == "tmp/rnaseqpre/star/";
    assert AlignedBam(p1) == d + (p1 + ".chr11.bam");
    assert AlignedBam(p2) == d + (p2 + ".chr11.bam");
    if AlignedBam(p1) == AlignedBam(p2) {
      PrefixCancel(d, p1 + ".chr11.bam", p2 + ".chr11.bam");
      SuffixCancel(p1, p2, ".chr11.bam");
    }
  }

  // ---------------------------------------------------------------------
  // Process records
  // ---------------------------------------------------------------------

  function DownloadAppsProc(): Proc<Kind> {
    Proc(Node(DownloadApps, []), "download_apps", [], [], [Output("apps", Pattern(DataDir + "/apps.tar.gz"))])
  }

  function UntgzAppsProc(): Proc<Kind> {
    Proc(Node(UntgzApps, []), "untgz_apps", ["tgz"], [], [Output("done", Pattern(DataDir + "/apps/done.flag"))])
  }

  function CollectSubstreamProc(i: nat): Proc<Kind>
    requires i < |SamplePrefixes|
  {
    Proc(Node(CollectSubstream, [i]), "collect_substream_" + SamplePrefixes[i], ["in"], [], [Output("substream", Batch)])
  }

  /** The file source of read file j, feeding its quality report. */
  function FastqcFileProc(i: nat, j: int): Proc<Kind>
    requires i < |SamplePrefixes|
  {
    var prefix := SamplePrefixes[i];
    Proc(Node(FastqcFile, [i, j]), "fastqFile_fastqc_" + prefix + "_" + Itoa(j), [], [],
         [Output("out", Listed([FastqPath(prefix, j)]))])
  }

  /** The quality report of read file j; its marker path is set by a path
      function after its creation, and the record holds the final
      configuration. */
  function FastqcSampleProc(i: nat, j: int): Proc<Kind>
    requires i < |SamplePrefixes|
  {
    Proc(Node(FastqcSample, [i, j]), "fastqc_sample_" + SamplePrefixes[i] + "_" + Itoa(j), ["reads", "untardone"], [],
         [Output("done", Func(FastqcDone))])
  }

  function AlignFile1Proc(i: nat): Proc<Kind>
    requires i < |SamplePrefixes|
  {
    var prefix := SamplePrefixes[i];
    Proc(Node(AlignFile1, [i]), "fastqFile_align_" + prefix + "_1.chr11.fq.gz", [], [],
         [Output("out", Listed([AlignFastqPath1(prefix)]))])
  }

  function AlignFile2Proc(i: nat): Proc<Kind>
    requires i < |SamplePrefixes|
  {
    var prefix := SamplePrefixes[i];
    Proc(Node(AlignFile2, [i]), "fastqFile_align_" + prefix + "_2.chr11.fq.gz", [], [],
         [Output("out", Listed([AlignFastqPath2(prefix)]))])
  }

  function AlignSamplesProc(i: nat): Proc<Kind>
    requires i < |SamplePrefixes|
  {
    var prefix := SamplePrefixes[i];
    Proc(Node(AlignSamples, [i]), "align_samples_" + prefix, ["reads1", "reads2", "fastqc"], [],
         [Output("bam_aligned", Pattern(AlignedBam(prefix)))])
  }

  function Edge(from: Node<Kind>, out: string, to: Node<Kind>, in_: string): Conn<Kind> {
    Conn(FromPort(from, out), to, Data(in_))
  }

  // ---------------------------------------------------------------------
  // The graph the code builds, stretch by stretch
  // ---------------------------------------------------------------------

  /** Fetch and unpack the tools. */
  function DownloadPart(g: Graph<Kind>): Graph<Kind> {
    g.WithProc(DownloadAppsProc())
     .WithProc(UntgzAppsProc())
     .WithConn(Edge(Node(DownloadApps, []), "apps", Node(UntgzApps, []), "tgz"))
  }

  /** One pass of the inner loop: the source and the quality report of read
      file j of sample i, the report handed to the sample's collector. */
  function FastqcPart(g: Graph<Kind>, i: nat, j: int): Graph<Kind>
    requires i < |SamplePrefixes|
  {
    var file, fastqc := Node(FastqcFile, [i, j]), Node(FastqcSample, [i, j]);
    g.WithProc(FastqcFileProc(i, j))
     .WithProc(FastqcSampleProc(i, j))
     .WithConn(Edge(file, "out", fastqc, "reads"))
     .WithConn(Edge(Node(UntgzApps, []), "done", fastqc, "untardone"))
     .WithConn(Edge(fastqc, "done", Node(CollectSubstream, [i]), "in"))
  }

  /** The inner loop's passes j = 1 .. m. */
  function FastqcLoop(g: Graph<Kind>, i: nat, m: nat): Graph<Kind>
    requires i < |SamplePrefixes|
  {
    if m == 0 then g else FastqcPart(FastqcLoop(g, i, m - 1), i, m)
  }

  /** The alignment of sample i, after its quality reports. */
  function AlignPart(g: Graph<Kind>, i: nat): Graph<Kind>
    requires i < |SamplePrefixes|
  {
    var align := Node(AlignSamples, [i]);
    g.WithProc(AlignFile1Proc(i))
     .WithProc(AlignFile2Proc(i))
     .WithProc(AlignSamplesProc(i))
     .WithConn(Edge(Node(AlignFile1, [i]), "out", align, "reads1"))
     .WithConn(Edge(Node(AlignFile2, [i]), "out", align, "reads2"))
     .WithConn(Edge(Node(CollectSubstream, [i]), "substream", align, "fastqc"))
  }

  /** One iteration of the sample loop. */
  function SamplePart(g: Graph<Kind>, i: nat): Graph<Kind>
    requires i < |SamplePrefixes|
  {
    AlignPart(FastqcLoop(g.WithProc(CollectSubstreamProc(i)), i, 2), i)
  }

  function SampleLoop(g: Graph<Kind>, m: nat): Graph<Kind>
    requires m <= |SamplePrefixes|
  {
    if m == 0 then g else SamplePart(SampleLoop(g, m - 1), m - 1)
  }

  /** The whole graph. */
  function Preprocessing(): Graph<Kind> {
    SampleLoop(DownloadPart(Empty()), |SamplePrefixes|)
  }

  /** The aligners of the first m samples, by sample prefix. */
  function AlignersByPrefix(m: nat): map<string, Node<Kind>>
    requires m <= |SamplePrefixes|
  {
    if m == 0 then map[] else AlignersByPrefix(m - 1)[SamplePrefixes[m - 1] := Node(AlignSamples, [m - 1])]
  }

  /** The report collectors of the first m samples, by sample prefix. */
  function CollectorsByPrefix(m: nat): map<string, Node<Kind>>
    requires m <= |SamplePrefixes|
  {
    if m == 0 then map[] else CollectorsByPrefix(m - 1)[SamplePrefixes[m - 1] := Node(CollectSubstream, [m - 1])]
  }

  // ---------------------------------------------------------------------
  // The construction
  // ---------------------------------------------------------------------

  /** The main function up to the process listing: registers every process
      and connection in code order. */
  method NewPreprocessing(maxTasks: int) returns (wf: Workflow<Kind>, starProcs: map<string, Node<Kind>>)
    ensures fresh(wf) && wf.name == "rnaseqpre" && wf.maxTasks == maxTasks
    ensures wf.Snapshot() == Preprocessing()
    ensures starProcs == AlignersByPrefix(|SamplePrefixes|)
  {
    wf := new Workflow("rnaseqpre", maxTasks);
    AddDownload(wf);
    starProcs := AddSamples(wf);
  }

  method AddDownload(wf: Workflow<Kind>)
    modifies wf
    ensures wf.Snapshot() == DownloadPart(old(wf.Snapshot()))
  {
    var downloadApps := Node(DownloadApps, []);
    wf.AddProc(DownloadAppsProc());
    var unTgzApps := Node(UntgzApps, []);
    wf.AddProc(UntgzAppsProc());
    wf.Connect(FromPort(downloadApps, "apps"), unTgzApps, Data("tgz"));
  }

  /** The sample loop, with the maps it fills. */
  method AddSamples(wf: Workflow<Kind>) returns (starProcs: map<string, Node<Kind>>)
    modifies wf
    ensures wf.Snapshot() == SampleLoop(old(wf.Snapshot()), |SamplePrefixes|)
    ensures starProcs == AlignersByPrefix(|SamplePrefixes|)
  {
    var samplePrefixes := ["SRR3222409"];
    var strToSubstrs: map<string, Node<Kind>> := map[];
    starProcs := map[];
    ghost var head := wf.Snapshot();
    for i := 0 to |samplePrefixes|
      invariant wf.Snapshot() == SampleLoop(head, i)
      invariant strToSubstrs == CollectorsByPrefix(i)
      invariant starProcs == AlignersByPrefix(i)
    {
      var samplePrefix := samplePrefixes[i];
      var alignSamples;
      strToSubstrs, alignSamples := AddSample(wf, i, samplePrefix, strToSubstrs);
      starProcs := starProcs[samplePrefix := alignSamples];
    }
  }

  /** One iteration of the sample loop: the collector, the inner loop over
      the two read files, then the alignment. */
  method AddSample(wf: Workflow<Kind>, i: nat, samplePrefix: string, strToSubstrs: map<string, Node<Kind>>)
    returns (collectors: map<string, Node<Kind>>, alignSamples: Node<Kind>)
    requires i < |SamplePrefixes| && samplePrefix == SamplePrefixes[i]
    modifies wf
    ensures wf.Snapshot() == SamplePart(old(wf.Snapshot()), i)
    ensures collectors == strToSubstrs[samplePrefix := Node(CollectSubstream, [i])]
    ensures alignSamples == Node(AlignSamples, [i])
  {
    collectors := strToSubstrs[samplePrefix := Node(CollectSubstream, [i])];
    wf.AddProc(CollectSubstreamProc(i));
    ghost var head := wf.Snapshot();
    var j := 1;
    while j <= 2
      invariant 1 <= j <= 3
      invariant wf.Snapshot() == FastqcLoop(head, i, j - 1)
    {
      AddFastqc(wf, i, j, samplePrefix, collectors[samplePrefix]);
      j := j + 1;
    }
    alignSamples := AddAlignment(wf, i, samplePrefix, collectors[samplePrefix]);
  }

  /** One pass of the inner loop. */
  method AddFastqc(wf: Workflow<Kind>, i: nat, j: int, samplePrefix: string, collector: Node<Kind>)
    requires i < |SamplePrefixes| && samplePrefix == SamplePrefixes[i] && collector == Node(CollectSubstream, [i])
    modifies wf
    ensures wf.Snapshot() == FastqcPart(old(wf.Snapshot()), i, j)
  {
    var readsSourceFastQ := Node(FastqcFile, [i, j]);
    wf.AddProc(FastqcFileProc(i, j));
    var fastQSamples := Node(FastqcSample, [i, j]);
    wf.AddProc(FastqcSampleProc(i, j));
    wf.Connect(FromPort(readsSourceFastQ, "out"), fastQSamples, Data("reads"));
    wf.Connect(FromPort(Node(UntgzApps, []), "done"), fastQSamples, Data("untardone"));
    wf.Connect(FromPort(fastQSamples, "done"), collector, Data("in"));
  }

  method AddAlignment(wf: Workflow<Kind>, i: nat, samplePrefix: string, collector: Node<Kind>)
    returns (alignSamples: Node<Kind>)
    requires i < |SamplePrefixes| && samplePrefix == SamplePrefixes[i] && collector == Node(CollectSubstream, [i])
    modifies wf
    ensures wf.Snapshot() == AlignPart(old(wf.Snapshot()), i)
    ensures alignSamples == Node(AlignSamples, [i])
  {
    wf.AddProc(AlignFile1Proc(i));
    wf.AddProc(AlignFile2Proc(i));
    alignSamples := Node(AlignSamples, [i]);
    wf.AddProc(AlignSamplesProc(i));
    wf.Connect(FromPort(Node(AlignFile1, [i]), "out"), alignSamples, Data("reads1"));
    wf.Connect(FromPort(Node(AlignFile2, [i]), "out"), alignSamples, Data("reads2"));
    wf.Connect(FromPort(collector, "substream"), alignSamples, Data("fastqc"));
  }

  // ---------------------------------------------------------------------
  // Listing the process names, and what the main function does next
  // ---------------------------------------------------------------------

  /** The names of registered processes, in registration order. */
  function Names(procs: seq<Proc<Kind>>): (r: seq<string>)
    ensures |r| == |procs|
    ensures forall k :: 0 <= k < |procs| ==> r[k] == procs[k].name
  {
    if procs == [] then [] else Names(procs[..|procs| - 1]) + [procs[|procs| - 1].name]
  }

  /** The listing of the registry's names: collected from the name-keyed
      registry in whatever order the runtime iterates it (`keys`), sorted,
      and joined one per line. */
  method ListProcNames(keys: seq<string>) returns (procNames: seq<string>, procNamesStr: string)
    ensures Sorted(procNames) && multiset(procNames) == multiset(keys)
    ensures procNames == SortStrings(keys)
    ensures procNamesStr == Join(procNames, "\n")
  {
    procNames := [];
    for k := 0 to |keys|
      invariant procNames == keys[..k]
    {
      procNames := procNames + [keys[k]];
    }
    assert keys[..|keys|] == keys;
    procNames := SortStrings(procNames);
    procNamesStr := Join(procNames, "\n");
  }

  /** The listing does not depend on the order the runtime iterates the
      registry in. */
  lemma ListingIgnoresOrder(keys1: seq<string>, keys2: seq<string>)
    requires multiset(keys1) == multiset(keys2)
    ensures Join(SortStrings(keys1), "\n") == Join(SortStrings(keys2), "\n")
  {
    SortIgnoresOrder(keys1, keys2);
  }

  /** What the main function does once the graph is built. */
  datatype Outcome =
    | UsageError(message: string, status: int)  // report, print the flags, exit
    | Plotted(dotFile: string)                   // plot the graph and return
    | RanUpTo(pattern: string)                   // run the processes the pattern selects

  const UsageMessage := "You must specify a process name pattern. You can specify one of:"

  /** An empty pattern is a usage error with exit status 1 naming the
      processes; otherwise the plot flag plots without running; otherwise
      the workflow runs up to the pattern. */
  function Decide(procsRegex: string, plot: bool, procNamesStr: string): (r: Outcome)
    ensures r.UsageError? <==> procsRegex == ""
    ensures r.UsageError? ==> r.status == 1 && r.message == UsageMessage + procNamesStr
    ensures r.Plotted? <==> procsRegex != "" && plot
    ensures r.Plotted? ==> r.dotFile == "rnaseqpre.dot"
    ensures r.RanUpTo? <==> procsRegex != "" && !plot
    ensures r.RanUpTo? ==> r.pattern == procsRegex
  {
    if procsRegex == "" then UsageError(UsageMessage + procNamesStr, 1)
    else if plot then Plotted("rnaseqpre.dot")
    else RanUpTo(procsRegex)
  }

  /** The main function as a whole: flags and the registry's iteration order are
      parameters. */
  method RunPreprocessing(maxTasks: int, plot: bool, procsRegex: string, keys: seq<string>)
    returns (wf: Workflow<Kind>, outcome: Outcome)
    requires multiset(keys) == multiset(Names(Preprocessing().procs))
    ensures fresh(wf) && wf.Snapshot() == Preprocessing()
    ensures outcome == Decide(procsRegex, plot, Join(SortStrings(Names(Preprocessing().procs)), "\n"))
  {
    var starProcs;
    wf, starProcs := NewPreprocessing(maxTasks);
    var procNames, procNamesStr := ListProcNames(keys);
    ListingIgnoresOrder(keys, Names(Preprocessing().procs));
    outcome := Decide(procsRegex, plot, procNamesStr);
  }
}
