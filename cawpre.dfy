/** The cancer-analysis preprocessing workflow (cawpre/cawpre.go): the tools
    are downloaded and unpacked once; each sample type (normal, tumor) has
    its lanes aligned, merged and duplicate-marked; both samples are
    realigned together; each is then recalibrated and printed. */
module Cawpre {
  import opened GoStrings
  import opened FlowGraph
  import opened Ports
  import opened Generators

  const TmpDir := "tmp"
  const AppsDir := "data/apps"
  const OrigDataDir := AppsDir + "/pipeline_test/data"
  const DataDir := "data"

  /** The sample types, in the order both sample loops visit them. */
  const SampleTypes: seq<string> := ["normal", "tumor"]

  /** The lane indexes of each sample type. */
  const Indexes: map<string, seq<string>> := map[
    "normal" := ["1", "2", "4", "7", "8"],
    "tumor" := ["1", "2", "3", "5", "6", "7"]]

  /** A Go map read: the zero value, an empty list, for a missing key. */
  function Lookup(m: map<string, seq<string>>, k: string): (r: seq<string>)
    ensures k !in m ==> r == []
    ensures k in m ==> r == m[k]
  {
    if k in m then m[k] else []
  }

  /** The process kinds of the workflow. */
  datatype Kind =
    | DownloadApps | UnzipApps | UntarApps
    | IndexSource | ReadsFastq1 | ReadsFastq2 | AlignSamples | BamSubstream | MergeBams | MarkDupes
    | RealignCreateTargets | RealignIndels
    | Recalibrate | PrintReads

  /** Kinds created once per sample type, inside one of the two sample loops. */
  predicate PerSample(k: Kind) {
    match k
    case IndexSource | ReadsFastq1 | ReadsFastq2 | AlignSamples | BamSubstream | MergeBams | MarkDupes => true
    case Recalibrate | PrintReads => true
    case _ => false
  }

  /** A process identity the construction creates: per-sample processes
      carry their loop position, the others none. */
  predicate Placed(n: Node<Kind>) {
    if PerSample(n.kind) then |n.at| == 1 && 0 <= n.at[0] < |SampleTypes| else n.at == []
  }

  // ---------------------------------------------------------------------
  // Paths
  // ---------------------------------------------------------------------

  /** The fastq file of one lane and one read direction ("1" or "2"). */
  function FastqPath(sampleType: string, idx: string, read: string): string {
    OrigDataDir + "/tiny_" + sampleType + "_L00" + idx + "_R" + read + ".fastq.gz"
  }

  /** The fastq files of the lanes `idxs`, in lane order. */
  function FastqList(sampleType: string, idxs: seq<string>, read: string): (r: seq<string>)
    ensures |r| == |idxs|
    ensures forall k :: 0 <= k < |idxs| ==> r[k] == FastqPath(sampleType, idxs[k], read)
  {
    if idxs == [] then []
    else FastqList(sampleType, idxs[..|idxs| - 1], read) + [FastqPath(sampleType, idxs[|idxs| - 1], read)]
  }

  /** Different lanes have different fastq files. */
  lemma FastqPathsDistinct(sampleType: string, a: string, b: string, read: string)
    requires a != b
    ensures FastqPath(sampleType, a, read) != FastqPath(sampleType, b, read)
  {
    var d := OrigDataDir + "/tiny_" + sampleType + "_L00";
    var t := "_R" + read + ".fastq.gz";
    assert FastqPath(sampleType, a, read) == d + a + t;
    assert FastqPath(sampleType, b, read) == d + b + t;
    if d + a + t == d + b + t {
      assert |a| == |b|;
      forall k | 0 <= k < |a|
        ensures a[k] == b[k]
      {
        assert (d + a + t)[|d| + k] == a[k];
        assert (d + b + t)[|d| + k] == b[k];
      }
    }
  }

  /** The two read directions of a lane are two different files that
      differ only in the read number. */
  lemma FastqReadsPaired(sampleType: string, idx: string)
    ensures FastqPath(sampleType, idx, "1") != FastqPath(sampleType, idx, "2")
    ensures |FastqPath(sampleType, idx, "1")| == |FastqPath(sampleType, idx, "2")|
  {
    var d := OrigDataDir + "/tiny_" + sampleType + "_L00" + idx + "_R";
    assert FastqPath(sampleType, idx, "1") == d + "1" + ".fastq.gz";
    assert FastqPath(sampleType, idx, "2") == d + "2" + ".fastq.gz";
    assert (d + "1" + ".fastq.gz")[|d|] == '1';
    assert (d + "2" + ".fastq.gz")[|d|] == '2';
  }

  /** The map after appending `xs` to the list at key k, one Go
      `m[k] = append(m[k], x)` per element: an empty `xs` leaves the map,
      even a missing key, alone. */
  function Appended(m: map<string, seq<string>>, k: string, xs: seq<string>): (r: map<string, seq<string>>)
    ensures xs != [] ==> k in r
    ensures Lookup(r, k) == Lookup(m, k) + xs
    ensures forall j :: j != k ==> (j in r <==> j in m) && (j in m ==> r[j] == m[j])
  {
    if xs == [] then m else m[k := Lookup(m, k) + xs]
  }

  /** Appending in two steps is appending the concatenation. */
  lemma AppendedSnoc(m: map<string, seq<string>>, k: string, xs: seq<string>, x: string)
    ensures Appended(Appended(m, k, xs), k, [x]) == Appended(m, k, xs + [x])
  {
    if xs != [] {
      assert Lookup(m, k) + xs + [x] == Lookup(m, k) + (xs + [x]);
    } else {
      assert xs + [x] == [x];
    }
  }

  /** The inner lane loop: appends the R1 and R2 fastq files of every lane
      to the sample type's lists. */
  method AppendFastqPaths(fastqPaths1: map<string, seq<string>>, fastqPaths2: map<string, seq<string>>, sampleType: string, idxs: seq<string>)
    returns (paths1: map<string, seq<string>>, paths2: map<string, seq<string>>)
    ensures paths1 == Appended(fastqPaths1, sampleType, FastqList(sampleType, idxs, "1"))
    ensures paths2 == Appended(fastqPaths2, sampleType, FastqList(sampleType, idxs, "2"))
  {
    paths1, paths2 := fastqPaths1, fastqPaths2;
    for k := 0 to |idxs|
      invariant paths1 == Appended(fastqPaths1, sampleType, FastqList(sampleType, idxs[..k], "1"))
      invariant paths2 == Appended(fastqPaths2, sampleType, FastqList(sampleType, idxs[..k], "2"))
    {
      assert idxs[..k + 1][..k] == idxs[..k];
      AppendedSnoc(fastqPaths1, sampleType, FastqList(sampleType, idxs[..k], "1"), FastqPath(sampleType, idxs[k], "1"));
      AppendedSnoc(fastqPaths2, sampleType, FastqList(sampleType, idxs[..k], "2"), FastqPath(sampleType, idxs[k], "2"));
      paths1 := paths1[sampleType := Lookup(paths1, sampleType) + [FastqPath(sampleType, idxs[k], "1")]];
      paths2 := paths2[sampleType := Lookup(paths2, sampleType) + [FastqPath(sampleType, idxs[k], "2")]];
    }
    assert idxs[..|idxs|] == idxs;
  }

  /** The path function of an alignment: the BAM of lane `index` of the
      iteration's own sample type. */
  function AlignBam(sampleType: string): PathFunc {
    SampleBam(TmpDir, sampleType, "index")
  }

  /** An alignment task writes `tmp/<sampleType>_<index>.bam`; two tasks of
      one alignment with different lane indexes, or alignments of different
      sample types, never write the same file. */
  lemma AlignPaths(s1: string, s2: string, t1: Task, t2: Task)
    requires "index" in t1.params && "index" in t2.params
    requires '_' !in s1 && '_' !in s2 && '_' !in t1.params["index"] && '_' !in t2.params["index"]
    requires '/' !in s1 && '/' !in s2
    ensures Ready(AlignBam(s1), t1) && Ready(AlignBam(s2), t2)
    ensures Eval(AlignBam(s1), t1) == TmpDir + "/" + s1 + "_" + t1.params["index"] + ".bam"
    ensures Eval(AlignBam(s1), t1) == Eval(AlignBam(s2), t2) <==> s1 == s2 && t1.params["index"] == t2.params["index"]
  {
    var x1, x2 := t1.params["index"], t2.params["index"];
    var tail1, tail2 := x1 + ".bam", x2 + ".bam";
    assert Eval(AlignBam(s1), t1) == (TmpDir + "/") + (s1 + ['_'] + tail1);
    assert Eval(AlignBam(s2), t2) == (TmpDir + "/") + (s2 + ['_'] + tail2);
    if Eval(AlignBam(s1), t1) == Eval(AlignBam(s2), t2) {
      PrefixCancel(TmpDir + "/", s1 + ['_'] + tail1, s2 + ['_'] + tail2);
      SplitAtSeparator(s1, tail1, s2, tail2, '_');
      assert x1 == tail1[..|tail1| - 4] && x2 == tail2[..|tail2| - 4];
    }
  }

  /** The duplicate-marked BAM of the sample at loop position i. */
  function MarkedBam(i: nat): string
    requires i < |SampleTypes|
  {
    TmpDir + "/" + SampleTypes[i] + "_" + Itoa(i) + ".md.bam"
  }

  /** The duplicate marker of normal (position 0) writes tmp/normal_0.md.bam,
      that of tumor (position 1) tmp/tumor_1.md.bam. */
  lemma MarkedBams()
    ensures MarkDupesProc(0).outs == [Output("bam", Static("tmp/normal_0.md.bam"))]
    ensures MarkDupesProc(1).outs == [Output("bam", Static("tmp/tumor_1.md.bam"))]
  {
    assert Itoa(0) == "0" && Itoa(1) == "1";
    assert MarkedBam(0) == "tmp/normal_0.md.bam";
    assert MarkedBam(1) == "tmp/tumor_1.md.bam";
  }

  // ---------------------------------------------------------------------
  // Process records
  // ---------------------------------------------------------------------

  function DownloadAppsProc(): Proc<Kind> {
    Proc(Node(DownloadApps, []), "download_apps", [], [], [Output("apps", Static(DataDir + "/uppnex_apps.tar.gz"))])
  }

  function UnzipAppsProc(): Proc<Kind> {
    Proc(Node(UnzipApps, []), "unzip_apps", ["targz"], [], [Output("tar", Replace("targz", ".gz", ""))])
  }

  function UntarAppsProc(): Proc<Kind> {
    Proc(Node(UntarApps, []), "untar_apps", ["tar"], [], [Output("outdir", Static(DataDir + "/apps"))])
  }

  /** The generator of the lanes `idxs` of sample type i. */
  function IndexSourceProc(i: nat, idxs: seq<string>): Proc<Kind>
    requires i < |SampleTypes|
  {
    Proc(Node(IndexSource, [i]), "index_src_" + SampleTypes[i], [], [], [Output("out", Listed(idxs))])
  }

  /** The generator of the fastq files of read direction `read` of the
      lanes `idxs` of sample type i. */
  function ReadsFastqProc(i: nat, read: string, idxs: seq<string>): Proc<Kind>
    requires i < |SampleTypes| && (read == "1" || read == "2")
  {
    var s := SampleTypes[i];
    Proc(Node(if read == "1" then ReadsFastq1 else ReadsFastq2, [i]), "reads_fastq" + read + "_" + s, [], [],
         [Output("out", Listed(FastqList(s, idxs, read)))])
  }

  /** The alignment's output path is set by a path function after its
      creation; the record holds the final configuration. */
  function AlignSamplesProc(i: nat): Proc<Kind>
    requires i < |SampleTypes|
  {
    var s := SampleTypes[i];
    Proc(Node(AlignSamples, [i]), "align_samples_" + s, ["reads1", "reads2", "appsdir"], ["index"], [Output("bam", Func(AlignBam(s)))])
  }

  function BamSubstreamProc(i: nat): Proc<Kind>
    requires i < |SampleTypes|
  {
    Proc(Node(BamSubstream, [i]), "stream_to_substream_" + SampleTypes[i], ["in"], [], [Output("substream", Batch)])
  }

  function MergeBamsProc(i: nat): Proc<Kind>
    requires i < |SampleTypes|
  {
    var s := SampleTypes[i];
    Proc(Node(MergeBams, [i]), "merge_bams_" + s, ["bams"], [], [Output("mergedbam", Static(TmpDir + "/" + s + ".bam"))])
  }

  function MarkDupesProc(i: nat): Proc<Kind>
    requires i < |SampleTypes|
  {
    Proc(Node(MarkDupes, [i]), "mark_dupes_" + SampleTypes[i], ["bam"], [], [Output("bam", Static(MarkedBam(i)))])
  }

  function RealignCreateTargetsProc(): Proc<Kind> {
    Proc(Node(RealignCreateTargets, []), "realign_create_targets", ["bamnormal", "bamtumor"], [],
         [Output("intervals", Static(TmpDir + "/tiny.intervals"))])
  }

  function RealignIndelsProc(): Proc<Kind> {
    Proc(Node(RealignIndels, []), "realign_indels", ["bamnormal", "bamtumor", "intervals"], [],
         [Output("realbamnormal", Replace("bamnormal", ".bam", ".real.bam")),
          Output("realbamtumor", Replace("bamtumor", ".bam", ".real.bam"))])
  }

  function RecalibrateProc(i: nat): Proc<Kind>
    requires i < |SampleTypes|
  {
    var s := SampleTypes[i];
    Proc(Node(Recalibrate, [i]), "recalibrate_" + s, ["realbam"], [], [Output("recaltable", Static(TmpDir + "/" + s + ".recal.table"))])
  }

  function PrintReadsProc(i: nat): Proc<Kind>
    requires i < |SampleTypes|
  {
    var s := SampleTypes[i];
    Proc(Node(PrintReads, [i]), "print_reads_" + s, ["realbam", "recaltable"], [], [Output("recalbam", Static(s + ".recal.bam"))])
  }

  function Edge(from: Node<Kind>, out: string, to: Node<Kind>, in_: string): Conn<Kind> {
    Conn(FromPort(from, out), to, Data(in_))
  }

  // ---------------------------------------------------------------------
  // The graph the code builds, stretch by stretch
  // ---------------------------------------------------------------------

  /** The download part: fetch, unzip and unpack the tools. */
  function DownloadPart(g: Graph<Kind>): Graph<Kind> {
    var download, unzip, untar := Node(DownloadApps, []), Node(UnzipApps, []), Node(UntarApps, []);
    g.WithProc(DownloadAppsProc())
     .WithProc(UnzipAppsProc())
     .WithConn(Edge(download, "apps", unzip, "targz"))
     .WithProc(UntarAppsProc())
     .WithConn(Edge(unzip, "tar", untar, "tar"))
  }

  /** The start of an iteration of the first sample loop: the generators
      of the lanes `idxs` of sample type i and of their two read files. */
  function SourcesPart(g: Graph<Kind>, i: nat, idxs: seq<string>): Graph<Kind>
    requires i < |SampleTypes|
  {
    g.WithProc(IndexSourceProc(i, idxs))
     .WithProc(ReadsFastqProc(i, "1", idxs))
     .WithProc(ReadsFastqProc(i, "2", idxs))
  }

  /** The rest of the iteration: alignment, merging and duplicate marking
      of sample type i. */
  function AlignPart(g: Graph<Kind>, i: nat): Graph<Kind>
    requires i < |SampleTypes|
  {
    var at := [i];
    var index, reads1, reads2, align := Node(IndexSource, at), Node(ReadsFastq1, at), Node(ReadsFastq2, at), Node(AlignSamples, at);
    var substream, merge, markDupes := Node(BamSubstream, at), Node(MergeBams, at), Node(MarkDupes, at);
    g.WithProc(AlignSamplesProc(i))
     .WithConn(Edge(reads1, "out", align, "reads1"))
     .WithConn(Edge(reads2, "out", align, "reads2"))
     .WithConn(Edge(Node(UntarApps, []), "outdir", align, "appsdir"))
     .WithConn(Conn(FromPort(index, "out"), align, Param("index")))
     .WithProc(BamSubstreamProc(i))
     .WithConn(Edge(align, "bam", substream, "in"))
     .WithProc(MergeBamsProc(i))
     .WithConn(Edge(substream, "substream", merge, "bams"))
     .WithProc(MarkDupesProc(i))
     .WithConn(Edge(merge, "mergedbam", markDupes, "bam"))
  }

  /** One iteration of the first sample loop. */
  function SamplePart(g: Graph<Kind>, i: nat): Graph<Kind>
    requires i < |SampleTypes|
  {
    AlignPart(SourcesPart(g, i, Lookup(Indexes, SampleTypes[i])), i)
  }

  /** The first m iterations of the first sample loop. */
  function SampleLoop(g: Graph<Kind>, m: nat): Graph<Kind>
    requires m <= |SampleTypes|
  {
    if m == 0 then g else SamplePart(SampleLoop(g, m - 1), m - 1)
  }

  /** The joint realignment of both duplicate-marked samples. */
  function RealignPart(g: Graph<Kind>): Graph<Kind> {
    var targets, indels := Node(RealignCreateTargets, []), Node(RealignIndels, []);
    var normal, tumor := Node(MarkDupes, [0]), Node(MarkDupes, [1]);
    g.WithProc(RealignCreateTargetsProc())
     .WithConn(Edge(normal, "bam", targets, "bamnormal"))
     .WithConn(Edge(tumor, "bam", targets, "bamtumor"))
     .WithProc(RealignIndelsProc())
     .WithConn(Edge(targets, "intervals", indels, "intervals"))
     .WithConn(Edge(normal, "bam", indels, "bamnormal"))
     .WithConn(Edge(tumor, "bam", indels, "bamtumor"))
  }

  /** One iteration of the second sample loop: recalibration and printing
      of sample type i. */
  function RecalPart(g: Graph<Kind>, i: nat): Graph<Kind>
    requires i < |SampleTypes|
  {
    var s := SampleTypes[i];
    var recal, printReads := Node(Recalibrate, [i]), Node(PrintReads, [i]);
    g.WithProc(RecalibrateProc(i))
     .WithConn(Edge(Node(RealignIndels, []), "realbam" + s, recal, "realbam"))
     .WithProc(PrintReadsProc(i))
     .WithConn(Edge(Node(RealignIndels, []), "realbam" + s, printReads, "realbam"))
     .WithConn(Edge(recal, "recaltable", printReads, "recaltable"))
  }

  /** The first m iterations of the second sample loop. */
  function RecalLoop(g: Graph<Kind>, m: nat): Graph<Kind>
    requires m <= |SampleTypes|
  {
    if m == 0 then g else RecalPart(RecalLoop(g, m - 1), m - 1)
  }

  /** The whole preprocessing workflow. */
  function Preprocessing(): Graph<Kind> {
    RecalLoop(RealignPart(SampleLoop(DownloadPart(Empty()), |SampleTypes|)), |SampleTypes|)
  }

  // ---------------------------------------------------------------------
  // The construction
  // ---------------------------------------------------------------------

  /** The generator objects of the sample type at loop position i, for
      lanes `idxs`: fresh, not yet run, and holding the lanes and the fastq
      files of those lanes. */
  ghost predicate NewSources(i: nat, idxs: seq<string>, index: ParamSource, reads1: IPSource, reads2: IPSource)
    requires i < |SampleTypes|
    reads index, reads1, reads2, index.out, reads1.out, reads2.out
  {
    var s := SampleTypes[i];
    && index.name == IndexSourceProc(i, idxs).name && index.params == idxs
    && reads1.name == ReadsFastqProc(i, "1", idxs).name && reads1.filePaths == FastqList(s, idxs, "1")
    && reads2.name == ReadsFastqProc(i, "2", idxs).name && reads2.filePaths == FastqList(s, idxs, "2")
    && index.out.Valid() && index.out.log == []
    && reads1.out.Valid() && reads1.out.log == []
    && reads2.out.Valid() && reads2.out.log == []
  }

  /** The main function up to running the workflow: registers every
      process and connection in code order. Each stretch of the function
      is a method of its own below. */
  method NewPreprocessing() returns (wf: Workflow<Kind>)
    ensures fresh(wf) && wf.name == "caw-preprocessing" && wf.maxTasks == 4
    ensures wf.Snapshot() == Preprocessing()
  {
    wf := new Workflow("caw-preprocessing", 4);
    AddDownload(wf);
    var markDuplicatesProcs := AddSamples(wf);
    MarkedByTypeEntries();
    AddRealignment(wf, markDuplicatesProcs);
    AddRecalibrations(wf);
  }

  /** The first sample loop, with the maps it fills: the fastq lists, the
      BAM collectors and the duplicate markers by sample type. */
  method AddSamples(wf: Workflow<Kind>) returns (markDuplicatesProcs: map<string, Node<Kind>>)
    modifies wf
    ensures wf.Snapshot() == SampleLoop(old(wf.Snapshot()), |SampleTypes|)
    ensures markDuplicatesProcs == MarkedByType(|SampleTypes|)
  {
    var fastqPaths1: map<string, seq<string>> := map[];
    var fastqPaths2: map<string, seq<string>> := map[];
    var indexes := Indexes;
    markDuplicatesProcs := map[];
    var streamToSubstream: map<string, Node<Kind>> := map[];

    var sampleTypes := ["normal", "tumor"];
    ghost var head := wf.Snapshot();
    for i := 0 to |sampleTypes|
      invariant wf.Snapshot() == SampleLoop(head, i)
      invariant forall s :: s in fastqPaths1 ==> s in sampleTypes[..i]
      invariant forall s :: s in fastqPaths2 ==> s in sampleTypes[..i]
      invariant markDuplicatesProcs == MarkedByType(i)
    {
      var sampleType := sampleTypes[i];
      var markDuplicates;
      fastqPaths1, fastqPaths2, streamToSubstream, markDuplicates :=
        AddSample(wf, i, sampleType, indexes, fastqPaths1, fastqPaths2, streamToSubstream);
      markDuplicatesProcs := markDuplicatesProcs[sampleType := markDuplicates];
    }
  }

  /** The duplicate markers of the first m sample types, by sample type. */
  function MarkedByType(m: nat): map<string, Node<Kind>>
    requires m <= |SampleTypes|
  {
    if m == 0 then map[] else MarkedByType(m - 1)[SampleTypes[m - 1] := Node(MarkDupes, [m - 1])]
  }

  /** After the first sample loop, each sample type names its own
      duplicate marker. */
  lemma MarkedByTypeEntries()
    ensures "normal" in MarkedByType(2) && MarkedByType(2)["normal"] == Node(MarkDupes, [0])
    ensures "tumor" in MarkedByType(2) && MarkedByType(2)["tumor"] == Node(MarkDupes, [1])
  {
    assert MarkedByType(1) == map["normal" := Node(MarkDupes, [0])];
  }

  /** One pass of the first sample loop: the sources, then the alignment
      chain of one sample type. */
  method AddSample(wf: Workflow<Kind>, i: nat, sampleType: string, indexes: map<string, seq<string>>,
                   fastqPaths1: map<string, seq<string>>, fastqPaths2: map<string, seq<string>>,
                   streamToSubstream: map<string, Node<Kind>>)
    returns (paths1: map<string, seq<string>>, paths2: map<string, seq<string>>,
             substreams: map<string, Node<Kind>>, markDuplicates: Node<Kind>)
    requires i < |SampleTypes| && sampleType == SampleTypes[i]
    requires sampleType !in fastqPaths1 && sampleType !in fastqPaths2
    requires indexes == Indexes
    modifies wf
    ensures wf.Snapshot() == SamplePart(old(wf.Snapshot()), i)
    ensures paths1 == Appended(fastqPaths1, sampleType, FastqList(sampleType, Lookup(indexes, sampleType), "1"))
    ensures paths2 == Appended(fastqPaths2, sampleType, FastqList(sampleType, Lookup(indexes, sampleType), "2"))
    ensures substreams == streamToSubstream[sampleType := Node(BamSubstream, [i])]
    ensures markDuplicates == Node(MarkDupes, [i])
  {
    var indexSource, readsFastQ1, readsFastQ2;
    paths1, paths2, indexSource, readsFastQ1, readsFastQ2 :=
      AddSources(wf, i, sampleType, indexes, fastqPaths1, fastqPaths2);
    substreams, markDuplicates := AddAlignment(wf, i, sampleType, streamToSubstream);
  }

  /** The second sample loop. */
  method AddRecalibrations(wf: Workflow<Kind>)
    modifies wf
    ensures wf.Snapshot() == RecalLoop(old(wf.Snapshot()), |SampleTypes|)
  {
    var realignIndels := Node(RealignIndels, []);
    var sampleTypes := ["normal", "tumor"];
    ghost var head := wf.Snapshot();
    for i := 0 to |sampleTypes|
      invariant wf.Snapshot() == RecalLoop(head, i)
    {
      AddRecalibration(wf, i, sampleTypes[i], realignIndels);
    }
  }

  /** The data download part of the main function. */
  method AddDownload(wf: Workflow<Kind>)
    modifies wf
    ensures wf.Snapshot() == DownloadPart(old(wf.Snapshot()))
  {
    var downloadApps := Node(DownloadApps, []);
    wf.AddProc(DownloadAppsProc());
    var unzipApps := Node(UnzipApps, []);
    wf.AddProc(UnzipAppsProc());
    wf.Connect(FromPort(downloadApps, "apps"), unzipApps, Data("targz"));
    var unTarApps := Node(UntarApps, []);
    wf.AddProc(UntarAppsProc());
    wf.Connect(FromPort(unzipApps, "tar"), unTarApps, Data("tar"));
  }

  /** The first part of the first sample loop's body: the lane index
      generator, the fastq lists of the sample type and the two read file
      generators. */
  method AddSources(wf: Workflow<Kind>, i: nat, sampleType: string, indexes: map<string, seq<string>>,
                    fastqPaths1: map<string, seq<string>>, fastqPaths2: map<string, seq<string>>)
    returns (paths1: map<string, seq<string>>, paths2: map<string, seq<string>>,
             indexSource: ParamSource, readsFastQ1: IPSource, readsFastQ2: IPSource)
    requires i < |SampleTypes| && sampleType == SampleTypes[i]
    requires sampleType !in fastqPaths1 && sampleType !in fastqPaths2
    modifies wf
    ensures wf.Snapshot() == SourcesPart(old(wf.Snapshot()), i, Lookup(indexes, sampleType))
    ensures paths1 == Appended(fastqPaths1, sampleType, FastqList(sampleType, Lookup(indexes, sampleType), "1"))
    ensures paths2 == Appended(fastqPaths2, sampleType, FastqList(sampleType, Lookup(indexes, sampleType), "2"))
    ensures fresh(indexSource) && fresh(indexSource.out) && fresh(readsFastQ1) && fresh(readsFastQ1.out)
    ensures fresh(readsFastQ2) && fresh(readsFastQ2.out)
    ensures NewSources(i, Lookup(indexes, sampleType), indexSource, readsFastQ1, readsFastQ2)
  {
    indexSource := new ParamSource("index_src_" + sampleType, Lookup(indexes, sampleType));
    wf.AddProc(IndexSourceProc(i, Lookup(indexes, sampleType)));

    paths1, paths2 := AppendFastqPaths(fastqPaths1, fastqPaths2, sampleType, Lookup(indexes, sampleType));

    assert Lookup(paths1, sampleType) == [] + FastqList(sampleType, Lookup(indexes, sampleType), "1");
    assert Lookup(paths2, sampleType) == [] + FastqList(sampleType, Lookup(indexes, sampleType), "2");
    readsFastQ1 := new IPSource("reads_fastq1_" + sampleType, Lookup(paths1, sampleType));
    wf.AddProc(ReadsFastqProc(i, "1", Lookup(indexes, sampleType)));
    readsFastQ2 := new IPSource("reads_fastq2_" + sampleType, Lookup(paths2, sampleType));
    wf.AddProc(ReadsFastqProc(i, "2", Lookup(indexes, sampleType)));
  }

  /** The second part of the first sample loop's body: alignment, the BAM
      collector (recorded in the caller's map), merging and duplicate
      marking. */
  method AddAlignment(wf: Workflow<Kind>, i: nat, sampleType: string, streamToSubstream: map<string, Node<Kind>>)
    returns (substreams: map<string, Node<Kind>>, markDuplicates: Node<Kind>)
    requires i < |SampleTypes| && sampleType == SampleTypes[i]
    modifies wf
    ensures wf.Snapshot() == AlignPart(old(wf.Snapshot()), i)
    ensures substreams == streamToSubstream[sampleType := Node(BamSubstream, [i])]
    ensures markDuplicates == Node(MarkDupes, [i])
  {
    var at := [i];
    var alignSamples := Node(AlignSamples, at);
    wf.AddProc(AlignSamplesProc(i));
    wf.Connect(FromPort(Node(ReadsFastq1, at), "out"), alignSamples, Data("reads1"));
    wf.Connect(FromPort(Node(ReadsFastq2, at), "out"), alignSamples, Data("reads2"));
    wf.Connect(FromPort(Node(UntarApps, []), "outdir"), alignSamples, Data("appsdir"));
    wf.Connect(FromPort(Node(IndexSource, at), "out"), alignSamples, Param("index"));

    substreams := streamToSubstream[sampleType := Node(BamSubstream, at)];
    wf.AddProc(BamSubstreamProc(i));
    wf.Connect(FromPort(alignSamples, "bam"), substreams[sampleType], Data("in"));

    var mergeBams := Node(MergeBams, at);
    wf.AddProc(MergeBamsProc(i));
    wf.Connect(FromPort(substreams[sampleType], "substream"), mergeBams, Data("bams"));

    markDuplicates := Node(MarkDupes, at);
    wf.AddProc(MarkDupesProc(i));
    wf.Connect(FromPort(mergeBams, "mergedbam"), markDuplicates, Data("bam"));
  }

  /** The joint realignment, reading the duplicate markers from the map
      the first sample loop filled. */
  method AddRealignment(wf: Workflow<Kind>, markDuplicatesProcs: map<string, Node<Kind>>)
    requires "normal" in markDuplicatesProcs && markDuplicatesProcs["normal"] == Node(MarkDupes, [0])
    requires "tumor" in markDuplicatesProcs && markDuplicatesProcs["tumor"] == Node(MarkDupes, [1])
    modifies wf
    ensures wf.Snapshot() == RealignPart(old(wf.Snapshot()))
  {
    var realignCreateTargets := Node(RealignCreateTargets, []);
    wf.AddProc(RealignCreateTargetsProc());
    wf.Connect(FromPort(markDuplicatesProcs["normal"], "bam"), realignCreateTargets, Data("bamnormal"));
    wf.Connect(FromPort(markDuplicatesProcs["tumor"], "bam"), realignCreateTargets, Data("bamtumor"));

    var realignIndels := Node(RealignIndels, []);
    wf.AddProc(RealignIndelsProc());
    wf.Connect(FromPort(realignCreateTargets, "intervals"), realignIndels, Data("intervals"));
    wf.Connect(FromPort(markDuplicatesProcs["normal"], "bam"), realignIndels, Data("bamnormal"));
    wf.Connect(FromPort(markDuplicatesProcs["tumor"], "bam"), realignIndels, Data("bamtumor"));
  }

  /** The body of the second sample loop. */
  method AddRecalibration(wf: Workflow<Kind>, i: nat, sampleType: string, realignIndels: Node<Kind>)
    requires i < |SampleTypes| && sampleType == SampleTypes[i] && realignIndels == Node(RealignIndels, [])
    modifies wf
    ensures wf.Snapshot() == RecalPart(old(wf.Snapshot()), i)
  {
    var reCalibrate := Node(Recalibrate, [i]);
    wf.AddProc(RecalibrateProc(i));
    wf.Connect(FromPort(realignIndels, "realbam" + sampleType), reCalibrate, Data("realbam"));

    var printReads := Node(PrintReads, [i]);
    wf.AddProc(PrintReadsProc(i));
    wf.Connect(FromPort(realignIndels, "realbam" + sampleType), printReads, Data("realbam"));
    wf.Connect(FromPort(reCalibrate, "recaltable"), printReads, Data("recaltable"));
  }
}
