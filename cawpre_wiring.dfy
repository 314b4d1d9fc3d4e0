/** What the preprocessing workflow (cawpre/cawpre.go) is wired like, seen
    from each process: the connections into every process, stated per
    process kind from the process's loop position, and proved equal to what
    the construction order produces. */
module CawpreWiring {
  import opened FlowGraph
  import opened Cawpre

  /** The stretch of the main function that creates a process kind. */
  datatype Stretch = DownloadStretch | SampleStretch | RealignStretch | RecalStretch

  function StretchOf(k: Kind): Stretch {
    match k
    case DownloadApps | UnzipApps | UntarApps => DownloadStretch
    case IndexSource | ReadsFastq1 | ReadsFastq2 | AlignSamples | BamSubstream | MergeBams | MarkDupes => SampleStretch
    case RealignCreateTargets | RealignIndels => RealignStretch
    case Recalibrate | PrintReads => RecalStretch
  }

  /** The connections into process n, in the order the main function makes
      them: the reference wiring of every kind, from the process's own loop
      position. */
  function Inputs(n: Node<Kind>): seq<Conn<Kind>>
    requires Placed(n)
  {
    var at := n.at;
    var normal, tumor := Node(MarkDupes, [0]), Node(MarkDupes, [1]);
    match n.kind
    case DownloadApps => []
    case UnzipApps => [Edge(Node(DownloadApps, []), "apps", n, "targz")]
    case UntarApps => [Edge(Node(UnzipApps, []), "tar", n, "tar")]
    case IndexSource => []
    case ReadsFastq1 => []
    case ReadsFastq2 => []
    case AlignSamples =>
      [Edge(Node(ReadsFastq1, at), "out", n, "reads1"), Edge(Node(ReadsFastq2, at), "out", n, "reads2"),
       Edge(Node(UntarApps, []), "outdir", n, "appsdir"), Conn(FromPort(Node(IndexSource, at), "out"), n, Param("index"))]
    case BamSubstream => [Edge(Node(AlignSamples, at), "bam", n, "in")]
    case MergeBams => [Edge(Node(BamSubstream, at), "substream", n, "bams")]
    case MarkDupes => [Edge(Node(MergeBams, at), "mergedbam", n, "bam")]
    case RealignCreateTargets => [Edge(normal, "bam", n, "bamnormal"), Edge(tumor, "bam", n, "bamtumor")]
    case RealignIndels =>
      [Edge(Node(RealignCreateTargets, []), "intervals", n, "intervals"),
       Edge(normal, "bam", n, "bamnormal"), Edge(tumor, "bam", n, "bamtumor")]
    case Recalibrate => [Edge(Node(RealignIndels, []), "realbam" + SampleTypes[at[0]], n, "realbam")]
    case PrintReads =>
      [Edge(Node(RealignIndels, []), "realbam" + SampleTypes[at[0]], n, "realbam"),
       Edge(Node(Recalibrate, at), "recaltable", n, "recaltable")]
  }

  // ---------------------------------------------------------------------
  // Each stretch of straight-line code adds the inputs of its own processes
  // ---------------------------------------------------------------------

  /** The connections the download stretch makes, in code order. */
  function DownloadConns(): seq<Conn<Kind>>
  {
    var download := Node(DownloadApps, []);
    var unzip := Node(UnzipApps, []);
    var untar := Node(UntarApps, []);
    [Edge(download, "apps", unzip, "targz"),
     Edge(unzip, "tar", untar, "tar")]
  }

  /** The download stretch connects nothing into the processes it does not create. */
  lemma DownloadConnsOther(s: seq<Conn<Kind>>, n: Node<Kind>)
    requires n != Node(UnzipApps, []) && n != Node(UntarApps, [])
    ensures Into(s + DownloadConns(), n) == Into(s, n)
  {
    var download := Node(DownloadApps, []);
    var unzip := Node(UnzipApps, []);
    var untar := Node(UntarApps, []);
    var s1 := s + [Edge(download, "apps", unzip, "targz")];
    assert s + DownloadConns() == s1 + [Edge(unzip, "tar", untar, "tar")];
    IntoSkip(s, Edge(download, "apps", unzip, "targz"), n);
    IntoSkip(s1, Edge(unzip, "tar", untar, "tar"), n);
  }

  lemma DownloadConnsIntoUnzipApps(s: seq<Conn<Kind>>)
    ensures var n := Node(UnzipApps, []); Into(s + DownloadConns(), n) == Into(s, n) + Inputs(n)
  {
    var download := Node(DownloadApps, []);
    var unzip := Node(UnzipApps, []);
    var untar := Node(UntarApps, []);
    var s1 := s + [Edge(download, "apps", unzip, "targz")];
    assert s + DownloadConns() == s1 + [Edge(unzip, "tar", untar, "tar")];
    IntoTake(s, Edge(download, "apps", unzip, "targz"));
    IntoSkip(s1, Edge(unzip, "tar", untar, "tar"), unzip);
  }

  lemma DownloadConnsIntoUntarApps(s: seq<Conn<Kind>>)
    ensures var n := Node(UntarApps, []); Into(s + DownloadConns(), n) == Into(s, n) + Inputs(n)
  {
    var download := Node(DownloadApps, []);
    var unzip := Node(UnzipApps, []);
    var untar := Node(UntarApps, []);
    var s1 := s + [Edge(download, "apps", unzip, "targz")];
    assert s + DownloadConns() == s1 + [Edge(unzip, "tar", untar, "tar")];
    IntoSkip(s, Edge(download, "apps", unzip, "targz"), untar);
    IntoTake(s1, Edge(unzip, "tar", untar, "tar"));
  }

  /** The connections the align stretch makes, in code order. */
  function AlignConns(i: nat): seq<Conn<Kind>>
    requires i < |SampleTypes|
  {
    var index := Node(IndexSource, [i]);
    var reads1 := Node(ReadsFastq1, [i]);
    var reads2 := Node(ReadsFastq2, [i]);
    var align := Node(AlignSamples, [i]);
    var substream := Node(BamSubstream, [i]);
    var merge := Node(MergeBams, [i]);
    var markDupes := Node(MarkDupes, [i]);
    [Edge(reads1, "out", align, "reads1"),
     Edge(reads2, "out", align, "reads2"),
     Edge(Node(UntarApps, []), "outdir", align, "appsdir"),
     Conn(FromPort(index, "out"), align, Param("index")),
     Edge(align, "bam", substream, "in"),
     Edge(substream, "substream", merge, "bams"),
     Edge(merge, "mergedbam", markDupes, "bam")]
  }

  /** The align stretch connects nothing into the processes it does not create. */
  lemma AlignConnsOther(s: seq<Conn<Kind>>, i: nat, n: Node<Kind>)
    requires i < |SampleTypes|
    requires n != Node(AlignSamples, [i]) && n != Node(BamSubstream, [i]) && n != Node(MergeBams, [i]) && n != Node(MarkDupes, [i])
    ensures Into(s + AlignConns(i), n) == Into(s, n)
  {
    var index := Node(IndexSource, [i]);
    var reads1 := Node(ReadsFastq1, [i]);
    var reads2 := Node(ReadsFastq2, [i]);
    var align := Node(AlignSamples, [i]);
    var substream := Node(BamSubstream, [i]);
    var merge := Node(MergeBams, [i]);
    var markDupes := Node(MarkDupes, [i]);
    var s1 := s + [Edge(reads1, "out", align, "reads1")];
    var s2 := s1 + [Edge(reads2, "out", align, "reads2")];
    var s3 := s2 + [Edge(Node(UntarApps, []), "outdir", align, "appsdir")];
    var s4 := s3 + [Conn(FromPort(index, "out"), align, Param("index"))];
    var s5 := s4 + [Edge(align, "bam", substream, "in")];
    var s6 := s5 + [Edge(substream, "substream", merge, "bams")];
    assert s + AlignConns(i) == s6 + [Edge(merge, "mergedbam", markDupes, "bam")];
    IntoSkip(s, Edge(reads1, "out", align, "reads1"), n);
    IntoSkip(s1, Edge(reads2, "out", align, "reads2"), n);
    IntoSkip(s2, Edge(Node(UntarApps, []), "outdir", align, "appsdir"), n);
    IntoSkip(s3, Conn(FromPort(index, "out"), align, Param("index")), n);
    IntoSkip(s4, Edge(align, "bam", substream, "in"), n);
    IntoSkip(s5, Edge(substream, "substream", merge, "bams"), n);
    IntoSkip(s6, Edge(merge, "mergedbam", markDupes, "bam"), n);
  }

  lemma AlignConnsIntoAlignSamples(s: seq<Conn<Kind>>, i: nat)
    requires i < |SampleTypes|
    ensures var n := Node(AlignSamples, [i]); Into(s + AlignConns(i), n) == Into(s, n) + Inputs(n)
  {
    var index := Node(IndexSource, [i]);
    var reads1 := Node(ReadsFastq1, [i]);
    var reads2 := Node(ReadsFastq2, [i]);
    var align := Node(AlignSamples, [i]);
    var substream := Node(BamSubstream, [i]);
    var merge := Node(MergeBams, [i]);
    var markDupes := Node(MarkDupes, [i]);
    var s1 := s + [Edge(reads1, "out", align, "reads1")];
    var s2 := s1 + [Edge(reads2, "out", align, "reads2")];
    var s3 := s2 + [Edge(Node(UntarApps, []), "outdir", align, "appsdir")];
    var s4 := s3 + [Conn(FromPort(index, "out"), align, Param("index"))];
    var s5 := s4 + [Edge(align, "bam", substream, "in")];
    var s6 := s5 + [Edge(substream, "substream", merge, "bams")];
    assert s + AlignConns(i) == s6 + [Edge(merge, "mergedbam", markDupes, "bam")];
    IntoTake(s, Edge(reads1, "out", align, "reads1"));
    IntoTake(s1, Edge(reads2, "out", align, "reads2"));
    IntoTake(s2, Edge(Node(UntarApps, []), "outdir", align, "appsdir"));
    IntoTake(s3, Conn(FromPort(index, "out"), align, Param("index")));
    IntoSkip(s4, Edge(align, "bam", substream, "in"), align);
    IntoSkip(s5, Edge(substream, "substream", merge, "bams"), align);
    IntoSkip(s6, Edge(merge, "mergedbam", markDupes, "bam"), align);
    AppendFour(Into(s, align), Edge(reads1, "out", align, "reads1"), Edge(reads2, "out", align, "reads2"), Edge(Node(UntarApps, []), "outdir", align, "appsdir"), Conn(FromPort(index, "out"), align, Param("index")));
  }

  lemma AlignConnsIntoBamSubstream(s: seq<Conn<Kind>>, i: nat)
    requires i < |SampleTypes|
    ensures var n := Node(BamSubstream, [i]); Into(s + AlignConns(i), n) == Into(s, n) + Inputs(n)
  {
    var index := Node(IndexSource, [i]);
    var reads1 := Node(ReadsFastq1, [i]);
    var reads2 := Node(ReadsFastq2, [i]);
    var align := Node(AlignSamples, [i]);
    var substream := Node(BamSubstream, [i]);
    var merge := Node(MergeBams, [i]);
    var markDupes := Node(MarkDupes, [i]);
    var s1 := s + [Edge(reads1, "out", align, "reads1")];
    var s2 := s1 + [Edge(reads2, "out", align, "reads2")];
    var s3 := s2 + [Edge(Node(UntarApps, []), "outdir", align, "appsdir")];
    var s4 := s3 + [Conn(FromPort(index, "out"), align, Param("index"))];
    var s5 := s4 + [Edge(align, "bam", substream, "in")];
    var s6 := s5 + [Edge(substream, "substream", merge, "bams")];
    assert s + AlignConns(i) == s6 + [Edge(merge, "mergedbam", markDupes, "bam")];
    IntoSkip(s, Edge(reads1, "out", align, "reads1"), substream);
    IntoSkip(s1, Edge(reads2, "out", align, "reads2"), substream);
    IntoSkip(s2, Edge(Node(UntarApps, []), "outdir", align, "appsdir"), substream);
    IntoSkip(s3, Conn(FromPort(index, "out"), align, Param("index")), substream);
    IntoTake(s4, Edge(align, "bam", substream, "in"));
    IntoSkip(s5, Edge(substream, "substream", merge, "bams"), substream);
    IntoSkip(s6, Edge(merge, "mergedbam", markDupes, "bam"), substream);
  }

  lemma AlignConnsIntoMergeBams(s: seq<Conn<Kind>>, i: nat)
    requires i < |SampleTypes|
    ensures var n := Node(MergeBams, [i]); Into(s + AlignConns(i), n) == Into(s, n) + Inputs(n)
  {
    var index := Node(IndexSource, [i]);
    var reads1 := Node(ReadsFastq1, [i]);
    var reads2 := Node(ReadsFastq2, [i]);
    var align := Node(AlignSamples, [i]);
    var substream := Node(BamSubstream, [i]);
    var merge := Node(MergeBams, [i]);
    var markDupes := Node(MarkDupes, [i]);
    var s1 := s + [Edge(reads1, "out", align, "reads1")];
    var s2 := s1 + [Edge(reads2, "out", align, "reads2")];
    var s3 := s2 + [Edge(Node(UntarApps, []), "outdir", align, "appsdir")];
    var s4 := s3 + [Conn(FromPort(index, "out"), align, Param("index"))];
    var s5 := s4 + [Edge(align, "bam", substream, "in")];
    var s6 := s5 + [Edge(substream, "substream", merge, "bams")];
    assert s + AlignConns(i) == s6 + [Edge(merge, "mergedbam", markDupes, "bam")];
    IntoSkip(s, Edge(reads1, "out", align, "reads1"), merge);
    IntoSkip(s1, Edge(reads2, "out", align, "reads2"), merge);
    IntoSkip(s2, Edge(Node(UntarApps, []), "outdir", align, "appsdir"), merge);
    IntoSkip(s3, Conn(FromPort(index, "out"), align, Param("index")), merge);
    IntoSkip(s4, Edge(align, "bam", substream, "in"), merge);
    IntoTake(s5, Edge(substream, "substream", merge, "bams"));
    IntoSkip(s6, Edge(merge, "mergedbam", markDupes, "bam"), merge);
  }

  lemma AlignConnsIntoMarkDupes(s: seq<Conn<Kind>>, i: nat)
    requires i < |SampleTypes|
    ensures var n := Node(MarkDupes, [i]); Into(s + AlignConns(i), n) == Into(s, n) + Inputs(n)
  {
    var index := Node(IndexSource, [i]);
    var reads1 := Node(ReadsFastq1, [i]);
    var reads2 := Node(ReadsFastq2, [i]);
    var align := Node(AlignSamples, [i]);
    var substream := Node(BamSubstream, [i]);
    var merge := Node(MergeBams, [i]);
    var markDupes := Node(MarkDupes, [i]);
    var s1 := s + [Edge(reads1, "out", align, "reads1")];
    var s2 := s1 + [Edge(reads2, "out", align, "reads2")];
    var s3 := s2 + [Edge(Node(UntarApps, []), "outdir", align, "appsdir")];
    var s4 := s3 + [Conn(FromPort(index, "out"), align, Param("index"))];
    var s5 := s4 + [Edge(align, "bam", substream, "in")];
    var s6 := s5 + [Edge(substream, "substream", merge, "bams")];
    assert s + AlignConns(i) == s6 + [Edge(merge, "mergedbam", markDupes, "bam")];
    IntoSkip(s, Edge(reads1, "out", align, "reads1"), markDupes);
    IntoSkip(s1, Edge(reads2, "out", align, "reads2"), markDupes);
    IntoSkip(s2, Edge(Node(UntarApps, []), "outdir", align, "appsdir"), markDupes);
    IntoSkip(s3, Conn(FromPort(index, "out"), align, Param("index")), markDupes);
    IntoSkip(s4, Edge(align, "bam", substream, "in"), markDupes);
    IntoSkip(s5, Edge(substream, "substream", merge, "bams"), markDupes);
    IntoTake(s6, Edge(merge, "mergedbam", markDupes, "bam"));
  }

  /** The connections the realign stretch makes, in code order. */
  function RealignConns(): seq<Conn<Kind>>
  {
    var targets := Node(RealignCreateTargets, []);
    var indels := Node(RealignIndels, []);
    var normal := Node(MarkDupes, [0]);
    var tumor := Node(MarkDupes, [1]);
    [Edge(normal, "bam", targets, "bamnormal"),
     Edge(tumor, "bam", targets, "bamtumor"),
     Edge(targets, "intervals", indels, "intervals"),
     Edge(normal, "bam", indels, "bamnormal"),
     Edge(tumor, "bam", indels, "bamtumor")]
  }

  /** The realign stretch connects nothing into the processes it does not create. */
  lemma RealignConnsOther(s: seq<Conn<Kind>>, n: Node<Kind>)
    requires n != Node(RealignCreateTargets, []) && n != Node(RealignIndels, [])
    ensures Into(s + RealignConns(), n) == Into(s, n)
  {
    var targets := Node(RealignCreateTargets, []);
    var indels := Node(RealignIndels, []);
    var normal := Node(MarkDupes, [0]);
    var tumor := Node(MarkDupes, [1]);
    var s1 := s + [Edge(normal, "bam", targets, "bamnormal")];
    var s2 := s1 + [Edge(tumor, "bam", targets, "bamtumor")];
    var s3 := s2 + [Edge(targets, "intervals", indels, "intervals")];
    var s4 := s3 + [Edge(normal, "bam", indels, "bamnormal")];
    assert s + RealignConns() == s4 + [Edge(tumor, "bam", indels, "bamtumor")];
    IntoSkip(s, Edge(normal, "bam", targets, "bamnormal"), n);
    IntoSkip(s1, Edge(tumor, "bam", targets, "bamtumor"), n);
    IntoSkip(s2, Edge(targets, "intervals", indels, "intervals"), n);
    IntoSkip(s3, Edge(normal, "bam", indels, "bamnormal"), n);
    IntoSkip(s4, Edge(tumor, "bam", indels, "bamtumor"), n);
  }

  lemma RealignConnsIntoRealignCreateTargets(s: seq<Conn<Kind>>)
    ensures var n := Node(RealignCreateTargets, []); Into(s + RealignConns(), n) == Into(s, n) + Inputs(n)
  {
    var targets := Node(RealignCreateTargets, []);
    var indels := Node(RealignIndels, []);
    var normal := Node(MarkDupes, [0]);
    var tumor := Node(MarkDupes, [1]);
    var s1 := s + [Edge(normal, "bam", targets, "bamnormal")];
    var s2 := s1 + [Edge(tumor, "bam", targets, "bamtumor")];
    var s3 := s2 + [Edge(targets, "intervals", indels, "intervals")];
    var s4 := s3 + [Edge(normal, "bam", indels, "bamnormal")];
    assert s + RealignConns() == s4 + [Edge(tumor, "bam", indels, "bamtumor")];
    IntoTake(s, Edge(normal, "bam", targets, "bamnormal"));
    IntoTake(s1, Edge(tumor, "bam", targets, "bamtumor"));
    IntoSkip(s2, Edge(targets, "intervals", indels, "intervals"), targets);
    IntoSkip(s3, Edge(normal, "bam", indels, "bamnormal"), targets);
    IntoSkip(s4, Edge(tumor, "bam", indels, "bamtumor"), targets);
    AppendPair(Into(s, targets), Edge(normal, "bam", targets, "bamnormal"), Edge(tumor, "bam", targets, "bamtumor"));
  }

  lemma RealignConnsIntoRealignIndels(s: seq<Conn<Kind>>)
    ensures var n := Node(RealignIndels, []); Into(s + RealignConns(), n) == Into(s, n) + Inputs(n)
  {
    var targets := Node(RealignCreateTargets, []);
    var indels := Node(RealignIndels, []);
    var normal := Node(MarkDupes, [0]);
    var tumor := Node(MarkDupes, [1]);
    var s1 := s + [Edge(normal, "bam", targets, "bamnormal")];
    var s2 := s1 + [Edge(tumor, "bam", targets, "bamtumor")];
    var s3 := s2 + [Edge(targets, "intervals", indels, "intervals")];
    var s4 := s3 + [Edge(normal, "bam", indels, "bamnormal")];
    assert s + RealignConns() == s4 + [Edge(tumor, "bam", indels, "bamtumor")];
    IntoSkip(s, Edge(normal, "bam", targets, "bamnormal"), indels);
    IntoSkip(s1, Edge(tumor, "bam", targets, "bamtumor"), indels);
    IntoTake(s2, Edge(targets, "intervals", indels, "intervals"));
    IntoTake(s3, Edge(normal, "bam", indels, "bamnormal"));
    IntoTake(s4, Edge(tumor, "bam", indels, "bamtumor"));
    AppendThree(Into(s, indels), Edge(targets, "intervals", indels, "intervals"), Edge(normal, "bam", indels, "bamnormal"), Edge(tumor, "bam", indels, "bamtumor"));
  }

  /** The connections the recal stretch makes, in code order. */
  function RecalConns(i: nat): seq<Conn<Kind>>
    requires i < |SampleTypes|
  {
    var sample := SampleTypes[i];
    var recal := Node(Recalibrate, [i]);
    var printReads := Node(PrintReads, [i]);
    [Edge(Node(RealignIndels, []), "realbam" + sample, recal, "realbam"),
     Edge(Node(RealignIndels, []), "realbam" + sample, printReads, "realbam"),
     Edge(recal, "recaltable", printReads, "recaltable")]
  }

  /** The recal stretch connects nothing into the processes it does not create. */
  lemma RecalConnsOther(s: seq<Conn<Kind>>, i: nat, n: Node<Kind>)
    requires i < |SampleTypes|
    requires n != Node(Recalibrate, [i]) && n != Node(PrintReads, [i])
    ensures Into(s + RecalConns(i), n) == Into(s, n)
  {
    var sample := SampleTypes[i];
    var recal := Node(Recalibrate, [i]);
    var printReads := Node(PrintReads, [i]);
    var s1 := s + [Edge(Node(RealignIndels, []), "realbam" + sample, recal, "realbam")];
    var s2 := s1 + [Edge(Node(RealignIndels, []), "realbam" + sample, printReads, "realbam")];
    assert s + RecalConns(i) == s2 + [Edge(recal, "recaltable", printReads, "recaltable")];
    IntoSkip(s, Edge(Node(RealignIndels, []), "realbam" + sample, recal, "realbam"), n);
    IntoSkip(s1, Edge(Node(RealignIndels, []), "realbam" + sample, printReads, "realbam"), n);
    IntoSkip(s2, Edge(recal, "recaltable", printReads, "recaltable"), n);
  }

  lemma RecalConnsIntoRecalibrate(s: seq<Conn<Kind>>, i: nat)
    requires i < |SampleTypes|
    ensures var n := Node(Recalibrate, [i]); Into(s + RecalConns(i), n) == Into(s, n) + Inputs(n)
  {
    var sample := SampleTypes[i];
    var recal := Node(Recalibrate, [i]);
    var printReads := Node(PrintReads, [i]);
    var s1 := s + [Edge(Node(RealignIndels, []), "realbam" + sample, recal, "realbam")];
    var s2 := s1 + [Edge(Node(RealignIndels, []), "realbam" + sample, printReads, "realbam")];
    assert s + RecalConns(i) == s2 + [Edge(recal, "recaltable", printReads, "recaltable")];
    IntoTake(s, Edge(Node(RealignIndels, []), "realbam" + sample, recal, "realbam"));
    IntoSkip(s1, Edge(Node(RealignIndels, []), "realbam" + sample, printReads, "realbam"), recal);
    IntoSkip(s2, Edge(recal, "recaltable", printReads, "recaltable"), recal);
  }

  lemma RecalConnsIntoPrintReads(s: seq<Conn<Kind>>, i: nat)
    requires i < |SampleTypes|
    ensures var n := Node(PrintReads, [i]); Into(s + RecalConns(i), n) == Into(s, n) + Inputs(n)
  {
    var sample := SampleTypes[i];
    var recal := Node(Recalibrate, [i]);
    var printReads := Node(PrintReads, [i]);
    var s1 := s + [Edge(Node(RealignIndels, []), "realbam" + sample, recal, "realbam")];
    var s2 := s1 + [Edge(Node(RealignIndels, []), "realbam" + sample, printReads, "realbam")];
    assert s + RecalConns(i) == s2 + [Edge(recal, "recaltable", printReads, "recaltable")];
    IntoSkip(s, Edge(Node(RealignIndels, []), "realbam" + sample, recal, "realbam"), printReads);
    IntoTake(s1, Edge(Node(RealignIndels, []), "realbam" + sample, printReads, "realbam"));
    IntoTake(s2, Edge(recal, "recaltable", printReads, "recaltable"));
    AppendPair(Into(s, printReads), Edge(Node(RealignIndels, []), "realbam" + sample, printReads, "realbam"), Edge(recal, "recaltable", printReads, "recaltable"));
  }

  // ---------------------------------------------------------------------
  // Which stretch feeds a process
  // ---------------------------------------------------------------------

  /** What the download stretch connects into any process. */
  lemma DownloadConnsInto(s: seq<Conn<Kind>>, n: Node<Kind>)
    requires Placed(n)
    ensures Into(s + DownloadConns(), n) == Into(s, n) + (if StretchOf(n.kind) == DownloadStretch then Inputs(n) else [])
  {
    assert Into(s, n) + [] == Into(s, n);
    match n.kind
    case UnzipApps => DownloadConnsIntoUnzipApps(s);
    case UntarApps => DownloadConnsIntoUntarApps(s);
    case _ => DownloadConnsOther(s, n);
  }

  /** What the alignment stretch of sample type i connects into any process. */
  lemma AlignConnsInto(s: seq<Conn<Kind>>, i: nat, n: Node<Kind>)
    requires i < |SampleTypes| && Placed(n)
    ensures Into(s + AlignConns(i), n) ==
      Into(s, n) + (if StretchOf(n.kind) == SampleStretch && n.at == [i] then Inputs(n) else [])
  {
    assert Into(s, n) + [] == Into(s, n);
    if n.at == [i] {
      match n.kind
      case AlignSamples => AlignConnsIntoAlignSamples(s, i);
      case BamSubstream => AlignConnsIntoBamSubstream(s, i);
      case MergeBams => AlignConnsIntoMergeBams(s, i);
      case MarkDupes => AlignConnsIntoMarkDupes(s, i);
      case _ => AlignConnsOther(s, i, n);
    } else {
      AlignConnsOther(s, i, n);
    }
  }

  /** What the realignment stretch connects into any process. */
  lemma RealignConnsInto(s: seq<Conn<Kind>>, n: Node<Kind>)
    requires Placed(n)
    ensures Into(s + RealignConns(), n) == Into(s, n) + (if StretchOf(n.kind) == RealignStretch then Inputs(n) else [])
  {
    assert Into(s, n) + [] == Into(s, n);
    match n.kind
    case RealignCreateTargets => RealignConnsIntoRealignCreateTargets(s);
    case RealignIndels => RealignConnsIntoRealignIndels(s);
    case _ => RealignConnsOther(s, n);
  }

  /** What the recalibration stretch of sample type i connects into any process. */
  lemma RecalConnsInto(s: seq<Conn<Kind>>, i: nat, n: Node<Kind>)
    requires i < |SampleTypes| && Placed(n)
    ensures Into(s + RecalConns(i), n) ==
      Into(s, n) + (if StretchOf(n.kind) == RecalStretch && n.at == [i] then Inputs(n) else [])
  {
    assert Into(s, n) + [] == Into(s, n);
    if n.at == [i] {
      match n.kind
      case Recalibrate => RecalConnsIntoRecalibrate(s, i);
      case PrintReads => RecalConnsIntoPrintReads(s, i);
      case _ => RecalConnsOther(s, i, n);
    } else {
      RecalConnsOther(s, i, n);
    }
  }

  // ---------------------------------------------------------------------
  // The two sample loops
  // ---------------------------------------------------------------------

  /** The connections of the first m iterations of the first sample loop,
      after those in s. */
  function SampleLoopConns(s: seq<Conn<Kind>>, m: nat): seq<Conn<Kind>>
    requires m <= |SampleTypes|
  {
    if m == 0 then s else SampleLoopConns(s, m - 1) + AlignConns(m - 1)
  }

  /** The connections of the first m iterations of the second sample loop,
      after those in s. */
  function RecalLoopConns(s: seq<Conn<Kind>>, m: nat): seq<Conn<Kind>>
    requires m <= |SampleTypes|
  {
    if m == 0 then s else RecalLoopConns(s, m - 1) + RecalConns(m - 1)
  }

  /** The first sample loop adds nothing into a process it has not created
      in its first m iterations. */
  lemma {:induction false} SampleLoopOther(s: seq<Conn<Kind>>, m: nat, n: Node<Kind>)
    requires m <= |SampleTypes| && Placed(n)
    requires !(StretchOf(n.kind) == SampleStretch && |n.at| == 1 && n.at[0] < m)
    ensures Into(SampleLoopConns(s, m), n) == Into(s, n)
    decreases m
  {
    if m > 0 {
      SampleLoopOther(s, m - 1, n);
      AlignConnsInto(SampleLoopConns(s, m - 1), m - 1, n);
    }
  }

  /** After m iterations of the first sample loop, each process that loop
      created has received all of its inputs. */
  lemma {:induction false} SampleLoopFeeds(s: seq<Conn<Kind>>, m: nat, n: Node<Kind>)
    requires m <= |SampleTypes| && Placed(n)
    requires StretchOf(n.kind) == SampleStretch && |n.at| == 1 && n.at[0] < m
    ensures Into(SampleLoopConns(s, m), n) == Into(s, n) + Inputs(n)
    decreases m
  {
    AlignConnsInto(SampleLoopConns(s, m - 1), m - 1, n);
    if n.at[0] == m - 1 {
      SampleLoopOther(s, m - 1, n);
      assert n.at == [m - 1];
    } else {
      SampleLoopFeeds(s, m - 1, n);
    }
  }

  /** The second sample loop adds nothing into a process it has not created
      in its first m iterations. */
  lemma {:induction false} RecalLoopOther(s: seq<Conn<Kind>>, m: nat, n: Node<Kind>)
    requires m <= |SampleTypes| && Placed(n)
    requires !(StretchOf(n.kind) == RecalStretch && |n.at| == 1 && n.at[0] < m)
    ensures Into(RecalLoopConns(s, m), n) == Into(s, n)
    decreases m
  {
    if m > 0 {
      RecalLoopOther(s, m - 1, n);
      RecalConnsInto(RecalLoopConns(s, m - 1), m - 1, n);
    }
  }

  /** After m iterations of the second sample loop, each process that loop
      created has received all of its inputs. */
  lemma {:induction false} RecalLoopFeeds(s: seq<Conn<Kind>>, m: nat, n: Node<Kind>)
    requires m <= |SampleTypes| && Placed(n)
    requires StretchOf(n.kind) == RecalStretch && |n.at| == 1 && n.at[0] < m
    ensures Into(RecalLoopConns(s, m), n) == Into(s, n) + Inputs(n)
    decreases m
  {
    RecalConnsInto(RecalLoopConns(s, m - 1), m - 1, n);
    if n.at[0] == m - 1 {
      RecalLoopOther(s, m - 1, n);
      assert n.at == [m - 1];
    } else {
      RecalLoopFeeds(s, m - 1, n);
    }
  }

  // ---------------------------------------------------------------------
  // The whole workflow
  // ---------------------------------------------------------------------

  /** The graph functions make the connections listed above, in that order. */
  lemma {:induction false} SampleLoopMakes(g: Graph<Kind>, m: nat)
    requires m <= |SampleTypes|
    ensures SampleLoop(g, m).conns == SampleLoopConns(g.conns, m)
    decreases m
  {
    if m > 0 {
      SampleLoopMakes(g, m - 1);
      var h := SampleLoop(g, m - 1);
      var sources := SourcesPart(h, m - 1, Lookup(Indexes, SampleTypes[m - 1]));
      assert sources.conns == h.conns;
      assert AlignPart(sources, m - 1).conns == sources.conns + AlignConns(m - 1);
    }
  }

  lemma {:induction false} RecalLoopMakes(g: Graph<Kind>, m: nat)
    requires m <= |SampleTypes|
    ensures RecalLoop(g, m).conns == RecalLoopConns(g.conns, m)
    decreases m
  {
    if m > 0 {
      RecalLoopMakes(g, m - 1);
      var h := RecalLoop(g, m - 1);
      assert RecalPart(h, m - 1).conns == h.conns + RecalConns(m - 1);
    }
  }

  lemma PreprocessingMakes()
    ensures Preprocessing().conns ==
      RecalLoopConns(SampleLoopConns([] + DownloadConns(), |SampleTypes|) + RealignConns(), |SampleTypes|)
  {
    var g1 := DownloadPart(Empty());
    assert g1.conns == [] + DownloadConns();
    SampleLoopMakes(g1, |SampleTypes|);
    var g2 := SampleLoop(g1, |SampleTypes|);
    var g3 := RealignPart(g2);
    assert g3.conns == g2.conns + RealignConns();
    RecalLoopMakes(g3, |SampleTypes|);
  }

  /** The main function connects into every process exactly its reference
      inputs, in reference order. */
  lemma PreprocessingInto(n: Node<Kind>)
    requires Placed(n)
    ensures Into(Preprocessing().conns, n) == Inputs(n)
  {
    PreprocessingMakes();
    var s0: seq<Conn<Kind>> := [];
    var s1 := s0 + DownloadConns();
    var s2 := SampleLoopConns(s1, |SampleTypes|);
    var s3 := s2 + RealignConns();
    assert Into(s0, n) == [];
    DownloadConnsInto(s0, n);
    RealignConnsInto(s2, n);
    match StretchOf(n.kind)
    case DownloadStretch =>
      SampleLoopOther(s1, |SampleTypes|, n);
      RecalLoopOther(s3, |SampleTypes|, n);
    case SampleStretch =>
      SampleLoopFeeds(s1, |SampleTypes|, n);
      RecalLoopOther(s3, |SampleTypes|, n);
    case RealignStretch =>
      SampleLoopOther(s1, |SampleTypes|, n);
      RecalLoopOther(s3, |SampleTypes|, n);
    case RecalStretch =>
      SampleLoopOther(s1, |SampleTypes|, n);
      RecalLoopFeeds(s3, |SampleTypes|, n);
  }

  // ---------------------------------------------------------------------
  // What the wiring guarantees
  // ---------------------------------------------------------------------

  /** Both realignment steps read the normal BAM from mark_dupes_normal and
      the tumor BAM from mark_dupes_tumor; realign_indels also reads the
      target intervals of realign_create_targets. */
  lemma RealignReadsMarkedSamples()
    ensures MarkDupesProc(0).name == "mark_dupes_normal" && MarkDupesProc(1).name == "mark_dupes_tumor"
    ensures
      var targets, indels := Node(RealignCreateTargets, []), Node(RealignIndels, []);
      var normal, tumor := FromPort(Node(MarkDupes, [0]), "bam"), FromPort(Node(MarkDupes, [1]), "bam");
      && Into(Preprocessing().conns, targets) == [Conn(normal, targets, Data("bamnormal")), Conn(tumor, targets, Data("bamtumor"))]
      && Into(Preprocessing().conns, indels) ==
           [Conn(FromPort(targets, "intervals"), indels, Data("intervals")),
            Conn(normal, indels, Data("bamnormal")), Conn(tumor, indels, Data("bamtumor"))]
  {
    PreprocessingInto(Node(RealignCreateTargets, []));
    PreprocessingInto(Node(RealignIndels, []));
  }

  /** recalibrate_<s> and print_reads_<s> read realign_indels' port
      realbam<s>, a port realign_indels declares; print_reads_<s> also reads
      the recalibration table of recalibrate_<s>. */
  lemma RecalibrationReadsOwnSample(i: nat)
    requires i < |SampleTypes|
    ensures
      var s := SampleTypes[i];
      && RecalibrateProc(i).name == "recalibrate_" + s && PrintReadsProc(i).name == "print_reads_" + s
      && RealignIndelsProc().outs[i].port == "realbam" + s
      && RecalibrateProc(i).outs[0].port == "recaltable"
    ensures
      var realBam := FromPort(Node(RealignIndels, []), "realbam" + SampleTypes[i]);
      var recal, printReads := Node(Recalibrate, [i]), Node(PrintReads, [i]);
      && Into(Preprocessing().conns, recal) == [Conn(realBam, recal, Data("realbam"))]
      && Into(Preprocessing().conns, printReads) ==
           [Conn(realBam, printReads, Data("realbam")), Conn(FromPort(recal, "recaltable"), printReads, Data("recaltable"))]
  {
    PreprocessingInto(Node(Recalibrate, [i]));
    PreprocessingInto(Node(PrintReads, [i]));
  }

  /** align_samples_<s> reads both read files and the lane index from the
      generators of its own iteration, whose lists are the lanes of s and
      their fastq files, and the tools from untar_apps. */
  lemma AlignReadsOwnSources(i: nat)
    requires i < |SampleTypes|
    ensures
      var s := SampleTypes[i];
      var idxs := Lookup(Indexes, s);
      && IndexSourceProc(i, idxs).outs == [Output("out", Listed(idxs))]
      && ReadsFastqProc(i, "1", idxs).outs == [Output("out", Listed(FastqList(s, idxs, "1")))]
      && ReadsFastqProc(i, "2", idxs).outs == [Output("out", Listed(FastqList(s, idxs, "2")))]
    ensures
      var align := Node(AlignSamples, [i]);
      Into(Preprocessing().conns, align) ==
        [Conn(FromPort(Node(ReadsFastq1, [i]), "out"), align, Data("reads1")),
         Conn(FromPort(Node(ReadsFastq2, [i]), "out"), align, Data("reads2")),
         Conn(FromPort(Node(UntarApps, []), "outdir"), align, Data("appsdir")),
         Conn(FromPort(Node(IndexSource, [i]), "out"), align, Param("index"))]
  {
    PreprocessingInto(Node(AlignSamples, [i]));
  }

  // ---------------------------------------------------------------------
  // No cycles
  // ---------------------------------------------------------------------

  /** The order in which the main function creates the process kinds;
      every connection goes from an earlier kind to a later one. */
  function Rank(k: Kind): int {
    match k
    case DownloadApps => 0
    case UnzipApps => 1
    case UntarApps => 2
    case IndexSource => 3
    case ReadsFastq1 => 3
    case ReadsFastq2 => 3
    case AlignSamples => 4
    case BamSubstream => 5
    case MergeBams => 6
    case MarkDupes => 7
    case RealignCreateTargets => 8
    case RealignIndels => 9
    case Recalibrate => 10
    case PrintReads => 11
  }

  lemma DownloadConnsRanked()
    ensures Ranked(DownloadConns(), Rank)
  {
    var l := DownloadConns();
    forall k | 0 <= k < |l| && l[k].src.FromPort?
      ensures Rank(l[k].src.node.kind) < Rank(l[k].dst.kind)
    {
    }
  }

  lemma AlignConnsRanked(i: nat)
    requires i < |SampleTypes|
    ensures Ranked(AlignConns(i), Rank)
  {
    var l := AlignConns(i);
    forall k | 0 <= k < |l| && l[k].src.FromPort?
      ensures Rank(l[k].src.node.kind) < Rank(l[k].dst.kind)
    {
    }
  }

  lemma RealignConnsRanked()
    ensures Ranked(RealignConns(), Rank)
  {
    var l := RealignConns();
    forall k | 0 <= k < |l| && l[k].src.FromPort?
      ensures Rank(l[k].src.node.kind) < Rank(l[k].dst.kind)
    {
    }
  }

  lemma RecalConnsRanked(i: nat)
    requires i < |SampleTypes|
    ensures Ranked(RecalConns(i), Rank)
  {
    var l := RecalConns(i);
    forall k | 0 <= k < |l| && l[k].src.FromPort?
      ensures Rank(l[k].src.node.kind) < Rank(l[k].dst.kind)
    {
    }
  }

  lemma {:induction false} SampleLoopRanked(s: seq<Conn<Kind>>, m: nat)
    requires m <= |SampleTypes| && Ranked(s, Rank)
    ensures Ranked(SampleLoopConns(s, m), Rank)
    decreases m
  {
    if m > 0 {
      SampleLoopRanked(s, m - 1);
      AlignConnsRanked(m - 1);
      RankedAppend(SampleLoopConns(s, m - 1), AlignConns(m - 1), Rank);
    }
  }

  lemma {:induction false} RecalLoopRanked(s: seq<Conn<Kind>>, m: nat)
    requires m <= |SampleTypes| && Ranked(s, Rank)
    ensures Ranked(RecalLoopConns(s, m), Rank)
    decreases m
  {
    if m > 0 {
      RecalLoopRanked(s, m - 1);
      RecalConnsRanked(m - 1);
      RankedAppend(RecalLoopConns(s, m - 1), RecalConns(m - 1), Rank);
    }
  }

  /** Every connection the main function makes climbs the rank. */
  lemma PreprocessingConnsRanked()
    ensures Ranked(RecalLoopConns(SampleLoopConns([] + DownloadConns(), |SampleTypes|) + RealignConns(), |SampleTypes|), Rank)
  {
    var s1: seq<Conn<Kind>> := [] + DownloadConns();
    assert s1 == DownloadConns();
    DownloadConnsRanked();
    SampleLoopRanked(s1, |SampleTypes|);
    var s2 := SampleLoopConns(s1, |SampleTypes|);
    RealignConnsRanked();
    RankedAppend(s2, RealignConns(), Rank);
    RecalLoopRanked(s2 + RealignConns(), |SampleTypes|);
  }

  /** The preprocessing graph has no cycle. */
  lemma PreprocessingAcyclic()
    ensures Acyclic(Preprocessing().conns)
  {
    PreprocessingMakes();
    PreprocessingConnsRanked();
    RankedIsAcyclic(Preprocessing().conns, Rank);
  }
}
