/** What the RNA-seq preprocessing workflow (rnaseqpre/rnaseqpre.go) is
    wired like, seen from each process: the connections into every
    process, stated per process kind from the process's loop position, and
    proved equal to what the construction order produces. */
module RnaSeqPreWiring {
  import opened FlowGraph
  import opened RnaSeqPre

  /** The stretch of the main function that creates a process kind. */
  datatype Stretch = DownloadStretch | SampleStretch

  function StretchOf(k: Kind): Stretch {
    match k
    case DownloadApps | UntgzApps => DownloadStretch
    case _ => SampleStretch
  }

  /** The connections into process n, in the order the main function makes
      them: the reference wiring of every kind, from the process's own loop
      position. */
  function Inputs(n: Node<Kind>): seq<Conn<Kind>>
    requires Placed(n)
  {
    var at := n.at;
    match n.kind
    case DownloadApps => []
    case UntgzApps => [Edge(Node(DownloadApps, []), "apps", n, "tgz")]
    case CollectSubstream =>
      [Edge(Node(FastqcSample, at + [1]), "done", n, "in"), Edge(Node(FastqcSample, at + [2]), "done", n, "in")]
    case FastqcFile => []
    case FastqcSample =>
      [Edge(Node(FastqcFile, at), "out", n, "reads"), Edge(Node(UntgzApps, []), "done", n, "untardone")]
    case AlignFile1 => []
    case AlignFile2 => []
    case AlignSamples =>
      [Edge(Node(AlignFile1, at), "out", n, "reads1"), Edge(Node(AlignFile2, at), "out", n, "reads2"),
       Edge(Node(CollectSubstream, at), "substream", n, "fastqc")]
  }

  // ---------------------------------------------------------------------
  // Each stretch of straight-line code adds the inputs of its own processes
  // ---------------------------------------------------------------------

  /** The connections the download stretch makes, in code order. */
  function DownloadConns(): seq<Conn<Kind>>
  {
    var download := Node(DownloadApps, []);
    var untgz := Node(UntgzApps, []);
    [Edge(download, "apps", untgz, "tgz")]
  }

  /** The download stretch connects nothing into the processes it does not feed. */
  lemma DownloadConnsOther(s: seq<Conn<Kind>>, n: Node<Kind>)
    requires n != Node(UntgzApps, [])
    ensures Into(s + DownloadConns(), n) == Into(s, n)
  {
    var download := Node(DownloadApps, []);
    var untgz := Node(UntgzApps, []);
    assert s + DownloadConns() == s + [Edge(download, "apps", untgz, "tgz")];
    IntoSkip(s, Edge(download, "apps", untgz, "tgz"), n);
  }

  lemma DownloadConnsIntoUntgzApps(s: seq<Conn<Kind>>)
    ensures var n := Node(UntgzApps, []); Into(s + DownloadConns(), n) == Into(s, n) + Inputs(n)
  {
    var download := Node(DownloadApps, []);
    var untgz := Node(UntgzApps, []);
    assert s + DownloadConns() == s + [Edge(download, "apps", untgz, "tgz")];
    IntoTake(s, Edge(download, "apps", untgz, "tgz"));
  }

  /** The connections the pass j of the inner loop of sample i makes, in code order. */
  function FastqcConns(i: nat, j: int): seq<Conn<Kind>>
  {
    var file := Node(FastqcFile, [i, j]);
    var fastqc := Node(FastqcSample, [i, j]);
    var untgz := Node(UntgzApps, []);
    var collect := Node(CollectSubstream, [i]);
    [Edge(file, "out", fastqc, "reads"),
     Edge(untgz, "done", fastqc, "untardone"),
     Edge(fastqc, "done", collect, "in")]
  }

  /** The pass j of the inner loop of sample i connects nothing into the processes it does not feed. */
  lemma FastqcConnsOther(s: seq<Conn<Kind>>, i: nat, j: int, n: Node<Kind>)
    requires n != Node(FastqcSample, [i, j]) && n != Node(CollectSubstream, [i])
    ensures Into(s + FastqcConns(i, j), n) == Into(s, n)
  {
    var file := Node(FastqcFile, [i, j]);
    var fastqc := Node(FastqcSample, [i, j]);
    var untgz := Node(UntgzApps, []);
    var collect := Node(CollectSubstream, [i]);
    var s1 := s + [Edge(file, "out", fastqc, "reads")];
    var s2 := s1 + [Edge(untgz, "done", fastqc, "untardone")];
    assert s + FastqcConns(i, j) == s2 + [Edge(fastqc, "done", collect, "in")];
    IntoSkip(s, Edge(file, "out", fastqc, "reads"), n);
    IntoSkip(s1, Edge(untgz, "done", fastqc, "untardone"), n);
    IntoSkip(s2, Edge(fastqc, "done", collect, "in"), n);
  }

  lemma FastqcConnsIntoFastqcSample(s: seq<Conn<Kind>>, i: nat, j: int)
    requires i < |SamplePrefixes| && 1 <= j <= 2
    ensures var n := Node(FastqcSample, [i, j]); Into(s + FastqcConns(i, j), n) == Into(s, n) + Inputs(n)
  {
    var file := Node(FastqcFile, [i, j]);
    var fastqc := Node(FastqcSample, [i, j]);
    var untgz := Node(UntgzApps, []);
    var collect := Node(CollectSubstream, [i]);
    var s1 := s + [Edge(file, "out", fastqc, "reads")];
    var s2 := s1 + [Edge(untgz, "done", fastqc, "untardone")];
    assert s + FastqcConns(i, j) == s2 + [Edge(fastqc, "done", collect, "in")];
    IntoTake(s, Edge(file, "out", fastqc, "reads"));
    IntoTake(s1, Edge(untgz, "done", fastqc, "untardone"));
    IntoSkip(s2, Edge(fastqc, "done", collect, "in"), fastqc);
    AppendPair(Into(s, fastqc), Edge(file, "out", fastqc, "reads"), Edge(untgz, "done", fastqc, "untardone"));
  }

  lemma FastqcConnsIntoCollectSubstream(s: seq<Conn<Kind>>, i: nat, j: int)
    requires i < |SamplePrefixes| && 1 <= j <= 2
    ensures var n := Node(CollectSubstream, [i]); Into(s + FastqcConns(i, j), n) == Into(s, n) + [Edge(Node(FastqcSample, [i, j]), "done", n, "in")]
  {
    var file := Node(FastqcFile, [i, j]);
    var fastqc := Node(FastqcSample, [i, j]);
    var untgz := Node(UntgzApps, []);
    var collect := Node(CollectSubstream, [i]);
    var s1 := s + [Edge(file, "out", fastqc, "reads")];
    var s2 := s1 + [Edge(untgz, "done", fastqc, "untardone")];
    assert s + FastqcConns(i, j) == s2 + [Edge(fastqc, "done", collect, "in")];
    IntoSkip(s, Edge(file, "out", fastqc, "reads"), collect);
    IntoSkip(s1, Edge(untgz, "done", fastqc, "untardone"), collect);
    IntoTake(s2, Edge(fastqc, "done", collect, "in"));
  }

  /** The connections the alignment of sample i makes, in code order. */
  function AlignConns(i: nat): seq<Conn<Kind>>
  {
    var file1 := Node(AlignFile1, [i]);
    var file2 := Node(AlignFile2, [i]);
    var collect := Node(CollectSubstream, [i]);
    var align := Node(AlignSamples, [i]);
    [Edge(file1, "out", align, "reads1"),
     Edge(file2, "out", align, "reads2"),
     Edge(collect, "substream", align, "fastqc")]
  }

  /** The alignment of sample i connects nothing into the processes it does not feed. */
  lemma AlignConnsOther(s: seq<Conn<Kind>>, i: nat, n: Node<Kind>)
    requires n != Node(AlignSamples, [i])
    ensures Into(s + AlignConns(i), n) == Into(s, n)
  {
    var file1 := Node(AlignFile1, [i]);
    var file2 := Node(AlignFile2, [i]);
    var collect := Node(CollectSubstream, [i]);
    var align := Node(AlignSamples, [i]);
    var s1 := s + [Edge(file1, "out", align, "reads1")];
    var s2 := s1 + [Edge(file2, "out", align, "reads2")];
    assert s + AlignConns(i) == s2 + [Edge(collect, "substream", align, "fastqc")];
    IntoSkip(s, Edge(file1, "out", align, "reads1"), n);
    IntoSkip(s1, Edge(file2, "out", align, "reads2"), n);
    IntoSkip(s2, Edge(collect, "substream", align, "fastqc"), n);
  }

  lemma AlignConnsIntoAlignSamples(s: seq<Conn<Kind>>, i: nat)
    requires i < |SamplePrefixes|
    ensures var n := Node(AlignSamples, [i]); Into(s + AlignConns(i), n) == Into(s, n) + Inputs(n)
  {
    var file1 := Node(AlignFile1, [i]);
    var file2 := Node(AlignFile2, [i]);
    var collect := Node(CollectSubstream, [i]);
    var align := Node(AlignSamples, [i]);
    var s1 := s + [Edge(file1, "out", align, "reads1")];
    var s2 := s1 + [Edge(file2, "out", align, "reads2")];
    assert s + AlignConns(i) == s2 + [Edge(collect, "substream", align, "fastqc")];
    IntoTake(s, Edge(file1, "out", align, "reads1"));
    IntoTake(s1, Edge(file2, "out", align, "reads2"));
    IntoTake(s2, Edge(collect, "substream", align, "fastqc"));
    AppendThree(Into(s, align), Edge(file1, "out", align, "reads1"), Edge(file2, "out", align, "reads2"), Edge(collect, "substream", align, "fastqc"));
  }

  // ---------------------------------------------------------------------
  // One iteration of the sample loop, and the loop
  // ---------------------------------------------------------------------

  /** The connections of the inner loop's passes j = 1 .. m, after those in s. */
  function FastqcLoopConns(s: seq<Conn<Kind>>, i: nat, m: nat): seq<Conn<Kind>>
  {
    if m == 0 then s else FastqcLoopConns(s, i, m - 1) + FastqcConns(i, m)
  }

  /** The connections iteration i of the sample loop makes. */
  function SampleConns(i: nat): seq<Conn<Kind>>
  {
    FastqcConns(i, 1) + FastqcConns(i, 2) + AlignConns(i)
  }

  /** Iteration i of the sample loop, split at its two passes of the inner
      loop and its alignment. */
  lemma SampleConnsSplit(s: seq<Conn<Kind>>, i: nat)
    ensures s + SampleConns(i) == s + FastqcConns(i, 1) + FastqcConns(i, 2) + AlignConns(i)
  {
  }

  /** Iteration i feeds the collector of sample i its two reports. */
  lemma SampleConnsIntoCollect(s: seq<Conn<Kind>>, i: nat)
    requires i < |SamplePrefixes|
    ensures var n := Node(CollectSubstream, [i]); Into(s + SampleConns(i), n) == Into(s, n) + Inputs(n)
  {
    var n := Node(CollectSubstream, [i]);
    var s1 := s + FastqcConns(i, 1);
    var s2 := s1 + FastqcConns(i, 2);
    SampleConnsSplit(s, i);
    FastqcConnsIntoCollectSubstream(s, i, 1);
    FastqcConnsIntoCollectSubstream(s1, i, 2);
    AlignConnsOther(s2, i, n);
    assert [i] + [1] == [i, 1] && [i] + [2] == [i, 2];
    AppendPair(Into(s, n), Edge(Node(FastqcSample, [i, 1]), "done", n, "in"), Edge(Node(FastqcSample, [i, 2]), "done", n, "in"));
  }

  /** Iteration i feeds the quality report j of sample i its inputs. */
  lemma SampleConnsIntoFastqc(s: seq<Conn<Kind>>, i: nat, j: int)
    requires i < |SamplePrefixes| && 1 <= j <= 2
    ensures var n := Node(FastqcSample, [i, j]); Into(s + SampleConns(i), n) == Into(s, n) + Inputs(n)
  {
    var n := Node(FastqcSample, [i, j]);
    var s1 := s + FastqcConns(i, 1);
    var s2 := s1 + FastqcConns(i, 2);
    SampleConnsSplit(s, i);
    if j == 1 {
      FastqcConnsIntoFastqcSample(s, i, 1);
      FastqcConnsOther(s1, i, 2, n);
    } else {
      FastqcConnsOther(s, i, 1, n);
      FastqcConnsIntoFastqcSample(s1, i, 2);
    }
    AlignConnsOther(s2, i, n);
  }

  /** Iteration i feeds the alignment of sample i its inputs. */
  lemma SampleConnsIntoAlign(s: seq<Conn<Kind>>, i: nat)
    requires i < |SamplePrefixes|
    ensures var n := Node(AlignSamples, [i]); Into(s + SampleConns(i), n) == Into(s, n) + Inputs(n)
  {
    var n := Node(AlignSamples, [i]);
    var s1 := s + FastqcConns(i, 1);
    var s2 := s1 + FastqcConns(i, 2);
    SampleConnsSplit(s, i);
    FastqcConnsOther(s, i, 1, n);
    FastqcConnsOther(s1, i, 2, n);
    AlignConnsIntoAlignSamples(s2, i);
  }

  /** Iteration i connects nothing into the processes it does not feed. */
  lemma SampleConnsOther(s: seq<Conn<Kind>>, i: nat, n: Node<Kind>)
    requires n != Node(CollectSubstream, [i]) && n != Node(AlignSamples, [i])
    requires n != Node(FastqcSample, [i, 1]) && n != Node(FastqcSample, [i, 2])
    ensures Into(s + SampleConns(i), n) == Into(s, n)
  {
    var s1 := s + FastqcConns(i, 1);
    var s2 := s1 + FastqcConns(i, 2);
    SampleConnsSplit(s, i);
    FastqcConnsOther(s, i, 1, n);
    FastqcConnsOther(s1, i, 2, n);
    AlignConnsOther(s2, i, n);
  }

  /** Iteration i of the sample loop adds all the inputs of each process
      it creates. */
  lemma SampleConnsFeeds(s: seq<Conn<Kind>>, i: nat, n: Node<Kind>)
    requires Placed(n) && StretchOf(n.kind) == SampleStretch && n.at[0] == i
    ensures Into(s + SampleConns(i), n) == Into(s, n) + Inputs(n)
  {
    match n.kind
    case CollectSubstream =>
      assert n.at == [i];
      SampleConnsIntoCollect(s, i);
    case FastqcSample =>
      assert n.at == [i, n.at[1]];
      SampleConnsIntoFastqc(s, i, n.at[1]);
    case AlignSamples =>
      assert n.at == [i];
      SampleConnsIntoAlign(s, i);
    case FastqcFile | AlignFile1 | AlignFile2 =>
      assert Into(s, n) + [] == Into(s, n);
      SampleConnsOther(s, i, n);
  }

  /** The connections of the first m iterations of the sample loop, after
      those in s. */
  function SampleLoopConns(s: seq<Conn<Kind>>, m: nat): seq<Conn<Kind>>
  {
    if m == 0 then s else SampleLoopConns(s, m - 1) + SampleConns(m - 1)
  }

  /** The sample loop adds nothing into a process it has not created in its
      first m iterations. */
  lemma {:induction false} SampleLoopOther(s: seq<Conn<Kind>>, m: nat, n: Node<Kind>)
    requires Placed(n)
    requires !(StretchOf(n.kind) == SampleStretch && n.at[0] < m)
    ensures Into(SampleLoopConns(s, m), n) == Into(s, n)
    decreases m
  {
    if m > 0 {
      SampleLoopOther(s, m - 1, n);
      SampleConnsOther(SampleLoopConns(s, m - 1), m - 1, n);
    }
  }

  /** After m iterations of the sample loop, each process the loop created
      has received all of its inputs. */
  lemma {:induction false} SampleLoopFeeds(s: seq<Conn<Kind>>, m: nat, n: Node<Kind>)
    requires Placed(n)
    requires StretchOf(n.kind) == SampleStretch && n.at[0] < m
    ensures Into(SampleLoopConns(s, m), n) == Into(s, n) + Inputs(n)
    decreases m
  {
    if n.at[0] == m - 1 {
      SampleLoopOther(s, m - 1, n);
      SampleConnsFeeds(SampleLoopConns(s, m - 1), m - 1, n);
    } else {
      SampleLoopFeeds(s, m - 1, n);
      SampleConnsOther(SampleLoopConns(s, m - 1), m - 1, n);
    }
  }

  // ---------------------------------------------------------------------
  // The whole workflow
  // ---------------------------------------------------------------------

  /** The graph functions make the connections listed above, in that order. */
  lemma {:induction false} FastqcLoopMakes(g: Graph<Kind>, i: nat, m: nat)
    requires i < |SamplePrefixes|
    ensures FastqcLoop(g, i, m).conns == FastqcLoopConns(g.conns, i, m)
    decreases m
  {
    if m > 0 {
      FastqcLoopMakes(g, i, m - 1);
      var h := FastqcLoop(g, i, m - 1);
      assert FastqcPart(h, i, m).conns == h.conns + FastqcConns(i, m);
    }
  }

  lemma {:induction false} SampleLoopMakes(g: Graph<Kind>, m: nat)
    requires m <= |SamplePrefixes|
    ensures SampleLoop(g, m).conns == SampleLoopConns(g.conns, m)
    decreases m
  {
    if m > 0 {
      SampleLoopMakes(g, m - 1);
      var h := SampleLoop(g, m - 1);
      var h1 := h.WithProc(CollectSubstreamProc(m - 1));
      assert h1.conns == h.conns;
      FastqcLoopMakes(h1, m - 1, 2);
      var h2 := FastqcLoop(h1, m - 1, 2);
      assert FastqcLoopConns(h.conns, m - 1, 1) == h.conns + FastqcConns(m - 1, 1);
      assert h2.conns == h.conns + FastqcConns(m - 1, 1) + FastqcConns(m - 1, 2);
      assert AlignPart(h2, m - 1).conns == h2.conns + AlignConns(m - 1);
      assert h2.conns + AlignConns(m - 1) == h.conns + SampleConns(m - 1);
    }
  }

  lemma PreprocessingMakes()
    ensures Preprocessing().conns == SampleLoopConns([] + DownloadConns(), |SamplePrefixes|)
  {
    var g1 := DownloadPart(Empty());
    assert g1.conns == [] + DownloadConns();
    SampleLoopMakes(g1, |SamplePrefixes|);
  }

  /** The main function connects into every process exactly its reference
      inputs, in reference order. */
  lemma PreprocessingInto(n: Node<Kind>)
    requires Placed(n)
    ensures Into(Preprocessing().conns, n) == Inputs(n)
  {
    PreprocessingMakes();
    var s0: seq<Conn<Kind>> := [];
    var s1 := s0 + DownloadConns();
    assert Into(s0, n) == [];
    if n.kind == UntgzApps {
      DownloadConnsIntoUntgzApps(s0);
    } else {
      DownloadConnsOther(s0, n);
    }
    if StretchOf(n.kind) == SampleStretch {
      SampleLoopFeeds(s1, |SamplePrefixes|, n);
    } else {
      SampleLoopOther(s1, |SamplePrefixes|, n);
    }
  }

  /** The collector of each sample is fed by both of its quality reports,
      and nothing else; the alignment reads the two aligner sources and the
      collected reports. */
  lemma SampleWiring(i: nat)
    requires i < |SamplePrefixes|
    ensures Into(Preprocessing().conns, Node(CollectSubstream, [i])) ==
      [Edge(Node(FastqcSample, [i, 1]), "done", Node(CollectSubstream, [i]), "in"),
       Edge(Node(FastqcSample, [i, 2]), "done", Node(CollectSubstream, [i]), "in")]
    ensures Into(Preprocessing().conns, Node(AlignSamples, [i])) ==
      [Edge(Node(AlignFile1, [i]), "out", Node(AlignSamples, [i]), "reads1"),
       Edge(Node(AlignFile2, [i]), "out", Node(AlignSamples, [i]), "reads2"),
       Edge(Node(CollectSubstream, [i]), "substream", Node(AlignSamples, [i]), "fastqc")]
  {
    assert [i] + [1] == [i, 1] && [i] + [2] == [i, 2];
    PreprocessingInto(Node(CollectSubstream, [i]));
    PreprocessingInto(Node(AlignSamples, [i]));
  }

  /** Each quality report reads its own read file, after the tools are
      unpacked. */
  lemma FastqcWiring(i: nat, j: int)
    requires i < |SamplePrefixes| && 1 <= j <= 2
    ensures Into(Preprocessing().conns, Node(FastqcSample, [i, j])) ==
      [Edge(Node(FastqcFile, [i, j]), "out", Node(FastqcSample, [i, j]), "reads"),
       Edge(Node(UntgzApps, []), "done", Node(FastqcSample, [i, j]), "untardone")]
  {
    PreprocessingInto(Node(FastqcSample, [i, j]));
  }

  // ---------------------------------------------------------------------
  // No cycles
  // ---------------------------------------------------------------------

  /** A rank every connection climbs. */
  function Rank(k: Kind): int {
    match k
    case DownloadApps => 0
    case UntgzApps => 1
    case FastqcFile => 2
    case FastqcSample => 3
    case CollectSubstream => 4
    case AlignFile1 => 4
    case AlignFile2 => 4
    case AlignSamples => 5
  }

  lemma DownloadConnsRanked()
    ensures Ranked(DownloadConns(), Rank)
  {
    var l := DownloadConns();
    forall k | 0 <= k < |l| && l[k].src.FromPort?
      ensures Rank(l[k].src.node.kind) < Rank(l[k].dst.kind)
    {
    }
  }

  lemma FastqcConnsRanked(i: nat, j: int)
    ensures Ranked(FastqcConns(i, j), Rank)
  {
    var l := FastqcConns(i, j);
    forall k | 0 <= k < |l| && l[k].src.FromPort?
      ensures Rank(l[k].src.node.kind) < Rank(l[k].dst.kind)
    {
    }
  }

  lemma AlignConnsRanked(i: nat)
    ensures Ranked(AlignConns(i), Rank)
  {
    var l := AlignConns(i);
    forall k | 0 <= k < |l| && l[k].src.FromPort?
      ensures Rank(l[k].src.node.kind) < Rank(l[k].dst.kind)
    {
    }
  }

  lemma SampleConnsRanked(i: nat)
    ensures Ranked(SampleConns(i), Rank)
  {
    FastqcConnsRanked(i, 1);
    FastqcConnsRanked(i, 2);
    RankedAppend(FastqcConns(i, 1), FastqcConns(i, 2), Rank);
    AlignConnsRanked(i);
    RankedAppend(FastqcConns(i, 1) + FastqcConns(i, 2), AlignConns(i), Rank);
  }

  /** The preprocessing graph, built over its one sample prefix, has no
      cycle. */
  lemma PreprocessingAcyclic()
    ensures Acyclic(Preprocessing().conns)
  {
    PreprocessingMakes();
    var s1: seq<Conn<Kind>> := [] + DownloadConns();
    assert s1 == DownloadConns();
    assert SampleLoopConns(s1, |SamplePrefixes|) == s1 + SampleConns(0);
    DownloadConnsRanked();
    SampleConnsRanked(0);
    RankedAppend(s1, SampleConns(0), Rank);
    RankedIsAcyclic(Preprocessing().conns, Rank);
  }
}
