/** What the cross-validation workflow (mm/wffindcost.go) is wired like,
    seen from each process: the connections into every process the
    construction creates, stated per process kind from the process's own
    loop positions, and proved equal to what the construction order
    produces. */
module CrossValidateWiring {
  import opened FlowGraph
  import opened CrossValidate

  /** The connection from the assessment of fold f into the cost
      substream collector of the cost iteration at `at`. */
  function FoldCost(at: seq<int>, f: int): Conn<Kind> {
    Edge(Node(Assess, at + [f]), RmsdCost, Node(CostSubstream, at), InPort)
  }

  /** The assessments of the first m folds, in fold order. */
  function FoldCosts(at: seq<int>, m: nat): (r: seq<Conn<Kind>>)
    ensures |r| == m
    ensures forall f :: 0 <= f < m ==> r[f] == FoldCost(at, f)
  {
    if m == 0 then [] else FoldCosts(at, m - 1) + [FoldCost(at, m - 1)]
  }

  /** The connections into process n, in the order the construction makes
      them: the reference wiring of every kind, from the process's own
      loop positions. */
  function Inputs(p: Params, n: Node<Kind>): seq<Conn<Kind>>
    requires Placed(p, n)
  {
    var at := n.at;
    match n.kind
    case TestData => []
    case GenSign => [Edge(Node(TestData, []), OutPort, n, Smiles)]
    case RunCopy => [Conn(FromValue(p.RunID), n, Param(RunIdParam)), Edge(Node(GenSign, at), Signatures, n, Orig)]
    case ReplCopy => [Conn(FromValue(Replicates(p)[at[0]]), n, Param(ReplIdParam)), Edge(Node(GenSign, at), Signatures, n, Orig)]
    case SampleTrainTest => [Edge(Node(ReplCopy, at[..1]), CopyPort, n, Signatures)]
    case SparseTrain => [Edge(Node(SampleTrainTest, at), TrainData, n, TrainData)]
    case GunzipTrain => [Edge(Node(SparseTrain, at), SparseTrainData, n, Orig)]
    case CountTrain => [Edge(Node(GunzipTrain, at), Ungzipped, n, FilePort)]
    case GenRand => [Edge(Node(GunzipTrain, at), Ungzipped, n, BasePath)]
    case ShufTrain => [Edge(Node(GunzipTrain, at), Ungzipped, n, DataPort), Edge(Node(GenRand, at), RandBytes, n, RandBytes)]
    case CostSubstream => FoldCosts(at, Folds(p))
    case AvgRmsd => [Conn(FromValue(p.CostVals[at[2]]), n, Param(CostParam)), Edge(Node(CostSubstream, at), SubStream, n, RmsdCost)]
    case CreateFolds => [Edge(Node(ShufTrain, at[..2]), Shuffled, n, DataPort), Edge(Node(CountTrain, at[..2]), LineCount, n, LineCnt)]
    case TrainLin => [Edge(Node(CreateFolds, at), TrainData, n, TrainData)]
    case PredLin => [Edge(Node(TrainLin, at), ModelPort, n, ModelPort), Edge(Node(CreateFolds, at), TestDataPort, n, TestDataPort)]
    case Assess => [Edge(Node(CreateFolds, at), TestDataPort, n, TestDataPort), Edge(Node(PredLin, at), Prediction, n, Prediction)]
  }

  // ---------------------------------------------------------------------
  // Each stretch of straight-line code adds the inputs of its own processes
  // ---------------------------------------------------------------------

  /** The connections ReplicateHead adds, in the order it makes them. */
  lemma ReplicateHeadConns(g: Graph<Kind>, p: Params, at: seq<int>)
    requires ValidAt(p, at) && |at| == 1
    ensures
      var genSign, runCopy, replCopy := Node(GenSign, at), Node(RunCopy, at), Node(ReplCopy, at);
      ReplicateHead(g, p, at).conns == g.conns
        + [Edge(Node(TestData, []), OutPort, genSign, Smiles)]
        + [Conn(FromValue(p.RunID), runCopy, Param(RunIdParam))]
        + [Edge(genSign, Signatures, runCopy, Orig)]
        + [Conn(FromValue(Replicates(p)[at[0]]), replCopy, Param(ReplIdParam))]
        + [Edge(genSign, Signatures, replCopy, Orig)]
  {
  }

  /** ReplicateHead adds nothing into a process outside its own iteration. */
  lemma ReplicateHeadOther(g: Graph<Kind>, p: Params, at: seq<int>, n: Node<Kind>)
    requires ValidAt(p, at) && |at| == 1
    requires n.at != at
    ensures Into(ReplicateHead(g, p, at).conns, n) == Into(g.conns, n)
  {
    ReplicateHeadConns(g, p, at);
    var genSign, runCopy, replCopy := Node(GenSign, at), Node(RunCopy, at), Node(ReplCopy, at);
    var s1 := g.conns + [Edge(Node(TestData, []), OutPort, genSign, Smiles)];
    var s2 := s1 + [Conn(FromValue(p.RunID), runCopy, Param(RunIdParam))];
    var s3 := s2 + [Edge(genSign, Signatures, runCopy, Orig)];
    var s4 := s3 + [Conn(FromValue(Replicates(p)[at[0]]), replCopy, Param(ReplIdParam))];
    IntoSkip(g.conns, Edge(Node(TestData, []), OutPort, genSign, Smiles), n);
    IntoSkip(s1, Conn(FromValue(p.RunID), runCopy, Param(RunIdParam)), n);
    IntoSkip(s2, Edge(genSign, Signatures, runCopy, Orig), n);
    IntoSkip(s3, Conn(FromValue(Replicates(p)[at[0]]), replCopy, Param(ReplIdParam)), n);
    IntoSkip(s4, Edge(genSign, Signatures, replCopy, Orig), n);
  }

  lemma ReplicateHeadIntoGenSign(g: Graph<Kind>, p: Params, at: seq<int>)
    requires ValidAt(p, at) && |at| == 1
    ensures var n := Node(GenSign, at); Into(ReplicateHead(g, p, at).conns, n) == Into(g.conns, n) + Inputs(p, n)
  {
    ReplicateHeadConns(g, p, at);
    var genSign, runCopy, replCopy := Node(GenSign, at), Node(RunCopy, at), Node(ReplCopy, at);
    var s1 := g.conns + [Edge(Node(TestData, []), OutPort, genSign, Smiles)];
    var s2 := s1 + [Conn(FromValue(p.RunID), runCopy, Param(RunIdParam))];
    var s3 := s2 + [Edge(genSign, Signatures, runCopy, Orig)];
    var s4 := s3 + [Conn(FromValue(Replicates(p)[at[0]]), replCopy, Param(ReplIdParam))];
    IntoTake(g.conns, Edge(Node(TestData, []), OutPort, genSign, Smiles));
    IntoSkip(s1, Conn(FromValue(p.RunID), runCopy, Param(RunIdParam)), genSign);
    IntoSkip(s2, Edge(genSign, Signatures, runCopy, Orig), genSign);
    IntoSkip(s3, Conn(FromValue(Replicates(p)[at[0]]), replCopy, Param(ReplIdParam)), genSign);
    IntoSkip(s4, Edge(genSign, Signatures, replCopy, Orig), genSign);
  }

  lemma ReplicateHeadIntoRunCopy(g: Graph<Kind>, p: Params, at: seq<int>)
    requires ValidAt(p, at) && |at| == 1
    ensures var n := Node(RunCopy, at); Into(ReplicateHead(g, p, at).conns, n) == Into(g.conns, n) + Inputs(p, n)
  {
    ReplicateHeadConns(g, p, at);
    var genSign, runCopy, replCopy := Node(GenSign, at), Node(RunCopy, at), Node(ReplCopy, at);
    var s1 := g.conns + [Edge(Node(TestData, []), OutPort, genSign, Smiles)];
    var s2 := s1 + [Conn(FromValue(p.RunID), runCopy, Param(RunIdParam))];
    var s3 := s2 + [Edge(genSign, Signatures, runCopy, Orig)];
    var s4 := s3 + [Conn(FromValue(Replicates(p)[at[0]]), replCopy, Param(ReplIdParam))];
    IntoSkip(g.conns, Edge(Node(TestData, []), OutPort, genSign, Smiles), runCopy);
    IntoTake(s1, Conn(FromValue(p.RunID), runCopy, Param(RunIdParam)));
    IntoTake(s2, Edge(genSign, Signatures, runCopy, Orig));
    IntoSkip(s3, Conn(FromValue(Replicates(p)[at[0]]), replCopy, Param(ReplIdParam)), runCopy);
    IntoSkip(s4, Edge(genSign, Signatures, replCopy, Orig), runCopy);
    AppendPair(Into(g.conns, runCopy), Conn(FromValue(p.RunID), runCopy, Param(RunIdParam)), Edge(genSign, Signatures, runCopy, Orig));
  }

  lemma ReplicateHeadIntoReplCopy(g: Graph<Kind>, p: Params, at: seq<int>)
    requires ValidAt(p, at) && |at| == 1
    ensures var n := Node(ReplCopy, at); Into(ReplicateHead(g, p, at).conns, n) == Into(g.conns, n) + Inputs(p, n)
  {
    ReplicateHeadConns(g, p, at);
    var genSign, runCopy, replCopy := Node(GenSign, at), Node(RunCopy, at), Node(ReplCopy, at);
    var s1 := g.conns + [Edge(Node(TestData, []), OutPort, genSign, Smiles)];
    var s2 := s1 + [Conn(FromValue(p.RunID), runCopy, Param(RunIdParam))];
    var s3 := s2 + [Edge(genSign, Signatures, runCopy, Orig)];
    var s4 := s3 + [Conn(FromValue(Replicates(p)[at[0]]), replCopy, Param(ReplIdParam))];
    IntoSkip(g.conns, Edge(Node(TestData, []), OutPort, genSign, Smiles), replCopy);
    IntoSkip(s1, Conn(FromValue(p.RunID), runCopy, Param(RunIdParam)), replCopy);
    IntoSkip(s2, Edge(genSign, Signatures, runCopy, Orig), replCopy);
    IntoTake(s3, Conn(FromValue(Replicates(p)[at[0]]), replCopy, Param(ReplIdParam)));
    IntoTake(s4, Edge(genSign, Signatures, replCopy, Orig));
    AppendPair(Into(g.conns, replCopy), Conn(FromValue(Replicates(p)[at[0]]), replCopy, Param(ReplIdParam)), Edge(genSign, Signatures, replCopy, Orig));
  }

  /** What ReplicateHead adds into any process the construction creates. */
  lemma ReplicateHeadInto(g: Graph<Kind>, p: Params, at: seq<int>, n: Node<Kind>)
    requires ValidAt(p, at) && |at| == 1
    requires Placed(p, n)
    ensures Into(ReplicateHead(g, p, at).conns, n) == if n.at == at then Into(g.conns, n) + Inputs(p, n) else Into(g.conns, n)
  {
    if n.at == at {
      match n.kind
      case GenSign => ReplicateHeadIntoGenSign(g, p, at);
      case RunCopy => ReplicateHeadIntoRunCopy(g, p, at);
      case ReplCopy => ReplicateHeadIntoReplCopy(g, p, at);
      case _ => assert false;
    } else {
      ReplicateHeadOther(g, p, at, n);
    }
  }

  /** The connections TrainHead adds, in the order it makes them. */
  lemma TrainHeadConns(g: Graph<Kind>, p: Params, at: seq<int>)
    requires ValidAt(p, at) && |at| == 2
    ensures
      var stt, sparse, gunzip, cnt, rand, shuf := Node(SampleTrainTest, at), Node(SparseTrain, at), Node(GunzipTrain, at), Node(CountTrain, at), Node(GenRand, at), Node(ShufTrain, at);
      TrainHead(g, p, at).conns == g.conns
        + [Edge(Node(ReplCopy, at[..1]), CopyPort, stt, Signatures)]
        + [Edge(stt, TrainData, sparse, TrainData)]
        + [Edge(sparse, SparseTrainData, gunzip, Orig)]
        + [Edge(gunzip, Ungzipped, cnt, FilePort)]
        + [Edge(gunzip, Ungzipped, rand, BasePath)]
        + [Edge(gunzip, Ungzipped, shuf, DataPort)]
        + [Edge(rand, RandBytes, shuf, RandBytes)]
  {
  }

  /** TrainHead adds nothing into a process outside its own iteration. */
  lemma TrainHeadOther(g: Graph<Kind>, p: Params, at: seq<int>, n: Node<Kind>)
    requires ValidAt(p, at) && |at| == 2
    requires n.at != at
    ensures Into(TrainHead(g, p, at).conns, n) == Into(g.conns, n)
  {
    TrainHeadConns(g, p, at);
    var stt, sparse, gunzip, cnt, rand, shuf := Node(SampleTrainTest, at), Node(SparseTrain, at), Node(GunzipTrain, at), Node(CountTrain, at), Node(GenRand, at), Node(ShufTrain, at);
    var s1 := g.conns + [Edge(Node(ReplCopy, at[..1]), CopyPort, stt, Signatures)];
    var s2 := s1 + [Edge(stt, TrainData, sparse, TrainData)];
    var s3 := s2 + [Edge(sparse, SparseTrainData, gunzip, Orig)];
    var s4 := s3 + [Edge(gunzip, Ungzipped, cnt, FilePort)];
    var s5 := s4 + [Edge(gunzip, Ungzipped, rand, BasePath)];
    var s6 := s5 + [Edge(gunzip, Ungzipped, shuf, DataPort)];
    IntoSkip(g.conns, Edge(Node(ReplCopy, at[..1]), CopyPort, stt, Signatures), n);
    IntoSkip(s1, Edge(stt, TrainData, sparse, TrainData), n);
    IntoSkip(s2, Edge(sparse, SparseTrainData, gunzip, Orig), n);
    IntoSkip(s3, Edge(gunzip, Ungzipped, cnt, FilePort), n);
    IntoSkip(s4, Edge(gunzip, Ungzipped, rand, BasePath), n);
    IntoSkip(s5, Edge(gunzip, Ungzipped, shuf, DataPort), n);
    IntoSkip(s6, Edge(rand, RandBytes, shuf, RandBytes), n);
  }

  lemma TrainHeadIntoSampleTrainTest(g: Graph<Kind>, p: Params, at: seq<int>)
    requires ValidAt(p, at) && |at| == 2
    ensures var n := Node(SampleTrainTest, at); Into(TrainHead(g, p, at).conns, n) == Into(g.conns, n) + Inputs(p, n)
  {
    TrainHeadConns(g, p, at);
    var stt, sparse, gunzip, cnt, rand, shuf := Node(SampleTrainTest, at), Node(SparseTrain, at), Node(GunzipTrain, at), Node(CountTrain, at), Node(GenRand, at), Node(ShufTrain, at);
    var s1 := g.conns + [Edge(Node(ReplCopy, at[..1]), CopyPort, stt, Signatures)];
    var s2 := s1 + [Edge(stt, TrainData, sparse, TrainData)];
    var s3 := s2 + [Edge(sparse, SparseTrainData, gunzip, Orig)];
    var s4 := s3 + [Edge(gunzip, Ungzipped, cnt, FilePort)];
    var s5 := s4 + [Edge(gunzip, Ungzipped, rand, BasePath)];
    var s6 := s5 + [Edge(gunzip, Ungzipped, shuf, DataPort)];
    IntoTake(g.conns, Edge(Node(ReplCopy, at[..1]), CopyPort, stt, Signatures));
    IntoSkip(s1, Edge(stt, TrainData, sparse, TrainData), stt);
    IntoSkip(s2, Edge(sparse, SparseTrainData, gunzip, Orig), stt);
    IntoSkip(s3, Edge(gunzip, Ungzipped, cnt, FilePort), stt);
    IntoSkip(s4, Edge(gunzip, Ungzipped, rand, BasePath), stt);
    IntoSkip(s5, Edge(gunzip, Ungzipped, shuf, DataPort), stt);
    IntoSkip(s6, Edge(rand, RandBytes, shuf, RandBytes), stt);
  }

  lemma TrainHeadIntoSparseTrain(g: Graph<Kind>, p: Params, at: seq<int>)
    requires ValidAt(p, at) && |at| == 2
    ensures var n := Node(SparseTrain, at); Into(TrainHead(g, p, at).conns, n) == Into(g.conns, n) + Inputs(p, n)
  {
    TrainHeadConns(g, p, at);
    var stt, sparse, gunzip, cnt, rand, shuf := Node(SampleTrainTest, at), Node(SparseTrain, at), Node(GunzipTrain, at), Node(CountTrain, at), Node(GenRand, at), Node(ShufTrain, at);
    var s1 := g.conns + [Edge(Node(ReplCopy, at[..1]), CopyPort, stt, Signatures)];
    var s2 := s1 + [Edge(stt, TrainData, sparse, TrainData)];
    var s3 := s2 + [Edge(sparse, SparseTrainData, gunzip, Orig)];
    var s4 := s3 + [Edge(gunzip, Ungzipped, cnt, FilePort)];
    var s5 := s4 + [Edge(gunzip, Ungzipped, rand, BasePath)];
    var s6 := s5 + [Edge(gunzip, Ungzipped, shuf, DataPort)];
    IntoSkip(g.conns, Edge(Node(ReplCopy, at[..1]), CopyPort, stt, Signatures), sparse);
    IntoTake(s1, Edge(stt, TrainData, sparse, TrainData));
    IntoSkip(s2, Edge(sparse, SparseTrainData, gunzip, Orig), sparse);
    IntoSkip(s3, Edge(gunzip, Ungzipped, cnt, FilePort), sparse);
    IntoSkip(s4, Edge(gunzip, Ungzipped, rand, BasePath), sparse);
    IntoSkip(s5, Edge(gunzip, Ungzipped, shuf, DataPort), sparse);
    IntoSkip(s6, Edge(rand, RandBytes, shuf, RandBytes), sparse);
  }

  lemma TrainHeadIntoGunzipTrain(g: Graph<Kind>, p: Params, at: seq<int>)
    requires ValidAt(p, at) && |at| == 2
    ensures var n := Node(GunzipTrain, at); Into(TrainHead(g, p, at).conns, n) == Into(g.conns, n) + Inputs(p, n)
  {
    TrainHeadConns(g, p, at);
    var stt, sparse, gunzip, cnt, rand, shuf := Node(SampleTrainTest, at), Node(SparseTrain, at), Node(GunzipTrain, at), Node(CountTrain, at), Node(GenRand, at), Node(ShufTrain, at);
    var s1 := g.conns + [Edge(Node(ReplCopy, at[..1]), CopyPort, stt, Signatures)];
    var s2 := s1 + [Edge(stt, TrainData, sparse, TrainData)];
    var s3 := s2 + [Edge(sparse, SparseTrainData, gunzip, Orig)];
    var s4 := s3 + [Edge(gunzip, Ungzipped, cnt, FilePort)];
    var s5 := s4 + [Edge(gunzip, Ungzipped, rand, BasePath)];
    var s6 := s5 + [Edge(gunzip, Ungzipped, shuf, DataPort)];
    IntoSkip(g.conns, Edge(Node(ReplCopy, at[..1]), CopyPort, stt, Signatures), gunzip);
    IntoSkip(s1, Edge(stt, TrainData, sparse, TrainData), gunzip);
    IntoTake(s2, Edge(sparse, SparseTrainData, gunzip, Orig));
    IntoSkip(s3, Edge(gunzip, Ungzipped, cnt, FilePort), gunzip);
    IntoSkip(s4, Edge(gunzip, Ungzipped, rand, BasePath), gunzip);
    IntoSkip(s5, Edge(gunzip, Ungzipped, shuf, DataPort), gunzip);
    IntoSkip(s6, Edge(rand, RandBytes, shuf, RandBytes), gunzip);
  }

  lemma TrainHeadIntoCountTrain(g: Graph<Kind>, p: Params, at: seq<int>)
    requires ValidAt(p, at) && |at| == 2
    ensures var n := Node(CountTrain, at); Into(TrainHead(g, p, at).conns, n) == Into(g.conns, n) + Inputs(p, n)
  {
    TrainHeadConns(g, p, at);
    var stt, sparse, gunzip, cnt, rand, shuf := Node(SampleTrainTest, at), Node(SparseTrain, at), Node(GunzipTrain, at), Node(CountTrain, at), Node(GenRand, at), Node(ShufTrain, at);
    var s1 := g.conns + [Edge(Node(ReplCopy, at[..1]), CopyPort, stt, Signatures)];
    var s2 := s1 + [Edge(stt, TrainData, sparse, TrainData)];
    var s3 := s2 + [Edge(sparse, SparseTrainData, gunzip, Orig)];
    var s4 := s3 + [Edge(gunzip, Ungzipped, cnt, FilePort)];
    var s5 := s4 + [Edge(gunzip, Ungzipped, rand, BasePath)];
    var s6 := s5 + [Edge(gunzip, Ungzipped, shuf, DataPort)];
    IntoSkip(g.conns, Edge(Node(ReplCopy, at[..1]), CopyPort, stt, Signatures), cnt);
    IntoSkip(s1, Edge(stt, TrainData, sparse, TrainData), cnt);
    IntoSkip(s2, Edge(sparse, SparseTrainData, gunzip, Orig), cnt);
    IntoTake(s3, Edge(gunzip, Ungzipped, cnt, FilePort));
    IntoSkip(s4, Edge(gunzip, Ungzipped, rand, BasePath), cnt);
    IntoSkip(s5, Edge(gunzip, Ungzipped, shuf, DataPort), cnt);
    IntoSkip(s6, Edge(rand, RandBytes, shuf, RandBytes), cnt);
  }

  lemma TrainHeadIntoGenRand(g: Graph<Kind>, p: Params, at: seq<int>)
    requires ValidAt(p, at) && |at| == 2
    ensures var n := Node(GenRand, at); Into(TrainHead(g, p, at).conns, n) == Into(g.conns, n) + Inputs(p, n)
  {
    TrainHeadConns(g, p, at);
    var stt, sparse, gunzip, cnt, rand, shuf := Node(SampleTrainTest, at), Node(SparseTrain, at), Node(GunzipTrain, at), Node(CountTrain, at), Node(GenRand, at), Node(ShufTrain, at);
    var s1 := g.conns + [Edge(Node(ReplCopy, at[..1]), CopyPort, stt, Signatures)];
    var s2 := s1 + [Edge(stt, TrainData, sparse, TrainData)];
    var s3 := s2 + [Edge(sparse, SparseTrainData, gunzip, Orig)];
    var s4 := s3 + [Edge(gunzip, Ungzipped, cnt, FilePort)];
    var s5 := s4 + [Edge(gunzip, Ungzipped, rand, BasePath)];
    var s6 := s5 + [Edge(gunzip, Ungzipped, shuf, DataPort)];
    IntoSkip(g.conns, Edge(Node(ReplCopy, at[..1]), CopyPort, stt, Signatures), rand);
    IntoSkip(s1, Edge(stt, TrainData, sparse, TrainData), rand);
    IntoSkip(s2, Edge(sparse, SparseTrainData, gunzip, Orig), rand);
    IntoSkip(s3, Edge(gunzip, Ungzipped, cnt, FilePort), rand);
    IntoTake(s4, Edge(gunzip, Ungzipped, rand, BasePath));
    IntoSkip(s5, Edge(gunzip, Ungzipped, shuf, DataPort), rand);
    IntoSkip(s6, Edge(rand, RandBytes, shuf, RandBytes), rand);
  }

  lemma TrainHeadIntoShufTrain(g: Graph<Kind>, p: Params, at: seq<int>)
    requires ValidAt(p, at) && |at| == 2
    ensures var n := Node(ShufTrain, at); Into(TrainHead(g, p, at).conns, n) == Into(g.conns, n) + Inputs(p, n)
  {
    TrainHeadConns(g, p, at);
    var stt, sparse, gunzip, cnt, rand, shuf := Node(SampleTrainTest, at), Node(SparseTrain, at), Node(GunzipTrain, at), Node(CountTrain, at), Node(GenRand, at), Node(ShufTrain, at);
    var s1 := g.conns + [Edge(Node(ReplCopy, at[..1]), CopyPort, stt, Signatures)];
    var s2 := s1 + [Edge(stt, TrainData, sparse, TrainData)];
    var s3 := s2 + [Edge(sparse, SparseTrainData, gunzip, Orig)];
    var s4 := s3 + [Edge(gunzip, Ungzipped, cnt, FilePort)];
    var s5 := s4 + [Edge(gunzip, Ungzipped, rand, BasePath)];
    var s6 := s5 + [Edge(gunzip, Ungzipped, shuf, DataPort)];
    IntoSkip(g.conns, Edge(Node(ReplCopy, at[..1]), CopyPort, stt, Signatures), shuf);
    IntoSkip(s1, Edge(stt, TrainData, sparse, TrainData), shuf);
    IntoSkip(s2, Edge(sparse, SparseTrainData, gunzip, Orig), shuf);
    IntoSkip(s3, Edge(gunzip, Ungzipped, cnt, FilePort), shuf);
    IntoSkip(s4, Edge(gunzip, Ungzipped, rand, BasePath), shuf);
    IntoTake(s5, Edge(gunzip, Ungzipped, shuf, DataPort));
    IntoTake(s6, Edge(rand, RandBytes, shuf, RandBytes));
    AppendPair(Into(g.conns, shuf), Edge(gunzip, Ungzipped, shuf, DataPort), Edge(rand, RandBytes, shuf, RandBytes));
  }

  /** What TrainHead adds into any process the construction creates. */
  lemma TrainHeadInto(g: Graph<Kind>, p: Params, at: seq<int>, n: Node<Kind>)
    requires ValidAt(p, at) && |at| == 2
    requires Placed(p, n)
    ensures Into(TrainHead(g, p, at).conns, n) == if n.at == at then Into(g.conns, n) + Inputs(p, n) else Into(g.conns, n)
  {
    if n.at == at {
      match n.kind
      case SampleTrainTest => TrainHeadIntoSampleTrainTest(g, p, at);
      case SparseTrain => TrainHeadIntoSparseTrain(g, p, at);
      case GunzipTrain => TrainHeadIntoGunzipTrain(g, p, at);
      case CountTrain => TrainHeadIntoCountTrain(g, p, at);
      case GenRand => TrainHeadIntoGenRand(g, p, at);
      case ShufTrain => TrainHeadIntoShufTrain(g, p, at);
      case _ => assert false;
    } else {
      TrainHeadOther(g, p, at, n);
    }
  }

  /** The connections FoldBody adds, in the order it makes them. */
  lemma FoldBodyConns(g: Graph<Kind>, p: Params, at: seq<int>)
    requires ValidAt(p, at) && |at| == 4
    ensures
      var folds, train, pred, assess := Node(CreateFolds, at), Node(TrainLin, at), Node(PredLin, at), Node(Assess, at);
      FoldBody(g, p, at).conns == g.conns
        + [Edge(Node(ShufTrain, at[..2]), Shuffled, folds, DataPort)]
        + [Edge(Node(CountTrain, at[..2]), LineCount, folds, LineCnt)]
        + [Edge(folds, TrainData, train, TrainData)]
        + [Edge(train, ModelPort, pred, ModelPort)]
        + [Edge(folds, TestDataPort, pred, TestDataPort)]
        + [Edge(folds, TestDataPort, assess, TestDataPort)]
        + [Edge(pred, Prediction, assess, Prediction)]
        + [Edge(assess, RmsdCost, Node(CostSubstream, at[..3]), InPort)]
  {
  }

  /** FoldBody adds nothing into a process outside its own iteration and its cost collector. */
  lemma FoldBodyOther(g: Graph<Kind>, p: Params, at: seq<int>, n: Node<Kind>)
    requires ValidAt(p, at) && |at| == 4
    requires n.at != at && n != Node(CostSubstream, at[..3])
    ensures Into(FoldBody(g, p, at).conns, n) == Into(g.conns, n)
  {
    FoldBodyConns(g, p, at);
    var folds, train, pred, assess := Node(CreateFolds, at), Node(TrainLin, at), Node(PredLin, at), Node(Assess, at);
    var s1 := g.conns + [Edge(Node(ShufTrain, at[..2]), Shuffled, folds, DataPort)];
    var s2 := s1 + [Edge(Node(CountTrain, at[..2]), LineCount, folds, LineCnt)];
    var s3 := s2 + [Edge(folds, TrainData, train, TrainData)];
    var s4 := s3 + [Edge(train, ModelPort, pred, ModelPort)];
    var s5 := s4 + [Edge(folds, TestDataPort, pred, TestDataPort)];
    var s6 := s5 + [Edge(folds, TestDataPort, assess, TestDataPort)];
    var s7 := s6 + [Edge(pred, Prediction, assess, Prediction)];
    IntoSkip(g.conns, Edge(Node(ShufTrain, at[..2]), Shuffled, folds, DataPort), n);
    IntoSkip(s1, Edge(Node(CountTrain, at[..2]), LineCount, folds, LineCnt), n);
    IntoSkip(s2, Edge(folds, TrainData, train, TrainData), n);
    IntoSkip(s3, Edge(train, ModelPort, pred, ModelPort), n);
    IntoSkip(s4, Edge(folds, TestDataPort, pred, TestDataPort), n);
    IntoSkip(s5, Edge(folds, TestDataPort, assess, TestDataPort), n);
    IntoSkip(s6, Edge(pred, Prediction, assess, Prediction), n);
    IntoSkip(s7, Edge(assess, RmsdCost, Node(CostSubstream, at[..3]), InPort), n);
  }

  lemma FoldBodyIntoCreateFolds(g: Graph<Kind>, p: Params, at: seq<int>)
    requires ValidAt(p, at) && |at| == 4
    ensures var n := Node(CreateFolds, at); Into(FoldBody(g, p, at).conns, n) == Into(g.conns, n) + Inputs(p, n)
  {
    FoldBodyConns(g, p, at);
    var folds, train, pred, assess := Node(CreateFolds, at), Node(TrainLin, at), Node(PredLin, at), Node(Assess, at);
    var s1 := g.conns + [Edge(Node(ShufTrain, at[..2]), Shuffled, folds, DataPort)];
    var s2 := s1 + [Edge(Node(CountTrain, at[..2]), LineCount, folds, LineCnt)];
    var s3 := s2 + [Edge(folds, TrainData, train, TrainData)];
    var s4 := s3 + [Edge(train, ModelPort, pred, ModelPort)];
    var s5 := s4 + [Edge(folds, TestDataPort, pred, TestDataPort)];
    var s6 := s5 + [Edge(folds, TestDataPort, assess, TestDataPort)];
    var s7 := s6 + [Edge(pred, Prediction, assess, Prediction)];
    IntoTake(g.conns, Edge(Node(ShufTrain, at[..2]), Shuffled, folds, DataPort));
    IntoTake(s1, Edge(Node(CountTrain, at[..2]), LineCount, folds, LineCnt));
    IntoSkip(s2, Edge(folds, TrainData, train, TrainData), folds);
    IntoSkip(s3, Edge(train, ModelPort, pred, ModelPort), folds);
    IntoSkip(s4, Edge(folds, TestDataPort, pred, TestDataPort), folds);
    IntoSkip(s5, Edge(folds, TestDataPort, assess, TestDataPort), folds);
    IntoSkip(s6, Edge(pred, Prediction, assess, Prediction), folds);
    IntoSkip(s7, Edge(assess, RmsdCost, Node(CostSubstream, at[..3]), InPort), folds);
    AppendPair(Into(g.conns, folds), Edge(Node(ShufTrain, at[..2]), Shuffled, folds, DataPort), Edge(Node(CountTrain, at[..2]), LineCount, folds, LineCnt));
  }

  lemma FoldBodyIntoTrainLin(g: Graph<Kind>, p: Params, at: seq<int>)
    requires ValidAt(p, at) && |at| == 4
    ensures var n := Node(TrainLin, at); Into(FoldBody(g, p, at).conns, n) == Into(g.conns, n) + Inputs(p, n)
  {
    FoldBodyConns(g, p, at);
    var folds, train, pred, assess := Node(CreateFolds, at), Node(TrainLin, at), Node(PredLin, at), Node(Assess, at);
    var s1 := g.conns + [Edge(Node(ShufTrain, at[..2]), Shuffled, folds, DataPort)];
    var s2 := s1 + [Edge(Node(CountTrain, at[..2]), LineCount, folds, LineCnt)];
    var s3 := s2 + [Edge(folds, TrainData, train, TrainData)];
    var s4 := s3 + [Edge(train, ModelPort, pred, ModelPort)];
    var s5 := s4 + [Edge(folds, TestDataPort, pred, TestDataPort)];
    var s6 := s5 + [Edge(folds, TestDataPort, assess, TestDataPort)];
    var s7 := s6 + [Edge(pred, Prediction, assess, Prediction)];
    IntoSkip(g.conns, Edge(Node(ShufTrain, at[..2]), Shuffled, folds, DataPort), train);
    IntoSkip(s1, Edge(Node(CountTrain, at[..2]), LineCount, folds, LineCnt), train);
    IntoTake(s2, Edge(folds, TrainData, train, TrainData));
    IntoSkip(s3, Edge(train, ModelPort, pred, ModelPort), train);
    IntoSkip(s4, Edge(folds, TestDataPort, pred, TestDataPort), train);
    IntoSkip(s5, Edge(folds, TestDataPort, assess, TestDataPort), train);
    IntoSkip(s6, Edge(pred, Prediction, assess, Prediction), train);
    IntoSkip(s7, Edge(assess, RmsdCost, Node(CostSubstream, at[..3]), InPort), train);
  }

  lemma FoldBodyIntoPredLin(g: Graph<Kind>, p: Params, at: seq<int>)
    requires ValidAt(p, at) && |at| == 4
    ensures var n := Node(PredLin, at); Into(FoldBody(g, p, at).conns, n) == Into(g.conns, n) + Inputs(p, n)
  {
    FoldBodyConns(g, p, at);
    var folds, train, pred, assess := Node(CreateFolds, at), Node(TrainLin, at), Node(PredLin, at), Node(Assess, at);
    var s1 := g.conns + [Edge(Node(ShufTrain, at[..2]), Shuffled, folds, DataPort)];
    var s2 := s1 + [Edge(Node(CountTrain, at[..2]), LineCount, folds, LineCnt)];
    var s3 := s2 + [Edge(folds, TrainData, train, TrainData)];
    var s4 := s3 + [Edge(train, ModelPort, pred, ModelPort)];
    var s5 := s4 + [Edge(folds, TestDataPort, pred, TestDataPort)];
    var s6 := s5 + [Edge(folds, TestDataPort, assess, TestDataPort)];
    var s7 := s6 + [Edge(pred, Prediction, assess, Prediction)];
    IntoSkip(g.conns, Edge(Node(ShufTrain, at[..2]), Shuffled, folds, DataPort), pred);
    IntoSkip(s1, Edge(Node(CountTrain, at[..2]), LineCount, folds, LineCnt), pred);
    IntoSkip(s2, Edge(folds, TrainData, train, TrainData), pred);
    IntoTake(s3, Edge(train, ModelPort, pred, ModelPort));
    IntoTake(s4, Edge(folds, TestDataPort, pred, TestDataPort));
    IntoSkip(s5, Edge(folds, TestDataPort, assess, TestDataPort), pred);
    IntoSkip(s6, Edge(pred, Prediction, assess, Prediction), pred);
    IntoSkip(s7, Edge(assess, RmsdCost, Node(CostSubstream, at[..3]), InPort), pred);
    AppendPair(Into(g.conns, pred), Edge(train, ModelPort, pred, ModelPort), Edge(folds, TestDataPort, pred, TestDataPort));
  }

  lemma FoldBodyIntoAssess(g: Graph<Kind>, p: Params, at: seq<int>)
    requires ValidAt(p, at) && |at| == 4
    ensures var n := Node(Assess, at); Into(FoldBody(g, p, at).conns, n) == Into(g.conns, n) + Inputs(p, n)
  {
    FoldBodyConns(g, p, at);
    var folds, train, pred, assess := Node(CreateFolds, at), Node(TrainLin, at), Node(PredLin, at), Node(Assess, at);
    var s1 := g.conns + [Edge(Node(ShufTrain, at[..2]), Shuffled, folds, DataPort)];
    var s2 := s1 + [Edge(Node(CountTrain, at[..2]), LineCount, folds, LineCnt)];
    var s3 := s2 + [Edge(folds, TrainData, train, TrainData)];
    var s4 := s3 + [Edge(train, ModelPort, pred, ModelPort)];
    var s5 := s4 + [Edge(folds, TestDataPort, pred, TestDataPort)];
    var s6 := s5 + [Edge(folds, TestDataPort, assess, TestDataPort)];
    var s7 := s6 + [Edge(pred, Prediction, assess, Prediction)];
    IntoSkip(g.conns, Edge(Node(ShufTrain, at[..2]), Shuffled, folds, DataPort), assess);
    IntoSkip(s1, Edge(Node(CountTrain, at[..2]), LineCount, folds, LineCnt), assess);
    IntoSkip(s2, Edge(folds, TrainData, train, TrainData), assess);
    IntoSkip(s3, Edge(train, ModelPort, pred, ModelPort), assess);
    IntoSkip(s4, Edge(folds, TestDataPort, pred, TestDataPort), assess);
    IntoTake(s5, Edge(folds, TestDataPort, assess, TestDataPort));
    IntoTake(s6, Edge(pred, Prediction, assess, Prediction));
    IntoSkip(s7, Edge(assess, RmsdCost, Node(CostSubstream, at[..3]), InPort), assess);
    AppendPair(Into(g.conns, assess), Edge(folds, TestDataPort, assess, TestDataPort), Edge(pred, Prediction, assess, Prediction));
  }

  /** The fold's assessment is the one connection it adds into its cost's collector. */
  lemma FoldBodyIntoCostSubstream(g: Graph<Kind>, p: Params, at: seq<int>)
    requires ValidAt(p, at) && |at| == 4
    ensures var n := Node(CostSubstream, at[..3]); Into(FoldBody(g, p, at).conns, n) == Into(g.conns, n) + [FoldCost(at[..3], at[3])]
  {
    var sub := Node(CostSubstream, at[..3]);
    FoldBodyConns(g, p, at);
    var folds, train, pred, assess := Node(CreateFolds, at), Node(TrainLin, at), Node(PredLin, at), Node(Assess, at);
    var s1 := g.conns + [Edge(Node(ShufTrain, at[..2]), Shuffled, folds, DataPort)];
    var s2 := s1 + [Edge(Node(CountTrain, at[..2]), LineCount, folds, LineCnt)];
    var s3 := s2 + [Edge(folds, TrainData, train, TrainData)];
    var s4 := s3 + [Edge(train, ModelPort, pred, ModelPort)];
    var s5 := s4 + [Edge(folds, TestDataPort, pred, TestDataPort)];
    var s6 := s5 + [Edge(folds, TestDataPort, assess, TestDataPort)];
    var s7 := s6 + [Edge(pred, Prediction, assess, Prediction)];
    IntoSkip(g.conns, Edge(Node(ShufTrain, at[..2]), Shuffled, folds, DataPort), sub);
    IntoSkip(s1, Edge(Node(CountTrain, at[..2]), LineCount, folds, LineCnt), sub);
    IntoSkip(s2, Edge(folds, TrainData, train, TrainData), sub);
    IntoSkip(s3, Edge(train, ModelPort, pred, ModelPort), sub);
    IntoSkip(s4, Edge(folds, TestDataPort, pred, TestDataPort), sub);
    IntoSkip(s5, Edge(folds, TestDataPort, assess, TestDataPort), sub);
    IntoSkip(s6, Edge(pred, Prediction, assess, Prediction), sub);
    IntoTake(s7, Edge(assess, RmsdCost, Node(CostSubstream, at[..3]), InPort));
    assert at[..3] + [at[3]] == at;
  }

  /** What FoldBody adds into any process the construction creates. */
  lemma FoldBodyInto(g: Graph<Kind>, p: Params, at: seq<int>, n: Node<Kind>)
    requires ValidAt(p, at) && |at| == 4
    requires Placed(p, n)
    ensures Into(FoldBody(g, p, at).conns, n) ==
      if n.at == at then Into(g.conns, n) + Inputs(p, n)
      else if n == Node(CostSubstream, at[..3]) then Into(g.conns, n) + [FoldCost(at[..3], at[3])]
      else Into(g.conns, n)
  {
    if n.at == at {
      match n.kind
      case CreateFolds => FoldBodyIntoCreateFolds(g, p, at);
      case TrainLin => FoldBodyIntoTrainLin(g, p, at);
      case PredLin => FoldBodyIntoPredLin(g, p, at);
      case Assess => FoldBodyIntoAssess(g, p, at);
      case _ => assert false;
    } else if n == Node(CostSubstream, at[..3]) {
      FoldBodyIntoCostSubstream(g, p, at);
    } else {
      FoldBodyOther(g, p, at, n);
    }
  }

  /** The averaging step is fed its cost and its own substream. */
  lemma TailInto(g: Graph<Kind>, p: Params, at: seq<int>, n: Node<Kind>)
    requires ValidAt(p, at) && |at| == 3
    ensures Into(Tail(g, p, at).conns, n) == if n == Node(AvgRmsd, at) then Into(g.conns, n) + Inputs(p, n) else Into(g.conns, n)
  {
    var avg := Node(AvgRmsd, at);
    var c1 := Conn(FromValue(p.CostVals[at[2]]), avg, Param(CostParam));
    var c2 := Edge(Node(CostSubstream, at), SubStream, avg, RmsdCost);
    assert Tail(g, p, at).conns == g.conns + [c1] + [c2];
    if n == avg {
      IntoTake(g.conns, c1);
      IntoTake(g.conns + [c1], c2);
    } else {
      IntoSkip(g.conns, c1, n);
      IntoSkip(g.conns + [c1], c2, n);
    }
  }

  // ---------------------------------------------------------------------
  // The loops: an iteration adds the inputs of every process inside it
  // ---------------------------------------------------------------------

  /** One more loop position narrows a prefix by one step. */
  lemma PrefixStep(at: seq<int>, i: int, b: seq<int>)
    ensures at + [i] <= b <==> at < b && b[|at|] == i
  {
    if at < b && b[|at|] == i {
      assert b[..|at| + 1] == b[..|at|] + [b[|at|]];
    }
    if at + [i] <= b {
      assert (at + [i])[..|at|] == at;
    }
  }

  /** `s` followed by what one iteration at `at` adds into process n:
      everything for a process inside the iteration, the fold's assessment
      for its cost's collector, nothing otherwise. */
  function BlockFeed(s: seq<Conn<Kind>>, p: Params, at: seq<int>, n: Node<Kind>): seq<Conn<Kind>>
    requires Placed(p, n)
  {
    if at <= n.at then s + Inputs(p, n)
    else if |at| == 4 && n == Node(CostSubstream, at[..3]) then s + [FoldCost(at[..3], at[3])]
    else s
  }

  /** `s` followed by what the first m iterations of the loop nested at
      `at` add into process n: everything for a process inside one of them,
      their assessments for the collector at `at`, nothing otherwise. */
  function ChildrenFeed(s: seq<Conn<Kind>>, p: Params, at: seq<int>, m: nat, n: Node<Kind>): seq<Conn<Kind>>
    requires Placed(p, n)
  {
    if at < n.at && n.at[|at|] < m then s + Inputs(p, n)
    else if |at| == 3 && n == Node(CostSubstream, at) then s + FoldCosts(at, m)
    else s
  }

  /** An iteration of the loop nested at `at` is itself reached. */
  lemma ValidAtStep(p: Params, at: seq<int>, i: int)
    requires ValidAt(p, at) && |at| < 4 && 0 <= i < Width(p, |at|)
    ensures ValidAt(p, at + [i])
  {
  }

  /** The first m iterations are the first m - 1 followed by the last. */
  lemma ChildrenFeedStep(s: seq<Conn<Kind>>, p: Params, at: seq<int>, m: nat, n: Node<Kind>)
    requires |at| < 4 && 0 < m && Placed(p, n)
    ensures ChildrenFeed(s, p, at, m, n) == BlockFeed(ChildrenFeed(s, p, at, m - 1, n), p, at + [m - 1], n)
  {
    PrefixStep(at, m - 1, n.at);
    if |at| == 3 {
      assert (at + [m - 1])[..3] == at;
    }
  }

  /** The data source has no inputs; every other process lies inside a
      replicate iteration. */
  lemma TopFeed(s: seq<Conn<Kind>>, p: Params, n: Node<Kind>)
    requires Placed(p, n)
    ensures BlockFeed(s, p, [], n) == ChildrenFeed(s, p, [], Width(p, 0), n)
  {
    assert [] <= n.at;
    if n.at == [] {
      assert s + [] == s;
    }
  }

  /** A replicate or train-size iteration: its own processes are fed by
      its head, the rest of its sub-tree by its loop. */
  lemma HeadFeed(s: seq<Conn<Kind>>, p: Params, at: seq<int>, n: Node<Kind>)
    requires ValidAt(p, at) && (|at| == 1 || |at| == 2) && Placed(p, n)
    ensures BlockFeed(s, p, at, n) == ChildrenFeed(if n.at == at then s + Inputs(p, n) else s, p, at, Width(p, |at|), n)
  {
  }

  /** A cost iteration: its collector is fed by its folds, its averaging
      step by the tail. */
  lemma CostFeed(s: seq<Conn<Kind>>, p: Params, at: seq<int>, n: Node<Kind>)
    requires ValidAt(p, at) && |at| == 3 && Placed(p, n)
    ensures var t := ChildrenFeed(s, p, at, Width(p, 3), n);
      BlockFeed(s, p, at, n) == if n == Node(AvgRmsd, at) then t + Inputs(p, n) else t
  {
  }

  /** A fold iteration: its own processes and its cost's collector. */
  lemma FoldFeedsOf(s: seq<Conn<Kind>>, p: Params, at: seq<int>, n: Node<Kind>)
    requires ValidAt(p, at) && |at| == 4 && Placed(p, n)
    ensures BlockFeed(s, p, at, n) ==
      if n.at == at then s + Inputs(p, n)
      else if n == Node(CostSubstream, at[..3]) then s + [FoldCost(at[..3], at[3])]
      else s
  {
    if at <= n.at {
      assert n.at == at;
    }
  }

  lemma {:induction false} BlockInto(g: Graph<Kind>, p: Params, at: seq<int>, n: Node<Kind>)
    requires ValidAt(p, at) && Placed(p, n)
    ensures Into(Block(g, p, at).conns, n) == BlockFeed(Into(g.conns, n), p, at, n)
    decreases 4 - |at|, 1, 0, 0
  {
    var s := Into(g.conns, n);
    if |at| == 0 {
      ReplicateLoopInto(TopHead(g, p), p, at, Width(p, 0), n, Children(TopHead(g, p), p, at, Width(p, 0)));
      TopFeed(s, p, n);
    } else if |at| == 1 {
      ReplicateHeadInto(g, p, at, n);
      TrainSizeLoopInto(ReplicateHead(g, p, at), p, at, Width(p, 1), n, Children(ReplicateHead(g, p, at), p, at, Width(p, 1)));
      HeadFeed(s, p, at, n);
    } else if |at| == 2 {
      TrainHeadInto(g, p, at, n);
      CostLoopInto(TrainHead(g, p, at), p, at, Width(p, 2), n, Children(TrainHead(g, p, at), p, at, Width(p, 2)));
      HeadFeed(s, p, at, n);
    } else if |at| == 3 {
      FoldLoopInto(CostHead(g, p, at), p, at, Width(p, 3), n, Children(CostHead(g, p, at), p, at, Width(p, 3)));
      TailInto(Children(CostHead(g, p, at), p, at, Width(p, 3)), p, at, n);
      CostFeed(s, p, at, n);
    } else {
      FoldBodyInto(g, p, at, n);
      FoldFeedsOf(s, p, at, n);
    }
  }

  /** The first m iterations of the replicate loop. */
  lemma {:induction false} ReplicateLoopInto(g: Graph<Kind>, p: Params, at: seq<int>, m: nat, n: Node<Kind>, c: Graph<Kind>)
    requires ValidAt(p, at) && |at| == 0 && m <= Width(p, 0) && Placed(p, n)
    requires c == Children(g, p, at, m)
    ensures Into(c.conns, n) == ChildrenFeed(Into(g.conns, n), p, at, m, n)
    decreases 4, 0, m, 1
  {
    if m > 0 {
      ReplicateLoopInto(g, p, at, m - 1, n, Children(g, p, at, m - 1));
      LastChildInto(g, p, at, m, n);
      ChildrenFeedStep(Into(g.conns, n), p, at, m, n);
    }
  }

  /** The first m iterations of the train-size loop. */
  lemma {:induction false} TrainSizeLoopInto(g: Graph<Kind>, p: Params, at: seq<int>, m: nat, n: Node<Kind>, c: Graph<Kind>)
    requires ValidAt(p, at) && |at| == 1 && m <= Width(p, 1) && Placed(p, n)
    requires c == Children(g, p, at, m)
    ensures Into(c.conns, n) == ChildrenFeed(Into(g.conns, n), p, at, m, n)
    decreases 3, 0, m, 1
  {
    if m > 0 {
      TrainSizeLoopInto(g, p, at, m - 1, n, Children(g, p, at, m - 1));
      LastChildInto(g, p, at, m, n);
      ChildrenFeedStep(Into(g.conns, n), p, at, m, n);
    }
  }

  /** The first m iterations of the cost loop. */
  lemma {:induction false} CostLoopInto(g: Graph<Kind>, p: Params, at: seq<int>, m: nat, n: Node<Kind>, c: Graph<Kind>)
    requires ValidAt(p, at) && |at| == 2 && m <= Width(p, 2) && Placed(p, n)
    requires c == Children(g, p, at, m)
    ensures Into(c.conns, n) == ChildrenFeed(Into(g.conns, n), p, at, m, n)
    decreases 2, 0, m, 1
  {
    if m > 0 {
      CostLoopInto(g, p, at, m - 1, n, Children(g, p, at, m - 1));
      LastChildInto(g, p, at, m, n);
      ChildrenFeedStep(Into(g.conns, n), p, at, m, n);
    }
  }

  /** The first m iterations of the fold loop. */
  lemma {:induction false} FoldLoopInto(g: Graph<Kind>, p: Params, at: seq<int>, m: nat, n: Node<Kind>, c: Graph<Kind>)
    requires ValidAt(p, at) && |at| == 3 && m <= Width(p, 3) && Placed(p, n)
    requires c == Children(g, p, at, m)
    ensures Into(c.conns, n) == ChildrenFeed(Into(g.conns, n), p, at, m, n)
    decreases 1, 0, m, 1
  {
    if m > 0 {
      FoldLoopInto(g, p, at, m - 1, n, Children(g, p, at, m - 1));
      LastChildInto(g, p, at, m, n);
      ChildrenFeedStep(Into(g.conns, n), p, at, m, n);
    }
  }

  /** The m-th iteration of the loop nested at `at`, after the first m - 1. */
  lemma {:induction false} LastChildInto(g: Graph<Kind>, p: Params, at: seq<int>, m: nat, n: Node<Kind>)
    requires ValidAt(p, at) && |at| < 4 && 0 < m <= Width(p, |at|) && Placed(p, n)
    ensures Into(Children(g, p, at, m).conns, n) == BlockFeed(Into(Children(g, p, at, m - 1).conns, n), p, at + [m - 1], n)
    decreases 4 - |at|, 0, m, 0
  {
    ValidAtStep(p, at, m - 1);
    BlockInto(Children(g, p, at, m - 1), p, at + [m - 1], n);
  }

  /** The whole workflow: every process the construction creates receives
      exactly the connections its kind prescribes, in order. */
  lemma CrossValidationInto(p: Params, n: Node<Kind>)
    requires Placed(p, n)
    ensures Into(CrossValidation(p).conns, n) == Inputs(p, n)
  {
    BlockInto(Empty(), p, [], n);
  }

  // ---------------------------------------------------------------------
  // Consequences for the processes the cost search is about
  // ---------------------------------------------------------------------

  /** The cost substream of a (replicate, train size, cost) iteration
      receives exactly one connection per fold, fold f's being the RMSD
      cost out-port of that fold's assessment, in fold order. */
  lemma CostSubstreamCollectsFolds(p: Params, at: seq<int>)
    requires ValidAt(p, at) && |at| == 3
    ensures var r := Into(CrossValidation(p).conns, Node(CostSubstream, at));
      && |r| == Folds(p)
      && forall f :: 0 <= f < |r| ==>
           r[f].src == FromPort(Node(Assess, at + [f]), RmsdCost) && r[f].port == Data(InPort)
  {
    CrossValidationInto(p, Node(CostSubstream, at));
  }

  /** The averaging step of a cost iteration reads its costs from that
      iteration's own substream only, and its cost parameter is that
      iteration's cost value. */
  lemma AvgRmsdReadsOwnSubstream(p: Params, at: seq<int>)
    requires ValidAt(p, at) && |at| == 3
    ensures var r := Into(CrossValidation(p).conns, Node(AvgRmsd, at));
      && |r| == 2
      && r[0].src == FromValue(p.CostVals[at[2]]) && r[0].port == Param(CostParam)
      && r[1].src == FromPort(Node(CostSubstream, at), SubStream) && r[1].port == Data(RmsdCost)
  {
    CrossValidationInto(p, Node(AvgRmsd, at));
  }

  /** Every fold of a (replicate, train size) group, whatever its cost,
      takes its data from that group's shuffler and its line count from
      that group's counter. */
  lemma CreateFoldsReadsGroup(p: Params, at: seq<int>)
    requires ValidAt(p, at) && |at| == 4
    ensures var r := Into(CrossValidation(p).conns, Node(CreateFolds, at));
      && |r| == 2
      && r[0].src == FromPort(Node(ShufTrain, at[..2]), Shuffled) && r[0].port == Data(DataPort)
      && r[1].src == FromPort(Node(CountTrain, at[..2]), LineCount) && r[1].port == Data(LineCnt)
  {
    CrossValidationInto(p, Node(CreateFolds, at));
  }

  /** Within one fold: training reads the fold's training part, prediction
      reads the trained model and the fold's test part, assessment reads the
      same test part and the prediction. */
  lemma FoldChainWiring(p: Params, at: seq<int>)
    requires ValidAt(p, at) && |at| == 4
    ensures Into(CrossValidation(p).conns, Node(TrainLin, at))
      == [Edge(Node(CreateFolds, at), TrainData, Node(TrainLin, at), TrainData)]
    ensures var r := Into(CrossValidation(p).conns, Node(PredLin, at));
      && |r| == 2
      && r[0].src == FromPort(Node(TrainLin, at), ModelPort) && r[0].port == Data(ModelPort)
      && r[1].src == FromPort(Node(CreateFolds, at), TestDataPort) && r[1].port == Data(TestDataPort)
    ensures var r := Into(CrossValidation(p).conns, Node(Assess, at));
      && |r| == 2
      && r[0].src == FromPort(Node(CreateFolds, at), TestDataPort) && r[0].port == Data(TestDataPort)
      && r[1].src == FromPort(Node(PredLin, at), Prediction) && r[1].port == Data(Prediction)
  {
    CrossValidationInto(p, Node(TrainLin, at));
    CrossValidationInto(p, Node(PredLin, at));
    CrossValidationInto(p, Node(Assess, at));
  }

  /** Both copies of a replicate's signatures come from that replicate's
      own signature generation, tagged with the run and the replicate. */
  lemma CopiesReadOwnSignatures(p: Params, at: seq<int>)
    requires ValidAt(p, at) && |at| == 1
    ensures Into(CrossValidation(p).conns, Node(RunCopy, at))
      == [Conn(FromValue(p.RunID), Node(RunCopy, at), Param(RunIdParam)),
          Edge(Node(GenSign, at), Signatures, Node(RunCopy, at), Orig)]
    ensures Into(CrossValidation(p).conns, Node(ReplCopy, at))
      == [Conn(FromValue(Replicates(p)[at[0]]), Node(ReplCopy, at), Param(ReplIdParam)),
          Edge(Node(GenSign, at), Signatures, Node(ReplCopy, at), Orig)]
  {
    CrossValidationInto(p, Node(RunCopy, at));
    CrossValidationInto(p, Node(ReplCopy, at));
  }
}
