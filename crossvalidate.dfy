/** The SVM cost grid-search workflow (mm/wffindcost.go): one sub-graph per
    replicate, per train size, per cost value and per cross-validation fold,
    built by four nested loops into one workflow. */
module CrossValidate {
  import opened GoStrings
  import opened GoPaths
  import opened FlowGraph

  /** The fields of CrossValidateWorkflowParams the graph construction
      reads. A cost value is carried as its `%f` text. */
  datatype Params = Params(
    DatasetName: string,
    RunID: string,
    ReplicateID: string,
    ReplicateIDs: seq<string>,
    FoldsCount: int,
    TrainSizes: seq<int>,
    CostVals: seq<string>)

  /** The process kinds of the workflow. */
  datatype Kind =
    | TestData
    | GenSign | RunCopy | ReplCopy
    | SampleTrainTest | SparseTrain | GunzipTrain | CountTrain | GenRand | ShufTrain
    | CostSubstream | AvgRmsd
    | CreateFolds | TrainLin | PredLin | Assess

  /** The replicates to run: the single ReplicateID when it is set,
      otherwise the list ReplicateIDs. */
  function Replicates(p: Params): (r: seq<string>)
    ensures p.ReplicateID != "" ==> r == [p.ReplicateID]
    ensures p.ReplicateID == "" ==> r == p.ReplicateIDs
  {
    if p.ReplicateID != "" then [p.ReplicateID] else p.ReplicateIDs
  }

  /** The fold loop runs foldIdx = 1 .. FoldsCount, so this many times. */
  function Folds(p: Params): nat {
    if p.FoldsCount > 0 then p.FoldsCount else 0
  }

  /** The loop nesting depth at which a kind of process is created. */
  function Depth(k: Kind): nat {
    match k
    case TestData => 0
    case GenSign | RunCopy | ReplCopy => 1
    case SampleTrainTest | SparseTrain | GunzipTrain | CountTrain | GenRand | ShufTrain => 2
    case CostSubstream | AvgRmsd => 3
    case CreateFolds | TrainLin | PredLin | Assess => 4
  }

  /** How many iterations the loop at depth d runs. */
  function Width(p: Params, d: nat): nat {
    if d == 0 then |Replicates(p)|
    else if d == 1 then |p.TrainSizes|
    else if d == 2 then |p.CostVals|
    else if d == 3 then Folds(p)
    else 0
  }

  /** A sequence of loop positions that the four loops actually reach. */
  predicate ValidAt(p: Params, at: seq<int>) {
    |at| <= 4 && forall d :: 0 <= d < |at| ==> 0 <= at[d] < Width(p, d)
  }

  /** A process identity the construction creates. */
  predicate Placed(p: Params, n: Node<Kind>) {
    ValidAt(p, n.at) && |n.at| == Depth(n.kind)
  }

  // ---------------------------------------------------------------------
  // Names
  // ---------------------------------------------------------------------

  /** What one loop level appends to the unique name suffix: `_<replID>`,
      `_tr<trainSize>`, `_c<cost>` and `_fld<foldIdx>` (foldIdx from 1). */
  function Piece(p: Params, d: nat, i: int): string
    requires d < 4 && 0 <= i < Width(p, d)
  {
    if d == 0 then "_" + Replicates(p)[i]
    else if d == 1 then "_tr" + Itoa(p.TrainSizes[i])
    else if d == 2 then "_c" + p.CostVals[i]
    else "_fld" + Itoa(i + 1)
  }

  /** The unique suffix of an iteration (uniq_r, uniq_rt, uniq_rtc,
      uniq_rtcf): the pieces of its loop positions, outermost first. */
  function Suffix(p: Params, at: seq<int>): string
    requires ValidAt(p, at)
    decreases |at|
  {
    if at == [] then "" else Suffix(p, at[..|at| - 1]) + Piece(p, |at| - 1, at[|at| - 1])
  }

  // Port names, as the component accessors and the ad-hoc commands name them.
  const Smiles := "smiles"
  const Signatures := "signatures"
  const OutPort := "out"
  const Orig := "orig"
  const RunIdParam := "runid"
  const ReplIdParam := "replid"
  const CopyPort := "copy"
  const TrainData := "traindata"
  const SparseTrainData := "sparsetraindata"
  const Ungzipped := "ungzipped"
  const FilePort := "file"
  const LineCount := "linecount"
  const BasePath := "basepath"
  const RandBytes := "randbytes"
  const DataPort := "data"
  const Shuffled := "shuffled"
  const SubStream := "substream"
  const InPort := "in"
  const RmsdCost := "rmsdcost"
  const CostParam := "cost"
  const AvgRmsdPort := "avgrmsd"
  const LineCnt := "linecnt"
  const TestDataPort := "testdata"
  const ModelPort := "model"
  const Prediction := "prediction"

  // One record function per process constructor. Library components
  // (NewGenSignFilterSubst, NewSampleTrainAndTest, ...) are defined outside
  // this model: their ports are named after the accessors used here and the
  // paths they choose are External.

  function MmTestDataProc(p: Params): Proc<Kind> {
    Proc(Node(TestData, []), "mmTestData", [], [], [Output(OutPort, Listed(["data/" + p.DatasetName + ".smi"]))])
  }

  function GenSignProc(p: Params, at: seq<int>): Proc<Kind>
    requires ValidAt(p, at) && |at| == 1
  {
    Proc(Node(GenSign, at), "gensign" + Suffix(p, at), [Smiles], [], [Output(Signatures, External)])
  }

  /** The template set first for CopyPort is replaced by the path function
      set right after it. */
  function RunCopyProc(p: Params, at: seq<int>): Proc<Kind>
    requires ValidAt(p, at) && |at| == 1
  {
    Proc(Node(RunCopy, at), "create_runcopy" + Suffix(p, at), [Orig], [RunIdParam], [Output(CopyPort, Func(CopyUnder(Orig, RunIdParam)))])
  }

  function ReplCopyProc(p: Params, at: seq<int>): Proc<Kind>
    requires ValidAt(p, at) && |at| == 1
  {
    Proc(Node(ReplCopy, at), "create_replcopy_" + Suffix(p, at), [Orig], [ReplIdParam], [Output(CopyPort, Func(CopyUnder(Orig, ReplIdParam)))])
  }

  function SampleTrainTestProc(p: Params, at: seq<int>): Proc<Kind>
    requires ValidAt(p, at) && |at| == 2
  {
    Proc(Node(SampleTrainTest, at), "sample_train_test" + Suffix(p, at), [Signatures], [], [Output(TrainData, External)])
  }

  function SparseTrainProc(p: Params, at: seq<int>): Proc<Kind>
    requires ValidAt(p, at) && |at| == 2
  {
    Proc(Node(SparseTrain, at), "sparsetrain" + Suffix(p, at), [TrainData], [], [Output(SparseTrainData, External)])
  }

  function GunzipTrainProc(p: Params, at: seq<int>): Proc<Kind>
    requires ValidAt(p, at) && |at| == 2
  {
    Proc(Node(GunzipTrain, at), "gunzip_sparsetrain" + Suffix(p, at), [Orig], [], [Output(Ungzipped, Pattern("{i:orig}.ungz"))])
  }

  function CountTrainProc(p: Params, at: seq<int>): Proc<Kind>
    requires ValidAt(p, at) && |at| == 2
  {
    Proc(Node(CountTrain, at), "cnttrain" + Suffix(p, at), [FilePort], [], [Output(LineCount, External)])
  }

  function GenRandProc(p: Params, at: seq<int>): Proc<Kind>
    requires ValidAt(p, at) && |at| == 2
  {
    Proc(Node(GenRand, at), "genrand" + Suffix(p, at), [BasePath], [], [Output(RandBytes, External)])
  }

  /** The shuffler alone is named `shuftrain_<trainSize>_<replID>`. */
  function ShufTrainProc(p: Params, at: seq<int>): Proc<Kind>
    requires ValidAt(p, at) && |at| == 2
  {
    Proc(Node(ShufTrain, at), "shuftrain_" + Itoa(p.TrainSizes[at[1]]) + "_" + Replicates(p)[at[0]],
         [DataPort, RandBytes], [], [Output(Shuffled, External)])
  }

  function CostSubstreamProc(p: Params, at: seq<int>): Proc<Kind>
    requires ValidAt(p, at) && |at| == 3
  {
    Proc(Node(CostSubstream, at), "cost_substr" + Suffix(p, at), [InPort], [], [Output(SubStream, Batch)])
  }

  function AvgRmsdProc(p: Params, at: seq<int>): Proc<Kind>
    requires ValidAt(p, at) && |at| == 3
  {
    Proc(Node(AvgRmsd, at), "avg_rmsd" + Suffix(p, at), [RmsdCost], [CostParam],
         [Output(AvgRmsdPort, Pattern("data/avg_rmsd/avg_rmsd_cost{p:cost}.txt"))])
  }

  function CreateFoldsProc(p: Params, at: seq<int>): Proc<Kind>
    requires ValidAt(p, at) && |at| == 4
  {
    Proc(Node(CreateFolds, at), "createfolds_" + Suffix(p, at), [DataPort, LineCnt], [],
         [Output(TrainData, External), Output(TestDataPort, External)])
  }

  function TrainLinProc(p: Params, at: seq<int>): Proc<Kind>
    requires ValidAt(p, at) && |at| == 4
  {
    Proc(Node(TrainLin, at), "trainlin" + Suffix(p, at), [TrainData], [], [Output(ModelPort, External)])
  }

  function PredLinProc(p: Params, at: seq<int>): Proc<Kind>
    requires ValidAt(p, at) && |at| == 4
  {
    Proc(Node(PredLin, at), "predlin" + Suffix(p, at), [ModelPort, TestDataPort], [], [Output(Prediction, External)])
  }

  function AssessProc(p: Params, at: seq<int>): Proc<Kind>
    requires ValidAt(p, at) && |at| == 4
  {
    Proc(Node(Assess, at), "assess" + Suffix(p, at), [TestDataPort, Prediction], [], [Output(RmsdCost, External)])
  }

  /** The record the construction registers for a process. */
  function ProcOf(p: Params, n: Node<Kind>): (r: Proc<Kind>)
    requires Placed(p, n)
    ensures r.node == n
  {
    match n.kind
    case TestData => MmTestDataProc(p)
    case GenSign => GenSignProc(p, n.at)
    case RunCopy => RunCopyProc(p, n.at)
    case ReplCopy => ReplCopyProc(p, n.at)
    case SampleTrainTest => SampleTrainTestProc(p, n.at)
    case SparseTrain => SparseTrainProc(p, n.at)
    case GunzipTrain => GunzipTrainProc(p, n.at)
    case CountTrain => CountTrainProc(p, n.at)
    case GenRand => GenRandProc(p, n.at)
    case ShufTrain => ShufTrainProc(p, n.at)
    case CostSubstream => CostSubstreamProc(p, n.at)
    case AvgRmsd => AvgRmsdProc(p, n.at)
    case CreateFolds => CreateFoldsProc(p, n.at)
    case TrainLin => TrainLinProc(p, n.at)
    case PredLin => PredLinProc(p, n.at)
    case Assess => AssessProc(p, n.at)
  }

  // ---------------------------------------------------------------------
  // What the names and paths keep apart
  // ---------------------------------------------------------------------

  /** Two sibling iterations whose suffixes agree contributed the same
      piece. */
  lemma SuffixSiblings(p: Params, at: seq<int>, i: int, j: int)
    requires ValidAt(p, at) && |at| < 4 && 0 <= i < Width(p, |at|) && 0 <= j < Width(p, |at|)
    requires Suffix(p, at + [i]) == Suffix(p, at + [j])
    ensures Piece(p, |at|, i) == Piece(p, |at|, j)
  {
    assert (at + [i])[..|at|] == at && (at + [j])[..|at|] == at;
    PrefixCancel(Suffix(p, at), Piece(p, |at|, i), Piece(p, |at|, j));
  }

  /** Within one replicate, distinct train sizes give distinct suffixes. */
  lemma TrainSuffixesDistinct(p: Params, at: seq<int>, i: int, j: int)
    requires ValidAt(p, at) && |at| == 1 && 0 <= i < |p.TrainSizes| && 0 <= j < |p.TrainSizes|
    requires p.TrainSizes[i] != p.TrainSizes[j]
    ensures Suffix(p, at + [i]) != Suffix(p, at + [j])
  {
    if Suffix(p, at + [i]) == Suffix(p, at + [j]) {
      SuffixSiblings(p, at, i, j);
      assert Piece(p, 1, i) == "_tr" + Itoa(p.TrainSizes[i]) && Piece(p, 1, j) == "_tr" + Itoa(p.TrainSizes[j]);
      PrefixCancel("_tr", Itoa(p.TrainSizes[i]), Itoa(p.TrainSizes[j]));
      ItoaInjective(p.TrainSizes[i], p.TrainSizes[j]);
    }
  }

  /** Within one cost iteration, distinct folds give distinct suffixes. */
  lemma FoldSuffixesDistinct(p: Params, at: seq<int>, i: int, j: int)
    requires ValidAt(p, at) && |at| == 3 && 0 <= i < Folds(p) && 0 <= j < Folds(p) && i != j
    ensures Suffix(p, at + [i]) != Suffix(p, at + [j])
  {
    if Suffix(p, at + [i]) == Suffix(p, at + [j]) {
      SuffixSiblings(p, at, i, j);
      assert Piece(p, 3, i) == "_fld" + Itoa(i + 1) && Piece(p, 3, j) == "_fld" + Itoa(j + 1);
      PrefixCancel("_fld", Itoa(i + 1), Itoa(j + 1));
      ItoaInjective(i + 1, j + 1);
    }
  }

  /** The parameter a copy process files its copy under. */
  function CopyParam(k: Kind): string {
    if k == RunCopy then RunIdParam else ReplIdParam
  }

  /** The run copy and the replicate copy put the file `orig` under a
      sub-directory named by their parameter, next to the original, and
      keep its file name. */
  lemma CopyKeepsName(p: Params, at: seq<int>, k: Kind, t: Task)
    requires ValidAt(p, at) && |at| == 1 && (k == RunCopy || k == ReplCopy)
    requires Orig in t.inPaths && HasElement(t.inPaths[Orig]) && CopyParam(k) in t.params
    ensures var o, orig := ProcOf(p, Node(k, at)).outs[0], t.inPaths[Orig];
      && o.port == CopyPort && o.rule.Func? && Ready(o.rule.f, t)
      && Eval(o.rule.f, t) == Dir(orig) + "/" + t.params[CopyParam(k)] + "/" + Base(orig)
      && Base(Eval(o.rule.f, t)) == Base(orig)
  {
    CopyPathKeepsBase(t.inPaths[Orig], t.params[CopyParam(k)]);
  }

  /** Tasks of a copy process that copy the same file under different
      parameter values write to different paths. */
  lemma CopiesSeparate(p: Params, at: seq<int>, k: Kind, t1: Task, t2: Task)
    requires ValidAt(p, at) && |at| == 1 && (k == RunCopy || k == ReplCopy)
    requires Orig in t1.inPaths && Orig in t2.inPaths && t1.inPaths[Orig] == t2.inPaths[Orig]
    requires CopyParam(k) in t1.params && CopyParam(k) in t2.params
    requires t1.params[CopyParam(k)] != t2.params[CopyParam(k)]
    ensures var f := ProcOf(p, Node(k, at)).outs[0].rule.f;
      Ready(f, t1) && Ready(f, t2) && Eval(f, t1) != Eval(f, t2)
  {
    if CopyPath(t1.inPaths[Orig], t1.params[CopyParam(k)]) == CopyPath(t2.inPaths[Orig], t2.params[CopyParam(k)]) {
      CopyPathInjective(t1.inPaths[Orig], t1.params[CopyParam(k)], t2.params[CopyParam(k)]);
    }
  }

  // ---------------------------------------------------------------------
  // The graph the loops build, level by level
  // ---------------------------------------------------------------------

  function Edge(from: Node<Kind>, out: string, to: Node<Kind>, in_: string): Conn<Kind> {
    Conn(FromPort(from, out), to, Data(in_))
  }

  // Each level function below takes the registry as it was before that
  // stretch of code and returns it as it is after, one WithProc per
  // process created and one WithConn per wiring call, in statement order.

  /** The data source, created once before the loops. */
  function TopHead(g: Graph<Kind>, p: Params): Graph<Kind> {
    g.WithProc(MmTestDataProc(p))
  }

  /** A replicate iteration before its train-size loop: signature
      generation and the two copies of the signatures file. */
  function ReplicateHead(g: Graph<Kind>, p: Params, at: seq<int>): Graph<Kind>
    requires ValidAt(p, at) && |at| == 1
  {
    var genSign, runCopy, replCopy := Node(GenSign, at), Node(RunCopy, at), Node(ReplCopy, at);
    g.WithProc(GenSignProc(p, at))
     .WithConn(Edge(Node(TestData, []), OutPort, genSign, Smiles))
     .WithProc(RunCopyProc(p, at))
     .WithConn(Conn(FromValue(p.RunID), runCopy, Param(RunIdParam)))
     .WithConn(Edge(genSign, Signatures, runCopy, Orig))
     .WithProc(ReplCopyProc(p, at))
     .WithConn(Conn(FromValue(Replicates(p)[at[0]]), replCopy, Param(ReplIdParam)))
     .WithConn(Edge(genSign, Signatures, replCopy, Orig))
  }

  /** A train-size iteration before its cost loop: sampling, sparsing,
      unzipping, counting and shuffling the training set. */
  function TrainHead(g: Graph<Kind>, p: Params, at: seq<int>): Graph<Kind>
    requires ValidAt(p, at) && |at| == 2
  {
    var stt, sparse, gunzip := Node(SampleTrainTest, at), Node(SparseTrain, at), Node(GunzipTrain, at);
    var cnt, rand, shuf := Node(CountTrain, at), Node(GenRand, at), Node(ShufTrain, at);
    g.WithProc(SampleTrainTestProc(p, at))
     .WithConn(Edge(Node(ReplCopy, at[..1]), CopyPort, stt, Signatures))
     .WithProc(SparseTrainProc(p, at))
     .WithConn(Edge(stt, TrainData, sparse, TrainData))
     .WithProc(GunzipTrainProc(p, at))
     .WithConn(Edge(sparse, SparseTrainData, gunzip, Orig))
     .WithProc(CountTrainProc(p, at))
     .WithConn(Edge(gunzip, Ungzipped, cnt, FilePort))
     .WithProc(GenRandProc(p, at))
     .WithConn(Edge(gunzip, Ungzipped, rand, BasePath))
     .WithProc(ShufTrainProc(p, at))
     .WithConn(Edge(gunzip, Ungzipped, shuf, DataPort))
     .WithConn(Edge(rand, RandBytes, shuf, RandBytes))
  }

  /** A cost iteration before its fold loop: the substream collector. */
  function CostHead(g: Graph<Kind>, p: Params, at: seq<int>): Graph<Kind>
    requires ValidAt(p, at) && |at| == 3
  {
    g.WithProc(CostSubstreamProc(p, at))
  }

  /** One fold iteration: fold creation, training, prediction and
      assessment, whose cost goes to the cost's substream collector. */
  function FoldBody(g: Graph<Kind>, p: Params, at: seq<int>): Graph<Kind>
    requires ValidAt(p, at) && |at| == 4
  {
    var folds, train, pred, assess := Node(CreateFolds, at), Node(TrainLin, at), Node(PredLin, at), Node(Assess, at);
    g.WithProc(CreateFoldsProc(p, at))
     .WithConn(Edge(Node(ShufTrain, at[..2]), Shuffled, folds, DataPort))
     .WithConn(Edge(Node(CountTrain, at[..2]), LineCount, folds, LineCnt))
     .WithProc(TrainLinProc(p, at))
     .WithConn(Edge(folds, TrainData, train, TrainData))
     .WithProc(PredLinProc(p, at))
     .WithConn(Edge(train, ModelPort, pred, ModelPort))
     .WithConn(Edge(folds, TestDataPort, pred, TestDataPort))
     .WithProc(AssessProc(p, at))
     .WithConn(Edge(folds, TestDataPort, assess, TestDataPort))
     .WithConn(Edge(pred, Prediction, assess, Prediction))
     .WithConn(Edge(assess, RmsdCost, Node(CostSubstream, at[..3]), InPort))
  }

  /** What a cost iteration adds after its fold loop: the averaging step. */
  function Tail(g: Graph<Kind>, p: Params, at: seq<int>): Graph<Kind>
    requires ValidAt(p, at) && |at| == 3
  {
    var avg := Node(AvgRmsd, at);
    g.WithProc(AvgRmsdProc(p, at))
     .WithConn(Conn(FromValue(p.CostVals[at[2]]), avg, Param(CostParam)))
     .WithConn(Edge(Node(CostSubstream, at), SubStream, avg, RmsdCost))
  }

  /** The registry after one iteration at loop depth |at|, inner loops
      included, starting from `g`; for the empty position, after the whole
      construction. */
  function Block(g: Graph<Kind>, p: Params, at: seq<int>): Graph<Kind>
    requires ValidAt(p, at)
    decreases 4 - |at|, 1, 0
  {
    if |at| == 0 then Children(TopHead(g, p), p, at, Width(p, 0))
    else if |at| == 1 then Children(ReplicateHead(g, p, at), p, at, Width(p, 1))
    else if |at| == 2 then Children(TrainHead(g, p, at), p, at, Width(p, 2))
    else if |at| == 3 then Tail(Children(CostHead(g, p, at), p, at, Width(p, 3)), p, at)
    else FoldBody(g, p, at)
  }

  /** The registry after the first m iterations of the loop nested in
      position `at`, starting from `g`. */
  function Children(g: Graph<Kind>, p: Params, at: seq<int>, m: nat): Graph<Kind>
    requires ValidAt(p, at) && |at| < 4 && m <= Width(p, |at|)
    decreases 4 - |at|, 0, m
  {
    if m == 0 then g else Block(Children(g, p, at, m - 1), p, at + [m - 1])
  }

  /** The whole cross-validation workflow. */
  function CrossValidation(p: Params): Graph<Kind> {
    Block(Empty(), p, [])
  }

  // ---------------------------------------------------------------------
  // The construction, loop by loop
  // ---------------------------------------------------------------------

  /** NewCrossValidateWorkflow: registers every process and connection in
      the order the nested loops create them. Each loop body is a method of
      its own below, given the loop positions `at` of its iteration. */
  method NewCrossValidateWorkflow(maxTasks: int, p: Params) returns (wf: Workflow<Kind>)
    ensures fresh(wf) && wf.name == "cross_validate" && wf.maxTasks == maxTasks
    ensures wf.Snapshot() == CrossValidation(p)
  {
    wf := new Workflow("cross_validate", maxTasks);
    wf.AddProc(MmTestDataProc(p));

    var replicateIds := p.ReplicateIDs;
    if p.ReplicateID != "" {
      replicateIds := [p.ReplicateID];
    }
    assert replicateIds == Replicates(p);

    ghost var head := wf.Snapshot();
    for ri := 0 to |replicateIds|
      invariant wf.Snapshot() == Children(head, p, [], ri)
    {
      AddReplicate(wf, p, [] + [ri], replicateIds[ri]);
    }
  }

  /** The body of the replicate loop. */
  method AddReplicate(wf: Workflow<Kind>, p: Params, at: seq<int>, replicateId: string)
    requires ValidAt(p, at) && |at| == 1 && replicateId == Replicates(p)[at[0]]
    modifies wf
    ensures wf.Snapshot() == Block(old(wf.Snapshot()), p, at)
  {
    var genSign := Node(GenSign, at);
    wf.AddProc(GenSignProc(p, at));
    wf.Connect(FromPort(Node(TestData, []), OutPort), genSign, Data(Smiles));

    var createRunCopy := Node(RunCopy, at);
    wf.AddProc(RunCopyProc(p, at));
    wf.Connect(FromValue(p.RunID), createRunCopy, Param(RunIdParam));
    wf.Connect(FromPort(genSign, Signatures), createRunCopy, Data(Orig));

    var createReplCopy := Node(ReplCopy, at);
    wf.AddProc(ReplCopyProc(p, at));
    wf.Connect(FromValue(replicateId), createReplCopy, Param(ReplIdParam));
    wf.Connect(FromPort(genSign, Signatures), createReplCopy, Data(Orig));

    ghost var head := wf.Snapshot();
    for ti := 0 to |p.TrainSizes|
      invariant wf.Snapshot() == Children(head, p, at, ti)
    {
      AddTrainSize(wf, p, at + [ti]);
    }
  }

  /** The body of the train-size loop. */
  method AddTrainSize(wf: Workflow<Kind>, p: Params, at: seq<int>)
    requires ValidAt(p, at) && |at| == 2
    modifies wf
    ensures wf.Snapshot() == Block(old(wf.Snapshot()), p, at)
  {
    AddTrainPreparation(wf, p, at);

    ghost var head := wf.Snapshot();
    for ci := 0 to |p.CostVals|
      invariant wf.Snapshot() == Children(head, p, at, ci)
    {
      AddCost(wf, p, at + [ci]);
    }
  }

  /** The first part of the train-size loop body: sampling, sparse
      conversion, unzipping, line counting, random bytes and shuffling. */
  method AddTrainPreparation(wf: Workflow<Kind>, p: Params, at: seq<int>)
    requires ValidAt(p, at) && |at| == 2
    modifies wf
    ensures wf.Snapshot() == TrainHead(old(wf.Snapshot()), p, at)
  {
    var sampleTrainTest := Node(SampleTrainTest, at);
    wf.AddProc(SampleTrainTestProc(p, at));
    wf.Connect(FromPort(Node(ReplCopy, at[..1]), CopyPort), sampleTrainTest, Data(Signatures));

    var sparseTrain := Node(SparseTrain, at);
    wf.AddProc(SparseTrainProc(p, at));
    wf.Connect(FromPort(sampleTrainTest, TrainData), sparseTrain, Data(TrainData));

    var gunzipSparseTrain := Node(GunzipTrain, at);
    wf.AddProc(GunzipTrainProc(p, at));
    wf.Connect(FromPort(sparseTrain, SparseTrainData), gunzipSparseTrain, Data(Orig));

    var cntTrainData := Node(CountTrain, at);
    wf.AddProc(CountTrainProc(p, at));
    wf.Connect(FromPort(gunzipSparseTrain, Ungzipped), cntTrainData, Data(FilePort));

    var genRandBytes := Node(GenRand, at);
    wf.AddProc(GenRandProc(p, at));
    wf.Connect(FromPort(gunzipSparseTrain, Ungzipped), genRandBytes, Data(BasePath));

    var shufTrain := Node(ShufTrain, at);
    wf.AddProc(ShufTrainProc(p, at));
    wf.Connect(FromPort(gunzipSparseTrain, Ungzipped), shufTrain, Data(DataPort));
    wf.Connect(FromPort(genRandBytes, RandBytes), shufTrain, Data(RandBytes));
  }

  /** The body of the cost loop. */
  method AddCost(wf: Workflow<Kind>, p: Params, at: seq<int>)
    requires ValidAt(p, at) && |at| == 3
    modifies wf
    ensures wf.Snapshot() == Block(old(wf.Snapshot()), p, at)
  {
    var costSubStream := Node(CostSubstream, at);
    wf.AddProc(CostSubstreamProc(p, at));

    ghost var head := wf.Snapshot();
    var foldIdx := 1;
    while foldIdx <= p.FoldsCount
      invariant 1 <= foldIdx <= Folds(p) + 1
      invariant wf.Snapshot() == Children(head, p, at, foldIdx - 1)
    {
      AddFold(wf, p, at + [foldIdx - 1]);
      foldIdx := foldIdx + 1;
    }

    var avgRMSD := Node(AvgRmsd, at);
    wf.AddProc(AvgRmsdProc(p, at));
    wf.Connect(FromValue(p.CostVals[at[2]]), avgRMSD, Param(CostParam));
    wf.Connect(FromPort(costSubStream, SubStream), avgRMSD, Data(RmsdCost));
  }

  /** The body of the fold loop, for foldIdx = at[3] + 1. */
  method AddFold(wf: Workflow<Kind>, p: Params, at: seq<int>)
    requires ValidAt(p, at) && |at| == 4
    modifies wf
    ensures wf.Snapshot() == Block(old(wf.Snapshot()), p, at)
  {
    var createFolds := Node(CreateFolds, at);
    wf.AddProc(CreateFoldsProc(p, at));
    wf.Connect(FromPort(Node(ShufTrain, at[..2]), Shuffled), createFolds, Data(DataPort));
    wf.Connect(FromPort(Node(CountTrain, at[..2]), LineCount), createFolds, Data(LineCnt));

    var trainLibLin := Node(TrainLin, at);
    wf.AddProc(TrainLinProc(p, at));
    wf.Connect(FromPort(createFolds, TrainData), trainLibLin, Data(TrainData));

    var predLibLin := Node(PredLin, at);
    wf.AddProc(PredLinProc(p, at));
    wf.Connect(FromPort(trainLibLin, ModelPort), predLibLin, Data(ModelPort));
    wf.Connect(FromPort(createFolds, TestDataPort), predLibLin, Data(TestDataPort));

    var assessLibLin := Node(Assess, at);
    wf.AddProc(AssessProc(p, at));
    wf.Connect(FromPort(createFolds, TestDataPort), assessLibLin, Data(TestDataPort));
    wf.Connect(FromPort(predLibLin, Prediction), assessLibLin, Data(Prediction));

    wf.Connect(FromPort(assessLibLin, RmsdCost), Node(CostSubstream, at[..3]), Data(InPort));
  }
}
