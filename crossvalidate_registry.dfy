/** What the cross-validation workflow (mm/wffindcost.go) registers for
    each process: exactly one record, the one ProcOf describes, for every
    process an iteration of the four loops creates, and nothing for any
    other identity. The name and path-rule lemmas about ProcOf are
    therefore about the records the workflow holds. */
module CrossValidateRegistry {
  import opened FlowGraph
  import opened CrossValidate
  import CrossValidateWiring

  /** How many records of process n one iteration at `at`, inner loops
      included, registers: one when n lies inside the iteration. */
  function BlockHits(p: Params, at: seq<int>, n: Node<Kind>): nat {
    if Placed(p, n) && at <= n.at then 1 else 0
  }

  /** How many records of process n the first m iterations of the loop
      nested at `at` register: one when n lies inside one of them. */
  function ChildrenHits(p: Params, at: seq<int>, m: nat, n: Node<Kind>): nat {
    if Placed(p, n) && at < n.at && n.at[|at|] < m then 1 else 0
  }

  /** How many records of process n the straight-line stretch of an
      iteration at `at` registers: one when n is one of its own kinds. */
  function OwnHits(at: seq<int>, n: Node<Kind>): nat {
    if n.at == at && Depth(n.kind) == |at| then 1 else 0
  }

  /** 1 when n is the process of kind k at `at`. */
  function KindHit(at: seq<int>, k: Kind, n: Node<Kind>): nat {
    if n == Node(k, at) then 1 else 0
  }

  /** Every record in `s` is the ProcOf record of a process the loops
      create. */
  predicate Described(p: Params, s: seq<Proc<Kind>>) {
    forall x :: x in s ==> Placed(p, x.node) && x == ProcOf(p, x.node)
  }

  // ---------------------------------------------------------------------
  // The straight-line stretches
  // ---------------------------------------------------------------------

  /** Before its replicate loop the workflow registers the data source. */
  lemma TopHeadRegisters(g: Graph<Kind>, p: Params, n: Node<Kind>)
    ensures |Registered(TopHead(g, p).procs, n)| == |Registered(g.procs, n)| + OwnHits([], n)
  {
    RegisteredSnoc(g.procs, MmTestDataProc(p), n);
  }

  /** A replicate iteration first registers its three processes. */
  lemma ReplicateHeadRegisters(g: Graph<Kind>, p: Params, at: seq<int>, n: Node<Kind>)
    requires ValidAt(p, at) && |at| == 1
    ensures |Registered(ReplicateHead(g, p, at).procs, n)| == |Registered(g.procs, n)| + OwnHits(at, n)
  {
    var x1, x2, x3 := GenSignProc(p, at), RunCopyProc(p, at), ReplCopyProc(p, at);
    assert ReplicateHead(g, p, at).procs == g.procs + [x1] + [x2] + [x3];
    RegisteredSnoc(g.procs, x1, n);
    RegisteredSnoc(g.procs + [x1], x2, n);
    RegisteredSnoc(g.procs + [x1] + [x2], x3, n);
  }

  /** The records a train-size iteration registers before its cost loop. */
  lemma TrainHeadProcs(g: Graph<Kind>, p: Params, at: seq<int>)
    requires ValidAt(p, at) && |at| == 2
    ensures TrainHead(g, p, at).procs ==
      g.procs + [SampleTrainTestProc(p, at)] + [SparseTrainProc(p, at)] + [GunzipTrainProc(p, at)]
      + [CountTrainProc(p, at)] + [GenRandProc(p, at)] + [ShufTrainProc(p, at)]
  {
  }

  /** The records a fold iteration registers. */
  lemma FoldBodyProcs(g: Graph<Kind>, p: Params, at: seq<int>)
    requires ValidAt(p, at) && |at| == 4
    ensures FoldBody(g, p, at).procs ==
      g.procs + [CreateFoldsProc(p, at)] + [TrainLinProc(p, at)] + [PredLinProc(p, at)] + [AssessProc(p, at)]
  {
  }

  /** One more record counts once more for its own process. */
  lemma RegisteredSnocCount(s: seq<Proc<Kind>>, x: Proc<Kind>, n: Node<Kind>)
    ensures |Registered(s + [x], n)| == |Registered(s, n)| + KindHit(x.node.at, x.node.kind, n)
  {
    RegisteredSnoc(s, x, n);
  }

  /** The processes of a train-size iteration's own stretch. */
  lemma TrainOwnHits(at: seq<int>, n: Node<Kind>)
    requires |at| == 2
    ensures OwnHits(at, n) == KindHit(at, SampleTrainTest, n) + KindHit(at, SparseTrain, n) + KindHit(at, GunzipTrain, n)
      + KindHit(at, CountTrain, n) + KindHit(at, GenRand, n) + KindHit(at, ShufTrain, n)
  {
  }

  /** The processes of a fold iteration. */
  lemma FoldOwnHits(at: seq<int>, n: Node<Kind>)
    requires |at| == 4
    ensures OwnHits(at, n) == KindHit(at, CreateFolds, n) + KindHit(at, TrainLin, n) + KindHit(at, PredLin, n) + KindHit(at, Assess, n)
  {
  }

  /** A train-size iteration first registers its six processes. */
  lemma TrainHeadRegisters(g: Graph<Kind>, p: Params, at: seq<int>, n: Node<Kind>)
    requires ValidAt(p, at) && |at| == 2
    ensures |Registered(TrainHead(g, p, at).procs, n)| == |Registered(g.procs, n)| + OwnHits(at, n)
  {
    var x1, x2, x3 := SampleTrainTestProc(p, at), SparseTrainProc(p, at), GunzipTrainProc(p, at);
    var x4, x5, x6 := CountTrainProc(p, at), GenRandProc(p, at), ShufTrainProc(p, at);
    var s1 := g.procs + [x1];
    var s2 := s1 + [x2];
    var s3 := s2 + [x3];
    var s4 := s3 + [x4];
    var s5 := s4 + [x5];
    TrainHeadProcs(g, p, at);
    RegisteredSnocCount(g.procs, x1, n);
    RegisteredSnocCount(s1, x2, n);
    RegisteredSnocCount(s2, x3, n);
    RegisteredSnocCount(s3, x4, n);
    RegisteredSnocCount(s4, x5, n);
    RegisteredSnocCount(s5, x6, n);
    TrainOwnHits(at, n);
  }

  /** A cost iteration first registers its RMSD collector. */
  lemma CostHeadRegisters(g: Graph<Kind>, p: Params, at: seq<int>, n: Node<Kind>)
    requires ValidAt(p, at) && |at| == 3
    ensures |Registered(CostHead(g, p, at).procs, n)| == |Registered(g.procs, n)| + KindHit(at, CostSubstream, n)
  {
    RegisteredSnoc(g.procs, CostSubstreamProc(p, at), n);
  }

  /** After its fold loop a cost iteration registers its averaging step. */
  lemma TailRegisters(g: Graph<Kind>, p: Params, at: seq<int>, n: Node<Kind>)
    requires ValidAt(p, at) && |at| == 3
    ensures |Registered(Tail(g, p, at).procs, n)| == |Registered(g.procs, n)| + KindHit(at, AvgRmsd, n)
  {
    RegisteredSnoc(g.procs, AvgRmsdProc(p, at), n);
  }

  /** A fold iteration registers its four processes. */
  lemma FoldBodyRegisters(g: Graph<Kind>, p: Params, at: seq<int>, n: Node<Kind>)
    requires ValidAt(p, at) && |at| == 4
    ensures |Registered(FoldBody(g, p, at).procs, n)| == |Registered(g.procs, n)| + OwnHits(at, n)
  {
    var x1, x2, x3, x4 := CreateFoldsProc(p, at), TrainLinProc(p, at), PredLinProc(p, at), AssessProc(p, at);
    var s1 := g.procs + [x1];
    var s2 := s1 + [x2];
    var s3 := s2 + [x3];
    FoldBodyProcs(g, p, at);
    RegisteredSnocCount(g.procs, x1, n);
    RegisteredSnocCount(s1, x2, n);
    RegisteredSnocCount(s2, x3, n);
    RegisteredSnocCount(s3, x4, n);
    FoldOwnHits(at, n);
  }

  /** Adding a ProcOf record to ProcOf records keeps them ProcOf records. */
  lemma DescribedSnoc(p: Params, s: seq<Proc<Kind>>, x: Proc<Kind>)
    requires Described(p, s) && Placed(p, x.node) && x == ProcOf(p, x.node)
    ensures Described(p, s + [x])
  {
  }

  /** The straight-line stretches register only ProcOf records. */
  lemma TopHeadDescribed(g: Graph<Kind>, p: Params)
    requires Described(p, g.procs)
    ensures Described(p, TopHead(g, p).procs)
  {
    DescribedSnoc(p, g.procs, MmTestDataProc(p));
  }

  lemma ReplicateHeadDescribed(g: Graph<Kind>, p: Params, at: seq<int>)
    requires ValidAt(p, at) && |at| == 1 && Described(p, g.procs)
    ensures Described(p, ReplicateHead(g, p, at).procs)
  {
    var x1, x2, x3 := GenSignProc(p, at), RunCopyProc(p, at), ReplCopyProc(p, at);
    assert ReplicateHead(g, p, at).procs == g.procs + [x1] + [x2] + [x3];
    DescribedSnoc(p, g.procs, x1);
    DescribedSnoc(p, g.procs + [x1], x2);
    DescribedSnoc(p, g.procs + [x1] + [x2], x3);
  }

  lemma TrainHeadDescribed(g: Graph<Kind>, p: Params, at: seq<int>)
    requires ValidAt(p, at) && |at| == 2 && Described(p, g.procs)
    ensures Described(p, TrainHead(g, p, at).procs)
  {
    var x1, x2, x3 := SampleTrainTestProc(p, at), SparseTrainProc(p, at), GunzipTrainProc(p, at);
    var x4, x5, x6 := CountTrainProc(p, at), GenRandProc(p, at), ShufTrainProc(p, at);
    var s1 := g.procs + [x1];
    var s2 := s1 + [x2];
    var s3 := s2 + [x3];
    var s4 := s3 + [x4];
    var s5 := s4 + [x5];
    TrainHeadProcs(g, p, at);
    DescribedSnoc(p, g.procs, x1);
    DescribedSnoc(p, s1, x2);
    DescribedSnoc(p, s2, x3);
    DescribedSnoc(p, s3, x4);
    DescribedSnoc(p, s4, x5);
    DescribedSnoc(p, s5, x6);
  }

  lemma CostHeadDescribed(g: Graph<Kind>, p: Params, at: seq<int>)
    requires ValidAt(p, at) && |at| == 3 && Described(p, g.procs)
    ensures Described(p, CostHead(g, p, at).procs)
  {
    DescribedSnoc(p, g.procs, CostSubstreamProc(p, at));
  }

  lemma TailDescribed(g: Graph<Kind>, p: Params, at: seq<int>)
    requires ValidAt(p, at) && |at| == 3 && Described(p, g.procs)
    ensures Described(p, Tail(g, p, at).procs)
  {
    DescribedSnoc(p, g.procs, AvgRmsdProc(p, at));
  }

  lemma FoldBodyDescribed(g: Graph<Kind>, p: Params, at: seq<int>)
    requires ValidAt(p, at) && |at| == 4 && Described(p, g.procs)
    ensures Described(p, FoldBody(g, p, at).procs)
  {
    var x1, x2, x3, x4 := CreateFoldsProc(p, at), TrainLinProc(p, at), PredLinProc(p, at), AssessProc(p, at);
    FoldBodyProcs(g, p, at);
    DescribedSnoc(p, g.procs, x1);
    DescribedSnoc(p, g.procs + [x1], x2);
    DescribedSnoc(p, g.procs + [x1] + [x2], x3);
    DescribedSnoc(p, g.procs + [x1] + [x2] + [x3], x4);
  }

  // ---------------------------------------------------------------------
  // How an iteration's records split
  // ---------------------------------------------------------------------

  /** A process inside an iteration is either one of its own or lies in
      one of the iterations of its loop. */
  lemma BlockHitsSplit(p: Params, at: seq<int>, n: Node<Kind>)
    requires ValidAt(p, at)
    ensures |at| < 3 ==> BlockHits(p, at, n) == OwnHits(at, n) + ChildrenHits(p, at, Width(p, |at|), n)
    ensures |at| == 3 ==>
      BlockHits(p, at, n) == KindHit(at, CostSubstream, n) + ChildrenHits(p, at, Width(p, 3), n) + KindHit(at, AvgRmsd, n)
    ensures |at| == 4 ==> BlockHits(p, at, n) == OwnHits(at, n)
  {
    if Placed(p, n) && at <= n.at && n.at != at {
      assert at < n.at;
      assert n.at[|at|] < Width(p, |at|);
    }
  }

  /** The first m iterations are the first m - 1 followed by the last. */
  lemma ChildrenHitsStep(p: Params, at: seq<int>, m: nat, n: Node<Kind>)
    requires 0 < m
    ensures ChildrenHits(p, at, m, n) == ChildrenHits(p, at, m - 1, n) + BlockHits(p, at + [m - 1], n)
  {
    CrossValidateWiring.PrefixStep(at, m - 1, n.at);
  }

  // ---------------------------------------------------------------------
  // The loops: how many records of each process
  // ---------------------------------------------------------------------

  /** One iteration at depth |at|, inner loops included, registers one
      record of every process inside it and none of any other. */
  lemma {:induction false} BlockRegisters(g: Graph<Kind>, p: Params, at: seq<int>, n: Node<Kind>)
    requires ValidAt(p, at)
    ensures |Registered(Block(g, p, at).procs, n)| == |Registered(g.procs, n)| + BlockHits(p, at, n)
    decreases 4 - |at|, 1, 0, 0
  {
    BlockHitsSplit(p, at, n);
    if |at| == 0 {
      var h := TopHead(g, p);
      TopHeadRegisters(g, p, n);
      ReplicateLoopRegisters(h, p, at, Width(p, 0), n, Children(h, p, at, Width(p, 0)));
    } else if |at| == 1 {
      var h := ReplicateHead(g, p, at);
      ReplicateHeadRegisters(g, p, at, n);
      TrainSizeLoopRegisters(h, p, at, Width(p, 1), n, Children(h, p, at, Width(p, 1)));
    } else if |at| == 2 {
      var h := TrainHead(g, p, at);
      TrainHeadRegisters(g, p, at, n);
      CostLoopRegisters(h, p, at, Width(p, 2), n, Children(h, p, at, Width(p, 2)));
    } else if |at| == 3 {
      var h := CostHead(g, p, at);
      CostHeadRegisters(g, p, at, n);
      FoldLoopRegisters(h, p, at, Width(p, 3), n, Children(h, p, at, Width(p, 3)));
      TailRegisters(Children(h, p, at, Width(p, 3)), p, at, n);
    } else {
      FoldBodyRegisters(g, p, at, n);
    }
  }

  /** The first m iterations of the replicate loop. */
  lemma {:induction false} ReplicateLoopRegisters(g: Graph<Kind>, p: Params, at: seq<int>, m: nat, n: Node<Kind>, c: Graph<Kind>)
    requires ValidAt(p, at) && |at| == 0 && m <= Width(p, 0)
    requires c == Children(g, p, at, m)
    ensures |Registered(c.procs, n)| == |Registered(g.procs, n)| + ChildrenHits(p, at, m, n)
    decreases 4, 0, m, 1
  {
    if m > 0 {
      ReplicateLoopRegisters(g, p, at, m - 1, n, Children(g, p, at, m - 1));
      ReplicateStepRegisters(g, p, at, m, n);
      ChildrenHitsStep(p, at, m, n);
    }
  }

  /** The m-th replicate iteration registers what one such iteration holds. */
  lemma {:induction false} ReplicateStepRegisters(g: Graph<Kind>, p: Params, at: seq<int>, m: nat, n: Node<Kind>)
    requires ValidAt(p, at) && |at| == 0 && 0 < m <= Width(p, 0)
    ensures |Registered(Children(g, p, at, m).procs, n)| ==
      |Registered(Children(g, p, at, m - 1).procs, n)| + BlockHits(p, at + [m - 1], n)
    decreases 4, 0, m, 0
  {
    assert ValidAt(p, at + [m - 1]);
    BlockRegisters(Children(g, p, at, m - 1), p, at + [m - 1], n);
  }

  /** The first m iterations of the train-size loop. */
  lemma {:induction false} TrainSizeLoopRegisters(g: Graph<Kind>, p: Params, at: seq<int>, m: nat, n: Node<Kind>, c: Graph<Kind>)
    requires ValidAt(p, at) && |at| == 1 && m <= Width(p, 1)
    requires c == Children(g, p, at, m)
    ensures |Registered(c.procs, n)| == |Registered(g.procs, n)| + ChildrenHits(p, at, m, n)
    decreases 3, 0, m, 1
  {
    if m > 0 {
      TrainSizeLoopRegisters(g, p, at, m - 1, n, Children(g, p, at, m - 1));
      TrainSizeStepRegisters(g, p, at, m, n);
      ChildrenHitsStep(p, at, m, n);
    }
  }

  /** The m-th train-size iteration registers what one such iteration holds. */
  lemma {:induction false} TrainSizeStepRegisters(g: Graph<Kind>, p: Params, at: seq<int>, m: nat, n: Node<Kind>)
    requires ValidAt(p, at) && |at| == 1 && 0 < m <= Width(p, 1)
    ensures |Registered(Children(g, p, at, m).procs, n)| ==
      |Registered(Children(g, p, at, m - 1).procs, n)| + BlockHits(p, at + [m - 1], n)
    decreases 3, 0, m, 0
  {
    assert ValidAt(p, at + [m - 1]);
    BlockRegisters(Children(g, p, at, m - 1), p, at + [m - 1], n);
  }

  /** The first m iterations of the cost loop. */
  lemma {:induction false} CostLoopRegisters(g: Graph<Kind>, p: Params, at: seq<int>, m: nat, n: Node<Kind>, c: Graph<Kind>)
    requires ValidAt(p, at) && |at| == 2 && m <= Width(p, 2)
    requires c == Children(g, p, at, m)
    ensures |Registered(c.procs, n)| == |Registered(g.procs, n)| + ChildrenHits(p, at, m, n)
    decreases 2, 0, m, 1
  {
    if m > 0 {
      CostLoopRegisters(g, p, at, m - 1, n, Children(g, p, at, m - 1));
      CostStepRegisters(g, p, at, m, n);
      ChildrenHitsStep(p, at, m, n);
    }
  }

  /** The m-th cost iteration registers what one such iteration holds. */
  lemma {:induction false} CostStepRegisters(g: Graph<Kind>, p: Params, at: seq<int>, m: nat, n: Node<Kind>)
    requires ValidAt(p, at) && |at| == 2 && 0 < m <= Width(p, 2)
    ensures |Registered(Children(g, p, at, m).procs, n)| ==
      |Registered(Children(g, p, at, m - 1).procs, n)| + BlockHits(p, at + [m - 1], n)
    decreases 2, 0, m, 0
  {
    assert ValidAt(p, at + [m - 1]);
    BlockRegisters(Children(g, p, at, m - 1), p, at + [m - 1], n);
  }

  /** The first m iterations of the fold loop. */
  lemma {:induction false} FoldLoopRegisters(g: Graph<Kind>, p: Params, at: seq<int>, m: nat, n: Node<Kind>, c: Graph<Kind>)
    requires ValidAt(p, at) && |at| == 3 && m <= Width(p, 3)
    requires c == Children(g, p, at, m)
    ensures |Registered(c.procs, n)| == |Registered(g.procs, n)| + ChildrenHits(p, at, m, n)
    decreases 1, 0, m, 1
  {
    if m > 0 {
      var prev := Children(g, p, at, m - 1);
      FoldLoopRegisters(g, p, at, m - 1, n, prev);
      assert ValidAt(p, at + [m - 1]);
      BlockRegisters(prev, p, at + [m - 1], n);
      ChildrenHitsStep(p, at, m, n);
    }
  }

  // ---------------------------------------------------------------------
  // The loops: which records
  // ---------------------------------------------------------------------

  /** An iteration, inner loops included, registers only ProcOf records. */
  lemma {:induction false} BlockDescribed(g: Graph<Kind>, p: Params, at: seq<int>)
    requires ValidAt(p, at) && Described(p, g.procs)
    ensures Described(p, Block(g, p, at).procs)
    decreases 4 - |at|, 1, 0
  {
    if |at| == 0 {
      TopHeadDescribed(g, p);
      ChildrenDescribed(TopHead(g, p), p, at, Width(p, 0));
    } else if |at| == 1 {
      ReplicateHeadDescribed(g, p, at);
      ChildrenDescribed(ReplicateHead(g, p, at), p, at, Width(p, 1));
    } else if |at| == 2 {
      TrainHeadDescribed(g, p, at);
      ChildrenDescribed(TrainHead(g, p, at), p, at, Width(p, 2));
    } else if |at| == 3 {
      var h := CostHead(g, p, at);
      CostHeadDescribed(g, p, at);
      ChildrenDescribed(h, p, at, Width(p, 3));
      TailDescribed(Children(h, p, at, Width(p, 3)), p, at);
    } else {
      FoldBodyDescribed(g, p, at);
    }
  }

  /** The first m iterations of a loop register only ProcOf records. */
  lemma {:induction false} ChildrenDescribed(g: Graph<Kind>, p: Params, at: seq<int>, m: nat)
    requires ValidAt(p, at) && |at| < 4 && m <= Width(p, |at|) && Described(p, g.procs)
    ensures Described(p, Children(g, p, at, m).procs)
    decreases 4 - |at|, 0, m
  {
    if m > 0 {
      ChildrenDescribed(g, p, at, m - 1);
      assert ValidAt(p, at + [m - 1]);
      BlockDescribed(Children(g, p, at, m - 1), p, at + [m - 1]);
    }
  }

  // ---------------------------------------------------------------------
  // The whole workflow
  // ---------------------------------------------------------------------

  /** The workflow registers exactly one record for each process the loops
      create, the one ProcOf describes, and none for any other identity. */
  lemma RegisteredOnce(p: Params, n: Node<Kind>)
    ensures Placed(p, n) ==> Registered(CrossValidation(p).procs, n) == [ProcOf(p, n)]
    ensures !Placed(p, n) ==> Registered(CrossValidation(p).procs, n) == []
  {
    var procs := CrossValidation(p).procs;
    BlockRegisters(Empty(), p, [], n);
    BlockDescribed(Empty(), p, []);
    var r := Registered(procs, n);
    if Placed(p, n) {
      assert |r| == 1;
      RegisteredMember(procs, n, r[0]);
      assert r == [r[0]];
    }
  }

  /** Every record in the registry is the ProcOf record of a process the
      loops create. */
  lemma RegistryIsProcOf(p: Params)
    ensures Described(p, CrossValidation(p).procs)
  {
    BlockDescribed(Empty(), p, []);
  }
}
