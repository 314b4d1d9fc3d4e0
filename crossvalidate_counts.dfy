/** How many processes of each kind the cross-validation workflow
    (mm/wffindcost.go) registers: one data source overall, and one process
    of every other kind per iteration of the loop that creates it, so the
    product of the widths of the loops around it. */
module CrossValidateCounts {
  import opened FlowGraph
  import opened CrossValidate

  /** How many iterations at depth e one iteration at depth d contains
      (1 when e <= d). */
  function Positions(p: Params, d: nat, e: nat): nat
    decreases e - d
  {
    if d >= e then 1 else Width(p, d) * Positions(p, d + 1, e)
  }

  /** What one iteration at depth |at| adds to the count of kind k. */
  function BlockCount(p: Params, at: seq<int>, k: Kind): nat {
    if |at| <= Depth(k) then Positions(p, |at|, Depth(k)) else 0
  }

  /** What the first m iterations of the loop nested at `at` add to the
      count of kind k. */
  function ChildrenCount(p: Params, at: seq<int>, m: nat, k: Kind): nat {
    if m == 0 then 0 else ChildrenCount(p, at, m - 1, k) + BlockCount(p, at + [m - 1], k)
  }

  // ---------------------------------------------------------------------
  // The straight-line stretches
  // ---------------------------------------------------------------------

  /** 1 for a process of the kind counted, 0 otherwise. */
  function Unit(b: bool): nat {
    if b then 1 else 0
  }

  /** Before its replicate loop the workflow registers the one data source. */
  lemma TopHeadCount(g: Graph<Kind>, p: Params, k: Kind)
    ensures CountKind(TopHead(g, p).procs, k) == CountKind(g.procs, k) + Unit(Depth(k) == 0)
  {
    CountKindSnoc(g.procs, MmTestDataProc(p), k);
  }

  /** A replicate iteration first registers its three processes. */
  lemma ReplicateHeadCount(g: Graph<Kind>, p: Params, at: seq<int>, k: Kind)
    requires ValidAt(p, at) && |at| == 1
    ensures CountKind(ReplicateHead(g, p, at).procs, k) == CountKind(g.procs, k) + Unit(Depth(k) == 1)
  {
    var x1, x2, x3 := GenSignProc(p, at), RunCopyProc(p, at), ReplCopyProc(p, at);
    assert ReplicateHead(g, p, at).procs == g.procs + [x1] + [x2] + [x3];
    CountKindSnoc(g.procs, x1, k);
    CountKindSnoc(g.procs + [x1], x2, k);
    CountKindSnoc(g.procs + [x1] + [x2], x3, k);
  }

  /** A train-size iteration first registers its six processes. */
  lemma TrainHeadCount(g: Graph<Kind>, p: Params, at: seq<int>, k: Kind)
    requires ValidAt(p, at) && |at| == 2
    ensures CountKind(TrainHead(g, p, at).procs, k) == CountKind(g.procs, k) + Unit(Depth(k) == 2)
  {
    var x1, x2, x3 := SampleTrainTestProc(p, at), SparseTrainProc(p, at), GunzipTrainProc(p, at);
    var x4, x5, x6 := CountTrainProc(p, at), GenRandProc(p, at), ShufTrainProc(p, at);
    var s1 := g.procs + [x1];
    var s2 := s1 + [x2];
    var s3 := s2 + [x3];
    var s4 := s3 + [x4];
    var s5 := s4 + [x5];
    assert TrainHead(g, p, at).procs == s5 + [x6];
    CountKindSnoc(g.procs, x1, k);
    CountKindSnoc(s1, x2, k);
    CountKindSnoc(s2, x3, k);
    CountKindSnoc(s3, x4, k);
    CountKindSnoc(s4, x5, k);
    CountKindSnoc(s5, x6, k);
  }

  /** A cost iteration first registers its RMSD collector. */
  lemma CostHeadCount(g: Graph<Kind>, p: Params, at: seq<int>, k: Kind)
    requires ValidAt(p, at) && |at| == 3
    ensures CountKind(CostHead(g, p, at).procs, k) == CountKind(g.procs, k) + Unit(k == CostSubstream)
  {
    CountKindSnoc(g.procs, CostSubstreamProc(p, at), k);
  }

  /** After its fold loop a cost iteration registers its averaging step. */
  lemma TailCount(g: Graph<Kind>, p: Params, at: seq<int>, k: Kind)
    requires ValidAt(p, at) && |at| == 3
    ensures CountKind(Tail(g, p, at).procs, k) == CountKind(g.procs, k) + Unit(k == AvgRmsd)
  {
    CountKindSnoc(g.procs, AvgRmsdProc(p, at), k);
  }

  /** A fold iteration registers its four processes. */
  lemma FoldBodyCount(g: Graph<Kind>, p: Params, at: seq<int>, k: Kind)
    requires ValidAt(p, at) && |at| == 4
    ensures CountKind(FoldBody(g, p, at).procs, k) == CountKind(g.procs, k) + Unit(Depth(k) == 4)
  {
    var x1, x2, x3, x4 := CreateFoldsProc(p, at), TrainLinProc(p, at), PredLinProc(p, at), AssessProc(p, at);
    assert FoldBody(g, p, at).procs == g.procs + [x1] + [x2] + [x3] + [x4];
    CountKindSnoc(g.procs, x1, k);
    CountKindSnoc(g.procs + [x1], x2, k);
    CountKindSnoc(g.procs + [x1] + [x2], x3, k);
    CountKindSnoc(g.procs + [x1] + [x2] + [x3], x4, k);
  }

  // ---------------------------------------------------------------------
  // The loops
  // ---------------------------------------------------------------------

  /** One iteration at depth |at|, inner loops included, registers one
      process of kind k per iteration at k's depth it contains. */
  lemma {:induction false} BlockCounts(g: Graph<Kind>, p: Params, at: seq<int>, k: Kind)
    requires ValidAt(p, at)
    ensures CountKind(Block(g, p, at).procs, k) == CountKind(g.procs, k) + BlockCount(p, at, k)
    decreases 4 - |at|, 1, 0, 0
  {
    BlockCountSplit(p, at, k);
    if |at| == 0 {
      var h := TopHead(g, p);
      TopHeadCount(g, p, k);
      ReplicateLoopCounts(h, p, at, Width(p, 0), k, Children(h, p, at, Width(p, 0)));
    } else if |at| == 1 {
      var h := ReplicateHead(g, p, at);
      ReplicateHeadCount(g, p, at, k);
      TrainSizeLoopCounts(h, p, at, Width(p, 1), k, Children(h, p, at, Width(p, 1)));
    } else if |at| == 2 {
      var h := TrainHead(g, p, at);
      TrainHeadCount(g, p, at, k);
      CostLoopCounts(h, p, at, Width(p, 2), k, Children(h, p, at, Width(p, 2)));
    } else if |at| == 3 {
      var h := CostHead(g, p, at);
      CostHeadCount(g, p, at, k);
      FoldLoopCounts(h, p, at, Width(p, 3), k, Children(h, p, at, Width(p, 3)));
      TailCount(Children(h, p, at, Width(p, 3)), p, at, k);
    } else {
      FoldBodyCount(g, p, at, k);
    }
  }

  /** The first m iterations of the replicate loop. */
  lemma {:induction false} ReplicateLoopCounts(g: Graph<Kind>, p: Params, at: seq<int>, m: nat, k: Kind, c: Graph<Kind>)
    requires ValidAt(p, at) && |at| == 0 && m <= Width(p, 0)
    requires c == Children(g, p, at, m)
    ensures CountKind(c.procs, k) == CountKind(g.procs, k) + ChildrenCount(p, at, m, k)
    decreases 4, 0, m, 1
  {
    if m > 0 {
      ReplicateLoopCounts(g, p, at, m - 1, k, Children(g, p, at, m - 1));
      ReplicateStepCounts(g, p, at, m, k);
    }
  }

  /** The m-th replicate iteration adds what one such iteration holds. */
  lemma {:induction false} ReplicateStepCounts(g: Graph<Kind>, p: Params, at: seq<int>, m: nat, k: Kind)
    requires ValidAt(p, at) && |at| == 0 && 0 < m <= Width(p, 0)
    ensures CountKind(Children(g, p, at, m).procs, k) ==
      CountKind(Children(g, p, at, m - 1).procs, k) + BlockCount(p, at + [m - 1], k)
    decreases 4, 0, m, 0
  {
    assert ValidAt(p, at + [m - 1]);
    BlockCounts(Children(g, p, at, m - 1), p, at + [m - 1], k);
  }

  /** The first m iterations of the train-size loop. */
  lemma {:induction false} TrainSizeLoopCounts(g: Graph<Kind>, p: Params, at: seq<int>, m: nat, k: Kind, c: Graph<Kind>)
    requires ValidAt(p, at) && |at| == 1 && m <= Width(p, 1)
    requires c == Children(g, p, at, m)
    ensures CountKind(c.procs, k) == CountKind(g.procs, k) + ChildrenCount(p, at, m, k)
    decreases 3, 0, m, 1
  {
    if m > 0 {
      TrainSizeLoopCounts(g, p, at, m - 1, k, Children(g, p, at, m - 1));
      TrainSizeStepCounts(g, p, at, m, k);
    }
  }

  /** The m-th train-size iteration adds what one such iteration holds. */
  lemma {:induction false} TrainSizeStepCounts(g: Graph<Kind>, p: Params, at: seq<int>, m: nat, k: Kind)
    requires ValidAt(p, at) && |at| == 1 && 0 < m <= Width(p, 1)
    ensures CountKind(Children(g, p, at, m).procs, k) ==
      CountKind(Children(g, p, at, m - 1).procs, k) + BlockCount(p, at + [m - 1], k)
    decreases 3, 0, m, 0
  {
    assert ValidAt(p, at + [m - 1]);
    BlockCounts(Children(g, p, at, m - 1), p, at + [m - 1], k);
  }

  /** The first m iterations of the cost loop. */
  lemma {:induction false} CostLoopCounts(g: Graph<Kind>, p: Params, at: seq<int>, m: nat, k: Kind, c: Graph<Kind>)
    requires ValidAt(p, at) && |at| == 2 && m <= Width(p, 2)
    requires c == Children(g, p, at, m)
    ensures CountKind(c.procs, k) == CountKind(g.procs, k) + ChildrenCount(p, at, m, k)
    decreases 2, 0, m, 1
  {
    if m > 0 {
      CostLoopCounts(g, p, at, m - 1, k, Children(g, p, at, m - 1));
      CostStepCounts(g, p, at, m, k);
    }
  }

  /** The m-th cost iteration adds what one such iteration holds. */
  lemma {:induction false} CostStepCounts(g: Graph<Kind>, p: Params, at: seq<int>, m: nat, k: Kind)
    requires ValidAt(p, at) && |at| == 2 && 0 < m <= Width(p, 2)
    ensures CountKind(Children(g, p, at, m).procs, k) ==
      CountKind(Children(g, p, at, m - 1).procs, k) + BlockCount(p, at + [m - 1], k)
    decreases 2, 0, m, 0
  {
    assert ValidAt(p, at + [m - 1]);
    BlockCounts(Children(g, p, at, m - 1), p, at + [m - 1], k);
  }

  /** The first m iterations of the fold loop. */
  lemma {:induction false} FoldLoopCounts(g: Graph<Kind>, p: Params, at: seq<int>, m: nat, k: Kind, c: Graph<Kind>)
    requires ValidAt(p, at) && |at| == 3 && m <= Width(p, 3)
    requires c == Children(g, p, at, m)
    ensures CountKind(c.procs, k) == CountKind(g.procs, k) + ChildrenCount(p, at, m, k)
    decreases 1, 0, m, 1
  {
    if m > 0 {
      var prev := Children(g, p, at, m - 1);
      FoldLoopCounts(g, p, at, m - 1, k, prev);
      assert ValidAt(p, at + [m - 1]);
      BlockCounts(prev, p, at + [m - 1], k);
    }
  }

  /** m iterations of a loop each add the same count: m times what one
      iteration one level deeper holds. */
  lemma {:induction false} ChildrenCountClosed(p: Params, at: seq<int>, m: nat, k: Kind)
    ensures |at| < Depth(k) ==> ChildrenCount(p, at, m, k) == m * Positions(p, |at| + 1, Depth(k))
    ensures Depth(k) <= |at| ==> ChildrenCount(p, at, m, k) == 0
  {
    if m > 0 {
      ChildrenCountClosed(p, at, m - 1, k);
      if |at| < Depth(k) {
        var q := Positions(p, |at| + 1, Depth(k));
        assert BlockCount(p, at + [m - 1], k) == q;
        assert (m - 1) * q + q == m * q;
      }
    }
  }

  /** What one iteration holds: its own stretches' processes and its
      loop's iterations. */
  lemma BlockCountSplit(p: Params, at: seq<int>, k: Kind)
    requires |at| <= 4
    ensures |at| < 3 ==> BlockCount(p, at, k) == Unit(Depth(k) == |at|) + ChildrenCount(p, at, Width(p, |at|), k)
    ensures |at| == 3 ==>
      BlockCount(p, at, k) == Unit(k == CostSubstream) + ChildrenCount(p, at, Width(p, 3), k) + Unit(k == AvgRmsd)
    ensures |at| == 4 ==> BlockCount(p, at, k) == Unit(Depth(k) == 4)
  {
    ChildrenCountClosed(p, at, Width(p, |at|), k);
    if |at| < Depth(k) {
      assert Positions(p, |at|, Depth(k)) == Width(p, |at|) * Positions(p, |at| + 1, Depth(k));
    }
  }

  /** The whole workflow registers Positions(p, 0, Depth(k)) processes of
      kind k. */
  lemma TotalCount(p: Params, k: Kind)
    ensures CountKind(CrossValidation(p).procs, k) == Positions(p, 0, Depth(k))
  {
    BlockCounts(Empty(), p, [], k);
  }

  /** The products of the loop widths, outermost first. */
  lemma PositionsFromTop(p: Params)
    ensures Positions(p, 0, 0) == 1
    ensures Positions(p, 0, 1) == |Replicates(p)|
    ensures Positions(p, 0, 2) == |Replicates(p)| * |p.TrainSizes|
    ensures Positions(p, 0, 3) == |Replicates(p)| * |p.TrainSizes| * |p.CostVals|
    ensures Positions(p, 0, 4) == |Replicates(p)| * |p.TrainSizes| * |p.CostVals| * Folds(p)
  {
    var r, t, c, f := Width(p, 0), Width(p, 1), Width(p, 2), Width(p, 3);
    assert Positions(p, 3, 4) == f * Positions(p, 4, 4);
    assert Positions(p, 2, 4) == c * Positions(p, 3, 4);
    assert Positions(p, 1, 4) == t * Positions(p, 2, 4);
    assert Positions(p, 2, 3) == c * Positions(p, 3, 3);
    assert Positions(p, 1, 3) == t * Positions(p, 2, 3);
    assert Positions(p, 1, 2) == t * Positions(p, 2, 2);
    MulAssoc(r, t, c * f);
    MulAssoc(r * t, c, f);
    MulAssoc(r, t, c);
  }

  lemma MulAssoc(a: int, b: int, c: int)
    ensures a * (b * c) == a * b * c
  {
  }

  /** The whole workflow registers one data source, one signature
      generator and two copies per replicate, six training-set steps per
      (replicate, train size), a collector and an averaging step per
      (..., cost), and four fold steps per (..., fold). */
  lemma ComponentCounts(p: Params)
    ensures CountKind(CrossValidation(p).procs, TestData) == 1
    ensures var r := |Replicates(p)|;
      && CountKind(CrossValidation(p).procs, GenSign) == r
      && CountKind(CrossValidation(p).procs, RunCopy) == r
      && CountKind(CrossValidation(p).procs, ReplCopy) == r
    ensures var rt := |Replicates(p)| * |p.TrainSizes|;
      forall k :: Depth(k) == 2 ==> CountKind(CrossValidation(p).procs, k) == rt
    ensures var rtc := |Replicates(p)| * |p.TrainSizes| * |p.CostVals|;
      && CountKind(CrossValidation(p).procs, CostSubstream) == rtc
      && CountKind(CrossValidation(p).procs, AvgRmsd) == rtc
    ensures var rtcf := |Replicates(p)| * |p.TrainSizes| * |p.CostVals| * Folds(p);
      forall k :: Depth(k) == 4 ==> CountKind(CrossValidation(p).procs, k) == rtcf
  {
    PositionsFromTop(p);
    forall k
      ensures CountKind(CrossValidation(p).procs, k) == Positions(p, 0, Depth(k))
    {
      TotalCount(p, k);
    }
  }
}
