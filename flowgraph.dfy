/** The flow library as the pipelines use it while building a graph: a
    registry of processes and the connections between their ports. A
    process is identified by a Node: what kind of process it is and the
    positions of the loop iterations that created it. Each iteration of the
    client's loops creates a fresh process object, so (kind, positions) is
    exactly the identity the client's pointers carry; the name is a separate
    string computed from the values at those positions. */
module FlowGraph {
  import opened GoPaths

  datatype Node<K> = Node(kind: K, at: seq<int>)

  /** An in-port of a process: a data port or a parameter port. */
  datatype Port = Data(name: string) | Param(name: string)

  /** Where a connection takes its items from: an out-port of a process, or
      a literal value fed to a parameter port (`FromStr`, `FromFloat`). */
  datatype Source<K> = FromPort(node: Node<K>, port: string) | FromValue(text: string)

  datatype Conn<K> = Conn(src: Source<K>, dst: Node<K>, port: Port)

  /** What a path function can see of a task: the paths of its inputs and
      the values of its parameters. */
  datatype Task = Task(inPaths: map<string, string>, params: map<string, string>)

  /** The path functions (Go closures) of the pipelines, with the variables
      each closure captured as fields. */
  datatype PathFunc =
    | CopyUnder(inPort: string, param: string)
    | SampleBam(dir: string, sampleType: string, param: string)
    | FixedPath(path: string)

  /** The inputs and parameters the function reads are present. */
  predicate Ready(f: PathFunc, t: Task) {
    match f
    case CopyUnder(i, p) => i in t.inPaths && p in t.params
    case SampleBam(_, _, p) => p in t.params
    case FixedPath(_) => true
  }

  function Eval(f: PathFunc, t: Task): string
    requires Ready(f, t)
  {
    match f
    case CopyUnder(i, p) => CopyPath(t.inPaths[i], t.params[p])
    case SampleBam(dir, s, p) => dir + "/" + s + "_" + t.params[p] + ".bam"
    case FixedPath(path) => path
  }

  /** How an out-port's path is chosen. Static paths, generator lists and
      path functions are evaluated here; template substitution (`{i:..}`,
      `{p:..}`), suffix replacement and the paths chosen inside library
      components are recorded but not evaluated. */
  datatype PathRule =
    | Static(path: string)
    | Listed(items: seq<string>)
    | Pattern(template: string)
    | Replace(inPort: string, find: string, with: string)
    | Func(f: PathFunc)
    | Batch
    | External

  datatype Output = Output(port: string, rule: PathRule)

  /** A registered process: identity, name, declared in-ports, parameter
      ports and out-ports with their path rules. */
  datatype Proc<K> = Proc(node: Node<K>, name: string, ins: seq<string>, params: seq<string>, outs: seq<Output>)

  /** What the registry holds: processes and connections in the order they
      were added. */
  datatype Graph<K> = Graph(procs: seq<Proc<K>>, conns: seq<Conn<K>>) {
    /** The registry after registering one more process. */
    function WithProc(p: Proc<K>): Graph<K> {
      Graph(procs + [p], conns)
    }

    /** The registry after adding one more connection. */
    function WithConn(c: Conn<K>): Graph<K> {
      Graph(procs, conns + [c])
    }
  }

  function Empty<K>(): Graph<K> {
    Graph([], [])
  }

  // ---------------------------------------------------------------------
  // Incoming connections
  // ---------------------------------------------------------------------

  /** The connections into `n`, in the order they were made. */
  function Into<K(==)>(conns: seq<Conn<K>>, n: Node<K>): (r: seq<Conn<K>>)
    ensures |r| <= |conns|
    decreases |conns|
  {
    if conns == [] then []
    else
      var last := conns[|conns| - 1];
      Into(conns[..|conns| - 1], n) + (if last.dst == n then [last] else [])
  }

  /** Into keeps exactly the connections whose destination is `n`. */
  lemma {:induction false} IntoMember<K>(conns: seq<Conn<K>>, n: Node<K>, c: Conn<K>)
    ensures c in Into(conns, n) <==> c in conns && c.dst == n
    decreases |conns|
  {
    if conns != [] {
      IntoMember(conns[..|conns| - 1], n, c);
      assert conns == conns[..|conns| - 1] + [conns[|conns| - 1]];
    }
  }

  /** Filtering distributes over concatenation. */
  lemma {:induction false} IntoAppend<K>(a: seq<Conn<K>>, b: seq<Conn<K>>, n: Node<K>)
    ensures Into(a + b, n) == Into(a, n) + Into(b, n)
    decreases |b|
  {
    if b == [] {
      assert a + b == a;
      assert Into(a, n) + [] == Into(a, n);
    } else {
      var b' := b[..|b| - 1];
      assert (a + b)[..|a + b| - 1] == a + b';
      IntoAppend(a, b', n);
    }
  }

  /** A connection into another process leaves the list into `n` alone. */
  lemma IntoSkip<K>(s: seq<Conn<K>>, c: Conn<K>, n: Node<K>)
    requires c.dst != n
    ensures Into(s + [c], n) == Into(s, n)
  {
    assert (s + [c])[..|s|] == s;
    assert Into(s, n) + [] == Into(s, n);
  }

  /** A connection is appended to the list into its own destination. */
  lemma IntoTake<K>(s: seq<Conn<K>>, c: Conn<K>)
    ensures Into(s + [c], c.dst) == Into(s, c.dst) + [c]
  {
    assert (s + [c])[..|s|] == s;
  }

  /** Connections appended one by one form the same list as appended together. */
  lemma AppendPair<K>(s: seq<Conn<K>>, a: Conn<K>, b: Conn<K>)
    ensures s + [a] + [b] == s + [a, b]
  {
  }

  lemma AppendThree<K>(s: seq<Conn<K>>, a: Conn<K>, b: Conn<K>, c: Conn<K>)
    ensures s + [a] + [b] + [c] == s + [a, b, c]
  {
  }

  lemma AppendFour<K>(s: seq<Conn<K>>, a: Conn<K>, b: Conn<K>, c: Conn<K>, d: Conn<K>)
    ensures s + [a] + [b] + [c] + [d] == s + [a, b, c, d]
  {
  }

  // ---------------------------------------------------------------------
  // Registered processes
  // ---------------------------------------------------------------------

  /** The registered records of process `n`, in registration order. */
  function Registered<K(==)>(procs: seq<Proc<K>>, n: Node<K>): (r: seq<Proc<K>>)
    ensures |r| <= |procs|
    decreases |procs|
  {
    if procs == [] then []
    else
      var last := procs[|procs| - 1];
      Registered(procs[..|procs| - 1], n) + (if last.node == n then [last] else [])
  }

  /** Registered keeps exactly the records of process `n`. */
  lemma {:induction false} RegisteredMember<K>(procs: seq<Proc<K>>, n: Node<K>, x: Proc<K>)
    ensures x in Registered(procs, n) <==> x in procs && x.node == n
    decreases |procs|
  {
    if procs != [] {
      RegisteredMember(procs[..|procs| - 1], n, x);
      assert procs == procs[..|procs| - 1] + [procs[|procs| - 1]];
    }
  }

  /** Registering one more record adds it to the records of its own
      process and of no other. */
  lemma RegisteredSnoc<K>(s: seq<Proc<K>>, x: Proc<K>, n: Node<K>)
    ensures Registered(s + [x], n) == Registered(s, n) + (if x.node == n then [x] else [])
  {
    assert (s + [x])[..|s|] == s;
  }

  // ---------------------------------------------------------------------
  // Counting processes
  // ---------------------------------------------------------------------

  /** How many registered processes are of kind `k`. */
  function CountKind<K(==)>(procs: seq<Proc<K>>, k: K): (c: nat)
    ensures c <= |procs|
    decreases |procs|
  {
    if procs == [] then 0
    else CountKind(procs[..|procs| - 1], k) + (if procs[|procs| - 1].node.kind == k then 1 else 0)
  }

  /** One more record counts once, for its own kind only. */
  lemma CountKindSnoc<K>(s: seq<Proc<K>>, x: Proc<K>, k: K)
    ensures CountKind(s + [x], k) == CountKind(s, k) + (if x.node.kind == k then 1 else 0)
  {
    assert (s + [x])[..|s|] == s;
  }

  // ---------------------------------------------------------------------
  // Acyclicity
  // ---------------------------------------------------------------------

  /** A sequence of connections, each leaving the process the previous one
      entered. */
  ghost predicate Chain<K>(conns: seq<Conn<K>>, path: seq<Conn<K>>) {
    && (forall i :: 0 <= i < |path| ==> path[i] in conns && path[i].src.FromPort?)
    && (forall i :: 0 <= i < |path| - 1 ==> path[i].dst == path[i + 1].src.node)
  }

  /** No chain of connections leads from a process back to itself. */
  ghost predicate Acyclic<K(!new)>(conns: seq<Conn<K>>) {
    forall path: seq<Conn<K>> :: Chain(conns, path) && |path| > 0 ==> path[|path| - 1].dst != path[0].src.node
  }

  /** Every connection between processes goes from a lower to a higher rank. */
  ghost predicate Ranked<K>(conns: seq<Conn<K>>, rank: K -> int) {
    forall c :: c in conns && c.src.FromPort? ==> rank(c.src.node.kind) < rank(c.dst.kind)
  }

  lemma {:induction false} ChainRises<K>(conns: seq<Conn<K>>, rank: K -> int, path: seq<Conn<K>>)
    requires Ranked(conns, rank) && Chain(conns, path) && |path| > 0
    ensures rank(path[0].src.node.kind) < rank(path[|path| - 1].dst.kind)
    decreases |path|
  {
    if |path| > 1 {
      var init := path[..|path| - 1];
      assert Chain(conns, init);
      ChainRises(conns, rank, init);
      assert path[|path| - 1] in conns;
    } else {
      assert path[0] in conns;
    }
  }

  /** Two ranked lists of connections make a ranked list. */
  lemma RankedAppend<K>(a: seq<Conn<K>>, b: seq<Conn<K>>, rank: K -> int)
    requires Ranked(a, rank) && Ranked(b, rank)
    ensures Ranked(a + b, rank)
  {
    forall c | c in a + b && c.src.FromPort?
      ensures rank(c.src.node.kind) < rank(c.dst.kind)
    {
      assert c in a || c in b;
    }
  }

  /** A graph whose connections all climb a ranking has no cycle. */
  lemma RankedIsAcyclic<K(!new)>(conns: seq<Conn<K>>, rank: K -> int)
    requires Ranked(conns, rank)
    ensures Acyclic(conns)
  {
    forall path: seq<Conn<K>> | Chain(conns, path) && |path| > 0
      ensures path[|path| - 1].dst != path[0].src.node
    {
      ChainRises(conns, rank, path);
    }
  }

  // ---------------------------------------------------------------------
  // The mutable workflow
  // ---------------------------------------------------------------------

  /** The registry a pipeline builds: processes and connections, appended
      in the order the client code creates them. */
  class Workflow<K(==)> {
    const name: string
    const maxTasks: int
    var procs: seq<Proc<K>>
    var conns: seq<Conn<K>>

    constructor(name: string, maxTasks: int)
      ensures this.name == name && this.maxTasks == maxTasks
      ensures procs == [] && conns == []
    {
      this.name := name;
      this.maxTasks := maxTasks;
      procs := [];
      conns := [];
    }

    function Snapshot(): Graph<K>
      reads this
    {
      Graph(procs, conns)
    }

    /** Registers a process. */
    method AddProc(p: Proc<K>)
      modifies this
      ensures Snapshot() == old(Snapshot()).WithProc(p)
    {
      procs := procs + [p];
    }

    /** Wires a source into an in-port of `dst`. */
    method Connect(src: Source<K>, dst: Node<K>, port: Port)
      modifies this
      ensures Snapshot() == old(Snapshot()).WithConn(Conn(src, dst, port))
    {
      conns := conns + [Conn(src, dst, port)];
    }
  }
}
