/** The two generator processes of the variant-calling pipeline
    (cawpre/cawpre.go): leaf processes without in-ports that send a fixed
    list on their single out-port and then close it. */
module Generators {
  import opened Ports

  /** The events of sending each parameter value in list order. */
  function ParamSends(params: seq<string>): (log: seq<Event>)
    ensures |log| == |params|
    ensures forall i :: 0 <= i < |params| ==> log[i] == Sent(ParamIP(params[i]))
    decreases |params|
  {
    if params == [] then []
    else ParamSends(params[..|params| - 1]) + [Sent(ParamIP(params[|params| - 1]))]
  }

  /** The events of sending one file token per path in list order. */
  function FileSends(paths: seq<string>): (log: seq<Event>)
    ensures |log| == |paths|
    ensures forall i :: 0 <= i < |paths| ==> log[i] == Sent(FileIP(paths[i]))
    decreases |paths|
  {
    if paths == [] then []
    else FileSends(paths[..|paths| - 1]) + [Sent(FileIP(paths[|paths| - 1]))]
  }

  /** A history made only of sends carries exactly the tokens it sends. */
  lemma {:induction false} SendsOnly(log: seq<Event>)
    requires forall i :: 0 <= i < |log| ==> log[i].Sent?
    ensures |Tokens(log)| == |log|
    ensures forall i :: 0 <= i < |log| ==> Tokens(log)[i] == log[i].token
    ensures CloseCount(log) == 0
    decreases |log|
  {
    if log != [] {
      SendsOnly(log[1..]);
    }
  }

  /** The history of a ParamSource run from a fresh port: every value once,
      in list order, then exactly one close and nothing after it. With an
      empty list the port is closed without any send. */
  lemma ParamSourceHistory(params: seq<string>)
    ensures var log := ParamSends(params) + [Closed];
      && WellFormed(log)
      && |Tokens(log)| == |params|
      && (forall i :: 0 <= i < |params| ==> Tokens(log)[i] == ParamIP(params[i]))
      && CloseCount(log) == 1
      && (params == [] ==> log == [Closed])
  {
    SendsOnly(ParamSends(params));
    TokensAppend(ParamSends(params), [Closed]);
  }

  /** The history of an IPSource run from a fresh port: one file token per
      path, in list order, then exactly one close. */
  lemma IPSourceHistory(paths: seq<string>)
    ensures var log := FileSends(paths) + [Closed];
      && WellFormed(log)
      && |Tokens(log)| == |paths|
      && (forall i :: 0 <= i < |paths| ==> Tokens(log)[i] == FileIP(paths[i]))
      && CloseCount(log) == 1
      && (paths == [] ==> log == [Closed])
  {
    SendsOnly(FileSends(paths));
    TokensAppend(FileSends(paths), [Closed]);
  }

  /** Feeds a fixed list of parameter values on its param out-port. */
  class ParamSource {
    const name: string
    const params: seq<string>
    const out: OutPort

    constructor(name: string, params: seq<string>)
      ensures this.name == name && this.params == params
      ensures fresh(out) && out.Valid() && out.log == []
    {
      this.name := name;
      this.params := params;
      out := new OutPort();
    }

    /** Sends every parameter in order, then closes the out-port. */
    method Run()
      requires out.Valid() && !out.IsClosed()
      modifies out
      ensures out.Valid()
      ensures out.log == old(out.log) + ParamSends(params) + [Closed]
    {
      for i := 0 to |params|
        invariant out.Valid()
        invariant out.log == old(out.log) + ParamSends(params[..i])
        invariant !out.IsClosed()
      {
        assert params[..i + 1][..i] == params[..i];
        out.Send(ParamIP(params[i]));
      }
      assert params[..|params|] == params;
      out.Close();
    }
  }

  /** Feeds a fixed list of files on its data out-port. */
  class IPSource {
    const name: string
    const filePaths: seq<string>
    const out: OutPort

    constructor(name: string, filePaths: seq<string>)
      ensures this.name == name && this.filePaths == filePaths
      ensures fresh(out) && out.Valid() && out.log == []
    {
      this.name := name;
      this.filePaths := filePaths;
      out := new OutPort();
    }

    /** Sends one file token per path in order, then closes the out-port. */
    method Run()
      requires out.Valid() && !out.IsClosed()
      modifies out
      ensures out.Valid()
      ensures out.log == old(out.log) + FileSends(filePaths) + [Closed]
    {
      for i := 0 to |filePaths|
        invariant out.Valid()
        invariant out.log == old(out.log) + FileSends(filePaths[..i])
        invariant !out.IsClosed()
      {
        assert filePaths[..i + 1][..i] == filePaths[..i];
        out.Send(FileIP(filePaths[i]));
      }
      assert filePaths[..|filePaths|] == filePaths;
      out.Close();
    }
  }
}
