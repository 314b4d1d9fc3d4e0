/** Out-ports of the flow library, seen from the outside: what was sent on a
    port, in order, and whether it was closed. Channel buffering and
    back-pressure belong to the library's scheduler and are not modelled. */
module Ports {

  /** One unit of data on a port: a file (by path) or a parameter value. */
  datatype Token = FileIP(path: string) | ParamIP(value: string)

  /** What happened on a port. */
  datatype Event = Sent(token: Token) | Closed

  /** A port's history is well formed when nothing follows a close. */
  predicate WellFormed(log: seq<Event>) {
    forall i :: 0 <= i < |log| - 1 ==> log[i] != Closed
  }

  /** The tokens sent on a port, in sending order. */
  function Tokens(log: seq<Event>): (ts: seq<Token>)
    ensures |ts| <= |log|
  {
    if log == [] then []
    else (if log[0].Sent? then [log[0].token] else []) + Tokens(log[1..])
  }

  /** How many times the port was closed. */
  function CloseCount(log: seq<Event>): nat {
    if log == [] then 0
    else (if log[0] == Closed then 1 else 0) + CloseCount(log[1..])
  }

  lemma {:induction false} TokensAppend(a: seq<Event>, b: seq<Event>)
    ensures Tokens(a + b) == Tokens(a) + Tokens(b)
    ensures CloseCount(a + b) == CloseCount(a) + CloseCount(b)
    decreases |a|
  {
    if a != [] {
      assert (a + b)[1..] == a[1..] + b;
      TokensAppend(a[1..], b);
    } else {
      assert a + b == b;
    }
  }

  /** The sending end of a channel, recorded as its event history. */
  class OutPort {
    var log: seq<Event>

    ghost predicate Valid()
      reads this
    {
      WellFormed(log)
    }

    predicate IsClosed()
      reads this
    {
      Closed in log
    }

    constructor()
      ensures Valid() && log == []
    {
      log := [];
    }

    /** Sends one token; sending on a closed channel is a failure in Go, so
        the port must still be open. */
    method Send(t: Token)
      requires Valid() && !IsClosed()
      modifies this
      ensures Valid() && log == old(log) + [Sent(t)]
    {
      log := log + [Sent(t)];
    }

    /** Closes the port; closing an already closed port changes nothing. */
    method Close()
      requires Valid()
      modifies this
      ensures Valid() && IsClosed()
      ensures log == if old(IsClosed()) then old(log) else old(log) + [Closed]
    {
      if Closed !in log {
        log := log + [Closed];
      }
    }
  }
}
