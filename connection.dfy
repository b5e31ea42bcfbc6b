/** The manager of the one connection to the bus: a handle that is present or
    absent, and a `connected` flag. What the bus library does when it is asked
    to construct, start or stop a connection is given as a parameter. */
module Connection {

  /** The library's connection object; only its identity matters here. */
  class Xknx {
    constructor ()
    {
    }
  }

  /** How an attempt to connect ends: the connection object cannot be built,
      it is built but fails to start, or it starts. */
  datatype StartOutcome = ConstructionFails | ConnectFails | Connects

  /** The manager's state, without the identity of the handle. */
  datatype Status = Status(hasHandle: bool, connected: bool)

  /** The manager's invariant: it is connected only while it holds a handle. */
  predicate Consistent(s: Status)
  {
    s.connected ==> s.hasHandle
  }

  /** The effect of `start`: refused while a handle is held; otherwise the
      handle is kept from the moment it is built, even when starting it fails. */
  function StartStatus(s: Status, outcome: StartOutcome): Status
  {
    if s.hasHandle then s
    else match outcome
      case ConstructionFails => Status(false, false)
      case ConnectFails => Status(true, false)
      case Connects => Status(true, true)
  }

  /** The effect of `stop`: with a handle, the handle is dropped and the manager
      is disconnected, unless the library's stop raises; without one, nothing. */
  function StopStatus(s: Status, stopRaises: bool): Status
  {
    if s.hasHandle && !stopRaises then Status(false, false) else s
  }

  /** A call of `start` or `stop`, with what the library does in it. */
  datatype Op = StartOp(outcome: StartOutcome) | StopOp(stopRaises: bool)

  function Step(s: Status, op: Op): Status
  {
    match op
    case StartOp(outcome) => StartStatus(s, outcome)
    case StopOp(stopRaises) => StopStatus(s, stopRaises)
  }

  /** The status after the calls `ops`, first to last. */
  function Run(s: Status, ops: seq<Op>): Status
    decreases |ops|
  {
    if ops == [] then s else Run(Step(s, ops[0]), ops[1..])
  }

  /** Every sequence of calls keeps the invariant. */
  lemma {:induction false} RunKeepsConsistent(s: Status, ops: seq<Op>)
    requires Consistent(s)
    ensures Consistent(Run(s, ops))
    decreases |ops|
  {
    if ops != [] {
      RunKeepsConsistent(Step(s, ops[0]), ops[1..]);
    }
  }

  /** After a connection object was built but failed to start, no further
      `start` connects: the manager stays disconnected with its handle until a
      `stop` goes through. */
  lemma {:induction false} FailedConnectSticks(ops: seq<Op>)
    requires forall i :: 0 <= i < |ops| ==> ops[i] != StopOp(false)
    ensures Run(StartStatus(Status(false, false), ConnectFails), ops) == Status(true, false)
    decreases |ops|
  {
    if ops != [] {
      FailedConnectSticks(ops[1..]);
    }
  }

  /** From any consistent state a successful `stop` leaves the manager
      disconnected without a handle, and a `start` after it begins afresh. */
  lemma StopThenStart(s: Status, outcome: StartOutcome)
    requires Consistent(s)
    ensures Run(s, [StopOp(false)]) == Status(false, false)
    ensures Run(s, [StopOp(false), StartOp(outcome)]) == StartStatus(Status(false, false), outcome)
  {
    assert [StopOp(false)][1..] == [];
    assert [StopOp(false), StartOp(outcome)][1..] == [StartOp(outcome)];
    assert [StartOp(outcome)][1..] == [];
    var stopped := Step(s, StopOp(false));
    assert stopped == Status(false, false);
    assert Run(stopped, [StartOp(outcome)]) == Run(StartStatus(stopped, outcome), []);
  }

  class ConnectionManager {
    var xknx: Xknx?
    var connected: bool

    function State(): Status
      reads this
    {
      Status(xknx != null, connected)
    }

    ghost predicate Valid()
      reads this
    {
      Consistent(State())
    }

    /** A fresh manager holds no handle and is not connected. */
    constructor ()
      ensures Valid() && xknx == null && !connected
    {
      xknx := null;
      connected := false;
    }

    /** Connects to the bus unless a handle is already held. Failures are
        caught: the manager is then disconnected, and nothing is raised. */
    method Start(outcome: StartOutcome)
      requires Valid()
      modifies this
      ensures Valid()
      ensures State() == StartStatus(old(State()), outcome)
      ensures old(xknx) != null ==> xknx == old(xknx) && connected == old(connected)
      ensures old(xknx) == null && outcome != ConstructionFails ==> fresh(xknx)
    {
      if xknx != null {
        // refused with a warning
        return;
      }
      if outcome == ConstructionFails {
        connected := false;
      } else {
        xknx := new Xknx();
        if outcome == Connects {
          connected := true;
        } else {
          connected := false;
        }
      }
    }

    /** Disconnects from the bus if a handle is held; otherwise does nothing.
        An exception from the library's stop reaches the caller (`raised`)
        and leaves the state as it was. */
    method Stop(stopRaises: bool) returns (raised: bool)
      requires Valid()
      modifies this
      ensures Valid()
      ensures State() == StopStatus(old(State()), stopRaises)
      ensures raised <==> old(xknx) != null && stopRaises
      ensures raised ==> xknx == old(xknx)
    {
      raised := false;
      if xknx != null {
        if stopRaises {
          raised := true;
          return;
        }
        xknx := null;
        connected := false;
      }
    }

    /** The current handle, if any. */
    method GetXknx() returns (h: Xknx?)
      ensures h == xknx
    {
      h := xknx;
    }
  }
}
