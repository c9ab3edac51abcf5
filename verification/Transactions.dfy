/** One transaction on one leased connection: entry, statements, streams, savepoints and close.

    `Txn` is the library's own state, and each function over it is what one call does to that state,
    given how the driver answered. `Transaction` is the mutable object, proved to follow them. */
module Transactions {
  import opened TextCodec

  datatype Savepoint = Savepoint(name: nat, failed: bool)

  datatype CommitOutcome = NotAttempted | Unknown | Committed | Rejected

  /** A task's exit: which task, whether its block raised, and whether the close task has ended. */
  datatype Closer = Closer(task: nat, raised: bool, ended: bool)

  /** How the driver answered: acknowledged, a completed constraint failure, or anything else
      (a timeout, another error, a cancellation, a lost acknowledgement). */
  datatype Reply = Done | Constraint | Broken

  datatype Disposal = Kept | Released | Discarded

  datatype Txn = Txn(
    entering: bool, leased: bool, connected: bool, closed: bool, reusable: bool,
    outcome: CommitOutcome, sequence: nat, stack: seq<Savepoint>,
    nestedOwner: Option<nat>, streamOwner: Option<nat>, closing: Option<Closer>)

  const NEW_TXN := Txn(false, false, false, false, true, NotAttempted, 0, [], None, None, None)

  predicate TopFailed(t: Txn) {
    t.stack != [] && t.stack[|t.stack| - 1].failed
  }

  /** The connection may be used for new work. */
  predicate Usable(t: Txn) {
    t.connected && !t.closed && t.reusable && !TopFailed(t)
  }

  predicate MayUse(t: Txn, task: nat) {
    t.nestedOwner.None? || t.nestedOwner.value == task
  }

  function FailTop(stack: seq<Savepoint>): seq<Savepoint>
    requires stack != []
  {
    stack[|stack| - 1 := stack[|stack| - 1].(failed := true)]
  }

  /** The state after a driver operation; only query operations recover from constraint failures. */
  function Answered(t: Txn, reply: Reply, recover: bool): Txn {
    match reply
    case Done => t
    case Constraint =>
      if recover && t.stack != [] && t.reusable then t.(stack := FailTop(t.stack)) else t.(reusable := false)
    case Broken => t.(reusable := false)
  }

  // ----- entry -----

  predicate MayEnter(t: Txn) {
    !t.entering && !t.connected && !t.closed
  }

  function StartEnter(t: Txn): Txn {
    if MayEnter(t) then t.(entering := true) else t
  }

  function Acquire(t: Txn, acquired: bool): Txn {
    if acquired then t.(leased := true) else t.(entering := false)
  }

  /** The driver's `begin`; `observed` is false when the observer failed before it was sent. A failed
      begin discards the lease, and the transaction closes only if that discard returns. */
  function Begin(t: Txn, observed: bool, reply: Reply, discardReturns: bool): Txn {
    var answered := if observed then Answered(t, reply, false) else t;
    if observed && reply.Done? then t.(entering := false, leased := false, connected := true)
    else if discardReturns then answered.(entering := false, leased := false, reusable := false, closed := true)
    else answered.(entering := false, leased := false)
  }

  // ----- statements and streams -----

  predicate Sends(t: Txn, task: nat) {
    MayUse(t, task) && Usable(t)
  }

  function Execute(t: Txn, task: nat, reply: Reply): Txn {
    if Sends(t, task) then Answered(t, reply, true) else t
  }

  function OpenStream(t: Txn, task: nat, reply: Reply): Txn {
    if !Sends(t, task) then t
    else if reply.Done? then t.(streamOwner := Some(task)) else Answered(t, reply, true)
  }

  predicate OwnsStream(t: Txn, task: nat) {
    MayUse(t, task) && t.streamOwner == Some(task)
  }

  function FetchStream(t: Txn, task: nat, reply: Reply): Txn {
    if OwnsStream(t, task) then Answered(t, reply, true) else t
  }

  function CloseStream(t: Txn, task: nat, reply: Reply): Txn {
    if OwnsStream(t, task) then Answered(t, reply, true).(streamOwner := None) else t
  }

  // ----- savepoints -----

  predicate Nests(t: Txn, task: nat) {
    Sends(t, task) && t.streamOwner.None?
  }

  function EnterNested(t: Txn, task: nat, reply: Reply): Txn {
    if !Nests(t, task) then t
    else
      var named := t.(sequence := t.sequence + 1);
      if reply.Done? then
        named.(stack := t.stack + [Savepoint(named.sequence, false)], nestedOwner := Some(task))
      else Answered(named, reply, false)
  }

  predicate Unnests(t: Txn, task: nat, name: nat) {
    && MayUse(t, task) && t.streamOwner.None?
    && t.connected && !t.closed
    && t.stack != [] && t.stack[|t.stack| - 1].name == name
  }

  function Pop(t: Txn): Txn
    requires t.stack != []
  {
    var rest := t.stack[..|t.stack| - 1];
    t.(stack := rest, nestedOwner := if rest == [] then None else t.nestedOwner)
  }

  predicate RollsBack(t: Txn, raised: bool) {
    raised || TopFailed(t)
  }

  /** Leaves the innermost block; `first` answers ROLLBACK TO SAVEPOINT when that is sent, and
      `second` answers RELEASE SAVEPOINT. */
  function ExitNested(t: Txn, task: nat, name: nat, raised: bool, first: Reply, second: Reply): Txn {
    if !Unnests(t, task, name) then t
    else if !t.reusable then Pop(t)
    else if RollsBack(t, raised) && !first.Done? then Pop(Answered(t, first, false))
    else Pop(Answered(t, second, false))
  }

  // ----- close -----

  predicate MayStartExit(t: Txn, task: nat) {
    MayUse(t, task) && t.streamOwner != Some(task) && t.closing.None?
  }

  function StartExit(t: Txn, task: nat, raised: bool): Txn {
    if MayStartExit(t, task) then t.(closing := Some(Closer(task, raised, false))) else t
  }

  predicate Closing(t: Txn) {
    t.closing.Some? && !t.closing.value.ended
  }

  /** The close task holds the connection only if it passes the ownership check. */
  predicate Detaches(t: Txn)
    requires Closing(t)
  {
    MayUse(t, t.closing.value.task) && t.connected
  }

  /** COMMIT or ROLLBACK is sent. */
  predicate Concludes(t: Txn)
    requires Closing(t)
  {
    Detaches(t) && t.stack == [] && t.reusable
  }

  function Settled(reply: Reply, evidence: CommitOutcome): CommitOutcome {
    if reply.Done? then Committed
    else if evidence.Committed? || evidence.Rejected? then evidence
    else Unknown
  }

  function Close(t: Txn, reply: Reply, evidence: CommitOutcome): (Txn, Disposal)
    requires Closing(t)
  {
    var ended := t.(closing := Some(t.closing.value.(ended := true)));
    if !Detaches(t) then (ended, Kept)
    else
      var detached := ended.(connected := false, closed := true);
      if t.stack != [] then (detached.(reusable := false, stack := [], nestedOwner := None), Discarded)
      else if !t.reusable then (detached, Discarded)
      else
        var settled := if t.closing.value.raised then detached else detached.(outcome := Settled(reply, evidence));
        if reply.Done? then (settled, Released) else (settled.(reusable := false), Discarded)
  }

  // ----- the mutable transaction -----

  class Transaction {
    var entering: bool
    var leased: bool
    var connected: bool
    var closed: bool
    var reusable: bool
    var outcome: CommitOutcome
    var sequence: nat
    var stack: seq<Savepoint>
    var nestedOwner: Option<nat>
    var streamOwner: Option<nat>
    var closing: Option<Closer>

    ghost function State(): Txn
      reads this
    {
      Txn(entering, leased, connected, closed, reusable, outcome, sequence, stack, nestedOwner, streamOwner, closing)
    }

    constructor ()
      ensures State() == NEW_TXN
    {
      entering, leased, connected, closed, reusable := false, false, false, false, true;
      outcome, sequence, stack := NotAttempted, 0, [];
      nestedOwner, streamOwner, closing := None, None, None;
    }

    method CheckNestedOwner(task: nat) returns (ok: bool)
      ensures ok == MayUse(State(), task)
    {
      ok := nestedOwner.None? || nestedOwner.value == task;
    }

    method RequireConnection() returns (ok: bool)
      ensures ok == Usable(State())
    {
      if closed || !connected || !reusable {
        return false;
      }
      ok := |stack| == 0 || !stack[|stack| - 1].failed;
    }

    method RunDriverOperation(reply: Reply, recover: bool) returns (ok: bool)
      modifies this
      ensures State() == Answered(old(State()), reply, recover) && ok == reply.Done?
    {
      if reply.Constraint? && recover && |stack| != 0 && reusable {
        stack := stack[|stack| - 1 := stack[|stack| - 1].(failed := true)];
      } else if !reply.Done? {
        reusable := false;
      }
      ok := reply.Done?;
    }

    method Enter() returns (ok: bool)
      modifies this
      ensures State() == StartEnter(old(State())) && ok == MayEnter(old(State()))
    {
      if entering || connected || closed {
        return false;
      }
      entering := true;
      ok := true;
    }

    method FinishAcquire(acquired: bool)
      modifies this
      ensures State() == Acquire(old(State()), acquired)
    {
      if acquired {
        leased := true;
      } else {
        entering := false;
      }
    }

    method FinishBegin(observed: bool, reply: Reply, discardReturns: bool) returns (ok: bool)
      modifies this
      ensures State() == Begin(old(State()), observed, reply, discardReturns)
      ensures ok == (observed && reply.Done?)
    {
      ok := false;
      if observed {
        ok := RunDriverOperation(reply, false);
      }
      leased := false;
      if ok {
        connected := true;
      } else if discardReturns {
        reusable := false;
        closed := true;
      }
      entering := false;
    }

    method Run(task: nat, reply: Reply) returns (sent: bool)
      modifies this
      ensures State() == Execute(old(State()), task, reply) && sent == Sends(old(State()), task)
    {
      sent := CheckNestedOwner(task);
      if sent {
        sent := RequireConnection();
      }
      if sent {
        var _ := RunDriverOperation(reply, true);
      }
    }

    method OpenChunks(task: nat, reply: Reply) returns (sent: bool)
      modifies this
      ensures State() == OpenStream(old(State()), task, reply) && sent == Sends(old(State()), task)
    {
      sent := Run(task, reply);
      if sent && reply.Done? {
        streamOwner := Some(task);
      }
    }

    method FetchChunk(task: nat, reply: Reply)
      modifies this
      ensures State() == FetchStream(old(State()), task, reply)
    {
      var owner := CheckNestedOwner(task);
      if owner && streamOwner == Some(task) {
        var _ := RunDriverOperation(reply, true);
      }
    }

    method CloseChunks(task: nat, reply: Reply)
      modifies this
      ensures State() == CloseStream(old(State()), task, reply)
    {
      var owner := CheckNestedOwner(task);
      if owner && streamOwner == Some(task) {
        var _ := RunDriverOperation(reply, true);
        streamOwner := None;
      }
    }

    method BeginNested(task: nat, reply: Reply) returns (sent: bool)
      modifies this
      ensures State() == EnterNested(old(State()), task, reply) && sent == Nests(old(State()), task)
    {
      sent := CheckNestedOwner(task);
      if !sent || streamOwner.Some? {
        return false;
      }
      sent := RequireConnection();
      if !sent {
        return;
      }
      sequence := sequence + 1;
      var done := RunDriverOperation(reply, false);
      if done {
        stack := stack + [Savepoint(sequence, false)];
        nestedOwner := Some(task);
      }
    }

    method EndNested(task: nat, name: nat, raised: bool, first: Reply, second: Reply) returns (clean: bool)
      modifies this
      ensures State() == ExitNested(old(State()), task, name, raised, first, second)
      ensures clean ==
        (Unnests(old(State()), task, name) && old(reusable) && !RollsBack(old(State()), raised) && second.Done?)
    {
      var owner := CheckNestedOwner(task);
      if !owner || streamOwner.Some? || !connected || closed || |stack| == 0 || stack[|stack| - 1].name != name {
        return false;
      }
      var failed := stack[|stack| - 1].failed;
      clean := false;
      if reusable {
        var done := true;
        if raised || failed {
          done := RunDriverOperation(first, false);
        }
        if done {
          done := RunDriverOperation(second, false);
        }
        clean := done && !raised && !failed;
      }
      stack := stack[..|stack| - 1];
      if |stack| == 0 {
        nestedOwner := None;
      }
    }

    method Exit(task: nat, raised: bool) returns (first: bool)
      modifies this
      ensures State() == StartExit(old(State()), task, raised) && first == MayStartExit(old(State()), task)
    {
      first := CheckNestedOwner(task);
      first := first && streamOwner != Some(task) && closing.None?;
      if first {
        closing := Some(Closer(task, raised, false));
      }
    }

    method FinishClose(reply: Reply, evidence: CommitOutcome) returns (disposal: Disposal)
      requires Closing(State())
      modifies this
      ensures (State(), disposal) == Close(old(State()), reply, evidence)
    {
      var closer := closing.value;
      closing := Some(closer.(ended := true));
      if (nestedOwner.Some? && nestedOwner.value != closer.task) || !connected {
        return Kept;
      }
      connected := false;
      closed := true;
      if |stack| != 0 {
        reusable := false;
        stack := [];
        nestedOwner := None;
        return Discarded;
      }
      if !reusable {
        return Discarded;
      }
      Conclude(closer.raised, reply, evidence);
      disposal := if reusable then Released else Discarded;
    }

    /** COMMIT or ROLLBACK, and what the adapter knows about a commit that was not acknowledged. */
    method Conclude(raised: bool, reply: Reply, evidence: CommitOutcome)
      modifies this
      ensures State() == old(State()).(
        outcome := if raised then old(outcome) else Settled(reply, evidence),
        reusable := old(reusable) && reply.Done?)
    {
      if raised {
        var _ := RunDriverOperation(reply, false);
        return;
      }
      outcome := Unknown;
      var done := RunDriverOperation(reply, false);
      if evidence.Committed? || evidence.Rejected? {
        outcome := evidence;
      }
      if done {
        outcome := Committed;
      }
    }
  }
}
