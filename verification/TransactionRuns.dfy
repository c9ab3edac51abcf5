/** A transaction run against a server that may apply a command without acknowledging it, and what
    every run keeps. */
module TransactionRuns {
  import opened TextCodec
  import opened Transactions

  // ----- the server's side of the connection -----

  /** The contents the open transaction sees. */
  type Contents = seq<nat>

  datatype Mark = Mark(name: nat, snapshot: Contents)

  /** `commits` counts the commits of this transaction that took effect. */
  datatype Server = Server(commits: nat, work: Contents, marks: seq<Mark>)

  datatype Command =
    | BeginWork(work: Contents)
    | SetMark(name: nat)
    | RollbackTo(name: nat)
    | ReleaseMark(name: nat)
    | Change(work: Contents)
    | FetchRows
    | CommitWork
    | RollbackWork

  /** The position after the last mark called `name`, or zero. */
  function MarkEnd(marks: seq<Mark>, name: nat): (end: nat)
    ensures end <= |marks|
    ensures end > 0 ==> marks[end - 1].name == name
  {
    if marks == [] then 0
    else if marks[|marks| - 1].name == name then |marks|
    else MarkEnd(marks[..|marks| - 1], name)
  }

  /** The server can acknowledge a command about a savepoint only if it has that savepoint. */
  predicate Performs(server: Server, c: Command) {
    c.RollbackTo? || c.ReleaseMark? ==> MarkEnd(server.marks, c.name) > 0
  }

  function Perform(server: Server, c: Command): Server
    requires Performs(server, c)
  {
    match c
    case BeginWork(work) => server.(work := work, marks := [])
    case SetMark(name) => server.(marks := server.marks + [Mark(name, server.work)])
    case RollbackTo(name) =>
      var end := MarkEnd(server.marks, name);
      server.(work := server.marks[end - 1].snapshot, marks := server.marks[..end])
    case ReleaseMark(name) => server.(marks := server.marks[..MarkEnd(server.marks, name) - 1])
    case Change(work) => server.(work := work)
    case FetchRows => server
    case CommitWork => Server(server.commits + 1, server.work, [])
    case RollbackWork => server.(marks := [])
  }

  /** What the server may look like after answering `reply`. A completed constraint failure of a query
      may have changed the contents and dropped savepoints from the top; any other failure tells
      nothing, except that only COMMIT commits. */
  predicate MayAnswer(server: Server, c: Command, reply: Reply, after: Server) {
    match reply
    case Done => Performs(server, c) && after == Perform(server, c)
    case Constraint =>
      if c.Change? || c.FetchRows? then after.commits == server.commits && after.marks <= server.marks
      else Unsure(server, c, after)
    case Broken => Unsure(server, c, after)
  }

  predicate Unsure(server: Server, c: Command, after: Server) {
    after.commits == server.commits || (c.CommitWork? && after.commits == server.commits + 1)
  }

  // ----- runs -----

  /** Leases are counted as they are acquired and handed back; `unreturned` counts the failed begins
      whose discard raised. */
  datatype System = System(
    t: Txn, server: Server, acquired: nat, released: nat, discarded: nat, unreturned: nat)

  datatype Event =
    | DoStartEnter
    | DoAcquire(acquired: bool)
    | DoBegin(observed: bool, reply: Reply, discardReturns: bool, work: Contents, after: Server)
    | DoExecute(task: nat, reply: Reply, work: Contents, after: Server)
    | DoOpenStream(task: nat, reply: Reply, work: Contents, after: Server)
    | DoFetchStream(task: nat, reply: Reply, after: Server)
    | DoCloseStream(task: nat, reply: Reply, after: Server)
    | DoEnterNested(task: nat, reply: Reply, after: Server)
    | DoExitNested(task: nat, name: nat, raised: bool, first: Reply, middle: Server, second: Reply, after: Server)
    | DoStartExit(task: nat, raised: bool)
    | DoClose(reply: Reply, evidence: CommitOutcome, after: Server)

  /** The adapter's evidence never claims more than happened. */
  predicate Truthful(evidence: CommitOutcome, server: Server, after: Server) {
    && (evidence.Committed? ==> after.commits == server.commits + 1)
    && (evidence.Rejected? ==> after.commits == server.commits)
  }

  /** No stream holds the connection lock. */
  predicate Unlocked(t: Txn) {
    t.streamOwner.None?
  }

  predicate ExitAnswered(s: System, e: Event)
    requires e.DoExitNested?
  {
    if !Unnests(s.t, e.task, e.name) || !s.t.reusable then e.after == s.server
    else if RollsBack(s.t, e.raised) then
      && MayAnswer(s.server, RollbackTo(e.name), e.first, e.middle)
      && if e.first.Done? then MayAnswer(e.middle, ReleaseMark(e.name), e.second, e.after)
         else e.after == e.middle
    else MayAnswer(s.server, ReleaseMark(e.name), e.second, e.after)
  }

  predicate Enabled(s: System, e: Event) {
    match e
    case DoStartEnter => true
    case DoAcquire(_) => s.t.entering && !s.t.leased
    case DoBegin(observed, reply, _, work, after) =>
      s.t.leased && (if observed then MayAnswer(s.server, BeginWork(work), reply, after) else after == s.server)
    case DoExecute(task, reply, work, after) =>
      Unlocked(s.t) && (if Sends(s.t, task) then MayAnswer(s.server, Change(work), reply, after) else after == s.server)
    case DoOpenStream(task, reply, work, after) =>
      Unlocked(s.t) && (if Sends(s.t, task) then MayAnswer(s.server, Change(work), reply, after) else after == s.server)
    case DoFetchStream(task, reply, after) =>
      if OwnsStream(s.t, task) then MayAnswer(s.server, FetchRows, reply, after) else after == s.server
    case DoCloseStream(task, reply, after) =>
      if OwnsStream(s.t, task) then MayAnswer(s.server, FetchRows, reply, after) else after == s.server
    case DoEnterNested(task, reply, after) =>
      if Nests(s.t, task) then MayAnswer(s.server, SetMark(s.t.sequence + 1), reply, after) else after == s.server
    case DoExitNested(_, _, _, _, _, _, _) => ExitAnswered(s, e)
    case DoStartExit(_, _) => true
    case DoClose(reply, evidence, after) =>
      && Closing(s.t) && Unlocked(s.t)
      && if !Concludes(s.t) then after == s.server
         else if s.t.closing.value.raised then MayAnswer(s.server, RollbackWork, reply, after)
         else MayAnswer(s.server, CommitWork, reply, after) && Truthful(evidence, s.server, after)
  }

  function Apply(s: System, e: Event): System
    requires Enabled(s, e)
  {
    match e
    case DoStartEnter => s.(t := StartEnter(s.t))
    case DoAcquire(acquired) =>
      s.(t := Acquire(s.t, acquired), acquired := s.acquired + if acquired then 1 else 0)
    case DoBegin(observed, reply, discardReturns, _, after) =>
      var failed := !observed || !reply.Done?;
      s.(t := Begin(s.t, observed, reply, discardReturns), server := after,
         discarded := s.discarded + (if failed then 1 else 0),
         unreturned := s.unreturned + if failed && !discardReturns then 1 else 0)
    case DoExecute(task, reply, _, after) => s.(t := Execute(s.t, task, reply), server := after)
    case DoOpenStream(task, reply, _, after) => s.(t := OpenStream(s.t, task, reply), server := after)
    case DoFetchStream(task, reply, after) => s.(t := FetchStream(s.t, task, reply), server := after)
    case DoCloseStream(task, reply, after) => s.(t := CloseStream(s.t, task, reply), server := after)
    case DoEnterNested(task, reply, after) => s.(t := EnterNested(s.t, task, reply), server := after)
    case DoExitNested(task, name, raised, first, _, second, after) =>
      s.(t := ExitNested(s.t, task, name, raised, first, second), server := after)
    case DoStartExit(task, raised) => s.(t := StartExit(s.t, task, raised))
    case DoClose(reply, evidence, after) =>
      var (t, disposal) := Close(s.t, reply, evidence);
      s.(t := t, server := after,
         released := s.released + (if disposal.Released? then 1 else 0),
         discarded := s.discarded + if disposal.Discarded? then 1 else 0)
  }

  function Start(work: Contents): System {
    System(NEW_TXN, Server(0, work, []), 0, 0, 0, 0)
  }

  predicate IsRun(s: System, run: seq<Event>)
    decreases |run|
  {
    run == [] || (Enabled(s, run[0]) && IsRun(Apply(s, run[0]), run[1..]))
  }

  function After(s: System, run: seq<Event>): System
    requires IsRun(s, run)
    decreases |run|
  {
    if run == [] then s else After(Apply(s, run[0]), run[1..])
  }

  // ----- what every run keeps -----

  function One(b: bool): nat {
    if b then 1 else 0
  }

  /** Every acquired lease is held or was handed back, once. */
  predicate Linear(s: System) {
    && s.acquired == s.released + s.discarded + One(s.t.leased) + One(s.t.connected)
    && s.acquired == s.unreturned + One(s.t.leased || s.t.connected || s.t.closed)
    && s.released <= One(s.t.closed)
    && (s.t.leased ==> s.t.entering)
    && (s.t.entering ==> !s.t.connected && !s.t.closed)
    && (s.t.connected ==> !s.t.closed)
    && (s.released > 0 ==> s.t.reusable)
    && (s.t.streamOwner.Some? ==> s.t.connected)
  }

  /** What the transaction reports about its commit is what happened. */
  predicate Honest(s: System) {
    && s.server.commits <= One(s.t.closed)
    && (s.t.outcome.NotAttempted? || s.t.outcome.Rejected? ==> s.server.commits == 0)
    && (s.t.outcome.Committed? ==> s.server.commits == 1)
    && (!s.t.closed ==> s.t.outcome.NotAttempted?)
  }

  function StackNames(stack: seq<Savepoint>): seq<nat> {
    seq(|stack|, i requires 0 <= i < |stack| => stack[i].name)
  }

  function MarkNames(marks: seq<Mark>): seq<nat> {
    seq(|marks|, i requires 0 <= i < |marks| => marks[i].name)
  }

  predicate StackOrdered(t: Txn) {
    && (forall i, j :: 0 <= i < j < |t.stack| ==> t.stack[i].name < t.stack[j].name)
    && (forall i :: 0 <= i < |t.stack| ==> t.stack[i].name <= t.sequence)
    && (forall i :: 0 <= i < |t.stack| - 1 ==> !t.stack[i].failed)
    && (t.stack != [] ==> t.connected)
    && (t.stack == [] <==> t.nestedOwner.None?)
  }

  /** While the connection is reusable the server's savepoints are the library's nested stack; after
      a caught constraint failure, at most that. */
  predicate Mirrored(s: System) {
    s.t.connected && s.t.reusable ==>
      && MarkNames(s.server.marks) <= StackNames(s.t.stack)
      && (!TopFailed(s.t) ==> MarkNames(s.server.marks) == StackNames(s.t.stack))
  }

  predicate Sound(s: System) {
    Linear(s) && Honest(s) && StackOrdered(s.t) && Mirrored(s)
  }

  lemma LinearKept(s: System, e: Event)
    requires Sound(s) && Enabled(s, e)
    ensures Linear(Apply(s, e))
  {
    if e.DoBegin? || e.DoClose? || e.DoStartEnter? || e.DoAcquire? {
      LeaseMoved(s, e);
    } else {
      LeaseStill(s, e);
    }
  }

  lemma LeaseMoved(s: System, e: Event)
    requires Sound(s) && Enabled(s, e) && (e.DoBegin? || e.DoClose? || e.DoStartEnter? || e.DoAcquire?)
    ensures Linear(Apply(s, e))
  {
  }

  lemma LeaseStill(s: System, e: Event)
    requires Sound(s) && Enabled(s, e) && !(e.DoBegin? || e.DoClose? || e.DoStartEnter? || e.DoAcquire?)
    ensures Linear(Apply(s, e))
  {
  }

  lemma HonestKept(s: System, e: Event)
    requires Sound(s) && Enabled(s, e)
    ensures Honest(Apply(s, e))
  {
    if e.DoClose? {
      CloseIsHonest(s, e);
    } else {
      NothingCommits(s, e);
    }
  }

  lemma CloseIsHonest(s: System, e: Event)
    requires Sound(s) && Enabled(s, e) && e.DoClose?
    ensures Honest(Apply(s, e))
  {
  }

  lemma NothingCommits(s: System, e: Event)
    requires Sound(s) && Enabled(s, e) && !e.DoClose?
    ensures Honest(Apply(s, e))
  {
  }

  lemma StackKept(s: System, e: Event)
    requires Sound(s) && Enabled(s, e)
    ensures StackOrdered(Apply(s, e).t)
  {
    if e.DoEnterNested? {
      NestKept(s, e);
    } else if e.DoExitNested? {
      UnnestKept(s, e);
    } else if !IsQuery(e) {
      OtherBlocks(s, e);
    } else {
      BlocksStill(s, e);
    }
  }

  lemma NestKept(s: System, e: Event)
    requires Sound(s) && Enabled(s, e) && e.DoEnterNested?
    ensures StackOrdered(Apply(s, e).t)
  {
  }

  lemma UnnestKept(s: System, e: Event)
    requires Sound(s) && Enabled(s, e) && e.DoExitNested?
    ensures StackOrdered(Apply(s, e).t)
  {
  }

  lemma OtherBlocks(s: System, e: Event)
    requires Sound(s) && Enabled(s, e) && !IsQuery(e) && !e.DoEnterNested? && !e.DoExitNested?
    ensures StackOrdered(Apply(s, e).t)
  {
  }

  lemma FailedTopOrdered(t: Txn)
    requires StackOrdered(t) && t.stack != []
    ensures StackOrdered(t.(stack := FailTop(t.stack)))
  {
  }

  lemma BlocksStill(s: System, e: Event)
    requires Sound(s) && Enabled(s, e) && IsQuery(e)
    ensures StackOrdered(Apply(s, e).t)
  {
    if s.t.stack != [] {
      FailedTopOrdered(s.t);
    }
  }

  /** A savepoint the server still has under the innermost name is its innermost one too. */
  lemma {:induction false} InnermostMark(stack: seq<Savepoint>, marks: seq<Mark>)
    requires stack != [] && MarkNames(marks) <= StackNames(stack)
    requires forall i, j :: 0 <= i < j < |stack| ==> stack[i].name < stack[j].name
    requires MarkEnd(marks, stack[|stack| - 1].name) > 0
    ensures |marks| == |stack| == MarkEnd(marks, stack[|stack| - 1].name)
    ensures MarkNames(marks[..|marks| - 1]) == StackNames(stack[..|stack| - 1])
  {
    var end := MarkEnd(marks, stack[|stack| - 1].name);
    assert MarkNames(marks)[end - 1] == StackNames(stack)[end - 1];
    assert MarkNames(marks) == StackNames(stack);
    assert MarkNames(marks[..|marks| - 1]) == MarkNames(marks)[..|marks| - 1];
    assert StackNames(stack[..|stack| - 1]) == StackNames(stack)[..|stack| - 1];
  }

  lemma DroppedMarks(marks: seq<Mark>, fewer: seq<Mark>)
    requires fewer <= marks
    ensures MarkNames(fewer) <= MarkNames(marks)
  {
    assert MarkNames(fewer) == MarkNames(marks)[..|fewer|];
  }

  lemma SameNames(stack: seq<Savepoint>)
    requires stack != []
    ensures StackNames(FailTop(stack)) == StackNames(stack)
  {
  }

  lemma NamesPushed(stack: seq<Savepoint>, marks: seq<Mark>, savepoint: Savepoint, mark: Mark)
    requires MarkNames(marks) == StackNames(stack) && savepoint.name == mark.name
    ensures MarkNames(marks + [mark]) == StackNames(stack + [savepoint])
  {
    assert MarkNames(marks + [mark]) == MarkNames(marks) + [mark.name];
    assert StackNames(stack + [savepoint]) == StackNames(stack) + [mark.name];
  }

  lemma MirrorKept(s: System, e: Event)
    requires Sound(s) && Enabled(s, e)
    ensures Mirrored(Apply(s, e))
  {
    if s.t.stack != [] {
      SameNames(s.t.stack);
    }
    match e
    case DoExecute(_, _, _, after) => QueryMirror(s, e, after);
    case DoOpenStream(_, _, _, after) => QueryMirror(s, e, after);
    case DoFetchStream(_, _, after) => QueryMirror(s, e, after);
    case DoCloseStream(_, _, after) => QueryMirror(s, e, after);
    case DoEnterNested(task, reply, after) =>
      if Nests(s.t, task) && reply.Done? {
        NamesPushed(s.t.stack, s.server.marks, Savepoint(s.t.sequence + 1, false),
                    Mark(s.t.sequence + 1, s.server.work));
      }
    case DoExitNested(_, _, _, _, _, _, _) => ExitMirror(s, e);
    case _ =>
  }

  lemma QueryMirror(s: System, e: Event, after: Server)
    requires Sound(s) && Enabled(s, e)
    requires e.DoExecute? || e.DoOpenStream? || e.DoFetchStream? || e.DoCloseStream?
    requires after == e.after
    ensures Mirrored(Apply(s, e))
  {
    if s.t.stack != [] {
      SameNames(s.t.stack);
    }
    if after.marks <= s.server.marks {
      DroppedMarks(s.server.marks, after.marks);
    }
  }

  lemma ExitMirror(s: System, e: Event)
    requires Sound(s) && Enabled(s, e) && e.DoExitNested?
    ensures Mirrored(Apply(s, e))
  {
    if Unnests(s.t, e.task, e.name) && Apply(s, e).t.reusable {
      var marks := s.server.marks;
      InnermostMark(s.t.stack, marks);
      assert marks[..|marks|] == marks;
    }
  }

  lemma StepIsSound(s: System, e: Event)
    requires Sound(s) && Enabled(s, e)
    ensures Sound(Apply(s, e))
  {
    LinearKept(s, e);
    HonestKept(s, e);
    StackKept(s, e);
    MirrorKept(s, e);
  }

  lemma {:induction false} RunsAreSound(s: System, run: seq<Event>)
    requires Sound(s) && IsRun(s, run)
    ensures Sound(After(s, run))
    decreases |run|
  {
    if run != [] {
      StepIsSound(s, run[0]);
      RunsAreSound(Apply(s, run[0]), run[1..]);
    }
  }

  /** Every run of a new transaction, whatever the driver answers and however tasks interleave. */
  lemma {:induction false} TransactionIsSound(work: Contents, run: seq<Event>)
    requires IsRun(Start(work), run)
    ensures Sound(After(Start(work), run))
  {
    RunsAreSound(Start(work), run);
  }

  // ----- nested blocks -----

  /** The block opened at `depth` stays open throughout the run. */
  predicate StaysOpen(s: System, run: seq<Event>, depth: nat)
    requires IsRun(s, run)
    decreases |run|
  {
    |s.t.stack| > depth && (run == [] || StaysOpen(Apply(s, run[0]), run[1..], depth))
  }

  lemma ExitWithin(s: System, e: Event, depth: nat)
    requires Sound(s) && Enabled(s, e) && e.DoExitNested?
    requires |s.t.stack| > depth && |Apply(s, e).t.stack| > depth
    requires Apply(s, e).t.reusable && |Apply(s, e).server.marks| > depth
    ensures s.t.reusable && |s.server.marks| > depth && Apply(s, e).server.marks[depth] == s.server.marks[depth]
  {
    if Unnests(s.t, e.task, e.name) {
      InnermostMark(s.t.stack, s.server.marks);
    }
  }

  lemma MarkKeptByStep(s: System, e: Event, depth: nat)
    requires Sound(s) && Enabled(s, e)
    requires |s.t.stack| > depth && |Apply(s, e).t.stack| > depth
    requires Apply(s, e).t.reusable && |Apply(s, e).server.marks| > depth
    ensures s.t.reusable && |s.server.marks| > depth && Apply(s, e).server.marks[depth] == s.server.marks[depth]
  {
    if e.DoExitNested? {
      ExitWithin(s, e, depth);
    }
  }

  /** A savepoint's snapshot does not move while its block stays open. */
  lemma {:induction false} MarkKept(s: System, run: seq<Event>, depth: nat)
    requires Sound(s) && IsRun(s, run) && StaysOpen(s, run, depth)
    requires After(s, run).t.reusable && |After(s, run).server.marks| > depth
    ensures s.t.reusable && |s.server.marks| > depth
    ensures After(s, run).server.marks[depth] == s.server.marks[depth]
    decreases |run|
  {
    if run != [] {
      StepIsSound(s, run[0]);
      MarkKept(Apply(s, run[0]), run[1..], depth);
      MarkKeptByStep(s, run[0], depth);
    }
  }

  lemma {:induction false} OpenBelow(s: System, run: seq<Event>, depth: nat, lower: nat)
    requires IsRun(s, run) && StaysOpen(s, run, depth) && lower <= depth
    ensures StaysOpen(s, run, lower)
    decreases |run|
  {
    if run != [] {
      OpenBelow(Apply(s, run[0]), run[1..], depth, lower);
    }
  }

  /** Nor do those of the blocks around it. */
  lemma {:induction false} MarksKept(s: System, run: seq<Event>, depth: nat)
    requires Sound(s) && IsRun(s, run) && StaysOpen(s, run, depth)
    requires After(s, run).t.reusable && |After(s, run).server.marks| > depth
    ensures |s.server.marks| > depth
    ensures After(s, run).server.marks[..depth + 1] == s.server.marks[..depth + 1]
  {
    MarkKept(s, run, depth);
    forall i | 0 <= i <= depth
      ensures After(s, run).server.marks[i] == s.server.marks[i]
    {
      OpenBelow(s, run, depth, i);
      MarkKept(s, run, i);
    }
  }

  /** The blocks around an open one are neither left nor marked failed. */
  lemma {:induction false} BlocksKept(s: System, run: seq<Event>, depth: nat)
    requires IsRun(s, run) && StaysOpen(s, run, depth)
    ensures |After(s, run).t.stack| > depth && After(s, run).t.stack[..depth] == s.t.stack[..depth]
    decreases |run|
  {
    if run != [] {
      BlocksKept(Apply(s, run[0]), run[1..], depth);
      BlockKeptByStep(s, run[0], depth);
    }
  }

  lemma BlockKeptByStep(s: System, e: Event, depth: nat)
    requires Enabled(s, e) && |s.t.stack| > depth && |Apply(s, e).t.stack| > depth
    ensures Apply(s, e).t.stack[..depth] == s.t.stack[..depth]
  {
    if IsQuery(e) {
      QueryStackStep(s, e);
    } else if e.DoEnterNested? || e.DoExitNested? {
      NestedStackStep(s, e);
    } else {
      OtherStackStep(s, e);
    }
    StackStepKeeps(s.t.stack, Apply(s, e).t.stack, depth);
  }

  predicate IsQuery(e: Event) {
    e.DoExecute? || e.DoOpenStream? || e.DoFetchStream? || e.DoCloseStream?
  }

  lemma QueryStackStep(s: System, e: Event)
    requires Enabled(s, e) && IsQuery(e)
    ensures StackStep(s.t.stack, Apply(s, e).t.stack)
  {
  }

  lemma NestedStackStep(s: System, e: Event)
    requires Enabled(s, e) && (e.DoEnterNested? || e.DoExitNested?)
    ensures StackStep(s.t.stack, Apply(s, e).t.stack)
  {
  }

  lemma OtherStackStep(s: System, e: Event)
    requires Enabled(s, e) && !IsQuery(e) && !e.DoEnterNested? && !e.DoExitNested?
    ensures StackStep(s.t.stack, Apply(s, e).t.stack)
  {
  }

  /** What one step may do to the nested stack. */
  predicate StackStep(stack: seq<Savepoint>, next: seq<Savepoint>) {
    || next == stack || next == []
    || (stack != [] && (next == FailTop(stack) || next == stack[..|stack| - 1]))
    || (|next| == |stack| + 1 && next[..|stack|] == stack)
    || (stack != [] && next == FailTop(stack)[..|stack| - 1])
  }

  lemma StackStepKeeps(stack: seq<Savepoint>, next: seq<Savepoint>, depth: nat)
    requires StackStep(stack, next) && |stack| > depth && |next| > depth
    ensures next[..depth] == stack[..depth]
  {
    if |next| == |stack| + 1 && next[..|stack|] == stack {
      assert next[..depth] == next[..|stack|][..depth];
    }
  }

  /** A nested block, whatever ran inside it: if it raised or was marked failed, the contents are those
      it found on entry; otherwise they are those it left. Either way the enclosing blocks and their
      savepoints are as they were. Stated for every exit after which the connection is still reusable. */
  lemma {:induction false} BlockIsAtomic(s: System, enter: Event, body: seq<Event>, exit: Event)
    requires Sound(s) && enter.DoEnterNested? && exit.DoExitNested?
    requires Enabled(s, enter) && |Apply(s, enter).t.stack| == |s.t.stack| + 1
    requires IsRun(Apply(s, enter), body) && StaysOpen(Apply(s, enter), body, |s.t.stack|)
    requires Enabled(After(Apply(s, enter), body), exit)
    requires |Apply(After(Apply(s, enter), body), exit).t.stack| == |s.t.stack|
    requires Apply(After(Apply(s, enter), body), exit).t.reusable
    ensures
      var inside := After(Apply(s, enter), body);
      var left := Apply(inside, exit);
      && left.server.work == (if RollsBack(inside.t, exit.raised) then s.server.work else inside.server.work)
      && left.server.marks == s.server.marks
      && left.t.stack == s.t.stack
  {
    var entered := Apply(s, enter);
    var inside := After(entered, body);
    StepIsSound(s, enter);
    RunsAreSound(entered, body);
    BlocksKept(entered, body, |s.t.stack|);
    EntryMark(s, enter);
    ExitRestores(inside, exit);
    MarksKept(entered, body, |s.t.stack|);
    BlockRestored(s, entered, inside, Apply(inside, exit), RollsBack(inside.t, exit.raised));
  }

  /** The four states of a block's life, from what its entry, its body and its exit did. */
  lemma BlockRestored(s: System, entered: System, inside: System, left: System, back: bool)
    requires |s.server.marks| == |s.t.stack| && |inside.server.marks| == |inside.t.stack| == |s.t.stack| + 1
    requires entered.server.marks == s.server.marks + [Mark(s.t.sequence + 1, s.server.work)]
    requires inside.server.marks[..|s.t.stack| + 1] == entered.server.marks[..|s.t.stack| + 1]
    requires entered.t.stack == s.t.stack + [Savepoint(s.t.sequence + 1, false)]
    requires inside.t.stack[..|s.t.stack|] == entered.t.stack[..|s.t.stack|]
    requires left.server.marks == inside.server.marks[..|s.t.stack|]
    requires left.t.stack == inside.t.stack[..|s.t.stack|]
    requires left.server.work == if back then inside.server.marks[|s.t.stack|].snapshot else inside.server.work
    ensures left.server.work == (if back then s.server.work else inside.server.work)
    ensures left.server.marks == s.server.marks && left.t.stack == s.t.stack
  {
    var n := |s.t.stack|;
    assert inside.server.marks[n] == inside.server.marks[..n + 1][n] == entered.server.marks[n];
    assert inside.server.marks[..n] == inside.server.marks[..n + 1][..n] == s.server.marks;
    assert entered.t.stack[..n] == s.t.stack;
  }

  lemma EntryMark(s: System, enter: Event)
    requires Sound(s) && enter.DoEnterNested? && Enabled(s, enter)
    requires |Apply(s, enter).t.stack| == |s.t.stack| + 1
    ensures Apply(s, enter).server.marks == s.server.marks + [Mark(s.t.sequence + 1, s.server.work)]
    ensures |s.server.marks| == |s.t.stack|
    ensures Apply(s, enter).t.stack == s.t.stack + [Savepoint(s.t.sequence + 1, false)]
  {
    assert |s.server.marks| == |MarkNames(s.server.marks)| == |StackNames(s.t.stack)| == |s.t.stack|;
  }

  lemma ExitRestores(s: System, exit: Event)
    requires Sound(s) && exit.DoExitNested? && Enabled(s, exit) && s.t.stack != []
    requires |Apply(s, exit).t.stack| < |s.t.stack| && Apply(s, exit).t.reusable
    ensures |s.server.marks| == |s.t.stack|
    ensures Apply(s, exit).server.work
            == if RollsBack(s.t, exit.raised) then s.server.marks[|s.t.stack| - 1].snapshot else s.server.work
    ensures Apply(s, exit).server.marks == s.server.marks[..|s.t.stack| - 1]
    ensures Apply(s, exit).t.stack == s.t.stack[..|s.t.stack| - 1]
  {
    InnermostMark(s.t.stack, s.server.marks);
    assert s.server.marks[..|s.server.marks|] == s.server.marks;
  }

  // ----- one task at a time inside a block -----

  /** The event is a call made by a task other than `owner`. */
  predicate Foreign(e: Event, owner: nat) {
    match e
    case DoExecute(task, _, _, _) => task != owner
    case DoOpenStream(task, _, _, _) => task != owner
    case DoFetchStream(task, _, _) => task != owner
    case DoCloseStream(task, _, _) => task != owner
    case DoEnterNested(task, _, _) => task != owner
    case DoExitNested(task, _, _, _, _, _, _) => task != owner
    case DoStartExit(task, _) => task != owner
    case _ => false
  }

  function WithoutForeign(run: seq<Event>, owner: nat): seq<Event> {
    if run == [] then []
    else (if Foreign(run[0], owner) then [] else [run[0]]) + WithoutForeign(run[1..], owner)
  }

  lemma ForeignRefused(s: System, e: Event, owner: nat)
    requires Enabled(s, e) && s.t.nestedOwner == Some(owner) && Foreign(e, owner)
    ensures Apply(s, e) == s
  {
  }

  lemma OwnerStays(s: System, e: Event, owner: nat)
    requires Sound(s) && Enabled(s, e) && s.t.nestedOwner == Some(owner) && Apply(s, e).t.stack != []
    ensures Apply(s, e).t.nestedOwner == Some(owner)
  {
    StepIsSound(s, e);
  }

  /** While a nested block is open it belongs to one task: striking every call of every other task from
      the run gives a run that ends in the same state, on both sides of the connection. */
  lemma {:induction false} BlockIsExclusive(s: System, run: seq<Event>, owner: nat)
    requires Sound(s) && IsRun(s, run) && StaysOpen(s, run, 0) && s.t.nestedOwner == Some(owner)
    ensures IsRun(s, WithoutForeign(run, owner))
    ensures After(s, WithoutForeign(run, owner)) == After(s, run)
    ensures After(s, run).t.nestedOwner == Some(owner)
    decreases |run|
  {
    if run != [] {
      var next := Apply(s, run[0]);
      var rest := WithoutForeign(run[1..], owner);
      StepIsSound(s, run[0]);
      OwnerStays(s, run[0], owner);
      BlockIsExclusive(next, run[1..], owner);
      if Foreign(run[0], owner) {
        ForeignRefused(s, run[0], owner);
        assert [] + rest == rest;
      } else {
        assert ([run[0]] + rest)[1..] == rest;
      }
    }
  }

  // ----- failed blocks and unsafe connections -----

  /** Before entry, after close, on an unsafe connection and while the innermost block is marked failed
      nothing new reaches the server: statements, streams and savepoints are refused with the library's
      state and the server's untouched. */
  lemma FailedBlockRefuses(s: System, e: Event)
    requires !s.t.connected || s.t.closed || !s.t.reusable || TopFailed(s.t)
    requires Enabled(s, e)
    requires e.DoExecute? || e.DoOpenStream? || e.DoEnterNested?
    ensures Apply(s, e) == s
  {
  }

  /** An unsafe connection never becomes safe again and is never released. */
  lemma {:induction false} UnsafeIsAbsorbing(s: System, run: seq<Event>)
    requires IsRun(s, run) && !s.t.reusable
    ensures !After(s, run).t.reusable && After(s, run).released == s.released
    ensures After(s, run).discarded >= s.discarded
    ensures s.t.connected && !After(s, run).t.connected ==> After(s, run).discarded > s.discarded
    decreases |run|
  {
    if run != [] {
      UnsafeIsAbsorbing(Apply(s, run[0]), run[1..]);
    }
  }

  /** A lease goes back to the pool exactly when no savepoint is open, the connection is safe, and its
      COMMIT or ROLLBACK was acknowledged. */
  lemma ReleasedMeansConcluded(s: System, e: Event)
    requires Enabled(s, e)
    ensures Apply(s, e).released > s.released <==> e.DoClose? && Concludes(s.t) && e.reply.Done?
  {
  }

  /** Every close that detaches the connection hands it back once, and so does every failed begin. */
  lemma DetachedMeansDisposed(s: System, e: Event)
    requires Sound(s) && Enabled(s, e)
    ensures
      var s' := Apply(s, e);
      s'.released + s'.discarded
      == s.released + s.discarded + One((s.t.leased || s.t.connected) && !s'.t.leased && !s'.t.connected)
  {
  }

  // ----- leases over a life -----

  /** Leases acquired, exactly: one per failed begin whose discard raised, and one more for the entry
      that holds, held or closed the transaction. So at most one, unless such a discard raised. */
  lemma {:induction false} AtMostOneLease(work: Contents, run: seq<Event>)
    requires IsRun(Start(work), run)
    ensures
      var s := After(Start(work), run);
      && s.acquired == s.unreturned + One(s.t.leased || s.t.connected || s.t.closed)
      && s.released + s.discarded <= s.acquired
      && (!s.t.leased && !s.t.connected ==> s.released + s.discarded == s.acquired)
  {
    TransactionIsSound(work, run);
  }

  /** When that discard raises, the transaction is left neither closed nor connected, and entering it
      again acquires a second connection. */
  lemma SecondLease(work: Contents) returns (run: seq<Event>)
    ensures IsRun(Start(work), run) && After(Start(work), run).acquired == 2
  {
    var server := Start(work).server;
    var first := [DoStartEnter, DoAcquire(true), DoBegin(true, Broken, false, work, server)];
    var s := Start(work);
    var s1 := Apply(s, first[0]);
    var s2 := Apply(s1, first[1]);
    var s3 := Apply(s2, first[2]);
    ThreeSteps(s, first[0], first[1], first[2]);
    ThreeSteps(s3, DoStartEnter, DoAcquire(true), DoStartEnter);
    RunsCompose(s, first, [DoStartEnter, DoAcquire(true), DoStartEnter]);
    run := first + [DoStartEnter, DoAcquire(true), DoStartEnter];
  }

  /** An exit whose close task fails the ownership check leaves the connection open for good: no later
      exit is accepted and the lease is never handed back. */
  lemma {:induction false} RefusedCloseKeepsLease(s: System, run: seq<Event>)
    requires Sound(s) && IsRun(s, run) && s.t.connected && s.t.closing.Some? && s.t.closing.value.ended
    ensures After(s, run).t.connected
    ensures After(s, run).released == s.released && After(s, run).discarded == s.discarded
    decreases |run|
  {
    if run != [] {
      StepIsSound(s, run[0]);
      RefusedCloseKeepsLease(Apply(s, run[0]), run[1..]);
    }
  }

  /** A close ends without disposing of the connection exactly when another task has opened a nested
      block since the exit began, or there is no connection. */
  lemma CloseRefusedExactly(s: System, e: Event)
    requires Sound(s) && Enabled(s, e) && e.DoClose?
    ensures Apply(s, e).released + Apply(s, e).discarded == s.released + s.discarded
            <==> !s.t.connected || (s.t.stack != [] && s.t.nestedOwner != Some(s.t.closing.value.task))
  {
  }

  /** Such a state is reachable: an exit begins, another task opens a nested block before the close
      task takes the lock, and the close is refused. */
  lemma RefusedCloseHappens(work: Contents) returns (run: seq<Event>)
    ensures IsRun(Start(work), run)
    ensures var s := After(Start(work), run); s.t.connected && s.t.closing.Some? && s.t.closing.value.ended
  {
    var server := Server(0, work, []);
    var nested := Server(0, work, [Mark(1, work)]);
    var first := [DoStartEnter, DoAcquire(true), DoBegin(true, Done, true, work, server)];
    var last := [DoStartExit(1, false), DoEnterNested(2, Done, nested), DoClose(Done, Committed, nested)];
    var s := Start(work);
    var s1 := Apply(s, first[0]);
    var s2 := Apply(s1, first[1]);
    var s3 := Apply(s2, first[2]);
    ThreeSteps(s, first[0], first[1], first[2]);
    assert nested.marks == server.marks + [Mark(1, work)];
    var s4 := Apply(s3, last[0]);
    var s5 := Apply(s4, last[1]);
    ThreeSteps(s3, last[0], last[1], last[2]);
    RunsCompose(s, first, last);
    run := first + last;
  }

  lemma {:induction false} ThreeSteps(s: System, a: Event, b: Event, c: Event)
    requires Enabled(s, a) && Enabled(Apply(s, a), b) && Enabled(Apply(Apply(s, a), b), c)
    ensures IsRun(s, [a, b, c]) && After(s, [a, b, c]) == Apply(Apply(Apply(s, a), b), c)
  {
    var s1 := Apply(s, a);
    var s2 := Apply(s1, b);
    assert [a, b, c][1..] == [b, c] && [b, c][1..] == [c] && [c][1..] == [];
    assert IsRun(Apply(s2, c), []);
    assert IsRun(s2, [c]) && After(s2, [c]) == Apply(s2, c);
    assert IsRun(s1, [b, c]) && After(s1, [b, c]) == After(s2, [c]);
  }

  lemma {:induction false} RunsCompose(s: System, a: seq<Event>, b: seq<Event>)
    requires IsRun(s, a) && IsRun(After(s, a), b)
    ensures IsRun(s, a + b) && After(s, a + b) == After(After(s, a), b)
    decreases |a|
  {
    if a == [] {
      assert a + b == b;
    } else {
      assert (a + b)[1..] == a[1..] + b;
      RunsCompose(Apply(s, a[0]), a[1..], b);
    }
  }
}
