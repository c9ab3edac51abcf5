/** The FIFO admission gate in front of a connection pool.

    `Gate` is the state guarded by the condition lock, and each function over it is one section run
    while the lock is held. `FairAdmissionGate` is the mutable gate, whose methods are proved to make
    exactly those changes. `System` adds the tasks and interleaves their sections arbitrarily. */
module PoolGate {
  import opened TextCodec

  // ----- the state under the lock -----

  /** `parked` holds the tickets whose owners sleep on the condition. */
  datatype Gate = Gate(capacity: nat, admitted: int, waiters: seq<nat>, nextTicket: nat, parked: set<nat>)

  datatype Outcome = Rejected | Claimed | Waiting(ticket: nat) | TimedOut(ticket: nat)

  function NotifyAll(g: Gate): Gate {
    g.(parked := {})
  }

  predicate ServedFirst(g: Gate, ticket: Option<nat>) {
    if ticket.None? then g.waiters == [] else g.waiters != [] && g.waiters[0] == ticket.value
  }

  function Claim(g: Gate, ticket: Option<nat>): Gate
    requires ServedFirst(g, ticket)
  {
    var claimed := g.(admitted := g.admitted + 1,
                      waiters := if ticket.None? then g.waiters else g.waiters[1..]);
    if claimed.admitted < g.capacity then NotifyAll(claimed) else claimed
  }

  function TicketOf(g: Gate, ticket: Option<nat>): nat {
    if ticket.None? then g.nextTicket else ticket.value
  }

  function Enqueue(g: Gate, ticket: Option<nat>): Gate {
    if ticket.None? then g.(waiters := g.waiters + [g.nextTicket], nextTicket := g.nextTicket + 1) else g
  }

  function Without(waiters: seq<nat>, ticket: nat): seq<nat> {
    if waiters == [] then []
    else if waiters[0] == ticket then waiters[1..]
    else [waiters[0]] + Without(waiters[1..], ticket)
  }

  function Discard(g: Gate, ticket: nat): Gate {
    NotifyAll(g.(waiters := Without(g.waiters, ticket)))
  }

  function Release(g: Gate): Gate {
    NotifyAll(g.(admitted := g.admitted - 1))
  }

  /** One pass of the admission loop, from taking the lock to giving it up. */
  function Attempt(g: Gate, ticket: Option<nat>, accepting: bool, expired: bool): (Gate, Outcome) {
    if !accepting then (g, Rejected)
    else if ServedFirst(g, ticket) && g.admitted < g.capacity then (Claim(g, ticket), Claimed)
    else
      var queued, t := Enqueue(g, ticket), TicketOf(g, ticket);
      if expired then (Discard(queued, t), TimedOut(t)) else (queued.(parked := queued.parked + {t}), Waiting(t))
  }

  // ----- the mutable gate -----

  class FairAdmissionGate {
    const capacity: nat
    var admitted: int
    var waiters: seq<nat>
    var nextTicket: nat
    /** The condition's own sleepers. */
    var parked: set<nat>

    ghost function State(): Gate
      reads this
    {
      Gate(capacity, admitted, waiters, nextTicket, parked)
    }

    constructor (capacity: nat)
      ensures State() == Gate(capacity, 0, [], 0, {})
    {
      this.capacity := capacity;
      admitted, waiters, nextTicket, parked := 0, [], 0, {};
    }

    method WaiterIsServedFirst(ticket: Option<nat>) returns (first: bool)
      ensures first == ServedFirst(State(), ticket)
    {
      if ticket.None? {
        return |waiters| == 0;
      }
      first := |waiters| != 0 && waiters[0] == ticket.value;
    }

    method EnqueueWaiter(ticket: Option<nat>) returns (t: nat)
      modifies this
      ensures State() == Enqueue(old(State()), ticket) && t == TicketOf(old(State()), ticket)
    {
      if ticket.Some? {
        return ticket.value;
      }
      t := nextTicket;
      nextTicket := nextTicket + 1;
      waiters := waiters + [t];
    }

    method DiscardWaiter(ticket: nat)
      modifies this
      ensures State() == Discard(old(State()), ticket)
    {
      var i := 0;
      while i < |waiters| && waiters[i] != ticket
        invariant 0 <= i <= |waiters|
        invariant State() == old(State())
        invariant forall k :: 0 <= k < i ==> waiters[k] != ticket
      {
        i := i + 1;
      }
      WithoutFirst(waiters, ticket, i);
      if i < |waiters| {
        waiters := waiters[..i] + waiters[i + 1..];
      }
      parked := {};
    }

    method TryAdmit(ticket: Option<nat>, accepting: bool, expired: bool) returns (outcome: Outcome)
      modifies this
      ensures (State(), outcome) == Attempt(old(State()), ticket, accepting, expired)
    {
      if !accepting {
        return Rejected;
      }
      var first := WaiterIsServedFirst(ticket);
      if first && admitted < capacity {
        if ticket.Some? {
          waiters := waiters[1..];
        }
        admitted := admitted + 1;
        if admitted < capacity {
          parked := {};
        }
        return Claimed;
      }
      var t := EnqueueWaiter(ticket);
      if expired {
        DiscardWaiter(t);
        return TimedOut(t);
      }
      parked := parked + {t};
      outcome := Waiting(t);
    }

    method ReleaseSlot()
      modifies this
      ensures State() == Release(old(State()))
    {
      admitted := admitted - 1;
      parked := {};
    }
  }

  lemma {:induction false} WithoutFirst(q: seq<nat>, ticket: nat, i: nat)
    requires i <= |q| && (i < |q| ==> q[i] == ticket) && forall k :: 0 <= k < i ==> q[k] != ticket
    ensures Without(q, ticket) == if i < |q| then q[..i] + q[i + 1..] else q
    decreases |q|
  {
    if q != [] && i > 0 {
      WithoutFirst(q[1..], ticket, i - 1);
      assert q == [q[0]] + q[1..];
      if i < |q| {
        TailSplit(q, i);
      }
    }
  }

  lemma TailSplit(q: seq<nat>, i: nat)
    requires 0 < i < |q|
    ensures [q[0]] + (q[1..][..i - 1] + q[1..][i..]) == q[..i] + q[i + 1..]
  {
    assert q[..i] == [q[0]] + q[1..][..i - 1];
    assert q[i + 1..] == q[1..][i..];
  }

  // ----- tasks -----

  /** `Holding` owns a queued ticket, asleep exactly while the ticket is parked and otherwise on its
      way back to the lock; `Dying` is on its way to the lock to drop its ticket. */
  datatype Task = Fresh | Holding(ticket: nat) | Dying(ticket: nat) | Owner | Releasing | Gone

  /** `served` is the history of queued tickets admitted so far. */
  datatype System = System(gate: Gate, tasks: seq<Task>, served: seq<nat>)

  datatype Event =
    | Arrive
    | Enter(task: nat, accepting: bool, expired: bool)
    | Interrupt(task: nat)
    | Drop(task: nat, last: bool)
    | Finish(task: nat)
    | GiveBack(task: nat)
    | WakeAll

  function TicketHeld(task: Task): Option<nat> {
    if task.Holding? || task.Dying? then Some(task.ticket) else None
  }

  predicate OwnsSlot(task: Task) {
    task.Owner? || task.Releasing?
  }

  predicate Enabled(s: System, e: Event) {
    match e
    case Arrive => true
    case Enter(i, _, _) =>
      i < |s.tasks| && (s.tasks[i].Fresh? || (s.tasks[i].Holding? && s.tasks[i].ticket !in s.gate.parked))
    case Interrupt(i) => i < |s.tasks| && (s.tasks[i].Fresh? || s.tasks[i].Holding?)
    case Drop(i, _) => i < |s.tasks| && s.tasks[i].Dying?
    case Finish(i) => i < |s.tasks| && s.tasks[i].Owner?
    case GiveBack(i) => i < |s.tasks| && s.tasks[i].Releasing?
    case WakeAll => true
  }

  function AfterAttempt(task: Task, outcome: Outcome): Task {
    match outcome
    case Rejected => if task.Holding? then Dying(task.ticket) else Gone
    case Claimed => Owner
    case Waiting(t) => Holding(t)
    case TimedOut(t) => Dying(t)
  }

  function Apply(s: System, e: Event): System
    requires Enabled(s, e)
  {
    match e
    case Arrive => s.(tasks := s.tasks + [Fresh])
    case Enter(i, accepting, expired) =>
      var ticket := TicketHeld(s.tasks[i]);
      var (gate, outcome) := Attempt(s.gate, ticket, accepting, expired);
      System(gate, s.tasks[i := AfterAttempt(s.tasks[i], outcome)],
             if outcome.Claimed? && ticket.Some? then s.served + [ticket.value] else s.served)
    case Interrupt(i) =>
      if s.tasks[i].Fresh? then s.(tasks := s.tasks[i := Gone])
      else s.(gate := s.gate.(parked := s.gate.parked - {s.tasks[i].ticket}),
              tasks := s.tasks[i := Dying(s.tasks[i].ticket)])
    case Drop(i, last) =>
      s.(gate := Discard(s.gate, s.tasks[i].ticket),
         tasks := if last then s.tasks[i := Gone] else s.tasks)
    case Finish(i) => s.(tasks := s.tasks[i := Releasing])
    case GiveBack(i) => s.(gate := Release(s.gate), tasks := s.tasks[i := Gone])
    case WakeAll => s.(gate := NotifyAll(s.gate))
  }

  function Start(capacity: nat): System {
    System(Gate(capacity, 0, [], 0, {}), [], [])
  }

  predicate IsRun(s: System, run: seq<Event>)
    decreases |run|
  {
    run == [] || (Enabled(s, run[0]) && IsRun(Apply(s, run[0]), run[1..]))
  }

  function After(s: System, run: seq<Event>): System
    requires IsRun(s, run)
    decreases |run|
  {
    if run == [] then s else After(Apply(s, run[0]), run[1..])
  }

  // ----- what every run keeps -----

  function Owners(tasks: seq<Task>): nat {
    if tasks == [] then 0
    else Owners(tasks[..|tasks| - 1]) + if OwnsSlot(tasks[|tasks| - 1]) then 1 else 0
  }

  predicate Increasing(q: seq<nat>) {
    forall i, j :: 0 <= i < j < |q| ==> q[i] < q[j]
  }

  predicate Holds(s: System, i: nat, t: nat) {
    i < |s.tasks| && TicketHeld(s.tasks[i]) == Some(t)
  }

  /** A slot is never idle while the task at the head of the queue sleeps. */
  predicate NoLostWakeup(g: Gate) {
    g.admitted < g.capacity && g.waiters != [] ==> g.waiters[0] !in g.parked
  }

  ghost predicate SlotsCounted(s: System) {
    s.gate.admitted == Owners(s.tasks) && s.gate.admitted <= s.gate.capacity
  }

  ghost predicate QueueOrdered(s: System) {
    && Increasing(s.gate.waiters)
    && (forall t :: t in s.gate.waiters ==> t < s.gate.nextTicket)
  }

  /** Every queued ticket has a live owner, no ticket has two, and only queued tickets are parked,
      by owners that still want them. */
  ghost predicate TicketsOwned(s: System) {
    && (forall t :: t in s.gate.waiters ==> exists i: nat :: Holds(s, i, t))
    && (forall i: nat, j: nat, t: nat :: Holds(s, i, t) && Holds(s, j, t) ==> i == j)
    && (forall i: nat, t: nat :: Holds(s, i, t) ==> t < s.gate.nextTicket)
    && (forall i: nat, t: nat :: Holds(s, i, t) && s.tasks[i].Holding? ==> t in s.gate.waiters)
    && (forall i: nat, t: nat :: Holds(s, i, t) && t in s.gate.parked ==> s.tasks[i].Holding?)
    && (forall t :: t in s.gate.parked ==> t in s.gate.waiters)
  }

  /** Queued tickets are admitted in order, each before every ticket still queued. */
  ghost predicate ServedInOrder(s: System) {
    && Increasing(s.served)
    && (forall t :: t in s.served ==> t < s.gate.nextTicket)
    && (forall t, w :: t in s.served && w in s.gate.waiters ==> t < w)
  }

  ghost predicate Safe(s: System) {
    && SlotsCounted(s)
    && QueueOrdered(s)
    && TicketsOwned(s)
    && NoLostWakeup(s.gate)
    && ServedInOrder(s)
  }

  // ----- queues -----

  lemma {:induction false} WithoutKeeps(q: seq<nat>, t: nat)
    requires Increasing(q)
    ensures Increasing(Without(q, t))
    ensures forall w :: w in Without(q, t) <==> w in q && w != t
  {
    if q != [] {
      FirstIsLeast(q);
      WithoutKeeps(q[1..], t);
      if q[0] != t {
        PutFirst(q[0], Without(q[1..], t));
      }
    }
  }

  lemma FirstIsLeast(q: seq<nat>)
    requires Increasing(q) && q != []
    ensures Increasing(q[1..]) && forall w :: w in q[1..] ==> q[0] < w
    ensures forall w :: w in q <==> w == q[0] || w in q[1..]
  {
    assert q == [q[0]] + q[1..];
    forall w | w in q[1..] ensures q[0] < w {
      var k :| 0 <= k < |q[1..]| && q[1..][k] == w;
      assert q[k + 1] == w;
    }
  }

  lemma PutFirst(first: nat, rest: seq<nat>)
    requires Increasing(rest) && forall w :: w in rest ==> first < w
    ensures Increasing([first] + rest)
    ensures forall w :: w in [first] + rest <==> w == first || w in rest
  {
    var r := [first] + rest;
    forall i, j | 0 <= i < j < |r| ensures r[i] < r[j] {
      if i == 0 {
        assert r[j] == rest[j - 1] && rest[j - 1] in rest;
      } else {
        assert r[i] == rest[i - 1] && r[j] == rest[j - 1];
      }
    }
  }

  lemma AppendKeeps(q: seq<nat>, n: nat)
    requires Increasing(q) && forall t :: t in q ==> t < n
    ensures Increasing(q + [n])
    ensures forall t :: t in q + [n] <==> t in q || t == n
  {
    forall i, j | 0 <= i < j < |q + [n]| ensures (q + [n])[i] < (q + [n])[j] {
      assert q[i] in q;
    }
  }

  lemma TailKeeps(q: seq<nat>)
    requires Increasing(q) && q != []
    ensures Increasing(q[1..])
    ensures forall t :: t in q[1..] <==> t in q && t != q[0]
    ensures forall t :: t in q[1..] ==> q[0] < t
  {
    assert q == [q[0]] + q[1..];
    forall t | t in q[1..] ensures q[0] < t {
      var k :| 0 <= k < |q[1..]| && q[1..][k] == t;
      assert q[k + 1] == t;
    }
  }

  /** The queue after a pass, as a set: the new ticket in, the served or timed-out one out. */
  lemma AttemptKeeps(g: Gate, ticket: Option<nat>, accepting: bool, expired: bool)
    requires Increasing(g.waiters) && forall t :: t in g.waiters ==> t < g.nextTicket
    requires ticket.Some? ==> ticket.value in g.waiters
    ensures
      var (after, outcome) := Attempt(g, ticket, accepting, expired);
      && Increasing(after.waiters)
      && (forall t :: t in after.waiters <==>
            match outcome
            case Rejected => t in g.waiters
            case Claimed => t in g.waiters && ticket != Some(t)
            case Waiting(n) => t in g.waiters || t == n
            case TimedOut(n) => t in g.waiters && t != n)
  {
    var t := TicketOf(g, ticket);
    if ServedFirst(g, ticket) && ticket.Some? {
      TailKeeps(g.waiters);
    }
    if ticket.None? {
      AppendKeeps(g.waiters, g.nextTicket);
    }
    WithoutKeeps(Enqueue(g, ticket).waiters, t);
  }

  lemma {:induction false} OwnersUpdate(tasks: seq<Task>, i: nat, task: Task)
    requires i < |tasks|
    ensures Owners(tasks[i := task]) + (if OwnsSlot(tasks[i]) then 1 else 0)
            == Owners(tasks) + if OwnsSlot(task) then 1 else 0
  {
    var last := |tasks| - 1;
    if i == last {
      assert tasks[i := task][..last] == tasks[..last];
    } else {
      assert tasks[i := task][..last] == tasks[..last][i := task];
      OwnersUpdate(tasks[..last], i, task);
    }
  }

  // ----- each step keeps each part -----

  lemma CountKept(s: System, e: Event)
    requires Safe(s) && Enabled(s, e)
    ensures SlotsCounted(Apply(s, e))
  {
    if e.Arrive? {
      assert (s.tasks + [Fresh])[..|s.tasks|] == s.tasks;
    } else if e.Enter? {
      EnterCounted(s, e);
    } else if !e.WakeAll? {
      MoveCounted(s, e);
    }
  }

  lemma EnterCounted(s: System, e: Event)
    requires Safe(s) && Enabled(s, e) && e.Enter?
    ensures SlotsCounted(Apply(s, e))
  {
    var outcome := Attempt(s.gate, TicketHeld(s.tasks[e.task]), e.accepting, e.expired).1;
    OwnersUpdate(s.tasks, e.task, AfterAttempt(s.tasks[e.task], outcome));
  }

  lemma MoveCounted(s: System, e: Event)
    requires Safe(s) && Enabled(s, e) && (e.Interrupt? || e.Drop? || e.Finish? || e.GiveBack?)
    ensures SlotsCounted(Apply(s, e))
  {
    OwnersUpdate(s.tasks, e.task, Apply(s, e).tasks[e.task]);
    assert s.tasks[e.task := s.tasks[e.task]] == s.tasks;
  }

  lemma OrderKept(s: System, e: Event)
    requires Safe(s) && Enabled(s, e)
    ensures QueueOrdered(Apply(s, e))
  {
    if e.Drop? {
      WithoutKeeps(s.gate.waiters, s.tasks[e.task].ticket);
    } else if e.Enter? {
      TicketQueued(s, e.task);
      AttemptKeeps(s.gate, TicketHeld(s.tasks[e.task]), e.accepting, e.expired);
    }
  }

  lemma TicketQueued(s: System, i: nat)
    requires TicketsOwned(s) && i < |s.tasks|
    ensures s.tasks[i].Holding? ==> s.tasks[i].ticket in s.gate.waiters
  {
    if s.tasks[i].Holding? {
      assert Holds(s, i, s.tasks[i].ticket);
    }
  }

  lemma WakeupKept(s: System, e: Event)
    requires Safe(s) && Enabled(s, e)
    ensures NoLostWakeup(Apply(s, e).gate)
  {
    if e.Enter? {
      TicketQueued(s, e.task);
      assert s.gate.waiters != [] ==> s.gate.waiters[0] in s.gate.waiters;
    }
  }

  lemma HistoryKept(s: System, e: Event)
    requires Safe(s) && Enabled(s, e)
    ensures ServedInOrder(Apply(s, e))
  {
    if e.Drop? {
      WithoutKeeps(s.gate.waiters, s.tasks[e.task].ticket);
    } else if e.Enter? {
      EnterServes(s, e);
    }
  }

  lemma EnterServes(s: System, e: Event)
    requires Safe(s) && Enabled(s, e) && e.Enter?
    ensures ServedInOrder(Apply(s, e))
  {
    TicketQueued(s, e.task);
    var ticket := TicketHeld(s.tasks[e.task]);
    AttemptKeeps(s.gate, ticket, e.accepting, e.expired);
    if Attempt(s.gate, ticket, e.accepting, e.expired).1.Claimed? && ticket.Some? {
      HeadServed(s, Apply(s, e));
    } else {
      ServedStill(s, Apply(s, e));
    }
  }

  /** Nothing was served from the queue; at most the next ticket joined it. */
  lemma ServedStill(s: System, s': System)
    requires ServedInOrder(s) && s'.served == s.served && s.gate.nextTicket <= s'.gate.nextTicket
    requires forall w :: w in s'.gate.waiters ==> w in s.gate.waiters || w == s.gate.nextTicket
    ensures ServedInOrder(s')
  {
  }

  lemma HeadServed(s: System, s': System)
    requires ServedInOrder(s) && QueueOrdered(s) && s.gate.waiters != []
    requires s'.served == s.served + [s.gate.waiters[0]] && s'.gate.waiters == s.gate.waiters[1..]
    requires s'.gate.nextTicket == s.gate.nextTicket
    ensures ServedInOrder(s')
  {
    var head := s.gate.waiters[0];
    assert head in s.gate.waiters;
    TailKeeps(s.gate.waiters);
    AppendKeeps(s.served, head);
  }

  lemma OwnershipKept(s: System, e: Event)
    requires Safe(s) && Enabled(s, e)
    ensures TicketsOwned(Apply(s, e))
  {
    match e
    case Drop(_, _) => DropOwned(s, e);
    case Enter(_, _, _) => EnterOwned(s, e);
    case Interrupt(_) => InterruptOwned(s, e);
    case _ => OtherOwned(s, e);
  }

  lemma DropOwned(s: System, e: Event)
    requires Safe(s) && Enabled(s, e) && e.Drop?
    ensures TicketsOwned(Apply(s, e))
  {
    WithoutKeeps(s.gate.waiters, s.tasks[e.task].ticket);
    OwnersKept(s, Apply(s, e), e.task);
  }

  lemma EnterOwned(s: System, e: Event)
    requires Safe(s) && Enabled(s, e) && e.Enter?
    ensures TicketsOwned(Apply(s, e))
  {
    var outcome := Attempt(s.gate, TicketHeld(s.tasks[e.task]), e.accepting, e.expired).1;
    if outcome.Waiting? || outcome.TimedOut? {
      QueuedOwned(s, e);
    } else {
      UnqueuedOwned(s, e);
    }
  }

  lemma QueuedOwned(s: System, e: Event)
    requires Safe(s) && Enabled(s, e) && e.Enter?
    requires var outcome := Attempt(s.gate, TicketHeld(s.tasks[e.task]), e.accepting, e.expired).1;
      outcome.Waiting? || outcome.TimedOut?
    ensures TicketsOwned(Apply(s, e))
  {
    TicketQueued(s, e.task);
    AttemptKeeps(s.gate, TicketHeld(s.tasks[e.task]), e.accepting, e.expired);
    OwnersKept(s, Apply(s, e), e.task);
  }

  lemma UnqueuedOwned(s: System, e: Event)
    requires Safe(s) && Enabled(s, e) && e.Enter?
    requires var outcome := Attempt(s.gate, TicketHeld(s.tasks[e.task]), e.accepting, e.expired).1;
      outcome.Rejected? || outcome.Claimed?
    ensures TicketsOwned(Apply(s, e))
  {
    TicketQueued(s, e.task);
    AttemptKeeps(s.gate, TicketHeld(s.tasks[e.task]), e.accepting, e.expired);
    OwnersKept(s, Apply(s, e), e.task);
  }

  lemma InterruptOwned(s: System, e: Event)
    requires Safe(s) && Enabled(s, e) && e.Interrupt?
    ensures TicketsOwned(Apply(s, e))
  {
    OwnersKept(s, Apply(s, e), e.task);
  }

  lemma OtherOwned(s: System, e: Event)
    requires Safe(s) && Enabled(s, e) && !e.Drop? && !e.Enter? && !e.Interrupt?
    ensures TicketsOwned(Apply(s, e))
  {
    OwnersKept(s, Apply(s, e), if e.Arrive? || e.WakeAll? then |s.tasks| else e.task);
  }

  /** Only task `k` moved, and it holds no ticket, its old one, or the next one. */
  lemma OwnersKept(s: System, s': System, k: nat)
    requires TicketsOwned(s)
    requires |s.tasks| <= |s'.tasks| <= |s.tasks| + 1
    requires forall i: nat :: i < |s.tasks| && i != k ==> s'.tasks[i] == s.tasks[i]
    requires |s'.tasks| > |s.tasks| ==> k == |s.tasks|
    requires forall t: nat :: Holds(s', k, t) ==> t == s.gate.nextTicket < s'.gate.nextTicket || Holds(s, k, t)
    requires s.gate.nextTicket <= s'.gate.nextTicket
    requires forall t: nat :: t in s'.gate.waiters ==>
      (t in s.gate.waiters && (Holds(s, k, t) ==> Holds(s', k, t))) || Holds(s', k, t)
    requires forall t: nat :: t in s.gate.waiters && !Holds(s, k, t) ==> t in s'.gate.waiters
    requires forall t: nat :: Holds(s', k, t) && s'.tasks[k].Holding? ==> t in s'.gate.waiters
    requires forall t: nat :: t in s'.gate.parked ==> t in s'.gate.waiters
    requires forall t: nat :: t in s'.gate.parked ==> t in s.gate.parked || Holds(s', k, t)
    requires forall t: nat :: Holds(s', k, t) && t in s'.gate.parked ==> s'.tasks[k].Holding?
    ensures TicketsOwned(s')
  {
    forall i: nat, t: nat | Holds(s', i, t) ensures i == k || Holds(s, i, t) {
    }
    forall t: nat | t in s'.gate.waiters ensures exists i: nat :: Holds(s', i, t) {
      if !Holds(s', k, t) {
        var i: nat :| Holds(s, i, t);
        assert Holds(s', i, t);
      }
    }
  }

  /** Safety over whole runs: any interleaving of arrivals, admissions, timeouts, cancellations,
      rejections, releases and wake-ups, from the empty gate. */
  lemma {:induction false} RunsAreSafe(s: System, run: seq<Event>)
    requires Safe(s) && IsRun(s, run)
    ensures Safe(After(s, run))
    decreases |run|
  {
    if run != [] {
      StepIsSafe(s, run[0]);
      RunsAreSafe(Apply(s, run[0]), run[1..]);
    }
  }

  lemma StepIsSafe(s: System, e: Event)
    requires Safe(s) && Enabled(s, e)
    ensures Safe(Apply(s, e))
  {
    CountKept(s, e);
    OrderKept(s, e);
    WakeupKept(s, e);
    HistoryKept(s, e);
    OwnershipKept(s, e);
  }

  lemma StartIsSafe(capacity: nat)
    ensures Safe(Start(capacity))
  {
  }

  /** From the empty gate, every run keeps the slot count, the queue's order and ownership, the
      wake-up guarantee and the order of service. */
  lemma {:induction false} GateIsSafe(capacity: nat, run: seq<Event>)
    requires IsRun(Start(capacity), run)
    ensures Safe(After(Start(capacity), run))
  {
    StartIsSafe(capacity);
    RunsAreSafe(Start(capacity), run);
  }

  // ----- fairness -----

  /** A slot is claimed only when no earlier ticket waits: by the oldest ticket, or by a newcomer
      that finds the queue empty. */
  lemma NobodyBarges(s: System, i: nat, accepting: bool, expired: bool)
    requires Safe(s) && Enabled(s, Enter(i, accepting, expired))
    requires Apply(s, Enter(i, accepting, expired)).tasks[i].Owner?
    ensures s.tasks[i].Fresh? ==> s.gate.waiters == []
    ensures s.tasks[i].Holding? ==> forall w :: w in s.gate.waiters ==> s.tasks[i].ticket <= w
  {
    if s.tasks[i].Holding? {
      forall w | w in s.gate.waiters ensures s.tasks[i].ticket <= w {
        var k :| 0 <= k < |s.gate.waiters| && s.gate.waiters[k] == w;
      }
    }
  }

  function Earlier(g: Gate, ticket: nat): set<nat> {
    set w | w in g.waiters && w < ticket
  }

  lemma StepEarlier(s: System, e: Event, ticket: nat)
    requires Safe(s) && Enabled(s, e) && ticket < s.gate.nextTicket
    ensures Earlier(Apply(s, e).gate, ticket) <= Earlier(s.gate, ticket)
    ensures s.gate.nextTicket <= Apply(s, e).gate.nextTicket
  {
    if e.Drop? {
      WithoutKeeps(s.gate.waiters, s.tasks[e.task].ticket);
    } else if e.Enter? {
      TicketQueued(s, e.task);
      AttemptKeeps(s.gate, TicketHeld(s.tasks[e.task]), e.accepting, e.expired);
    }
  }

  lemma SubsetCount(a: set<nat>, b: set<nat>)
    requires a <= b
    ensures |a| <= |b|
  {
    assert b == a + (b - a);
  }

  /** The tickets ahead of an issued ticket only ever leave: none joins ahead of it, however long it
      waits, so their number never grows. */
  lemma {:induction false} NobodyOvertakes(s: System, run: seq<Event>, ticket: nat)
    requires Safe(s) && IsRun(s, run) && ticket < s.gate.nextTicket
    ensures Earlier(After(s, run).gate, ticket) <= Earlier(s.gate, ticket)
    ensures |Earlier(After(s, run).gate, ticket)| <= |Earlier(s.gate, ticket)|
    decreases |run|
  {
    if run != [] {
      StepIsSafe(s, run[0]);
      StepEarlier(s, run[0], ticket);
      NobodyOvertakes(Apply(s, run[0]), run[1..], ticket);
    }
    SubsetCount(Earlier(After(s, run).gate, ticket), Earlier(s.gate, ticket));
  }

  // ----- progress -----

  /** With a slot free and a queue, the owner of the head ticket can run at once: it takes the slot, or,
      when it is leaving, drops the ticket. Either way the queue advances. */
  lemma HeadAdvances(s: System) returns (e: Event)
    requires Safe(s) && s.gate.admitted < s.gate.capacity && s.gate.waiters != []
    ensures Enabled(s, e) && Apply(s, e).gate.waiters == s.gate.waiters[1..]
    ensures (e.Enter? && Apply(s, e).served == s.served + [s.gate.waiters[0]]) || e.Drop?
  {
    var head := s.gate.waiters[0];
    assert head in s.gate.waiters;
    var i: nat :| Holds(s, i, head);
    e := if s.tasks[i].Holding? then Enter(i, true, false) else Drop(i, true);
  }

  /** When every task is gone, every slot and every ticket has come back. */
  lemma NothingLeaks(s: System)
    requires Safe(s) && forall task :: task in s.tasks ==> task.Gone?
    ensures s.gate.admitted == 0 && s.gate.waiters == [] && s.gate.parked == {}
  {
    NoOwners(s.tasks);
    assert s.gate.waiters != [] ==> s.gate.waiters[0] in s.gate.waiters;
    forall i: nat, t: nat ensures !Holds(s, i, t) {
      assert i < |s.tasks| ==> s.tasks[i] in s.tasks;
    }
  }

  lemma {:induction false} NoOwners(tasks: seq<Task>)
    requires forall task :: task in tasks ==> task.Gone?
    ensures Owners(tasks) == 0
  {
    if tasks != [] {
      assert tasks[|tasks| - 1] in tasks;
      NoOwners(tasks[..|tasks| - 1]);
    }
  }
}
