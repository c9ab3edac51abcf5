/** Whole-transaction retry: a fresh transaction per attempt, repeated only when nothing committed. */
module TransactionRetry {
  import opened Transactions
  import opened TransactionRuns

  const MAX_ATTEMPTS := 3

  datatype Category = Deadlock | SerializationConflict | OtherCategory | Unclassified

  /** How `async with` and the callback ended: normally, with the library's error, or with another. */
  datatype Ending = Returned | DatabaseError(category: Category) | OtherError

  /** One attempt: everything that happened to its transaction, and how it ended. */
  datatype Attempt = Attempt(work: Contents, run: seq<Event>, ending: Ending)

  predicate Possible(a: Attempt) {
    IsRun(Start(a.work), a.run)
  }

  function FinalState(a: Attempt): System
    requires Possible(a)
  {
    After(Start(a.work), a.run)
  }

  /** How many times the attempts' effects were committed. */
  function TotalCommits(attempts: seq<Attempt>): nat
    requires forall i :: 0 <= i < |attempts| ==> Possible(attempts[i])
  {
    if attempts == [] then 0
    else TotalCommits(attempts[..|attempts| - 1]) + FinalState(attempts[|attempts| - 1]).server.commits
  }

  predicate Retryable(a: Attempt)
    requires Possible(a)
  {
    && a.ending.DatabaseError?
    && (a.ending.category.Deadlock? || a.ending.category.SerializationConflict?)
    && (FinalState(a).t.outcome.NotAttempted? || FinalState(a).t.outcome.Rejected?)
  }

  lemma RetryableCommittedNothing(a: Attempt)
    requires Possible(a)
    ensures FinalState(a).server.commits <= 1
    ensures Retryable(a) ==> FinalState(a).server.commits == 0
    ensures FinalState(a).t.outcome.Committed? ==> FinalState(a).server.commits == 1
  {
    TransactionIsSound(a.work, a.run);
  }

  /** The callback's effects are committed at most once over all attempts, a normal return means
      exactly once, and every attempt but the last committed nothing. */
  method RunWithRetry(attempts: seq<Attempt>) returns (returned: bool, used: nat)
    requires |attempts| >= MAX_ATTEMPTS
    requires forall i :: 0 <= i < |attempts| ==> Possible(attempts[i])
    ensures 1 <= used <= MAX_ATTEMPTS
    ensures TotalCommits(attempts[..used]) <= 1
    ensures returned ==> TotalCommits(attempts[..used]) == 1
    ensures forall i :: 0 <= i < used - 1 ==> Retryable(attempts[i])
    ensures !returned ==> used == MAX_ATTEMPTS || !Retryable(attempts[used - 1])
  {
    used := 0;
    while true
      invariant 0 <= used < MAX_ATTEMPTS
      invariant TotalCommits(attempts[..used]) == 0
      invariant forall i :: 0 <= i < used ==> Retryable(attempts[i])
      decreases MAX_ATTEMPTS - used
    {
      var attempt := attempts[used];
      used := used + 1;
      assert attempts[..used][..used - 1] == attempts[..used - 1];
      RetryableCommittedNothing(attempt);
      var outcome := FinalState(attempt).t.outcome;
      match attempt.ending {
        case Returned => return outcome.Committed?, used;
        case OtherError => return false, used;
        case DatabaseError(category) =>
          if used >= MAX_ATTEMPTS || !(outcome.NotAttempted? || outcome.Rejected?)
             || !(category.Deadlock? || category.SerializationConflict?) {
            return false, used;
          }
      }
    }
  }
}
