/** The conflict-retry policy shared by the wallet's operations and the keeper. */
module Retry {
  import opened Prelude

  const CONFLICT_ATTEMPTS: nat := 3

  /** How one build-sign-broadcast attempt ends. `Gone` covers a vault that vanished, is no
      longer ours, or whose ratchet passed the tick. */
  datatype Attempt = Landed(txid: nat) | Conflict | RejectedByNode | Gone | OtherError

  /** What a vanished target after a conflict means to the caller. */
  datatype LostRace = Benign | Fatal

  datatype Outcome =
    | Done(txid: nat)
    | ResolvedElsewhere
    | Rejected
    | TargetGone
    | Failed
    | ResyncFailed
    | ConflictExhausted(attempts: nat)

  /** The first `n` attempts all conflicted and each resync succeeded. */
  ghost predicate Survives(f: nat -> Attempt, resync: nat -> bool, n: nat) {
    forall i :: 0 <= i < n ==> f(i) == Conflict && resync(i)
  }

  /** The verdict on the attempt that ends the loop. */
  function Verdict(a: Attempt, attempt: nat, policy: LostRace): Outcome {
    match a
    case Landed(txid) => Done(txid)
    case Conflict => ResyncFailed
    case RejectedByNode => Rejected
    case Gone => if attempt > 0 && policy == Benign then ResolvedElsewhere else TargetGone
    case OtherError => Failed
  }

  /** At most three attempts are made, a further one only after a conflict and a good resync.
      The outcome is the verdict on the first attempt that is not a survivable conflict, and
      exhaustion exactly when there is none. */
  method RetryConflicts(f: nat -> Attempt, resync: nat -> bool, policy: LostRace) returns (r: Outcome, made: nat)
    ensures 1 <= made <= CONFLICT_ATTEMPTS
    ensures Survives(f, resync, made - 1)
    ensures r == Retried(f, resync, policy, 0)
    ensures r.ConflictExhausted? <==> Survives(f, resync, CONFLICT_ATTEMPTS)
    ensures !r.ConflictExhausted? ==> r == Verdict(f(made - 1), made - 1, policy)
  {
    var attempt := 0;
    while attempt < CONFLICT_ATTEMPTS
      invariant attempt <= CONFLICT_ATTEMPTS && Survives(f, resync, attempt)
      invariant Retried(f, resync, policy, attempt) == Retried(f, resync, policy, 0)
    {
      match f(attempt) {
        case Landed(txid) => return Done(txid), attempt + 1;
        case Conflict =>
          if !resync(attempt) { return ResyncFailed, attempt + 1; }
        case RejectedByNode => return Rejected, attempt + 1;
        case Gone =>
          if attempt > 0 && policy == Benign { return ResolvedElsewhere, attempt + 1; }
          return TargetGone, attempt + 1;
        case OtherError => return Failed, attempt + 1;
      }
      attempt := attempt + 1;
    }
    return ConflictExhausted(CONFLICT_ATTEMPTS), CONFLICT_ATTEMPTS;
  }

  /** The outcome from a given attempt on. */
  function Retried(f: nat -> Attempt, resync: nat -> bool, policy: LostRace, attempt: nat): Outcome
    requires attempt <= CONFLICT_ATTEMPTS
    decreases CONFLICT_ATTEMPTS - attempt
  {
    if attempt == CONFLICT_ATTEMPTS then ConflictExhausted(CONFLICT_ATTEMPTS)
    else if f(attempt) == Conflict && resync(attempt) then Retried(f, resync, policy, attempt + 1)
    else Verdict(f(attempt), attempt, policy)
  }

  /** What comes of it, in plain terms. Attempts go on through conflicts, each with a good resync,
      three at most; the first other one decides: landed, rejected, gone, failed, or a conflict whose
      resync failed. A target that is gone is someone else's work exactly if the caller takes lost
      races that way and a conflict came before. */
  lemma TheDecidingAttempt(f: nat -> Attempt, resync: nat -> bool, policy: LostRace, n: nat)
    requires n < 3 && Survives(f, resync, n) && !(f(n) == Conflict && resync(n))
    ensures var r := Retried(f, resync, policy, 0);
            && (f(n).Landed? ==> r == Done(f(n).txid))
            && (f(n) == Conflict ==> r == ResyncFailed)
            && (f(n) == RejectedByNode ==> r == Rejected)
            && (f(n) == Gone ==> r == if n > 0 && policy == Benign then ResolvedElsewhere else TargetGone)
            && (f(n) == OtherError ==> r == Failed)
  {
    RetriedFrom(f, resync, policy, 0, n);
  }

  lemma ThreeConflictsExhaust(f: nat -> Attempt, resync: nat -> bool, policy: LostRace)
    requires Survives(f, resync, 3)
    ensures Retried(f, resync, policy, 0) == ConflictExhausted(3)
  {
    RetriedFrom(f, resync, policy, 0, 3);
  }

  lemma {:induction false} RetriedFrom(f: nat -> Attempt, resync: nat -> bool, policy: LostRace, k: nat, n: nat)
    requires k <= n <= CONFLICT_ATTEMPTS && Survives(f, resync, n)
    ensures Retried(f, resync, policy, k) == Retried(f, resync, policy, n)
    decreases n - k
  {
    if k < n {
      RetriedFrom(f, resync, policy, k + 1, n);
    }
  }

  /** A lost race is called benign only for work someone else did: after a conflict, a resync
      and a rebuild that found its target gone. */
  lemma {:induction false} BenignMeansLostRace(f: nat -> Attempt, resync: nat -> bool, policy: LostRace, attempt: nat)
    requires attempt <= CONFLICT_ATTEMPTS && Survives(f, resync, attempt)
    requires Retried(f, resync, policy, attempt) == ResolvedElsewhere
    ensures policy == Benign && f(0) == Conflict && resync(0)
    ensures exists n :: 0 < n < CONFLICT_ATTEMPTS && Survives(f, resync, n) && f(n) == Gone
    decreases CONFLICT_ATTEMPTS - attempt
  {
    if f(attempt) == Conflict && resync(attempt) {
      BenignMeansLostRace(f, resync, policy, attempt + 1);
    }
  }
}
