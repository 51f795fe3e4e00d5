/** How long a background verification keeps coming back. */
module Retries {

  /** All times in milliseconds. */
  const INITIAL_DELAY: nat := 5 * 60 * 1000
  const RETRY_DELAY: nat := 10 * 60 * 1000
  const RETRY_WINDOW: nat := 3 * 60 * 60 * 1000

  function InitialDelay(createdAt: int, now: int): int {
    if now - createdAt >= INITIAL_DELAY then 0 else INITIAL_DELAY - (now - createdAt)
  }

  predicate ShouldStop(createdAt: int, now: int) {
    now - createdAt >= RETRY_WINDOW
  }

  /** However late the service starts, a job first runs exactly when its transaction is five minutes old, or
      at once if it is older. */
  lemma {:induction false} FirstRun(createdAt: int, now: int)
    ensures InitialDelay(createdAt, now) >= 0
    ensures var runAt := now + InitialDelay(createdAt, now);
      runAt == if now < createdAt + 300_000 then createdAt + 300_000 else now
  {
  }

  /** A verification that got no final answer, on its way back into the queue. */
  class VerificationJob {
    const createdAt: int
    var runAt: int
    var retryCount: nat
    var stopped: bool

    constructor (createdAt: int, now: int)
      ensures this.createdAt == createdAt && runAt == now + InitialDelay(createdAt, now) && retryCount == 0 && !stopped
    {
      this.createdAt := createdAt;
      runAt := now + InitialDelay(createdAt, now);
      retryCount := 0;
      stopped := false;
    }

    /** What is left of the window when the job is due. */
    function Remaining(): int
      reads this
    {
      createdAt + RETRY_WINDOW - runAt
    }

    /** Each requeue uses up at least one retry delay of the window; once it is used up the job stops. */
    method HandleQueueRetryState(now: int)
      requires !stopped && runAt <= now
      modifies this
      ensures retryCount == old(retryCount) + 1
      ensures stopped <==> now - createdAt >= 10_800_000
      ensures !stopped ==> runAt == now + 600_000 && Remaining() <= old(Remaining()) - RETRY_DELAY
      ensures stopped ==> runAt == old(runAt)
      ensures !stopped ==> old(Remaining()) > 0
    {
      retryCount := retryCount + 1;
      if ShouldStop(createdAt, now) {
        stopped := true;
        return;
      }
      runAt := now + RETRY_DELAY;
    }
  }

  /** How often a job of the given age is requeued when its k-th run is late(k) behind its due time. The clock
      never runs backwards, so the recursion ends with the window. */
  function Requeues(age: int, late: nat -> nat, k: nat): nat
    decreases if age < RETRY_WINDOW then RETRY_WINDOW - age else 0
  {
    if age >= RETRY_WINDOW then 0 else 1 + Requeues(age + RETRY_DELAY + late(k), late, k + 1)
  }

  /** Whole retry delays that begin within the window after this age. */
  function Slots(age: int): nat {
    if age >= RETRY_WINDOW then 0 else (RETRY_WINDOW - age + RETRY_DELAY - 1) / RETRY_DELAY
  }

  lemma {:induction false} SlotsStep(age: int, late: nat)
    requires age < RETRY_WINDOW
    ensures Slots(age) == 1 + Slots(age + RETRY_DELAY)
    ensures Slots(age + RETRY_DELAY + late) <= Slots(age + RETRY_DELAY)
  {
  }

  /** However late the queue runs, there are no more requeues than slots, and a punctual queue uses them all. */
  lemma {:induction false} RequeuesBounded(age: int, late: nat -> nat, k: nat)
    ensures Requeues(age, late, k) <= Slots(age)
    ensures (forall i :: late(i) == 0) ==> Requeues(age, late, k) == Slots(age)
    decreases if age < RETRY_WINDOW then RETRY_WINDOW - age else 0
  {
    if age < RETRY_WINDOW {
      SlotsStep(age, late(k));
      RequeuesBounded(age + RETRY_DELAY + late(k), late, k + 1);
    }
  }

  /** The queue at work: each run comes late(k) after its due time, hears nothing final, and either requeues the
      job or stops it. */
  method WorkOff(job: VerificationJob, late: nat -> nat) returns (requeues: nat)
    requires !job.stopped && job.retryCount == 0
    modifies job
    ensures job.stopped && job.retryCount == requeues + 1
    ensures requeues == Requeues(old(job.runAt) + late(0) - job.createdAt, late, 1)
    ensures requeues <= Slots(old(job.runAt) - job.createdAt)
    ensures old(job.runAt) >= job.createdAt ==> requeues <= 18
  {
    requeues := 0;
    while true
      invariant !job.stopped && job.retryCount == requeues
      invariant requeues + Requeues(job.runAt + late(requeues) - job.createdAt, late, requeues + 1)
        == Requeues(old(job.runAt) + late(0) - job.createdAt, late, 1)
      decreases job.Remaining() + RETRY_DELAY
    {
      var now := job.runAt + late(requeues);
      job.HandleQueueRetryState(now);
      if job.stopped {
        break;
      }
      requeues := requeues + 1;
    }
    ghost var age := old(job.runAt) - job.createdAt;
    RequeuesBounded(age + late(0), late, 1);
    SlotsFall(age, late(0));
  }

  lemma {:induction false} SlotsFall(age: int, late: nat)
    ensures Slots(age + late) <= Slots(age)
    ensures age >= 0 ==> Slots(age) <= 18
  {
  }

  /** A verification is requeued at most 18 times, and a punctual one that starts at five minutes exactly 18. */
  lemma {:induction false} AtMostEighteen(age: int, late: nat -> nat)
    requires age >= 0
    ensures Requeues(age, late, 0) <= 18
    ensures age == 300_000 && (forall i :: late(i) == 0) ==> Requeues(age, late, 0) == 18
  {
    RequeuesBounded(age, late, 0);
  }
}
