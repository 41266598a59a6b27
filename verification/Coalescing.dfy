/**
 * `packages/api/src/sim/coalesced-runner.ts`: at most one optimizer job at a time, everything that
 * arrives meanwhile gathered into the next one.
 */
module Coalescing {
  datatype Job<E> = Job(events: seq<E>, simMs: real)

  function Handed<E>(jobs: seq<Job<E>>): seq<E> {
    if jobs == [] then [] else Handed(jobs[..|jobs| - 1]) + jobs[|jobs| - 1].events
  }

  lemma HandedOneMore<E>(jobs: seq<Job<E>>, job: Job<E>)
    ensures Handed(jobs + [job]) == Handed(jobs) + job.events
  {
    assert (jobs + [job])[..|jobs|] == jobs;
  }

  class CoalescedRunner<E> {
    var busy: bool
    var pendingEvents: seq<E>
    var pendingSimMs: real
    var hasPending: bool
    var idleWaiters: nat
    /** What the wrapped runner was called with, and how many of those calls have settled. */
    var jobs: seq<Job<E>>
    var settled: nat
    /** Everything ever triggered, in order. */
    ghost var triggered: seq<E>

    ghost predicate Valid()
      reads this
    {
      && Handed(jobs) + pendingEvents == triggered
      && (!hasPending ==> pendingEvents == [])
      && (hasPending ==> busy)
      && (idleWaiters > 0 ==> busy)
      && |jobs| == settled + (if busy then 1 else 0)
    }

    constructor ()
      ensures Valid() && triggered == [] && jobs == [] && !busy
    {
      busy, pendingEvents, pendingSimMs, hasPending, idleWaiters := false, [], 0.0, false, 0;
      jobs, settled, triggered := [], 0, [];
    }

    method Start(events: seq<E>, simMs: real)
      modifies `busy, `jobs
      ensures busy && jobs == old(jobs) + [Job(events, simMs)]
    {
      busy := true;
      jobs := jobs + [Job(events, simMs)];
    }

    /** Never waits: starts a job when idle, otherwise adds to the one that will follow. */
    method Trigger(events: seq<E>, simMs: real)
      requires Valid()
      modifies this
      ensures Valid() && triggered == old(triggered) + events && busy && settled == old(settled)
      ensures old(busy) ==>
        && jobs == old(jobs) && pendingEvents == old(pendingEvents) + events
        && pendingSimMs == simMs && hasPending
      ensures !old(busy) ==> jobs == old(jobs) + [Job(events, simMs)] && !hasPending
    {
      triggered := triggered + events;
      if busy {
        pendingEvents := pendingEvents + events;
        pendingSimMs := simMs;
        hasPending := true;
        return;
      }
      HandedOneMore(jobs, Job(events, simMs));
      Start(events, simMs);
    }

    /** The job in flight resolved or rejected: one follow-up job if anything gathered, else idle. */
    method OnSettle()
      requires Valid() && busy
      modifies this
      ensures Valid() && triggered == old(triggered) && settled == old(settled) + 1
      ensures old(hasPending) ==>
        && busy && !hasPending && idleWaiters == old(idleWaiters)
        && jobs == old(jobs) + [Job(old(pendingEvents), old(pendingSimMs))]
      ensures !old(hasPending) ==> !busy && idleWaiters == 0 && jobs == old(jobs)
    {
      settled := settled + 1;
      if hasPending {
        var events, simMs := pendingEvents, pendingSimMs;
        pendingEvents := [];
        hasPending := false;
        HandedOneMore(jobs, Job(events, simMs));
        Start(events, simMs);
        return;
      }
      busy := false;
      idleWaiters := 0;
    }

    /** Resolves at once when idle; otherwise the waiter is released by the settle that idles. */
    method WhenIdle() returns (resolved: bool)
      requires Valid()
      modifies `idleWaiters
      ensures Valid() && resolved == !busy
      ensures idleWaiters == old(idleWaiters) + if resolved then 0 else 1
      ensures resolved ==> Handed(jobs) == triggered
    {
      if !busy && !hasPending { return true; }
      idleWaiters := idleWaiters + 1;
      resolved := false;
    }
  }
}
