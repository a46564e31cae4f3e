/** The executor as an object: each method is what the event loop runs without a pause.

`Run` is the part of `run` before its first suspension; `Resume` is the rest, for a request that had
to queue.  The clock, and whether the thread pool takes the build, are parameters. */
module BuildExecutor {
  import opened Semaphore
  import opened BuildQueue
  import opened BuildQueueProofs

  datatype Reply = TooLarge | Full | Queued | Running | Failing | Gone

  datatype Age = None | Seconds(value: real)

  datatype Status = Status(
    accepting: bool, workers: int, queueLimit: int, maxContextBytes: int, active: int, queued: int, contextBytes: int,
    oldestRunning: Age, oldestQueued: Age, lastFinishedAgo: Age,
    succeeded: int, failed: int, rejected: int, cancelledQueued: int)

  class Executor {
    const cfg: Config
    var queuedAt: map<Ticket, Time>
    var runningAt: map<Ticket, Time>
    var sizes: map<Ticket, nat>  // of the contexts that pending calls of `run` hold
    var slots: Slots
    var pending: int
    var bytes: int
    var active: int
    var idle: bool
    var closed: bool
    var poolShut: bool
    var succeeded: int
    var failed: int
    var rejected: int
    var cancelledQueued: int
    var lastFinished: Stamp
    var next: Ticket
    ghost var outcomes: map<Ticket, Outcome>

    ghost function Now(): State
      reads this
    {
      State(Requests(queuedAt, runningAt, sizes), slots, Load(pending, bytes, active, idle),
            Totals(succeeded, failed, rejected, cancelledQueued, lastFinished), closed, poolShut, next, outcomes)
    }

    ghost predicate Valid()
      reads this
    {
      Inv(cfg, Now())
    }

    constructor (cfg: Config)
      requires ValidConfig(cfg)
      ensures Valid() && Init(cfg, Now()) && this.cfg == cfg
      ensures queuedAt == runningAt == map[] && sizes == map[] && slots == Slots(cfg.workers, [])
      ensures pending == bytes == active == next == 0 && !closed && !poolShut
    {
      this.cfg := cfg;
      queuedAt, runningAt, sizes := map[], map[], map[];
      slots := Slots(cfg.workers, []);
      pending, bytes, active, idle := 0, 0, 0, true;
      closed, poolShut := false, false;
      succeeded, failed, rejected, cancelledQueued, lastFinished := 0, 0, 0, 0, Never;
      next, outcomes := 0, map[];
    }

    /** `_unregister` */
    method Unregister(t: Ticket)
      requires t in sizes
      modifies this`queuedAt, this`runningAt, this`sizes, this`pending, this`bytes, this`idle
      ensures Requests(queuedAt, runningAt, sizes) == Ended(old(Now()).requests, t)
      ensures Load(pending, bytes, active, idle) == Unloaded(old(Now()).load, old(sizes)[t], false)
    {
      queuedAt, runningAt := queuedAt - {t}, runningAt - {t};
      pending := pending - 1;
      bytes := bytes - sizes[t];
      sizes := sizes - {t};
      if pending == 0 {
        idle := true;
      }
    }

    /** `_release` */
    method ReleaseBuild(t: Ticket)
      requires t in sizes
      modifies this`queuedAt, this`runningAt, this`sizes, this`pending, this`bytes, this`idle, this`active, this`slots
      ensures Requests(queuedAt, runningAt, sizes) == Ended(old(Now()).requests, t)
      ensures Load(pending, bytes, active, idle) == Unloaded(old(Now()).load, old(sizes)[t], true)
      ensures slots == Release(old(slots))
    {
      active := active - 1;
      Unregister(t);
      slots := Release(slots);
    }

    /** A request that has its permit begins to run. */
    method Start(t: Ticket, now: Time)
      modifies this`queuedAt, this`runningAt, this`active
      ensures Requests(queuedAt, runningAt, sizes) == Started(old(Now()).requests, t, now)
      ensures active == old(active) + 1
    {
      queuedAt := queuedAt - {t};
      runningAt := runningAt[t := now];
      active := active + 1;
    }

    /** The pool has not taken its build. */
    method FailToSubmit(t: Ticket, now: Time)
      requires t in sizes
      modifies this`queuedAt, this`runningAt, this`sizes, this`pending, this`bytes, this`idle, this`active, this`slots,
               this`failed, this`lastFinished, this`outcomes
      ensures Requests(queuedAt, runningAt, sizes) == Ended(old(Now()).requests, t)
      ensures Load(pending, bytes, active, idle) == Unloaded(old(Now()).load, old(sizes)[t], true)
      ensures slots == Release(old(slots))
      ensures failed == old(failed) + 1 && lastFinished == Stamp(now) && outcomes == old(outcomes)[t := Failed]
    {
      failed := failed + 1;
      lastFinished := Stamp(now);
      outcomes := outcomes[t := Failed];
      ReleaseBuild(t);
    }

    method Launch(t: Ticket, now: Time, submits: bool) returns (reply: Reply)
      requires t in sizes
      modifies this`queuedAt, this`runningAt, this`sizes, this`pending, this`bytes, this`idle, this`active, this`slots,
               this`failed, this`lastFinished, this`outcomes
      ensures Launches(old(Now()), t, now, submits, old(Now()).requests, old(slots), old(Now()).load, Now())
      ensures reply == if submits then Running else Failing
    {
      Start(t, now);
      if submits {
        return Running;
      }
      FailToSubmit(t, now);
      return Failing;
    }

    /** `run` up to its first suspension. */
    method Run(size: nat, now: Time, submits: bool) returns (reply: Reply)
      requires Valid()
      modifies this
      ensures Valid() && Next(cfg, old(Now()), Arrive(size, now, submits), Now())
      ensures reply.TooLarge? <==> size > cfg.maxBytes
      ensures reply.TooLarge? ==> Now() == old(Now())
      ensures reply.Full? <==>
                && size <= cfg.maxBytes
                && (old(closed) || old(pending) >= cfg.workers + cfg.queueSize || old(bytes) + size > cfg.maxBytes)
      ensures reply.Full? ==>
                && next == old(next) && rejected == old(rejected) + 1 && failed == old(failed)
                && queuedAt == old(queuedAt) && runningAt == old(runningAt) && slots == old(slots)
      ensures !reply.TooLarge? && !reply.Full? ==> next == old(next) + 1 && rejected == old(rejected)
      ensures reply.Queued? <==>
                && !reply.TooLarge? && !reply.Full?
                && (old(slots).value == 0
                    || exists i :: 0 <= i < |old(slots).waiters| && !old(slots).waiters[i].phase.Dropped?)
      ensures reply.Queued? ==>
                && queuedAt == old(queuedAt)[old(next) := now] && runningAt == old(runningAt)
                && slots.waiters == old(slots).waiters + [Waiter(old(next), Waiting)]
                && pending == old(pending) + 1 && bytes == old(bytes) + size && failed == old(failed)
      ensures reply.Running? ==>
                && submits && queuedAt == old(queuedAt) && runningAt == old(runningAt)[old(next) := now]
                && pending == old(pending) + 1 && bytes == old(bytes) + size && failed == old(failed)
      ensures reply.Failing? ==>
                && !submits && queuedAt == old(queuedAt) && old(next) !in runningAt
                && pending == old(pending) && bytes == old(bytes)
                && failed == old(failed) + 1 && lastFinished == Stamp(now)
      ensures !reply.Gone? && closed == old(closed)
    {
      ghost var was := Now();
      if size > cfg.maxBytes {
        reply := TooLarge;
      } else if closed || pending >= cfg.workers + cfg.queueSize || bytes + size > cfg.maxBytes {
        rejected := rejected + 1;
        reply := Full;
      } else {
        reply := Admit(size, now, submits);
      }
      StepKeepsInv(cfg, was, Arrive(size, now, submits), Now());
      ArrivalMeans(cfg, was, size, now, submits, Now());
    }

    method Admit(size: nat, now: Time, submits: bool) returns (reply: Reply)
      requires size <= cfg.maxBytes && Admissible(cfg, Now(), size)
      modifies this
      ensures Arrives(cfg, old(Now()), size, now, submits, Now())
      ensures reply == if old(Locked(slots)) then Queued else if submits then Running else Failing
    {
      var t := Register(size, now);
      if Locked(slots) {
        slots := Slots(slots.value, slots.waiters + [Waiter(t, Waiting)]);
        return Queued;
      }
      slots := Slots(slots.value - 1, slots.waiters);
      reply := Launch(t, now, submits);
    }

    method Register(size: nat, now: Time) returns (t: Ticket)
      modifies this`queuedAt, this`sizes, this`pending, this`bytes, this`idle, this`next
      ensures t == old(next) && next == t + 1
      ensures Requests(queuedAt, runningAt, sizes) == Admitted(old(Now()).requests, t, size, now)
      ensures Load(pending, bytes, active, idle) == Load(old(pending) + 1, old(bytes) + size, active, false)
    {
      t := next;
      next := next + 1;
      pending := pending + 1;
      bytes := bytes + size;
      idle := false;
      queuedAt := queuedAt[t := now];
      sizes := sizes[t := size];
    }

    /** The coroutine at place `i` of the queue goes on: with its permit, or cancelled. */
    method Resume(i: nat, now: Time, submits: bool) returns (reply: Reply)
      requires Valid() && i < |slots.waiters| && !slots.waiters[i].phase.Waiting?
      modifies this
      ensures Valid() && Next(cfg, old(Now()), BuildQueue.Resume(i, now, submits), Now())
      ensures reply == if !old(slots).waiters[i].phase.Granted? then Gone else if submits then Running else Failing
      ensures old(slots).waiters[i].ticket !in queuedAt && next == old(next) && rejected == old(rejected)
      ensures reply.Running? ==>
                && runningAt == old(runningAt)[old(slots).waiters[i].ticket := now]
                && pending == old(pending) && active == old(active) + 1
                && failed == old(failed) && cancelledQueued == old(cancelledQueued)
      ensures reply.Failing? ==>
                && old(slots).waiters[i].ticket !in sizes && pending == old(pending) - 1
                && failed == old(failed) + 1 && lastFinished == Stamp(now) && cancelledQueued == old(cancelledQueued)
      ensures reply.Gone? ==>
                && old(slots).waiters[i].ticket !in sizes && pending == old(pending) - 1
                && cancelledQueued == old(cancelledQueued) + 1 && failed == old(failed)
                && lastFinished == old(lastFinished)
    {
      ghost var was := Now();
      assert slots.waiters[i].ticket in queuedAt;
      reply := GoOn(i, now, submits);
      StepKeepsInv(cfg, was, BuildQueue.Resume(i, now, submits), Now());
      ResumeMeans(was, i, now, submits, Now());
    }

    method GoOn(i: nat, now: Time, submits: bool) returns (reply: Reply)
      requires i < |slots.waiters| && slots.waiters[i].ticket in sizes
      modifies this
      ensures Resumes(old(Now()), i, now, submits, Now())
      ensures reply == if !old(slots).waiters[i].phase.Granted? then Gone else if submits then Running else Failing
    {
      var w := slots.waiters[i];
      slots := WakeAll(Removed(slots, i));
      if w.phase.Granted? {
        reply := Launch(w.ticket, now, submits);
      } else {
        cancelledQueued := cancelledQueued + 1;
        outcomes := outcomes[w.ticket := CancelledQueued];
        Unregister(w.ticket);
        reply := Gone;
      }
    }

    /** The caller of `run` is cancelled. */
    method Cancel(t: Ticket)
      requires Valid() && t in sizes
      modifies this`slots
      ensures Valid() && Next(cfg, old(Now()), BuildQueue.Cancel(t), Now())
      ensures t in runningAt ==> slots == old(slots)
      ensures |slots.waiters| == |old(slots).waiters| && slots.value == old(slots).value
      ensures forall i | 0 <= i < |slots.waiters| ::
                slots.waiters[i] ==
                  if old(slots).waiters[i].ticket != t then old(slots).waiters[i]
                  else Waiter(t, match old(slots).waiters[i].phase
                                 case Waiting => Dropped
                                 case Dropped => Dropped
                                 case Granted => Revoked
                                 case Revoked => Revoked)
    {
      ghost var was := Now();
      var i := Place(slots.waiters, t);
      if i < |slots.waiters| {
        slots := Cancelled(slots, i);
        CancelMeans(was, t, i, Now());
      }
      CancellingKeepsCapacity(cfg, was, t, Now());
      StepKeepsInv(cfg, was, BuildQueue.Cancel(t), Now());
    }

    /** `_finished` */
    method Finished(t: Ticket, ok: bool, now: Time)
      requires Valid() && t in runningAt
      modifies this
      ensures Valid() && Next(cfg, old(Now()), Finish(t, ok, now), Now())
      ensures t !in runningAt && t !in queuedAt && t !in sizes
      ensures active == old(active) - 1 && pending == old(pending) - 1
      ensures ok ==> succeeded == old(succeeded) + 1 && failed == old(failed)
      ensures !ok ==> succeeded == old(succeeded) && failed == old(failed) + 1
      ensures lastFinished == Stamp(now) && rejected == old(rejected) && cancelledQueued == old(cancelledQueued)
    {
      ghost var was := Now();
      Complete(t, ok, now);
      StepKeepsInv(cfg, was, Finish(t, ok, now), Now());
      FinishMeans(was, t, ok, now, Now());
    }

    method Complete(t: Ticket, ok: bool, now: Time)
      requires t in sizes
      modifies this
      ensures Finishes(old(Now()), t, ok, now, Now())
    {
      ReleaseBuild(t);
      lastFinished := Stamp(now);
      if ok {
        succeeded := succeeded + 1;
      } else {
        failed := failed + 1;
      }
      outcomes := outcomes[t := if ok then Succeeded else Failed];
    }

    /** `close`, before it waits. */
    method StartClosing()
      requires Valid()
      modifies this`closed
      ensures Valid() && Next(cfg, old(Now()), Close, Now())
      ensures closed
    {
      ghost var was := Now();
      closed := true;
      StepKeepsInv(cfg, was, Close, Now());
    }

    /** `close`, once the executor is idle. */
    method ShutPool()
      requires Valid() && closed && idle && !poolShut
      modifies this`poolShut
      ensures Valid() && Next(cfg, old(Now()), Shut, Now())
      ensures poolShut
    {
      ghost var was := Now();
      poolShut := true;
      StepKeepsInv(cfg, was, Shut, Now());
    }

    /** `_oldest_age`: nothing in `times` is older, and something is as old. */
    method OldestAge(times: map<Ticket, Time>, now: Time) returns (age: Age)
      ensures age.None? <==> times == map[]
      ensures age.Seconds? ==> forall t | t in times :: now - times[t] <= age.value
      ensures age.Seconds? ==> exists t :: t in times && now - times[t] == age.value
    {
      age := None;
      var rest := times;
      while |rest| > 0
        invariant rest.Keys <= times.Keys
        invariant age.None? ==> rest == times
        invariant age.Seconds? ==> forall t | t in times && t !in rest :: now - times[t] <= age.value
        invariant age.Seconds? ==> exists t :: t in times && now - times[t] == age.value
        decreases |rest|
      {
        SomeKey(rest);
        var t :| t in rest;
        Shrinks(rest, t);
        rest := rest - {t};
        if age.None? || age.value < now - times[t] {
          age := Seconds(now - times[t]);
        }
      }
      SomeKey(rest);
    }

    /** `snapshot`: what it reports agrees with the two maps. */
    method Snapshot(now: Time) returns (r: Status)
      requires Valid()
      ensures r.accepting == !closed && r.workers == cfg.workers && r.queueLimit == cfg.queueSize
      ensures r.maxContextBytes == cfg.maxBytes && r.contextBytes == Total(sizes)
      ensures r.active == |runningAt| && r.queued == |queuedAt|
      ensures r.oldestRunning.None? <==> runningAt == map[]
      ensures r.oldestRunning.Seconds? ==>
                && (forall t | t in runningAt :: now - runningAt[t] <= r.oldestRunning.value)
                && (exists t :: t in runningAt && now - runningAt[t] == r.oldestRunning.value)
      ensures r.oldestQueued.None? <==> queuedAt == map[]
      ensures r.oldestQueued.Seconds? ==>
                && (forall t | t in queuedAt :: now - queuedAt[t] <= r.oldestQueued.value)
                && (exists t :: t in queuedAt && now - queuedAt[t] == r.oldestQueued.value)
      ensures r.lastFinishedAgo == if lastFinished.Never? then None else Seconds(now - lastFinished.at)
      ensures r.succeeded == |With(outcomes, Succeeded)| && r.failed == |With(outcomes, Failed)|
      ensures r.cancelledQueued == |With(outcomes, CancelledQueued)| && r.rejected == rejected
    {
      var oldestRunning := OldestAge(runningAt, now);
      var oldestQueued := OldestAge(queuedAt, now);
      r := Status(!closed, cfg.workers, cfg.queueSize, cfg.maxBytes, active, pending - active, bytes, oldestRunning,
                  oldestQueued, if lastFinished.Never? then None else Seconds(now - lastFinished.at),
                  succeeded, failed, rejected, cancelledQueued);
    }
  }
}
