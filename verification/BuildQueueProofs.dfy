/** The executor's books balance in every reachable state. */
module BuildQueueProofs {
  import opened Semaphore
  import opened BuildQueue
  import opened Runs

  // ---------- The waiters are the queued tickets ----------

  lemma SameTickets(queuedAt: map<Ticket, Time>, ws: seq<Waiter>, ws': seq<Waiter>)
    requires QueueOk(queuedAt, ws) && Tickets(ws') == Tickets(ws)
    ensures QueueOk(queuedAt, ws')
  {
    assert |ws'| == |ws|;
    assert forall i | 0 <= i < |ws| :: ws'[i].ticket == Tickets(ws')[i] == ws[i].ticket;
    forall t | t in queuedAt ensures Place(ws', t) < |ws'| {
      assert ws[Place(ws, t)].ticket == t;
      assert ws'[Place(ws, t)].ticket == t;
    }
  }

  lemma QueueGrows(queuedAt: map<Ticket, Time>, ws: seq<Waiter>, w: Waiter, now: Time)
    requires QueueOk(queuedAt, ws) && forall t | t in queuedAt :: t < w.ticket
    ensures QueueOk(queuedAt[w.ticket := now], ws + [w])
  {
    var ws' := ws + [w];
    forall t | t in queuedAt[w.ticket := now] ensures Place(ws', t) < |ws'| {
      var i := if t == w.ticket then |ws| else Place(ws, t);
      assert ws'[i].ticket == t;
    }
  }

  /** The queue without its `i`-th waiter, ticket by ticket. */
  ghost predicate Without(ws: seq<Waiter>, i: nat, ws': seq<Waiter>) {
    && |ws'| + 1 == |ws|
    && forall k | 0 <= k < |ws'| :: ws'[k].ticket == ws[if k < i then k else k + 1].ticket
  }

  lemma TicketsWithout(ws: seq<Waiter>, i: nat, ws': seq<Waiter>)
    requires i < |ws| && Tickets(ws') == Tickets(ws)[..i] + Tickets(ws)[i + 1..]
    ensures Without(ws, i, ws')
  {
    assert |Tickets(ws')| == |ws| - 1;
    forall k | 0 <= k < |ws'| ensures ws'[k].ticket == ws[if k < i then k else k + 1].ticket {
      assert ws'[k].ticket == Tickets(ws')[k];
    }
  }

  lemma QueueShrinks(queuedAt: map<Ticket, Time>, ws: seq<Waiter>, i: nat, ws': seq<Waiter>)
    requires QueueOk(queuedAt, ws) && i < |ws| && Without(ws, i, ws')
    ensures QueueOk(queuedAt - {ws[i].ticket}, ws')
  {
    forall t | t in queuedAt - {ws[i].ticket} ensures Place(ws', t) < |ws'| {
      var k := Place(ws, t);
      assert ws[k].ticket == t && k != i;
      assert ws'[if k < i then k else k - 1].ticket == t;
    }
  }

  // ---------- Steps ----------

  /** A request that has just got its permit, before it is launched. */
  ghost predicate Ready(cfg: Config, s: State, r: Requests, slots: Slots, l: Load, t: Ticket) {
    && RequestsOk(r) && LoadOk(r, l) && t in r.queuedAt && l.pending > 0
    && Orderly(slots) && QueueOk(r.queuedAt - {t}, slots.waiters)
    && slots.value + Held(slots.waiters) + l.active + 1 == cfg.workers
    && l.pending <= cfg.workers + cfg.queueSize && l.bytes <= cfg.maxBytes && !s.poolShut
  }

  lemma LaunchKeepsBooks(cfg: Config, s: State, t: Ticket, now: Time, submits: bool, r: Requests, slots: Slots, l: Load,
                         s': State)
    requires Ready(cfg, s, r, slots, l, t) && Launches(s, t, now, submits, r, slots, l, s')
    ensures BooksOk(cfg, s')
  {
    StartKeepsLoad(r, l, t, now);
    if !submits {
      EndKeepsLoad(Started(r, t, now), Load(l.pending, l.bytes, l.active + 1, l.idle), t);
      ReleaseConserves(slots);
      SameTickets(r.queuedAt - {t}, slots.waiters, Release(slots).waiters);
      Shrinks(r.queuedAt - {t}, t);
    }
  }

  ghost predicate Admits(cfg: Config, s: State, size: nat) {
    && size <= cfg.maxBytes && Admissible(cfg, s, size)
    && s.next !in s.requests.sizes && forall t | t in s.requests.queuedAt :: t < s.next
  }

  /** An arrival that has to wait. */
  lemma QueueingKeepsBooks(cfg: Config, s: State, size: nat, now: Time, submits: bool, s': State)
    requires BooksOk(cfg, s) && Admits(cfg, s, size) && Arrives(cfg, s, size, now, submits, s') && Locked(s.slots)
    ensures BooksOk(cfg, s')
  {
    var w := Waiter(s.next, Waiting);
    AdmissionKeepsLoad(s.requests, s.load, s.next, size, now);
    QueueGrows(s.requests.queuedAt, s.slots.waiters, w, now);
    HeldAppend(s.slots.waiters, w);
    AppendKeepsOrder(s.slots, w);
  }

  lemma StartsReady(cfg: Config, s: State, size: nat, now: Time)
    requires BooksOk(cfg, s) && Admits(cfg, s, size) && !Locked(s.slots)
    ensures var r := Admitted(s.requests, s.next, size, now);
            var l := Load(s.load.pending + 1, s.load.bytes + size, s.load.active, false);
            Ready(cfg, s, r, Slots(s.slots.value - 1, s.slots.waiters), l, s.next)
  {
    var r := Admitted(s.requests, s.next, size, now);
    AdmissionKeepsLoad(s.requests, s.load, s.next, size, now);
    assert r.queuedAt - {s.next} == s.requests.queuedAt;
  }

  /** An arrival that finds a free slot. */
  lemma StartingKeepsBooks(cfg: Config, s: State, size: nat, now: Time, submits: bool, s': State)
    requires BooksOk(cfg, s) && Admits(cfg, s, size) && Arrives(cfg, s, size, now, submits, s') && !Locked(s.slots)
    ensures BooksOk(cfg, s')
  {
    StartsReady(cfg, s, size, now);
    LaunchKeepsBooks(cfg, s, s.next, now, submits, Admitted(s.requests, s.next, size, now),
                     Slots(s.slots.value - 1, s.slots.waiters),
                     Load(s.load.pending + 1, s.load.bytes + size, s.load.active, false), s');
  }

  lemma ArriveKeepsHistory(cfg: Config, s: State, size: nat, now: Time, submits: bool, s': State)
    requires HistoryOk(s) && Admits(cfg, s, size) && Arrives(cfg, s, size, now, submits, s')
    ensures HistoryOk(s')
  {
  }

  lemma AppendKeepsOrder(slots: Slots, w: Waiter)
    requires Orderly(slots) && Locked(slots) && w.phase.Waiting?
    ensures Orderly(Slots(slots.value, slots.waiters + [w]))
  {
    HeldAppend(slots.waiters, w);
    HeldNone(slots.waiters);
    if slots.value > 0 {
      var i :| 0 <= i < |slots.waiters| && !slots.waiters[i].phase.Dropped?;
      assert slots.waiters[i].phase.Waiting? ==> Wakeable(slots.waiters);
    }
  }

  lemma ResumeKeepsBooks(cfg: Config, s: State, i: nat, now: Time, submits: bool, s': State)
    requires BooksOk(cfg, s) && Enabled(cfg, s, Resume(i, now, submits)) && Resumes(s, i, now, submits, s')
    ensures BooksOk(cfg, s')
  {
    var t := s.slots.waiters[i].ticket;
    var slots := WakeAll(Removed(s.slots, i));
    assert t in s.requests.queuedAt;
    LeavingConserves(s.slots, i);
    TicketsWithout(s.slots.waiters, i, slots.waiters);
    QueueShrinks(s.requests.queuedAt, s.slots.waiters, i, slots.waiters);
    if s.slots.waiters[i].phase.Granted? {
      LaunchKeepsBooks(cfg, s, t, now, submits, s.requests, slots, s.load, s');
    } else {
      EndKeepsLoad(s.requests, s.load, t);
    }
  }

  lemma ResumeKeepsHistory(s: State, i: nat, now: Time, submits: bool, s': State)
    requires HistoryOk(s) && i < |s.slots.waiters| && s.slots.waiters[i].ticket in s.requests.sizes
    requires Resumes(s, i, now, submits, s')
    ensures HistoryOk(s')
  {
  }

  lemma CancelKeepsBooks(cfg: Config, s: State, t: Ticket, s': State)
    requires BooksOk(cfg, s) && Cancels(s, t, s')
    ensures BooksOk(cfg, s')
  {
    var i := Place(s.slots.waiters, t);
    if i < |s.slots.waiters| {
      CancelledConserves(s.slots, i);
      SameTickets(s.requests.queuedAt, s.slots.waiters, s'.slots.waiters);
    }
  }

  lemma FinishKeepsHistory(s: State, t: Ticket, ok: bool, now: Time, s': State)
    requires HistoryOk(s) && t in s.requests.sizes && Finishes(s, t, ok, now, s')
    ensures HistoryOk(s')
  {
  }

  lemma FinishKeepsBooks(cfg: Config, s: State, t: Ticket, ok: bool, now: Time, s': State)
    requires BooksOk(cfg, s) && t in s.requests.runningAt && Finishes(s, t, ok, now, s')
    ensures BooksOk(cfg, s')
  {
    EndKeepsLoad(s.requests, s.load, t);
    ReleaseConserves(s.slots);
    SameTickets(s.requests.queuedAt, s.slots.waiters, Release(s.slots).waiters);
    Shrinks(s.requests.queuedAt, t);
  }

  lemma OutcomeCounted(outcomes: map<Ticket, Outcome>, t: Ticket, o: Outcome)
    requires t !in outcomes
    ensures |With(outcomes[t := o], o)| == |With(outcomes, o)| + 1
    ensures forall other | other != o :: With(outcomes[t := o], other) == With(outcomes, other)
  {
    assert With(outcomes[t := o], o) == With(outcomes, o) + {t};
  }

  lemma TotalsFollow(s: State, t: Ticket, o: Outcome, now: Time, s': State)
    requires TotalsOk(s) && t !in s.outcomes
    requires s'.totals == Counted(s.totals, o, now) && s'.outcomes == s.outcomes[t := o]
    ensures TotalsOk(s')
  {
    OutcomeCounted(s.outcomes, t, o);
  }

  lemma StepKeepsTotals(cfg: Config, s: State, step: Step, s': State)
    requires HistoryOk(s) && TotalsOk(s) && Next(cfg, s, step, s')
    ensures TotalsOk(s')
  {
    if step.Finish? {
      TotalsFollow(s, step.ticket, if step.ok then Succeeded else Failed, step.now, s');
    } else if step.Resume? {
      var w := s.slots.waiters[step.place];
      if !w.phase.Granted? {
        TotalsFollow(s, w.ticket, CancelledQueued, step.now, s');
      } else if !step.submits {
        TotalsFollow(s, w.ticket, Failed, step.now, s');
      }
    } else if step.Arrive? && step.size <= cfg.maxBytes && Admissible(cfg, s, step.size) {
      if !Locked(s.slots) && !step.submits {
        TotalsFollow(s, s.next, Failed, step.now, s');
      }
    }
  }

  /** Every step keeps the invariant. */
  lemma StepKeepsInv(cfg: Config, s: State, step: Step, s': State)
    requires Inv(cfg, s) && Next(cfg, s, step, s')
    ensures Inv(cfg, s')
  {
    StepKeepsTotals(cfg, s, step, s');
    if step.Arrive? && step.size <= cfg.maxBytes && Admissible(cfg, s, step.size) {
      ArriveKeepsHistory(cfg, s, step.size, step.now, step.submits, s');
      if Locked(s.slots) {
        QueueingKeepsBooks(cfg, s, step.size, step.now, step.submits, s');
      } else {
        StartingKeepsBooks(cfg, s, step.size, step.now, step.submits, s');
      }
    } else if step.Resume? {
      ResumeKeepsHistory(s, step.place, step.now, step.submits, s');
      ResumeKeepsBooks(cfg, s, step.place, step.now, step.submits, s');
    } else if step.Cancel? {
      CancelKeepsBooks(cfg, s, step.ticket, s');
    } else if step.Finish? {
      FinishKeepsHistory(s, step.ticket, step.ok, step.now, s');
      FinishKeepsBooks(cfg, s, step.ticket, step.ok, step.now, s');
    }
  }

  // ---------- What the steps do, field by field ----------

  /** A request over the memory budget changes nothing.  Another is turned away exactly if the executor is
      closed, all places are taken, or the bytes would exceed the budget; the total of those turned away
      goes up.  Any other gets the next ticket. */
  lemma ArrivalMeans(cfg: Config, s: State, size: nat, now: Time, submits: bool, s': State)
    requires Arrives(cfg, s, size, now, submits, s') && s.next !in s.requests.queuedAt
    ensures size > cfg.maxBytes ==> s' == s
    ensures var full := s.closed || s.load.pending >= cfg.workers + cfg.queueSize || s.load.bytes + size > cfg.maxBytes;
            size <= cfg.maxBytes ==>
              && s'.next == s.next + (if full then 0 else 1)
              && s'.totals.rejected == s.totals.rejected + (if full then 1 else 0)
              && s'.closed == s.closed
              && (full ==> s'.requests == s.requests && s'.slots == s.slots && s'.load == s.load
                           && s'.totals.failed == s.totals.failed && s'.totals.lastFinished == s.totals.lastFinished)
              && (!full ==> AdmissionMeans(s, size, now, submits, s'))
  {
  }

  /** An admitted request queues exactly if no permit is free or some waiter has not been cancelled; else it
      runs at once, or fails if the pool does not take it. */
  ghost predicate AdmissionMeans(s: State, size: nat, now: Time, submits: bool, s': State) {
    if s.slots.value == 0 || exists i :: 0 <= i < |s.slots.waiters| && !s.slots.waiters[i].phase.Dropped? then
      && s'.requests.queuedAt == s.requests.queuedAt[s.next := now] && s'.requests.runningAt == s.requests.runningAt
      && s'.slots.value == s.slots.value && s'.slots.waiters == s.slots.waiters + [Waiter(s.next, Waiting)]
      && s'.load.pending == s.load.pending + 1 && s'.load.bytes == s.load.bytes + size
      && s'.totals.failed == s.totals.failed && s'.totals.lastFinished == s.totals.lastFinished
    else if submits then
      && s'.requests.queuedAt == s.requests.queuedAt && s'.requests.runningAt == s.requests.runningAt[s.next := now]
      && s'.slots.value == s.slots.value - 1 && s'.slots.waiters == s.slots.waiters
      && s'.load.pending == s.load.pending + 1 && s'.load.bytes == s.load.bytes + size
      && s'.totals.failed == s.totals.failed && s'.totals.lastFinished == s.totals.lastFinished
    else
      && s'.requests.queuedAt == s.requests.queuedAt && s.next !in s'.requests.runningAt
      && s'.load.pending == s.load.pending && s'.load.bytes == s.load.bytes
      && s'.totals.failed == s.totals.failed + 1 && s'.totals.lastFinished == Stamp(now)
  }

  /** A build that ends leaves the running ones and counts as it ended. */
  lemma FinishMeans(s: State, t: Ticket, ok: bool, now: Time, s': State)
    requires t in s.requests.sizes && Finishes(s, t, ok, now, s')
    ensures t !in s'.requests.runningAt && t !in s'.requests.queuedAt && t !in s'.requests.sizes
    ensures s'.totals.succeeded == s.totals.succeeded + if ok then 1 else 0
    ensures s'.totals.failed == s.totals.failed + if ok then 0 else 1
    ensures s'.totals.lastFinished == Stamp(now)
    ensures s'.totals.rejected == s.totals.rejected && s'.totals.cancelled == s.totals.cancelled
    ensures s'.load.active == s.load.active - 1 && s'.load.pending == s.load.pending - 1
    ensures s'.outcomes == s.outcomes[t := if ok then Succeeded else Failed] && s'.closed == s.closed
  {
  }

  /** A waiter that goes on with its permit runs, or fails if the pool does not take its build; one that was
      cancelled is gone. */
  lemma ResumeMeans(s: State, i: nat, now: Time, submits: bool, s': State)
    requires i < |s.slots.waiters| && s.slots.waiters[i].ticket in s.requests.sizes && Resumes(s, i, now, submits, s')
    requires s.slots.waiters[i].ticket in s.requests.queuedAt
    ensures var w := s.slots.waiters[i];
            && w.ticket !in s'.requests.queuedAt
            && (w.phase.Granted? && submits ==>
                  && s'.requests.runningAt == s.requests.runningAt[w.ticket := now]
                  && s'.load.pending == s.load.pending && s'.load.active == s.load.active + 1 && s'.totals == s.totals)
            && (w.phase.Granted? && !submits ==>
                  && w.ticket !in s'.requests.sizes && s'.load.pending == s.load.pending - 1
                  && s'.totals.failed == s.totals.failed + 1 && s'.totals.lastFinished == Stamp(now)
                  && s'.totals.cancelled == s.totals.cancelled
                  && s'.outcomes == s.outcomes[w.ticket := Failed])
            && (!w.phase.Granted? ==>
                  && w.ticket !in s'.requests.sizes && s'.load.pending == s.load.pending - 1
                  && s'.totals.cancelled == s.totals.cancelled + 1 && s'.totals.failed == s.totals.failed
                  && s'.totals.lastFinished == s.totals.lastFinished
                  && s'.outcomes == s.outcomes[w.ticket := CancelledQueued])
            && s'.totals.succeeded == s.totals.succeeded && s'.totals.rejected == s.totals.rejected
  {
  }

  /** Cancelling a queued request marks its waiter, and no other, as dropped, or as revoked if it has been
      granted a permit. */
  lemma CancelMeans(s: State, t: Ticket, i: nat, s': State)
    requires QueueOk(s.requests.queuedAt, s.slots.waiters) && Cancels(s, t, s')
    requires i < |s.slots.waiters| && s.slots.waiters[i].ticket == t
    ensures |s'.slots.waiters| == |s.slots.waiters|
    ensures s'.slots.waiters[i] ==
              Waiter(t, match s.slots.waiters[i].phase
                        case Waiting => Dropped
                        case Dropped => Dropped
                        case Granted => Revoked
                        case Revoked => Revoked)
    ensures forall k | 0 <= k < |s.slots.waiters| && k != i :: s'.slots.waiters[k] == s.slots.waiters[k]
  {
    assert Place(s.slots.waiters, t) == i;
  }

  // ---------- Over whole runs ----------

  lemma {:induction false} RunKeepsInv(cfg: Config, ss: seq<State>, steps: seq<Step>, i: nat)
    requires Run(cfg, ss, steps) && i <= |steps|
    ensures Inv(cfg, ss[i])
  {
    if i > 0 {
      RunKeepsInv(cfg, ss, steps, i - 1);
      StepKeepsInv(cfg, ss[i - 1], steps[i - 1], ss[i]);
    }
  }

  /** The accounts agree, and stay within their bounds, in every reachable state. */
  lemma AccountsAgree(cfg: Config, ss: seq<State>, steps: seq<Step>, i: nat)
    requires Run(cfg, ss, steps) && i <= |steps|
    ensures var s := ss[i];
            && s.load.pending == |s.requests.queuedAt| + |s.requests.runningAt|
            && s.load.active == |s.requests.runningAt|
            && s.load.bytes == Total(s.requests.sizes)
            && (forall t | t in s.requests.queuedAt :: t !in s.requests.runningAt)
            && (forall t :: t in s.requests.sizes <==> t in s.requests.queuedAt || t in s.requests.runningAt)
            && s.slots.value + Held(s.slots.waiters) + s.load.active == cfg.workers
            && (s.load.idle <==> s.load.pending == 0)
            && 0 <= s.load.active <= cfg.workers
            && s.load.pending <= cfg.workers + cfg.queueSize && s.load.bytes <= cfg.maxBytes
  {
    RunKeepsInv(cfg, ss, steps, i);
  }

  /** Every admitted request is pending or has exactly one outcome, and the totals count these. */
  lemma OutcomesAreConserved(cfg: Config, ss: seq<State>, steps: seq<Step>, i: nat)
    requires Run(cfg, ss, steps) && i <= |steps|
    ensures var s := ss[i];
            && s.next == s.totals.succeeded + s.totals.failed + s.totals.cancelled + s.load.pending
            && (forall t | t in s.requests.sizes :: t !in s.outcomes)
            && (forall t :: 0 <= t < s.next <==> t in s.requests.sizes || t in s.outcomes)
            && s.totals.succeeded == |With(s.outcomes, Succeeded)|
            && s.totals.failed == |With(s.outcomes, Failed)|
            && s.totals.cancelled == |With(s.outcomes, CancelledQueued)|
  {
    RunKeepsInv(cfg, ss, steps, i);
  }

  lemma StepKeepsOutcomes(cfg: Config, s: State, step: Step, s': State, t: Ticket)
    requires HistoryOk(s) && Next(cfg, s, step, s') && t in s.outcomes
    ensures t in s'.outcomes && s'.outcomes[t] == s.outcomes[t]
  {
  }

  lemma RunKeepsHistory(cfg: Config, ss: seq<State>, steps: seq<Step>, i: nat)
    requires Run(cfg, ss, steps) && i <= |steps|
    ensures HistoryOk(ss[i])
  {
    RunKeepsInv(cfg, ss, steps, i);
  }

  /** An outcome is final. */
  lemma OutcomesAreFinal(cfg: Config, ss: seq<State>, steps: seq<Step>, i: nat, j: nat, t: Ticket)
    requires Run(cfg, ss, steps) && i <= j <= |steps| && t in ss[i].outcomes
    ensures t in ss[j].outcomes && ss[j].outcomes[t] == ss[i].outcomes[t]
  {
    var o := ss[i].outcomes[t];
    forall k | i <= k < j && t in ss[k].outcomes
      ensures t in ss[k + 1].outcomes && ss[k + 1].outcomes[t] == ss[k].outcomes[t]
    {
      RunKeepsHistory(cfg, ss, steps, k);
      StepKeepsOutcomes(cfg, ss[k], steps[k], ss[k + 1], t);
    }
    Persists(k => 0 <= k < |ss| && t in ss[k].outcomes && ss[k].outcomes[t] == o, i, j);
  }

  /** Cancelling whoever waits for a build that has started changes nothing; cancelling one that is
      queued changes only its place among the waiters. */
  lemma CancellingKeepsCapacity(cfg: Config, s: State, t: Ticket, s': State)
    requires BooksOk(cfg, s) && Next(cfg, s, Cancel(t), s')
    ensures s'.requests == s.requests && s'.load == s.load && s'.totals == s.totals && s'.outcomes == s.outcomes
    ensures s'.slots.value == s.slots.value && Tickets(s'.slots.waiters) == Tickets(s.slots.waiters)
    ensures t in s.requests.runningAt ==> s' == s
  {
    var i := Place(s.slots.waiters, t);
    if i < |s.slots.waiters| {
      assert s.slots.waiters[i].ticket in s.requests.queuedAt;
      CancelledConserves(s.slots, i);
    }
  }

  // ---------- Draining ----------

  /** Calls that the pending requests have yet to make. */
  ghost function Remaining(s: State): nat {
    2 * |s.requests.queuedAt| + |s.requests.runningAt|
  }

  predicate Progresses(step: Step) {
    step.Resume? || step.Finish?
  }

  /** A start, the end of a build, or the end of a cancelled request brings the executor closer to
      having nothing pending; only admissions take it further away. */
  lemma ProgressLowers(cfg: Config, s: State, step: Step, s': State)
    requires Inv(cfg, s) && Next(cfg, s, step, s')
    ensures Progresses(step) ==> Remaining(s') < Remaining(s)
    ensures s.closed ==> Remaining(s') <= Remaining(s) && s'.next == s.next && s'.closed
  {
    StepKeepsInv(cfg, s, step, s');
  }

  lemma SomeKey<T>(m: map<Ticket, T>)
    ensures |m| > 0 <==> exists t :: t in m
  {
    assert (forall t :: t !in m) ==> m.Keys == {};
  }

  /** With nothing running and somebody queued, some waiter has been granted a permit or cancelled. */
  lemma QueuedProgresses(queuedAt: map<Ticket, Time>, slots: Slots, workers: int)
    requires QueueOk(queuedAt, slots.waiters) && |queuedAt| > 0 && Orderly(slots)
    requires slots.value + Held(slots.waiters) == workers >= 1
    ensures exists i :: 0 <= i < |slots.waiters| && !slots.waiters[i].phase.Waiting?
  {
    SomeKey(queuedAt);
    HeldNone(slots.waiters);
    var t :| t in queuedAt;
    var p := Place(slots.waiters, t);
    assert slots.waiters[p].phase.Waiting? ==> Wakeable(slots.waiters);
  }

  /** With anything pending, some coroutine or some build's end is due. */
  lemma PendingProgresses(cfg: Config, s: State)
    requires ValidConfig(cfg) && Inv(cfg, s) && s.load.pending > 0
    ensures exists step :: Progresses(step) && Enabled(cfg, s, step)
  {
    if |s.requests.runningAt| > 0 {
      SomeKey(s.requests.runningAt);
      var t :| t in s.requests.runningAt;
      assert Enabled(cfg, s, Finish(t, true, 0.0));
    } else {
      QueuedProgresses(s.requests.queuedAt, s.slots, cfg.workers);
      var i :| 0 <= i < |s.slots.waiters| && !s.slots.waiters[i].phase.Waiting?;
      assert Enabled(cfg, s, Resume(i, 0.0, true));
    }
  }

  /** How many of the steps from `i` to `j` make progress. */
  function Work(steps: seq<Step>, i: nat, j: nat): nat
    requires i <= j <= |steps|
    decreases j
  {
    if i == j then 0 else Work(steps, i, j - 1) + if Progresses(steps[j - 1]) then 1 else 0
  }

  lemma {:induction false} ClosedDrains(cfg: Config, ss: seq<State>, steps: seq<Step>, i: nat, j: nat)
    requires Run(cfg, ss, steps) && i <= j <= |steps| && ss[i].closed
    ensures ss[j].closed && ss[j].next == ss[i].next
    ensures Work(steps, i, j) + Remaining(ss[j]) <= Remaining(ss[i])
    decreases j
  {
    if i < j {
      ClosedDrains(cfg, ss, steps, i, j - 1);
      RunKeepsInv(cfg, ss, steps, j - 1);
      ProgressLowers(cfg, ss[j - 1], steps[j - 1], ss[j]);
    }
  }

  lemma CloseCloses(cfg: Config, s: State, s': State)
    requires Next(cfg, s, Close, s')
    ensures s'.closed && s'.next == s.next && s'.requests == s.requests
  {
  }

  /** From the step that closes it on, the executor is closed and nothing is admitted, and the number of
      starts and completions until it is idle is bounded, whatever else happens. */
  lemma CloseDrains(cfg: Config, ss: seq<State>, steps: seq<Step>, i: nat, j: nat)
    requires Run(cfg, ss, steps) && i < j <= |steps| && steps[i].Close?
    ensures ss[j].closed && ss[j].next == ss[i].next
    ensures Work(steps, i + 1, j) + Remaining(ss[j]) <= Remaining(ss[i])
  {
    CloseCloses(cfg, ss[i], ss[i + 1]);
    ClosedDrains(cfg, ss, steps, i + 1, j);
  }

  lemma OnlyShutShuts(cfg: Config, s: State, step: Step, s': State)
    requires Next(cfg, s, step, s')
    ensures s'.poolShut <==> s.poolShut || step.Shut?
  {
  }

  lemma {:induction false} ShutByAStep(cfg: Config, ss: seq<State>, steps: seq<Step>, i: nat)
    requires Run(cfg, ss, steps) && i <= |steps|
    ensures ss[i].poolShut <==> exists k :: 0 <= k < i && steps[k].Shut?
  {
    if i > 0 {
      ShutByAStep(cfg, ss, steps, i - 1);
      OnlyShutShuts(cfg, ss[i - 1], steps[i - 1], ss[i]);
    }
  }

  /** Once the executor has been closed and nothing is pending, the pool can be shut down, until it is. */
  lemma ClosedAndIdleShuts(cfg: Config, ss: seq<State>, steps: seq<Step>, i: nat, j: nat)
    requires Run(cfg, ss, steps) && i < j <= |steps| && steps[i].Close? && ss[j].load.pending == 0
    ensures Enabled(cfg, ss[j], Shut) <==> forall k | 0 <= k < j :: !steps[k].Shut?
  {
    CloseDrains(cfg, ss, steps, i, j);
    RunKeepsInv(cfg, ss, steps, j);
    ShutByAStep(cfg, ss, steps, j);
  }

  /** An arrival gets a ticket exactly if it fits the memory budget, the executor is open, a place is left
      and the bytes are. */
  lemma ArrivalIsAdmittedExactly(cfg: Config, ss: seq<State>, steps: seq<Step>, i: nat)
    requires Run(cfg, ss, steps) && i < |steps| && steps[i].Arrive?
    ensures var s, size := ss[i], steps[i].size;
            var admitted := && size <= cfg.maxBytes && !s.closed && s.load.pending < cfg.workers + cfg.queueSize
                            && s.load.bytes + size <= cfg.maxBytes;
            ss[i + 1].next == s.next + if admitted then 1 else 0
  {
    RunKeepsInv(cfg, ss, steps, i);
    assert Next(cfg, ss[i], steps[i], ss[i + 1]);
    ArrivalMeans(cfg, ss[i], steps[i].size, steps[i].now, steps[i].submits, ss[i + 1]);
  }

  // ---------- Cancelled requests ----------

  /** A waiter for this ticket has been cancelled and has yet to leave the queue. */
  ghost predicate Marked(ws: seq<Waiter>, t: Ticket) {
    exists i :: 0 <= i < |ws| && ws[i].ticket == t && (ws[i].phase.Dropped? || ws[i].phase.Revoked?)
  }

  lemma ReleaseKeepsMark(slots: Slots, t: Ticket)
    requires Marked(slots.waiters, t)
    ensures Marked(Release(slots).waiters, t)
  {
    var i :| 0 <= i < |slots.waiters| && slots.waiters[i].ticket == t
             && (slots.waiters[i].phase.Dropped? || slots.waiters[i].phase.Revoked?);
    assert Release(slots).waiters[i] == slots.waiters[i];
  }

  lemma AppendKeepsMark(ws: seq<Waiter>, w: Waiter, t: Ticket)
    requires Marked(ws, t)
    ensures Marked(ws + [w], t)
  {
    var i :| 0 <= i < |ws| && ws[i].ticket == t && (ws[i].phase.Dropped? || ws[i].phase.Revoked?);
    assert (ws + [w])[i] == ws[i];
  }

  lemma CancelKeepsMark(slots: Slots, j: nat, t: Ticket)
    requires Marked(slots.waiters, t) && j < |slots.waiters|
    ensures Marked(Cancelled(slots, j).waiters, t)
  {
    var i :| 0 <= i < |slots.waiters| && slots.waiters[i].ticket == t
             && (slots.waiters[i].phase.Dropped? || slots.waiters[i].phase.Revoked?);
    var ws := Cancelled(slots, j).waiters;
    assert ws[i].ticket == t && (ws[i].phase.Dropped? || ws[i].phase.Revoked?);
  }

  /** Unless it is the marked waiter that leaves, the mark stays. */
  lemma LeavingKeepsMark(slots: Slots, j: nat, t: Ticket)
    requires Marked(slots.waiters, t) && j < |slots.waiters|
    requires slots.waiters[j].ticket == t ==> slots.waiters[j].phase.Granted?
    ensures Marked(WakeAll(Removed(slots, j)).waiters, t)
  {
    var i :| 0 <= i < |slots.waiters| && slots.waiters[i].ticket == t
             && (slots.waiters[i].phase.Dropped? || slots.waiters[i].phase.Revoked?);
    var left, k := Removed(slots, j), if i < j then i else i - 1;
    assert left.waiters[k] == slots.waiters[i];
    WakeAllKeeps(left, k);
    assert WakeAll(left).waiters[k] == slots.waiters[i];
  }

  lemma CancellingMarks(cfg: Config, s: State, t: Ticket, s': State)
    requires BooksOk(cfg, s) && Next(cfg, s, Cancel(t), s') && t in s.requests.queuedAt
    ensures Marked(s'.slots.waiters, t)
  {
    var i := Place(s.slots.waiters, t);
    CancelMeans(s, t, i, s');
    assert s'.slots.waiters[i].ticket == t;
  }

  /** A request that has been cancelled while queued: it is marked, or has ended as cancelled. */
  ghost predicate Doomed(s: State, t: Ticket) {
    Marked(s.slots.waiters, t) || (t in s.outcomes && s.outcomes[t] == CancelledQueued)
  }

  lemma MarkStays(cfg: Config, s: State, step: Step, s': State, t: Ticket)
    requires Next(cfg, s, step, s') && Marked(s.slots.waiters, t)
    ensures Doomed(s', t)
  {
    if step.Arrive? {
      AppendKeepsMark(s.slots.waiters, Waiter(s.next, Waiting), t);
      ReleaseKeepsMark(Slots(s.slots.value - 1, s.slots.waiters), t);
    } else if step.Resume? {
      ResumeKeepsMark(s, step.place, step.now, step.submits, s', t);
    } else if step.Cancel? {
      var j := Place(s.slots.waiters, step.ticket);
      if j < |s.slots.waiters| {
        CancelKeepsMark(s.slots, j, t);
      }
    } else if step.Finish? {
      ReleaseKeepsMark(s.slots, t);
    }
  }

  lemma ResumeKeepsMark(s: State, j: nat, now: Time, submits: bool, s': State, t: Ticket)
    requires j < |s.slots.waiters| && s.slots.waiters[j].ticket in s.requests.sizes
    requires Resumes(s, j, now, submits, s') && Marked(s.slots.waiters, t)
    ensures Doomed(s', t)
  {
    if s.slots.waiters[j].ticket != t || s.slots.waiters[j].phase.Granted? {
      LeavingKeepsMark(s.slots, j, t);
      ReleaseKeepsMark(WakeAll(Removed(s.slots, j)), t);
    }
  }

  lemma DoomedStays(cfg: Config, s: State, step: Step, s': State, t: Ticket)
    requires HistoryOk(s) && Next(cfg, s, step, s') && Doomed(s, t)
    ensures Doomed(s', t)
  {
    if Marked(s.slots.waiters, t) {
      MarkStays(cfg, s, step, s', t);
    } else {
      StepKeepsOutcomes(cfg, s, step, s', t);
    }
  }

  lemma DoomedIsNotRunning(cfg: Config, s: State, t: Ticket)
    requires BooksOk(cfg, s) && HistoryOk(s) && Doomed(s, t)
    ensures t !in s.requests.runningAt
    ensures t in s.outcomes ==> s.outcomes[t] == CancelledQueued
    ensures t !in s.outcomes ==> Marked(s.slots.waiters, t)
  {
    if Marked(s.slots.waiters, t) {
      assert t in s.requests.queuedAt;
    }
  }

  /** A request that is cancelled while it is queued never runs: it stays a cancelled waiter until it ends
      as cancelled. */
  lemma CancelledNeverRuns(cfg: Config, ss: seq<State>, steps: seq<Step>, i: nat, j: nat, t: Ticket)
    requires Run(cfg, ss, steps) && i < j <= |steps| && steps[i] == Cancel(t) && t in ss[i].requests.queuedAt
    ensures t !in ss[j].requests.runningAt
    ensures if t in ss[j].outcomes then ss[j].outcomes[t] == CancelledQueued
            else exists k :: 0 <= k < |ss[j].slots.waiters| && ss[j].slots.waiters[k].ticket == t
                             && (ss[j].slots.waiters[k].phase.Dropped? || ss[j].slots.waiters[k].phase.Revoked?)
  {
    RunKeepsInv(cfg, ss, steps, i);
    assert Next(cfg, ss[i], steps[i], ss[i + 1]);
    CancellingMarks(cfg, ss[i], t, ss[i + 1]);
    forall k | i + 1 <= k < j && Doomed(ss[k], t) ensures Doomed(ss[k + 1], t) {
      RunKeepsHistory(cfg, ss, steps, k);
      DoomedStays(cfg, ss[k], steps[k], ss[k + 1], t);
    }
    Persists(k => 0 <= k < |ss| && Doomed(ss[k], t), i + 1, j);
    RunKeepsInv(cfg, ss, steps, j);
    DoomedIsNotRunning(cfg, ss[j], t);
  }

  /** Whether a step hands a build to the pool. */
  predicate Submits(cfg: Config, s: State, step: Step) {
    || (step.Arrive? && step.size <= cfg.maxBytes && Admissible(cfg, s, step.size) && !Locked(s.slots))
    || (step.Resume? && step.place < |s.slots.waiters| && s.slots.waiters[step.place].phase.Granted?)
  }

  /** The pool is shut down only with nothing pending, and no build is handed to it after that. */
  lemma ShutPoolGetsNothing(cfg: Config, ss: seq<State>, steps: seq<Step>, i: nat)
    requires Run(cfg, ss, steps) && i < |steps| && (ss[i].poolShut || steps[i].Shut?)
    ensures ss[i].load.pending == 0 && !Submits(cfg, ss[i], steps[i])
  {
    RunKeepsInv(cfg, ss, steps, i);
    assert Next(cfg, ss[i], steps[i], ss[i + 1]);
    SomeKey(ss[i].requests.queuedAt);
  }

  /** An arrival takes a slot at once only when every earlier request is past waiting for one, and a
      waiter is granted a permit only when nobody before it in the queue still waits. */
  lemma FirstComeFirstServed(cfg: Config, ss: seq<State>, steps: seq<Step>, i: nat)
    requires Run(cfg, ss, steps) && i <= |steps|
    ensures var ws := ss[i].slots.waiters;
            && (forall j, k | 0 <= j < k < |ws| :: ws[j].ticket < ws[k].ticket)
            && (forall j, k | 0 <= j < k < |ws| :: ws[j].phase.Waiting? ==> !Holding(ws[k]))
            && (!Locked(ss[i].slots) ==> forall k | 0 <= k < |ws| :: ws[k].phase.Dropped?)
  {
    RunKeepsInv(cfg, ss, steps, i);
  }
}
