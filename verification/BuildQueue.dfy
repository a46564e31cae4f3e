/** Admission, start, cancellation and completion of builds, as values.

One step is what the event loop runs without a pause.  The same quantities are kept several times
over; `Inv` says that they agree. */
module BuildQueue {
  import opened Semaphore

  type Time = real

  datatype Config = Config(workers: int, queueSize: int, maxBytes: int)

  ghost predicate ValidConfig(cfg: Config) {
    cfg.workers >= 1 && cfg.queueSize >= 0 && cfg.maxBytes >= 0
  }

  datatype Outcome = Succeeded | Failed | CancelledQueued

  datatype Stamp = Never | Stamp(at: Time)

  /** The tickets of the two maps, and the size of each request's context. */
  datatype Requests = Requests(queuedAt: map<Ticket, Time>, runningAt: map<Ticket, Time>, sizes: map<Ticket, nat>)

  /** The running totals of what is pending. */
  datatype Load = Load(pending: int, bytes: int, active: int, idle: bool)

  datatype Totals = Totals(succeeded: int, failed: int, rejected: int, cancelled: int, lastFinished: Stamp)

  /** `next` is the number of tickets handed out; `outcomes` is history. */
  datatype State = State(
    requests: Requests, slots: Slots, load: Load, totals: Totals, closed: bool, poolShut: bool,
    next: Ticket, outcomes: map<Ticket, Outcome>)

  datatype Step =
    | Arrive(size: nat, now: Time, submits: bool)
    | Resume(place: nat, now: Time, submits: bool)  // the coroutine of a granted or cancelled waiter
    | Cancel(ticket: Ticket)                        // of whoever waits for a ticket's build
    | Finish(ticket: Ticket, ok: bool, now: Time)
    | Close
    | Shut

  // ---------- Requests and load ----------

  function Admitted(r: Requests, t: Ticket, size: nat, now: Time): Requests {
    Requests(r.queuedAt[t := now], r.runningAt, r.sizes[t := size])
  }

  function Started(r: Requests, t: Ticket, now: Time): Requests {
    Requests(r.queuedAt - {t}, r.runningAt[t := now], r.sizes)
  }

  function Ended(r: Requests, t: Ticket): Requests {
    Requests(r.queuedAt - {t}, r.runningAt - {t}, r.sizes - {t})
  }

  /** `_unregister`, with `wasActive` the part of `_release`. */
  function Unloaded(l: Load, size: int, wasActive: bool): Load {
    Load(l.pending - 1, l.bytes - size, if wasActive then l.active - 1 else l.active, l.idle || l.pending == 1)
  }

  function Counted(c: Totals, outcome: Outcome, now: Time): Totals {
    match outcome
    case Succeeded => Totals(c.succeeded + 1, c.failed, c.rejected, c.cancelled, Stamp(now))
    case Failed => Totals(c.succeeded, c.failed + 1, c.rejected, c.cancelled, Stamp(now))
    case CancelledQueued => Totals(c.succeeded, c.failed, c.rejected, c.cancelled + 1, c.lastFinished)
  }

  ghost function Total(sizes: map<Ticket, nat>): int
    decreases |sizes|
  {
    if exists t :: t in sizes then
      var t :| t in sizes;
      sizes[t] + Total(sizes - {t})
    else 0
  }

  lemma {:induction false} TotalRemove(sizes: map<Ticket, nat>, t: Ticket)
    requires t in sizes
    ensures Total(sizes) == sizes[t] + Total(sizes - {t})
    decreases |sizes|
  {
    var u :| u in sizes && Total(sizes) == sizes[u] + Total(sizes - {u});
    if u != t {
      TotalRemove(sizes - {u}, t);
      TotalRemove(sizes - {t}, u);
      assert sizes - {t} - {u} == sizes - {u} - {t};
    }
  }

  lemma TotalAdd(sizes: map<Ticket, nat>, t: Ticket, size: nat)
    requires t !in sizes
    ensures Total(sizes[t := size]) == size + Total(sizes)
  {
    TotalRemove(sizes[t := size], t);
    assert sizes[t := size] - {t} == sizes;
  }

  // ---------- The requests agree with the load ----------

  /** A pending ticket is in one of the two maps. */
  ghost predicate RequestsOk(r: Requests) {
    && (forall t | t in r.queuedAt :: t !in r.runningAt)
    && (forall t :: t in r.sizes <==> t in r.queuedAt || t in r.runningAt)
  }

  ghost predicate LoadOk(r: Requests, l: Load) {
    && l.pending == |r.queuedAt| + |r.runningAt|
    && l.active == |r.runningAt|
    && l.bytes == Total(r.sizes)
    && (l.idle <==> l.pending == 0)
  }

  lemma Grows<T>(m: map<Ticket, T>, t: Ticket, v: T)
    requires t !in m
    ensures |m[t := v]| == |m| + 1
  {
    assert m[t := v].Keys == m.Keys + {t};
  }

  lemma Shrinks<T>(m: map<Ticket, T>, t: Ticket)
    ensures t in m ==> |m - {t}| == |m| - 1
    ensures t !in m ==> m - {t} == m
  {
    assert (m - {t}).Keys == m.Keys - {t};
  }

  lemma AdmissionKeepsLoad(r: Requests, l: Load, t: Ticket, size: nat, now: Time)
    requires RequestsOk(r) && LoadOk(r, l) && t !in r.sizes
    ensures RequestsOk(Admitted(r, t, size, now))
    ensures LoadOk(Admitted(r, t, size, now), Load(l.pending + 1, l.bytes + size, l.active, false))
  {
    TotalAdd(r.sizes, t, size);
    Grows(r.queuedAt, t, now);
  }

  lemma StartKeepsLoad(r: Requests, l: Load, t: Ticket, now: Time)
    requires RequestsOk(r) && LoadOk(r, l) && t in r.queuedAt
    ensures RequestsOk(Started(r, t, now))
    ensures LoadOk(Started(r, t, now), Load(l.pending, l.bytes, l.active + 1, l.idle))
  {
    Shrinks(r.queuedAt, t);
    Grows(r.runningAt, t, now);
  }

  lemma EndKeepsLoad(r: Requests, l: Load, t: Ticket)
    requires RequestsOk(r) && LoadOk(r, l) && t in r.sizes
    ensures RequestsOk(Ended(r, t))
    ensures LoadOk(Ended(r, t), Unloaded(l, r.sizes[t], t in r.runningAt))
  {
    TotalRemove(r.sizes, t);
    Shrinks(r.queuedAt, t);
    Shrinks(r.runningAt, t);
  }

  // ---------- Steps ----------

  predicate Admissible(cfg: Config, s: State, size: nat) {
    !s.closed && s.load.pending < cfg.workers + cfg.queueSize && s.load.bytes + size <= cfg.maxBytes
  }

  predicate Enabled(cfg: Config, s: State, step: Step) {
    if step.Resume? then
      && step.place < |s.slots.waiters| && !s.slots.waiters[step.place].phase.Waiting?
      && s.slots.waiters[step.place].ticket in s.requests.sizes
    else if step.Cancel? then step.ticket in s.requests.sizes
    else if step.Finish? then step.ticket in s.requests.runningAt && step.ticket in s.requests.sizes
    else if step.Shut? then s.closed && s.load.idle && !s.poolShut
    else true
  }

  /** Nothing but the parts that all requests share. */
  ghost predicate Effect(s: State, s': State, requests: Requests, slots: Slots, load: Load, totals: Totals,
                         outcomes: map<Ticket, Outcome>)
  {
    && s'.requests == requests && s'.slots == slots && s'.load == load && s'.totals == totals
    && s'.outcomes == outcomes && s'.closed == s.closed && s'.poolShut == s.poolShut
  }

  /** The ticket's request has its permit: it runs, or fails if the pool does not take it. */
  ghost predicate Launches(s: State, t: Ticket, now: Time, submits: bool, r: Requests, slots: Slots, l: Load, s': State)
    requires t in r.sizes
  {
    var running := Load(l.pending, l.bytes, l.active + 1, l.idle);
    if submits then Effect(s, s', Started(r, t, now), slots, running, s.totals, s.outcomes)
    else Effect(s, s', Ended(Started(r, t, now), t), Release(slots), Unloaded(running, r.sizes[t], true),
                Counted(s.totals, Failed, now), s.outcomes[t := Failed])
  }

  ghost predicate Arrives(cfg: Config, s: State, size: nat, now: Time, submits: bool, s': State) {
    if size > cfg.maxBytes then s' == s
    else if !Admissible(cfg, s, size) then
      && s'.next == s.next
      && Effect(s, s', s.requests, s.slots, s.load,
                Totals(s.totals.succeeded, s.totals.failed, s.totals.rejected + 1, s.totals.cancelled,
                       s.totals.lastFinished),
                s.outcomes)
    else
      var r := Admitted(s.requests, s.next, size, now);
      var l := Load(s.load.pending + 1, s.load.bytes + size, s.load.active, false);
      && s'.next == s.next + 1
      && if Locked(s.slots) then
           Effect(s, s', r, Slots(s.slots.value, s.slots.waiters + [Waiter(s.next, Waiting)]), l, s.totals, s.outcomes)
         else Launches(s, s.next, now, submits, r, Slots(s.slots.value - 1, s.slots.waiters), l, s')
  }

  ghost predicate Resumes(s: State, i: nat, now: Time, submits: bool, s': State)
    requires i < |s.slots.waiters| && s.slots.waiters[i].ticket in s.requests.sizes
  {
    var t := s.slots.waiters[i].ticket;
    var slots := WakeAll(Removed(s.slots, i));
    && s'.next == s.next
    && if s.slots.waiters[i].phase.Granted? then Launches(s, t, now, submits, s.requests, slots, s.load, s')
       else Effect(s, s', Ended(s.requests, t), slots, Unloaded(s.load, s.requests.sizes[t], false),
                   Counted(s.totals, CancelledQueued, now), s.outcomes[t := CancelledQueued])
  }

  /** The place of a ticket among the waiters, or their number. */
  function Place(ws: seq<Waiter>, t: Ticket): (i: nat)
    ensures i <= |ws|
    ensures i < |ws| ==> ws[i].ticket == t
    ensures forall j | 0 <= j < i :: ws[j].ticket != t
  {
    if ws == [] || ws[0].ticket == t then 0 else 1 + Place(ws[1..], t)
  }

  /** Cancelling the waiter of a build that runs has no effect on the executor. */
  ghost predicate Cancels(s: State, t: Ticket, s': State) {
    var i := Place(s.slots.waiters, t);
    && s'.next == s.next
    && Effect(s, s', s.requests, if i < |s.slots.waiters| then Cancelled(s.slots, i) else s.slots, s.load, s.totals,
              s.outcomes)
  }

  ghost predicate Finishes(s: State, t: Ticket, ok: bool, now: Time, s': State)
    requires t in s.requests.sizes
  {
    var outcome := if ok then Succeeded else Failed;
    && s'.next == s.next
    && Effect(s, s', Ended(s.requests, t), Release(s.slots), Unloaded(s.load, s.requests.sizes[t], true),
              Counted(s.totals, outcome, now), s.outcomes[t := outcome])
  }

  ghost predicate Next(cfg: Config, s: State, step: Step, s': State) {
    && Enabled(cfg, s, step)
    && if step.Arrive? then Arrives(cfg, s, step.size, step.now, step.submits, s')
       else if step.Resume? then Resumes(s, step.place, step.now, step.submits, s')
       else if step.Cancel? then Cancels(s, step.ticket, s')
       else if step.Finish? then Finishes(s, step.ticket, step.ok, step.now, s')
       else
         && s'.requests == s.requests && s'.slots == s.slots && s'.load == s.load && s'.totals == s.totals
         && s'.next == s.next && s'.outcomes == s.outcomes
         && s'.closed == (step.Close? || s.closed) && s'.poolShut == (step.Shut? || s.poolShut)
  }

  /** The executor as it is made. */
  ghost predicate Init(cfg: Config, s: State) {
    && s.requests == Requests(map[], map[], map[]) && s.slots == Slots(cfg.workers, [])
    && s.load == Load(0, 0, 0, true) && s.totals == Totals(0, 0, 0, 0, Never)
    && !s.closed && !s.poolShut && s.next == 0 && s.outcomes == map[]
  }

  ghost predicate Run(cfg: Config, ss: seq<State>, steps: seq<Step>) {
    && |ss| == |steps| + 1
    && ValidConfig(cfg) && Init(cfg, ss[0])
    && forall i | 0 <= i < |steps| :: Next(cfg, ss[i], steps[i], ss[i + 1])
  }

  // ---------- The invariant ----------

  /** The waiters are the queued tickets, in order of arrival. */
  ghost predicate QueueOk(queuedAt: map<Ticket, Time>, ws: seq<Waiter>) {
    && (forall i, j | 0 <= i < j < |ws| :: ws[i].ticket < ws[j].ticket)
    && (forall i | 0 <= i < |ws| :: ws[i].ticket in queuedAt)
    && (forall t | t in queuedAt :: Place(ws, t) < |ws|)
  }

  /** Every ticket handed out is pending or has an outcome, not both. */
  ghost predicate HistoryOk(s: State) {
    && s.next >= 0
    && (forall t :: t in s.requests.sizes ==> t !in s.outcomes)
    && (forall t :: 0 <= t < s.next <==> t in s.requests.sizes || t in s.outcomes)
    && s.next == s.totals.succeeded + s.totals.failed + s.totals.cancelled + s.load.pending
  }

  /** The tickets with a given outcome. */
  ghost function With(outcomes: map<Ticket, Outcome>, o: Outcome): set<Ticket> {
    set t | t in outcomes && outcomes[t] == o
  }

  ghost predicate TotalsOk(s: State) {
    && s.totals.succeeded == |With(s.outcomes, Succeeded)|
    && s.totals.failed == |With(s.outcomes, Failed)|
    && s.totals.cancelled == |With(s.outcomes, CancelledQueued)|
  }

  ghost predicate BoundsOk(cfg: Config, s: State) {
    && s.load.pending <= cfg.workers + cfg.queueSize && s.load.bytes <= cfg.maxBytes
    && s.slots.value + Held(s.slots.waiters) + s.load.active == cfg.workers
    && (s.poolShut ==> s.closed && s.load.pending == 0)
  }

  ghost predicate BooksOk(cfg: Config, s: State) {
    && RequestsOk(s.requests) && LoadOk(s.requests, s.load) && Orderly(s.slots)
    && QueueOk(s.requests.queuedAt, s.slots.waiters) && BoundsOk(cfg, s)
  }

  ghost predicate Inv(cfg: Config, s: State) {
    BooksOk(cfg, s) && HistoryOk(s) && TotalsOk(s)
  }
}
