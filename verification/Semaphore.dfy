/** The semaphore that hands out build slots, as `asyncio.Semaphore` keeps it.

A waiter is granted its permit while still suspended, and may be cancelled before or after that; it
stays in the queue until its coroutine runs again. */
module Semaphore {
  type Ticket = int

  datatype Phase =
    | Waiting
    | Granted  // permit handed over, coroutine not resumed yet
    | Dropped  // cancelled while waiting
    | Revoked  // cancelled after the grant

  datatype Waiter = Waiter(ticket: Ticket, phase: Phase)

  datatype Slots = Slots(value: int, waiters: seq<Waiter>)

  predicate Holding(w: Waiter) {
    w.phase.Granted? || w.phase.Revoked?
  }

  predicate Wakeable(ws: seq<Waiter>) {
    exists i :: 0 <= i < |ws| && ws[i].phase.Waiting?
  }

  /** Whether an arrival has to queue: also behind a waiter that has been granted. */
  predicate Locked(s: Slots) {
    s.value == 0 || exists i :: 0 <= i < |s.waiters| && !s.waiters[i].phase.Dropped?
  }

  /** The number of permits handed to waiters. */
  function Held(ws: seq<Waiter>): (n: nat)
    ensures n <= |ws|
  {
    if ws == [] then 0 else Held(ws[1..]) + if Holding(ws[0]) then 1 else 0
  }

  /** The place of the first waiter still waiting, or the length. */
  function FirstWaiting(ws: seq<Waiter>): (i: nat)
    ensures i <= |ws|
    ensures i < |ws| ==> ws[i].phase.Waiting?
    ensures forall j | 0 <= j < i :: !ws[j].phase.Waiting?
  {
    if ws == [] || ws[0].phase.Waiting? then 0 else 1 + FirstWaiting(ws[1..])
  }

  /** `_wake_up_next` */
  function WakeNext(s: Slots): Slots {
    var i := FirstWaiting(s.waiters);
    if i < |s.waiters| then Slots(s.value - 1, s.waiters[i := s.waiters[i].(phase := Granted)]) else s
  }

  /** Wakes as many waiters as there are permits. */
  function WakeAll(s: Slots): Slots
    decreases s.value
  {
    if s.value > 0 && Wakeable(s.waiters) then WakeAll(WakeNext(s)) else s
  }

  function Release(s: Slots): Slots {
    WakeNext(Slots(s.value + 1, s.waiters))
  }

  /** A waiter out of the queue, its permit returned if it was cancelled holding one. */
  function Removed(s: Slots, i: nat): Slots
    requires i < |s.waiters|
  {
    Slots(s.value + (if s.waiters[i].phase.Revoked? then 1 else 0), s.waiters[..i] + s.waiters[i + 1..])
  }

  // ---------- Permits are conserved ----------

  lemma {:induction false} HeldUpdate(ws: seq<Waiter>, i: nat, w: Waiter)
    requires i < |ws|
    ensures Held(ws[i := w]) == Held(ws) - (if Holding(ws[i]) then 1 else 0) + (if Holding(w) then 1 else 0)
  {
    if i > 0 {
      assert ws[i := w][1..] == ws[1..][i - 1 := w];
      HeldUpdate(ws[1..], i - 1, w);
    } else {
      assert ws[i := w][1..] == ws[1..];
    }
  }

  lemma {:induction false} HeldConcat(a: seq<Waiter>, b: seq<Waiter>)
    ensures Held(a + b) == Held(a) + Held(b)
  {
    if a == [] {
      assert a + b == b;
    } else {
      assert (a + b)[1..] == a[1..] + b;
      HeldConcat(a[1..], b);
    }
  }

  lemma {:induction false} HeldRemove(ws: seq<Waiter>, i: nat)
    requires i < |ws|
    ensures Held(ws[..i] + ws[i + 1..]) == Held(ws) - if Holding(ws[i]) then 1 else 0
  {
    var rest := ws[..i] + ws[i + 1..];
    if i == 0 {
      assert rest == ws[1..];
    } else {
      assert rest[0] == ws[0] && rest[1..] == ws[1..][..i - 1] + ws[1..][i..];
      HeldRemove(ws[1..], i - 1);
    }
  }

  lemma HeldAppend(ws: seq<Waiter>, w: Waiter)
    ensures Held(ws + [w]) == Held(ws) + if Holding(w) then 1 else 0
  {
    HeldConcat(ws, [w]);
  }

  lemma {:induction false} HeldNone(ws: seq<Waiter>)
    ensures Held(ws) == 0 <==> forall i | 0 <= i < |ws| :: !Holding(ws[i])
  {
    if ws != [] {
      HeldNone(ws[1..]);
      assert forall i | 1 <= i < |ws| :: ws[i] == ws[1..][i - 1];
    }
  }

  /** The tickets of the queue, in order. */
  function Tickets(ws: seq<Waiter>): (ts: seq<Ticket>)
    ensures |ts| == |ws|
    ensures forall i | 0 <= i < |ws| :: ts[i] == ws[i].ticket
  {
    seq(|ws|, i requires 0 <= i < |ws| => ws[i].ticket)
  }

  /** No waiter was granted a permit over one that came before it and still waits. */
  ghost predicate Fair(ws: seq<Waiter>) {
    forall i, j | 0 <= i < j < |ws| :: ws[i].phase.Waiting? ==> !Holding(ws[j])
  }

  /** Grants are fair, and a permit is free while somebody waits only if another waiter is about to
      resume and pass it on. */
  ghost predicate Orderly(s: Slots) {
    && s.value >= 0
    && Fair(s.waiters)
    && (s.value > 0 && Wakeable(s.waiters) ==> Held(s.waiters) > 0)
  }

  /** Granting moves a permit and nothing else. */
  lemma WakeNextConserves(s: Slots)
    requires s.value > 0 && Fair(s.waiters)
    ensures var r := WakeNext(s);
            && r.value + Held(r.waiters) == s.value + Held(s.waiters) && r.value >= 0
            && Tickets(r.waiters) == Tickets(s.waiters)
            && Fair(r.waiters)
            && (Wakeable(s.waiters) ==> Held(r.waiters) > 0)
            && (!Wakeable(s.waiters) ==> r == s)
  {
    var i := FirstWaiting(s.waiters);
    if i < |s.waiters| {
      HeldUpdate(s.waiters, i, s.waiters[i].(phase := Granted));
    }
  }

  /** Afterwards no permit is free while somebody waits. */
  lemma {:induction false} WakeAllConserves(s: Slots)
    requires s.value >= 0 && Fair(s.waiters)
    ensures var r := WakeAll(s);
            && r.value + Held(r.waiters) == s.value + Held(s.waiters)
            && Tickets(r.waiters) == Tickets(s.waiters)
            && Orderly(r) && !(r.value > 0 && Wakeable(r.waiters))
    decreases s.value
  {
    if s.value > 0 && Wakeable(s.waiters) {
      WakeNextConserves(s);
      WakeAllConserves(WakeNext(s));
    }
  }

  /** The permit goes to the first that waits, or is free. */
  lemma ReleaseConserves(s: Slots)
    requires Orderly(s)
    ensures var r := Release(s);
            && r.value + Held(r.waiters) == s.value + Held(s.waiters) + 1
            && Tickets(r.waiters) == Tickets(s.waiters) && Orderly(r)
    ensures !Wakeable(s.waiters) ==> Release(s) == Slots(s.value + 1, s.waiters)
    ensures forall i | 0 <= i < |s.waiters| && s.waiters[i].phase.Waiting?
                       && (forall j | 0 <= j < i :: !s.waiters[j].phase.Waiting?) ::
              Release(s) == Slots(s.value, s.waiters[i := Waiter(s.waiters[i].ticket, Granted)])
  {
    WakeNextConserves(Slots(s.value + 1, s.waiters));
  }

  /** A waiter leaves: its permit becomes a running build's, or returns. */
  lemma LeavingConserves(s: Slots, i: nat)
    requires Orderly(s) && i < |s.waiters| && !s.waiters[i].phase.Waiting?
    ensures var r := WakeAll(Removed(s, i));
            && r.value + Held(r.waiters) == s.value + Held(s.waiters) - (if s.waiters[i].phase.Granted? then 1 else 0)
            && Tickets(r.waiters) == Tickets(s.waiters)[..i] + Tickets(s.waiters)[i + 1..]
            && Orderly(r)
  {
    HeldRemove(s.waiters, i);
    WakeAllConserves(Removed(s, i));
  }

  /** Waking touches those that wait and nobody else. */
  lemma {:induction false} WakeAllKeeps(s: Slots, k: nat)
    requires k < |s.waiters| && !s.waiters[k].phase.Waiting?
    ensures |WakeAll(s).waiters| == |s.waiters| && WakeAll(s).waiters[k] == s.waiters[k]
    decreases s.value
  {
    if s.value > 0 && Wakeable(s.waiters) {
      WakeAllKeeps(WakeNext(s), k);
    }
  }

  /** A cancelled waiter keeps its place, and a permit it holds, until it runs. */
  function Cancelled(s: Slots, i: nat): Slots
    requires i < |s.waiters|
  {
    var w := s.waiters[i];
    s.(waiters := s.waiters[i := w.(phase := if Holding(w) then Revoked else Dropped)])
  }

  lemma CancelledConserves(s: Slots, i: nat)
    requires Orderly(s) && i < |s.waiters|
    ensures var r := Cancelled(s, i);
            && r.value == s.value && Held(r.waiters) == Held(s.waiters)
            && Tickets(r.waiters) == Tickets(s.waiters) && Orderly(r)
  {
    var w := s.waiters[i];
    HeldUpdate(s.waiters, i, w.(phase := if Holding(w) then Revoked else Dropped));
    if Wakeable(Cancelled(s, i).waiters) {
      assert Wakeable(s.waiters);
    }
  }
}
