/** Who holds what: the cache lock, the build gates and the reservations.

Counts kept by the cache equal the number of threads between entry and exit, and at most one
thread is inside a build gate although gate objects are deleted and made anew. */
module CacheGates {
  import opened Inventory
  import opened CacheProtocol

  // ---------- The gate table, apart from the rest of the cache ----------

  /** The threads counted as users of a tag's gate. */
  ghost function UsersOf(claims: map<Tid, Seat>, tag: Ref): set<Tid> {
    set t | t in claims && claims[t].tag == tag
  }

  /** Every claim is on the gate its tag has now; counts are numbers of claims; tags have different
      gates; and a gate is held exactly by the one thread inside it. */
  ghost predicate TableOk(gates: map<Ref, Gate>, holders: map<GateId, Tid>, nextGate: GateId,
                          claims: map<Tid, Seat>)
  {
    && (forall t | t in claims :: claims[t].tag in gates && gates[claims[t].tag].gate == claims[t].gate)
    && (forall tag | tag in gates :: gates[tag].users == |UsersOf(claims, tag)| > 0 && gates[tag].gate < nextGate)
    && (forall a, b | a in gates && b in gates && a != b :: gates[a].gate != gates[b].gate)
    && (forall t | t in claims && claims[t].inside :: claims[t].gate in holders && holders[claims[t].gate] == t)
    && (forall g | g in holders :: holders[g] in claims && claims[holders[g]].inside && claims[holders[g]].gate == g)
  }

  /** `building`, entry: one more thread is counted on its tag's gate. */
  lemma TableJoins(gates: map<Ref, Gate>, holders: map<GateId, Tid>, nextGate: GateId,
                   claims: map<Tid, Seat>, t: Tid, tag: Ref)
    requires TableOk(gates, holders, nextGate, claims) && t !in claims && tag in gates
    ensures TableOk(gates[tag := Gate(gates[tag].gate, gates[tag].users + 1)], holders, nextGate,
                    claims[t := Seat(tag, gates[tag].gate, false)])
  {
    var claims' := claims[t := Seat(tag, gates[tag].gate, false)];
    assert UsersOf(claims', tag) == UsersOf(claims, tag) + {t};
    forall other | other != tag ensures UsersOf(claims', other) == UsersOf(claims, other) {
    }
  }

  /** `building`, entry with no gate for the tag: one is made, unlike any before. */
  lemma TableOpens(gates: map<Ref, Gate>, holders: map<GateId, Tid>, nextGate: GateId,
                   claims: map<Tid, Seat>, t: Tid, tag: Ref)
    requires TableOk(gates, holders, nextGate, claims) && t !in claims && tag !in gates
    ensures TableOk(gates[tag := Gate(nextGate, 1)], holders, nextGate + 1,
                    claims[t := Seat(tag, nextGate, false)])
  {
    var claims' := claims[t := Seat(tag, nextGate, false)];
    assert forall u | u in claims :: claims[u].tag != tag;
    assert UsersOf(claims', tag) == {t};
    forall other | other != tag ensures UsersOf(claims', other) == UsersOf(claims, other) {
    }
  }

  lemma UsersLeave(claims: map<Tid, Seat>, t: Tid)
    requires t in claims
    ensures UsersOf(claims - {t}, claims[t].tag) == UsersOf(claims, claims[t].tag) - {t}
    ensures |UsersOf(claims - {t}, claims[t].tag)| == |UsersOf(claims, claims[t].tag)| - 1
    ensures forall other | other != claims[t].tag :: UsersOf(claims - {t}, other) == UsersOf(claims, other)
  {
    var tag := claims[t].tag;
    assert t in UsersOf(claims, tag);
    assert UsersOf(claims - {t}, tag) == UsersOf(claims, tag) - {t};
    forall other | other != tag ensures UsersOf(claims - {t}, other) == UsersOf(claims, other) {
    }
  }

  /** `building`, exit: the count goes down, and the entry goes with its last user. */
  lemma TableLeaves(gates: map<Ref, Gate>, holders: map<GateId, Tid>, nextGate: GateId,
                    claims: map<Tid, Seat>, t: Tid)
    requires TableOk(gates, holders, nextGate, claims) && t in claims && !claims[t].inside
    ensures var tag := claims[t].tag;
            TableOk(if gates[tag].users > 1 then gates[tag := Gate(claims[t].gate, gates[tag].users - 1)]
                    else gates - {tag}, holders, nextGate, claims - {t})
  {
    UsersLeave(claims, t);
    var tag := claims[t].tag;
    if gates[tag].users == 1 {
      forall u | u in claims - {t} ensures claims[u].tag != tag {
        assert claims[u].tag == tag ==> u in UsersOf(claims - {t}, tag);
      }
    }
  }

  lemma TableAcquires(gates: map<Ref, Gate>, holders: map<GateId, Tid>, nextGate: GateId,
                      claims: map<Tid, Seat>, t: Tid)
    requires TableOk(gates, holders, nextGate, claims) && t in claims && !claims[t].inside
    requires claims[t].gate !in holders
    ensures TableOk(gates, holders[claims[t].gate := t], nextGate, claims[t := claims[t].(inside := true)])
  {
    forall tag ensures UsersOf(claims[t := claims[t].(inside := true)], tag) == UsersOf(claims, tag) {
    }
  }

  lemma TableReleases(gates: map<Ref, Gate>, holders: map<GateId, Tid>, nextGate: GateId,
                      claims: map<Tid, Seat>, t: Tid)
    requires TableOk(gates, holders, nextGate, claims) && t in claims && claims[t].inside
    ensures TableOk(gates, holders - {claims[t].gate}, nextGate, claims[t := claims[t].(inside := false)])
  {
    forall tag ensures UsersOf(claims[t := claims[t].(inside := false)], tag) == UsersOf(claims, tag) {
    }
  }

  // ---------- The reservation table ----------

  /** The threads inside `reserve(id)`. */
  ghost function ReserversOf(claims: map<Tid, ImageId>, id: ImageId): set<Tid> {
    set t | t in claims && claims[t] == id
  }

  ghost predicate CountsOk(reservations: map<ImageId, nat>, claims: map<Tid, ImageId>) {
    && (forall id | id in reservations :: reservations[id] == |ReserversOf(claims, id)| > 0)
    && (forall t | t in claims :: claims[t] in reservations)
  }

  lemma CountsTake(reservations: map<ImageId, nat>, claims: map<Tid, ImageId>, t: Tid, id: ImageId)
    requires CountsOk(reservations, claims) && t !in claims
    ensures var count := if id in reservations then reservations[id] else 0;
            CountsOk(reservations[id := count + 1], claims[t := id])
  {
    assert ReserversOf(claims[t := id], id) == ReserversOf(claims, id) + {t};
    forall other | other != id ensures ReserversOf(claims[t := id], other) == ReserversOf(claims, other) {
    }
    if id !in reservations {
      assert forall u | u in claims :: claims[u] != id;
      assert ReserversOf(claims, id) == {};
    }
  }

  lemma CountsDrop(reservations: map<ImageId, nat>, claims: map<Tid, ImageId>, t: Tid)
    requires CountsOk(reservations, claims) && t in claims
    ensures var id := claims[t];
            CountsOk(if reservations[id] > 1 then reservations[id := reservations[id] - 1] else reservations - {id},
                     claims - {t})
  {
    var id := claims[t];
    var reservers := ReserversOf(claims, id);
    assert ReserversOf(claims - {t}, id) == reservers - {t};
    forall other | other != id ensures ReserversOf(claims - {t}, other) == ReserversOf(claims, other) {
    }
    assert |reservers - {t}| == |reservers| - 1;
  }

  // ---------- The tables of a state ----------

  ghost function Seats(pcs: map<Tid, Pc>): map<Tid, Seat> {
    map t | t in pcs && GateOf(pcs[t]).Seated? :: GateOf(pcs[t]).seat
  }

  ghost function Reservers(pcs: map<Tid, Pc>): map<Tid, ImageId> {
    map t | t in pcs && ReservedBy(pcs[t]).Reserving? :: ReservedBy(pcs[t]).id
  }

  ghost predicate GatesOk(s: State) {
    TableOk(s.gates, s.holders, s.nextGate, Seats(s.pcs))
  }

  ghost predicate ReservationsOk(s: State) {
    CountsOk(s.reservations, Reservers(s.pcs))
  }

  /** What the program counter of the lock's holder can be. */
  ghost predicate LockOk(s: State) {
    if s.lock.Unlocked? then true
    else
      && At(s, s.lock.tid)
      && var pc := s.pcs[s.lock.tid];
      if s.lock.Reusing? then pc.Reuse?
      else if s.lock.Saving? then s.lock.next.Some? && SavedFrom(pc, s.lock.next.value)
      else Collecting(pc)
  }

  /** A save does not move its thread in or out of a gate or a reservation. */
  ghost predicate SavedFrom(pc: Pc, next: Pc) {
    || (pc.Reuse? && (next.BuildGc? || next.DropGate?) && next.job == pc.job && next.gate == pc.gate)
    || (pc.RecordBuild? && next.DropGate? && next.job == pc.job && next.gate == pc.gate)
    || ((pc.RecordPull? || pc.TouchImage?) && next.ReserveImage? && next.ref == pc.ref && next.id == pc.id)
  }

  // ---------- Steps that leave gates or reservations alone ----------

  function GateAt(s: State, t: Tid): GateClaim {
    if t in s.pcs then GateOf(s.pcs[t]) else NoGate
  }

  function ReserveAt(s: State, t: Tid): ReserveClaim {
    if t in s.pcs then ReservedBy(s.pcs[t]) else NoReserve
  }

  lemma BuildKeepsClaims(cfg: Config, s: State, t: Tid, act: BuildAct, s': State, u: Tid)
    requires LockOk(s) && At(s, t) && BuildEnabled(s, t, act) && BuildStep(cfg, s, t, act, s')
    ensures GateAt(s', u) == GateAt(s, u) && ReserveAt(s', u) == ReserveAt(s, u)
  {
  }

  lemma GcKeepsClaims(cfg: Config, s: State, t: Tid, act: GcAct, s': State, u: Tid)
    requires LockOk(s) && At(s, t) && GcEnabled(cfg, s, t, act) && GcStep(cfg, s, t, act, s')
    ensures GateAt(s', u) == GateAt(s, u) && ReserveAt(s', u) == ReserveAt(s, u)
  {
  }

  lemma ResolveKeepsClaims(cfg: Config, s: State, t: Tid, act: CreateAct, s': State, u: Tid)
    requires LockOk(s) && At(s, t) && CreateEnabled(cfg, s, t, act) && CreateStep(cfg, s, t, act, s')
    requires act.FindImage? || act.PullOk? || act.PullFail? || act.RecordPulled? || act.Touch?
    ensures GateAt(s', u) == GateAt(s, u) && ReserveAt(s', u) == ReserveAt(s, u)
  {
  }

  lemma UseKeepsClaims(cfg: Config, s: State, t: Tid, act: CreateAct, s': State, u: Tid)
    requires LockOk(s) && At(s, t) && CreateEnabled(cfg, s, t, act) && CreateStep(cfg, s, t, act, s')
    requires !act.FindImage? && !act.PullOk? && !act.PullFail? && !act.RecordPulled? && !act.Touch?
    ensures GateAt(s', u) == GateAt(s, u)
    ensures !act.Reserve? && !act.EndReserve? ==> ReserveAt(s', u) == ReserveAt(s, u)
  {
  }

  lemma OthersKeepClaims(cfg: Config, s: State, step: Step, s': State, u: Tid)
    requires LockOk(s) && OtherEnabled(s, step) && OtherStep(cfg, s, step, s')
    ensures GateAt(s', u) == GateAt(s, u) && ReserveAt(s', u) == ReserveAt(s, u)
  {
  }

  lemma GatingKeepsReserves(s: State, t: Tid, act: GateAct, s': State, u: Tid)
    requires At(s, t) && GateEnabled(s, t, act) && GateStep(s, t, act, s')
    ensures ReserveAt(s', u) == ReserveAt(s, u)
  {
  }

  lemma SameGates(s: State, s': State)
    requires GatesOk(s) && s'.gates == s.gates && s'.holders == s.holders && s'.nextGate == s.nextGate
    requires forall t :: GateAt(s', t) == GateAt(s, t)
    ensures GatesOk(s')
  {
    forall t
      ensures t in Seats(s'.pcs) <==> t in Seats(s.pcs)
      ensures t in Seats(s.pcs) ==> Seats(s'.pcs)[t] == Seats(s.pcs)[t]
    {
      assert GateAt(s', t) == GateAt(s, t);
    }
    assert Seats(s'.pcs) == Seats(s.pcs);
  }

  lemma SameReservations(s: State, s': State)
    requires ReservationsOk(s) && s'.reservations == s.reservations
    requires forall t :: ReserveAt(s', t) == ReserveAt(s, t)
    ensures ReservationsOk(s')
  {
    forall t
      ensures t in Reservers(s'.pcs) <==> t in Reservers(s.pcs)
      ensures t in Reservers(s.pcs) ==> Reservers(s'.pcs)[t] == Reservers(s.pcs)[t]
    {
      assert ReserveAt(s', t) == ReserveAt(s, t);
    }
    assert Reservers(s'.pcs) == Reservers(s.pcs);
  }

  // ---------- Steps that change them ----------

  lemma SeatsMove(pcs: map<Tid, Pc>, t: Tid, pc: Pc)
    ensures GateOf(pc).Seated? ==> Seats(pcs[t := pc]) == Seats(pcs)[t := GateOf(pc).seat]
    ensures Seats(pcs - {t}) == Seats(pcs) - {t}
  {
  }

  lemma ReserversMove(pcs: map<Tid, Pc>, t: Tid, pc: Pc)
    ensures ReservedBy(pc).Reserving? ==> Reservers(pcs[t := pc]) == Reservers(pcs)[t := ReservedBy(pc).id]
    ensures Reservers(pcs - {t}) == Reservers(pcs) - {t}
  {
  }

  lemma EnteringKeepsGates(s: State, t: Tid, s': State)
    requires GatesOk(s) && At(s, t) && GateEnabled(s, t, Register) && GateStep(s, t, Register, s')
    ensures GatesOk(s')
  {
    var tag := s.pcs[t].job.tag;
    SeatsMove(s.pcs, t, s'.pcs[t]);
    if tag in s.gates {
      TableJoins(s.gates, s.holders, s.nextGate, Seats(s.pcs), t, tag);
    } else {
      TableOpens(s.gates, s.holders, s.nextGate, Seats(s.pcs), t, tag);
    }
  }

  lemma MovingKeepsGates(s: State, t: Tid, act: GateAct, s': State)
    requires GatesOk(s) && At(s, t) && GateEnabled(s, t, act) && GateStep(s, t, act, s')
    requires act.Interrupt? || act.Acquire? || act.Release?
    ensures GatesOk(s')
  {
    var seats := Seats(s.pcs);
    SeatsMove(s.pcs, t, s'.pcs[t]);
    if act.Acquire? {
      TableAcquires(s.gates, s.holders, s.nextGate, seats, t);
    } else if act.Release? {
      TableReleases(s.gates, s.holders, s.nextGate, seats, t);
    } else {
      assert seats[t := seats[t]] == seats;
    }
  }

  lemma LeavingKeepsGates(s: State, t: Tid, s': State)
    requires GatesOk(s) && At(s, t) && GateEnabled(s, t, Leave) && GateStep(s, t, Leave, s')
    ensures GatesOk(s')
  {
    TableLeaves(s.gates, s.holders, s.nextGate, Seats(s.pcs), t);
    SeatsMove(s.pcs, t, s.pcs[t]);
  }

  lemma ReservingKeepsReservations(cfg: Config, s: State, t: Tid, act: CreateAct, s': State)
    requires ReservationsOk(s) && At(s, t) && CreateEnabled(cfg, s, t, act) && CreateStep(cfg, s, t, act, s')
    requires act.Reserve? || act.EndReserve?
    ensures ReservationsOk(s')
  {
    var id, claims := s.pcs[t].id, Reservers(s.pcs);
    if act.Reserve? {
      CountsTake(s.reservations, claims, t, id);
      ReserversMove(s.pcs, t, s'.pcs[t]);
    } else {
      CountsDrop(s.reservations, claims, t);
      ReserversMove(s.pcs, t, s.pcs[t]);
    }
  }

  // ---------- The lock ----------

  lemma BuildKeepsLock(cfg: Config, s: State, t: Tid, act: BuildAct, s': State)
    requires LockOk(s) && At(s, t) && BuildEnabled(s, t, act) && BuildStep(cfg, s, t, act, s')
    ensures LockOk(s')
  {
  }

  lemma GcKeepsLock(cfg: Config, s: State, t: Tid, act: GcAct, s': State)
    requires LockOk(s) && At(s, t) && GcEnabled(cfg, s, t, act) && GcStep(cfg, s, t, act, s')
    ensures LockOk(s')
  {
  }

  lemma CreateKeepsLock(cfg: Config, s: State, t: Tid, act: CreateAct, s': State)
    requires LockOk(s) && At(s, t) && CreateEnabled(cfg, s, t, act) && CreateStep(cfg, s, t, act, s')
    ensures LockOk(s')
  {
  }

  lemma OthersKeepLock(cfg: Config, s: State, step: Step, s': State)
    requires LockOk(s) && OtherEnabled(s, step) && OtherStep(cfg, s, step, s')
    ensures LockOk(s')
  {
  }

  lemma GatingKeepsLock(s: State, t: Tid, act: GateAct, s': State)
    requires LockOk(s) && At(s, t) && GateEnabled(s, t, act) && GateStep(s, t, act, s')
    ensures LockOk(s')
  {
  }

  lemma CrashOpens(s: State, readable: bool, s': State)
    requires Crashing(s, readable, s')
    ensures LockOk(s') && GatesOk(s') && ReservationsOk(s')
  {
    assert Seats(s'.pcs) == map[] && Reservers(s'.pcs) == map[];
  }
}
