/** The methods of the cache object take steps of the protocol.

Each lemma starts from a protocol state that shows what the object holds, with the lock free and a
thread about to make the call, and reaches, by steps of that thread and the passing of time, one that
shows what the object holds afterwards. */
module CacheRefinement {
  import opened OrderedDict
  import opened Inventory
  import opened CacheKey
  import opened CacheProtocol
  import opened CacheSteps
  import opened Runs
  import P = CollectionPass
  import C = ImageCache

  // ---------- Steps of one thread ----------

  ghost predicate Path(cfg: Config, ss: seq<State>, steps: seq<Step>, t: Tid) {
    && |ss| == |steps| + 1
    && forall i | 0 <= i < |steps| :: Next(cfg, ss[i], steps[i], ss[i + 1]) && (steps[i].Tick? || Moves(steps[i], t))
  }

  ghost predicate Reaches(cfg: Config, s: State, t: Tid, s': State) {
    exists ss: seq<State>, steps: seq<Step> :: Path(cfg, ss, steps, t) && ss[0] == s && ss[|steps|] == s'
  }

  lemma Stays(cfg: Config, s: State, t: Tid)
    ensures Reaches(cfg, s, t, s)
  {
    assert Path(cfg, [s], [], t);
  }

  lemma GoesOn(cfg: Config, s: State, t: Tid, a: State, step: Step, b: State)
    requires Reaches(cfg, s, t, a) && Next(cfg, a, step, b) && (step.Tick? || Moves(step, t))
    ensures Reaches(cfg, s, t, b)
  {
    var ss: seq<State>, steps: seq<Step> :| Path(cfg, ss, steps, t) && ss[0] == s && ss[|steps|] == a;
    assert Path(cfg, ss + [b], steps + [step], t);
    assert (ss + [b])[|steps + [step]|] == b && (ss + [b])[0] == s;
  }

  /** A state of a collection by a thread of `s`: only these fields differ. */
  function Mid(s: State, now: Time, tags: map<Ref, Image>, records: Records, disk: Records, reading: Reading,
               lock: Lock): State
  {
    State(tags, s.ctrs, now, records, disk, reading, s.gates, s.reservations, lock, s.holders, s.nextGate, s.pcs,
          s.acquired, s.used, s.pulls)
  }

  /** The protocol's tags, records and file are the object's. */
  ghost predicate Shows(s: State, c: C.Stock) {
    && s.tags == c.tags && s.records == c.records.entry
    && (s.reading.unread <==> c.file.Unreadable?)
    && (!c.file.Unreadable? ==> s.disk == C.Reloaded(c.file).entry)
  }

  // ---------- Calls that change the records ----------

  /** A thread of `s` has moved, with these fields changed. */
  function Stepped(s: State, records: Records, lock: Lock, pcs: map<Tid, Pc>, acquired: set<(Ref, ImageId)>): State {
    State(s.tags, s.ctrs, s.now, records, s.disk, s.reading, s.gates, s.reservations, lock, s.holders, s.nextGate, pcs,
          acquired, s.used, s.pulls)
  }

  /** A state in the midst of a save, once it is done. */
  function Saved(a: State, t: Tid): State
    requires a.lock.Saving?
  {
    var use := a.lock.use;
    State(a.tags, a.ctrs, a.now, a.records, a.records, Replaced(a.reading), a.gates, a.reservations, Unlocked,
          a.holders, a.nextGate, Moved(a.pcs, t, a.lock.next), a.acquired,
          if use.Some? then a.used[use.value.ref := use.value] else a.used, a.pulls)
  }

  lemma SaveTakesSteps(cfg: Config, s: State, t: Tid, a: State, c: C.Stock)
    requires Reaches(cfg, s, t, a) && a.lock.Saving? && a.lock.tid == t && At(a, t)
    requires a.tags == c.tags && a.records == c.records.entry && c.file == C.Holding(Inventory.Saved(c.records))
    ensures Reaches(cfg, s, t, Saved(a, t)) && Shows(Saved(a, t), c)
  {
    GoesOn(cfg, s, t, a, Flush(t), Saved(a, t));
    LoadAfterSave(c.records);
  }

  /** Nothing has changed that only gates, reservations and containers are about. */
  ghost predicate SameTables(s: State, s': State) {
    && s'.gates == s.gates && s'.holders == s.holders && s'.nextGate == s.nextGate
    && s'.reservations == s.reservations && s'.ctrs == s.ctrs
  }

  /** The call has returned: the lock is free and the thread goes on to `pc`. */
  ghost predicate Called(cfg: Config, s: State, t: Tid, s': State, pc: Pc, c: C.Stock) {
    && Reaches(cfg, s, t, s') && s'.lock.Unlocked? && s'.pcs == s.pcs[t := pc] && Shows(s', c)
    && SameTables(s, s') && s'.now == s.now
  }

  /** `record`, of a build. */
  lemma RecordTakesSteps(cfg: Config, s: State, t: Tid, before: C.Stock, after: C.Stock)
    returns (s': State)
    requires s.lock.Unlocked? && At(s, t) && s.pcs[t].RecordBuild? && Shows(s, before)
    requires C.Recorded(before, CachedImage(s.pcs[t].job.tag, s.pcs[t].id, Built, s.now), after)
    ensures Called(cfg, s, t, s', DropGate(s.pcs[t].job, s.pcs[t].gate), after)
  {
    var job, id := s.pcs[t].job, s.pcs[t].id;
    var next := DropGate(job, s.pcs[t].gate);
    var a := Stepped(s, after.records.entry, Saving(t, s.records, Some(next), Some(Use(job.tag, id, s.now))), s.pcs,
                     s.acquired + {(job.tag, id)});
    Stays(cfg, s, t);
    GoesOn(cfg, s, t, s, Building(t, RecordBuilt), a);
    SaveTakesSteps(cfg, s, t, a, after);
    s' := Saved(a, t);
  }

  /** `record`, of a pull. */
  lemma RecordPullTakesSteps(cfg: Config, s: State, t: Tid, before: C.Stock, after: C.Stock)
    returns (s': State)
    requires s.lock.Unlocked? && At(s, t) && s.pcs[t].RecordPull? && Shows(s, before)
    requires C.Recorded(before, CachedImage(s.pcs[t].ref, s.pcs[t].id, Pulled, s.now), after)
    ensures Called(cfg, s, t, s', ReserveImage(s.pcs[t].ref, s.pcs[t].id, s.now), after)
  {
    var ref, id := s.pcs[t].ref, s.pcs[t].id;
    var next := ReserveImage(ref, id, s.now);
    var a := Stepped(s, after.records.entry, Saving(t, s.records, Some(next), Some(Use(ref, id, s.now))), s.pcs,
                     s.acquired);
    Stays(cfg, s, t);
    GoesOn(cfg, s, t, s, Creating(t, CreateAct.RecordPulled), a);
    SaveTakesSteps(cfg, s, t, a, after);
    s' := Saved(a, t);
  }

  lemma MissTakesSteps(cfg: Config, s: State, t: Tid, c: C.Stock)
    returns (s': State, since: Time)
    requires s.lock.Unlocked? && At(s, t) && s.pcs[t].TouchImage? && Shows(s, c) && s.pcs[t].ref !in s.records
    ensures Called(cfg, s, t, s', ReserveImage(s.pcs[t].ref, s.pcs[t].id, since), c)
  {
    var next := ReserveImage(s.pcs[t].ref, s.pcs[t].id, s.pcs[t].since);
    var a := Stepped(s, s.records, Unlocked, s.pcs[t := next], s.acquired);
    Stays(cfg, s, t);
    GoesOn(cfg, s, t, s, Creating(t, Touch), a);
    s', since := a, s.pcs[t].since;
  }

  lemma DiscardTakesSteps(cfg: Config, s: State, t: Tid, before: C.Stock, after: C.Stock)
    returns (s': State, since: Time)
    requires s.lock.Unlocked? && At(s, t) && s.pcs[t].TouchImage? && Shows(s, before)
    requires s.pcs[t].ref in s.records && s.records[s.pcs[t].ref].imageId != s.pcs[t].id
    requires C.Touched(before, s.pcs[t].ref, s.pcs[t].id, s.now, after)
    ensures Called(cfg, s, t, s', ReserveImage(s.pcs[t].ref, s.pcs[t].id, since), after)
  {
    var next := ReserveImage(s.pcs[t].ref, s.pcs[t].id, s.pcs[t].since);
    var a := Stepped(s, after.records.entry, Saving(t, s.records, Some(next), None), s.pcs, s.acquired);
    Stays(cfg, s, t);
    GoesOn(cfg, s, t, s, Creating(t, Touch), a);
    SaveTakesSteps(cfg, s, t, a, after);
    s', since := Saved(a, t), s.pcs[t].since;
  }

  lemma RefreshTakesSteps(cfg: Config, s: State, t: Tid, before: C.Stock, after: C.Stock)
    returns (s': State, since: Time)
    requires s.lock.Unlocked? && At(s, t) && s.pcs[t].TouchImage? && Shows(s, before)
    requires s.pcs[t].ref in s.records && s.records[s.pcs[t].ref].imageId == s.pcs[t].id
    requires C.Touched(before, s.pcs[t].ref, s.pcs[t].id, s.now, after)
    ensures Called(cfg, s, t, s', ReserveImage(s.pcs[t].ref, s.pcs[t].id, since), after)
  {
    var ref, id := s.pcs[t].ref, s.pcs[t].id;
    var next := ReserveImage(ref, id, s.now);
    var a := Stepped(s, after.records.entry, Saving(t, s.records, Some(next), Some(Use(ref, id, s.now))), s.pcs,
                     s.acquired);
    assert after.records.entry == s.records[ref := CachedImage(ref, id, s.records[ref].origin, s.now)];
    Stays(cfg, s, t);
    GoesOn(cfg, s, t, s, Creating(t, Touch), a);
    SaveTakesSteps(cfg, s, t, a, after);
    s', since := Saved(a, t), s.now;
  }

  /** `touch` */
  lemma TouchTakesSteps(cfg: Config, s: State, t: Tid, before: C.Stock, after: C.Stock)
    returns (s': State, since: Time)
    requires s.lock.Unlocked? && At(s, t) && s.pcs[t].TouchImage? && Shows(s, before)
    requires C.Touched(before, s.pcs[t].ref, s.pcs[t].id, s.now, after)
    ensures Called(cfg, s, t, s', ReserveImage(s.pcs[t].ref, s.pcs[t].id, since), after)
  {
    if s.pcs[t].ref !in s.records {
      s', since := MissTakesSteps(cfg, s, t, before);
    } else if s.records[s.pcs[t].ref].imageId != s.pcs[t].id {
      s', since := DiscardTakesSteps(cfg, s, t, before, after);
    } else {
      s', since := RefreshTakesSteps(cfg, s, t, before, after);
    }
  }

  // ---------- reuse_built ----------

  lemma LookTakesSteps(cfg: Config, s: State, t: Tid)
    requires s.lock.Unlocked? && At(s, t) && s.pcs[t].Reuse?
    ensures Reaches(cfg, s, t, Stepped(s, s.records, Reusing(t, Found(s, s.pcs[t].job.tag)), s.pcs, s.acquired))
  {
    Stays(cfg, s, t);
    GoesOn(cfg, s, t, s, Building(t, Look(true)),
           Stepped(s, s.records, Reusing(t, Found(s, s.pcs[t].job.tag)), s.pcs, s.acquired));
  }

  function Found(s: State, tag: Ref): Option<Image> {
    if tag in s.tags then Some(s.tags[tag]) else None
  }

  lemma UnansweredTakesSteps(cfg: Config, s: State, t: Tid, c: C.Stock)
    returns (s': State)
    requires s.lock.Unlocked? && At(s, t) && s.pcs[t].Reuse? && Shows(s, c)
    ensures Called(cfg, s, t, s', DropGate(s.pcs[t].job, s.pcs[t].gate), c)
  {
    var next := DropGate(s.pcs[t].job, s.pcs[t].gate);
    var a := Stepped(s, s.records, s.lock, s.pcs[t := next], s.acquired);
    Stays(cfg, s, t);
    GoesOn(cfg, s, t, s, Building(t, Look(false)), a);
    s' := a;
  }

  /** The state in which Docker has answered the thread. */
  ghost predicate Answered(cfg: Config, s: State, t: Tid, b: State) {
    && At(s, t) && s.pcs[t].Reuse?
    && b == Stepped(s, s.records, Reusing(t, Found(s, s.pcs[t].job.tag)), s.pcs, s.acquired) && Reaches(cfg, s, t, b)
  }

  lemma MissingTakesSteps(cfg: Config, s: State, t: Tid, b: State, before: C.Stock, after: C.Stock)
    returns (s': State)
    requires Answered(cfg, s, t, b) && Shows(s, before) && s.pcs[t].job.tag !in s.tags && s.pcs[t].job.tag in s.records
    requires after.tags == before.tags && after.records == Forget(before.records, s.pcs[t].job.tag)
    requires after.file == C.Holding(Inventory.Saved(after.records))
    ensures Called(cfg, s, t, s', BuildGc(s.pcs[t].job, s.pcs[t].gate, false), after)
  {
    var next := BuildGc(s.pcs[t].job, s.pcs[t].gate, false);
    var a := Stepped(b, after.records.entry, Saving(t, s.records, Some(next), None), s.pcs, s.acquired);
    GoesOn(cfg, s, t, b, Building(t, Decide), a);
    SaveTakesSteps(cfg, s, t, a, after);
    s' := Saved(a, t);
  }

  lemma UnknownTakesSteps(cfg: Config, s: State, t: Tid, b: State, c: C.Stock)
    returns (s': State)
    requires Answered(cfg, s, t, b) && Shows(s, c) && s.pcs[t].job.tag !in s.tags && s.pcs[t].job.tag !in s.records
    ensures Called(cfg, s, t, s', BuildGc(s.pcs[t].job, s.pcs[t].gate, false), c)
  {
    var next := BuildGc(s.pcs[t].job, s.pcs[t].gate, false);
    var a := Stepped(b, s.records, Unlocked, s.pcs[t := next], s.acquired);
    GoesOn(cfg, s, t, b, Building(t, Decide), a);
    s' := a;
  }

  lemma MismatchTakesSteps(cfg: Config, s: State, t: Tid, b: State, c: C.Stock)
    returns (s': State)
    requires Answered(cfg, s, t, b) && Shows(s, c) && s.pcs[t].job.tag in s.tags
    requires Mismatch(s, s.pcs[t].job, s.tags[s.pcs[t].job.tag])
    ensures Called(cfg, s, t, s', DropGate(s.pcs[t].job, s.pcs[t].gate), c)
  {
    var next := DropGate(s.pcs[t].job, s.pcs[t].gate);
    var a := Stepped(b, s.records, Unlocked, s.pcs[t := next], s.acquired);
    GoesOn(cfg, s, t, b, Building(t, Decide), a);
    s' := a;
  }

  lemma AdoptTakesSteps(cfg: Config, s: State, t: Tid, b: State, before: C.Stock, after: C.Stock)
    returns (s': State)
    requires Answered(cfg, s, t, b) && Shows(s, before) && s.pcs[t].job.tag in s.tags
    requires var tag := s.pcs[t].job.tag;
             && !Mismatch(s, s.pcs[t].job, s.tags[tag])
             && C.Recorded(before, CachedImage(tag, s.tags[tag].id, Built, s.now), after)
    ensures Called(cfg, s, t, s', DropGate(s.pcs[t].job, s.pcs[t].gate), after)
  {
    var next, tag := DropGate(s.pcs[t].job, s.pcs[t].gate), s.pcs[t].job.tag;
    var id := s.tags[tag].id;
    var a := Stepped(b, after.records.entry, Saving(t, s.records, Some(next), Some(Use(tag, id, s.now))), s.pcs,
                     s.acquired + {(tag, id)});
    GoesOn(cfg, s, t, b, Building(t, Decide), a);
    SaveTakesSteps(cfg, s, t, a, after);
    s' := Saved(a, t);
  }

  function AfterReuse(job: Job, gate: GateId, r: C.Reuse): Pc {
    if r.NotFound? then BuildGc(job, gate, false) else DropGate(job, gate)
  }

  /** `reuse_built`: on a miss the thread goes on to build, in every other case it leaves the gate. */
  lemma ReuseTakesSteps(cfg: Config, s: State, t: Tid, before: C.Stock, answers: bool, r: C.Reuse, after: C.Stock)
    returns (s': State)
    requires s.lock.Unlocked? && At(s, t) && s.pcs[t].Reuse? && Shows(s, before)
    requires C.ReusedAs(before, s.pcs[t].job.tag, s.pcs[t].job.want, s.now, answers, r, after)
    ensures Called(cfg, s, t, s', AfterReuse(s.pcs[t].job, s.pcs[t].gate, r), after)
  {
    var tag := s.pcs[t].job.tag;
    if !answers {
      s' := UnansweredTakesSteps(cfg, s, t, before);
    } else {
      LookTakesSteps(cfg, s, t);
      var b := Stepped(s, s.records, Reusing(t, Found(s, tag)), s.pcs, s.acquired);
      if tag in s.tags {
        if Mismatch(s, s.pcs[t].job, s.tags[tag]) {
          s' := MismatchTakesSteps(cfg, s, t, b, before);
        } else {
          s' := AdoptTakesSteps(cfg, s, t, b, before, after);
        }
      } else if tag in s.records {
        s' := MissingTakesSteps(cfg, s, t, b, before, after);
      } else {
        WithoutNothing(before.records, {tag});
        s' := UnknownTakesSteps(cfg, s, t, b, before);
      }
    }
  }

  // ---------- Gates and reservations ----------

  /** The protocol's gates are the object's, with as many users. */
  ghost predicate ShowsGates(s: State, gates: map<Ref, C.Users>) {
    && (forall ref :: ref in s.gates <==> ref in gates)
    && (forall ref | ref in gates :: s.gates[ref].users == gates[ref].count)
  }

  function Counted(s: State, gates: map<Ref, Gate>, nextGate: GateId, reservations: map<ImageId, nat>,
                   pcs: map<Tid, Pc>): State
  {
    State(s.tags, s.ctrs, s.now, s.records, s.disk, s.reading, gates, reservations, s.lock, s.holders, nextGate, pcs,
          s.acquired, s.used, s.pulls)
  }

  lemma Joins(s: State, t: Tid) returns (s': State)
    requires s.lock.Unlocked? && At(s, t) && s.pcs[t].EnterGate? && s.pcs[t].job.tag in s.gates
    ensures GateStep(s, t, Register, s')
    ensures var g := s.gates[s.pcs[t].job.tag]; s'.gates == s.gates[s.pcs[t].job.tag := Gate(g.gate, g.users + 1)]
  {
    var job, g := s.pcs[t].job, s.gates[s.pcs[t].job.tag];
    s' := Counted(s, s.gates[job.tag := Gate(g.gate, g.users + 1)], s.nextGate, s.reservations,
                  s.pcs[t := AwaitGate(job, g.gate)]);
  }

  lemma Opens(s: State, t: Tid) returns (s': State)
    requires s.lock.Unlocked? && At(s, t) && s.pcs[t].EnterGate? && s.pcs[t].job.tag !in s.gates
    ensures GateStep(s, t, Register, s')
    ensures s'.gates == s.gates[s.pcs[t].job.tag := Gate(s.nextGate, 1)]
  {
    var job := s.pcs[t].job;
    s' := Counted(s, s.gates[job.tag := Gate(s.nextGate, 1)], s.nextGate + 1, s.reservations,
                  s.pcs[t := AwaitGate(job, s.nextGate)]);
  }

  lemma Leaves(s: State, t: Tid) returns (s': State)
    requires s.lock.Unlocked? && At(s, t) && s.pcs[t].LeaveGate? && s.pcs[t].job.tag in s.gates
    ensures GateStep(s, t, Leave, s')
    ensures var tag := s.pcs[t].job.tag;
            s'.gates == if s.gates[tag].users > 1 then s.gates[tag := Gate(s.pcs[t].gate, s.gates[tag].users - 1)]
                        else s.gates - {tag}
  {
    var tag := s.pcs[t].job.tag;
    var left := if s.gates[tag].users > 1 then s.gates[tag := Gate(s.pcs[t].gate, s.gates[tag].users - 1)]
                else s.gates - {tag};
    s' := Counted(s, left, s.nextGate, s.reservations, s.pcs - {t});
  }

  /** `building`, entry */
  lemma EnterTakesAStep(cfg: Config, s: State, t: Tid, gates: map<Ref, C.Users>, gate: C.Mutex) returns (s': State)
    requires s.lock.Unlocked? && At(s, t) && s.pcs[t].EnterGate? && ShowsGates(s, gates)
    ensures Next(cfg, s, Gating(t, Register), s')
    ensures var tag := s.pcs[t].job.tag;
            ShowsGates(s', gates[tag := C.Users(gate, 1 + if tag in gates then gates[tag].count else 0)])
  {
    if s.pcs[t].job.tag in s.gates {
      s' := Joins(s, t);
    } else {
      s' := Opens(s, t);
    }
  }

  /** `building`, exit */
  lemma LeaveTakesAStep(cfg: Config, s: State, t: Tid, gates: map<Ref, C.Users>, gate: C.Mutex) returns (s': State)
    requires s.lock.Unlocked? && At(s, t) && s.pcs[t].LeaveGate? && ShowsGates(s, gates) && s.pcs[t].job.tag in gates
    ensures Next(cfg, s, Gating(t, Leave), s')
    ensures var tag := s.pcs[t].job.tag;
            ShowsGates(s', if gates[tag].count > 1 then gates[tag := C.Users(gate, gates[tag].count - 1)]
                           else gates - {tag})
  {
    s' := Leaves(s, t);
  }

  lemma Takes(s: State, t: Tid) returns (s': State)
    requires s.lock.Unlocked? && At(s, t) && s.pcs[t].ReserveImage?
    ensures SameImages(s, s') && UseStep(s, t, Reserve, s')
  {
    var ref, id := s.pcs[t].ref, s.pcs[t].id;
    var count := if id in s.reservations then s.reservations[id] else 0;
    s' := Counted(s, s.gates, s.nextGate, s.reservations[id := count + 1],
                  s.pcs[t := CreateCtr(ref, id, Resolve(s, ref) == Some(id))]);
  }

  lemma Releases(s: State, t: Tid) returns (s': State)
    requires s.lock.Unlocked? && At(s, t) && s.pcs[t].Unreserve? && s.pcs[t].id in s.reservations
    ensures SameImages(s, s') && UseStep(s, t, EndReserve, s')
  {
    var id := s.pcs[t].id;
    var left := if s.reservations[id] > 1 then s.reservations[id := s.reservations[id] - 1] else s.reservations - {id};
    s' := Counted(s, s.gates, s.nextGate, left, s.pcs - {t});
  }

  /** `reserve`, entry */
  lemma ReserveTakesAStep(cfg: Config, s: State, t: Tid) returns (s': State)
    requires s.lock.Unlocked? && At(s, t) && s.pcs[t].ReserveImage?
    ensures Next(cfg, s, Creating(t, Reserve), s')
    ensures var id := s.pcs[t].id;
            s'.reservations == s.reservations[id := 1 + if id in s.reservations then s.reservations[id] else 0]
  {
    s' := Takes(s, t);
  }

  /** `reserve`, exit */
  lemma UnreserveTakesAStep(cfg: Config, s: State, t: Tid) returns (s': State)
    requires s.lock.Unlocked? && At(s, t) && s.pcs[t].Unreserve? && s.pcs[t].id in s.reservations
    ensures Next(cfg, s, Creating(t, EndReserve), s')
    ensures var id := s.pcs[t].id;
            s'.reservations == if s.reservations[id] > 1 then s.reservations[id := s.reservations[id] - 1]
                               else s.reservations - {id}
  {
    s' := Releases(s, t);
  }

  // ---------- The kinds of steps of a collection ----------

  lemma Waits(cfg: Config, s: State, t: Tid, a: State, now: Time)
    requires Reaches(cfg, s, t, a) && a.now <= now
    ensures Reaches(cfg, s, t, Mid(a, now, a.tags, a.records, a.disk, a.reading, a.lock))
  {
    GoesOn(cfg, s, t, a, Tick(now - a.now), Mid(a, now, a.tags, a.records, a.disk, a.reading, a.lock));
  }

  ghost predicate Scans(cfg: Config, s: State, t: Tid, gc: Collection) {
    At(s, t) && Collecting(s.pcs[t]) && s.lock == Scanning(t, gc) && !Stopping(cfg, gc)
  }

  function Locked(a: State, lock: Lock): State {
    Mid(a, a.now, a.tags, a.records, a.disk, a.reading, lock)
  }

  lemma Skips(cfg: Config, s: State, t: Tid, a: State, gc: Collection)
    requires Reaches(cfg, s, t, a) && Scans(cfg, a, t, gc) && Skipped(cfg, a, gc.todo[0])
    ensures Reaches(cfg, s, t, Locked(a, Scanning(t, Tail(gc))))
  {
    GoesOn(cfg, s, t, a, Gc(t, GcSkip), Locked(a, Scanning(t, Tail(gc))));
  }

  lemma InspectsInVain(cfg: Config, s: State, t: Tid, a: State, gc: Collection)
    requires Reaches(cfg, s, t, a) && Scans(cfg, a, t, gc) && !Skipped(cfg, a, gc.todo[0])
    ensures Reaches(cfg, s, t, Locked(a, Scanning(t, Tail(gc))))
  {
    GoesOn(cfg, s, t, a, Gc(t, GcInspect(false)), Locked(a, Scanning(t, Tail(gc))));
  }

  lemma InspectsActive(cfg: Config, s: State, t: Tid, a: State, gc: Collection)
    requires Reaches(cfg, s, t, a) && Scans(cfg, a, t, gc) && !Skipped(cfg, a, gc.todo[0])
    requires Resolve(a, gc.todo[0].reference) == Some(gc.todo[0].imageId) && gc.todo[0].imageId in gc.active
    ensures Reaches(cfg, s, t, Locked(a, Scanning(t, Tail(gc))))
  {
    GoesOn(cfg, s, t, a, Gc(t, GcInspect(true)), Locked(a, Scanning(t, Tail(gc))));
  }

  lemma InspectsIdle(cfg: Config, s: State, t: Tid, a: State, gc: Collection)
    requires Reaches(cfg, s, t, a) && Scans(cfg, a, t, gc) && !Skipped(cfg, a, gc.todo[0])
    requires Resolve(a, gc.todo[0].reference) == Some(gc.todo[0].imageId) && gc.todo[0].imageId !in gc.active
    ensures Reaches(cfg, s, t, Locked(a, Deleting(t, gc, |PulledFor(a, gc.todo[0].reference)|)))
  {
    GoesOn(cfg, s, t, a, Gc(t, GcInspect(true)), Locked(a, Deleting(t, gc, |PulledFor(a, gc.todo[0].reference)|)));
  }

  lemma CannotDelete(cfg: Config, s: State, t: Tid, a: State, gc: Collection, epoch: nat)
    requires Reaches(cfg, s, t, a) && At(a, t) && Collecting(a.pcs[t])
    requires a.lock == Deleting(t, gc, epoch) && gc.todo != []
    ensures Reaches(cfg, s, t, Locked(a, Scanning(t, Tail(gc))))
  {
    GoesOn(cfg, s, t, a, Gc(t, GcDelete(false)), Locked(a, Scanning(t, Tail(gc))));
  }

  lemma Deletes(cfg: Config, s: State, t: Tid, a: State, gc: Collection, epoch: nat)
    requires Reaches(cfg, s, t, a) && At(a, t) && Collecting(a.pcs[t])
    requires a.lock == Deleting(t, gc, epoch) && gc.todo != []
    ensures Reaches(cfg, s, t, Mid(a, a.now, a.tags - {gc.todo[0].reference}, a.records, a.disk, a.reading,
                                   Forgetting(t, gc)))
  {
    GoesOn(cfg, s, t, a, Gc(t, GcDelete(true)),
           Mid(a, a.now, a.tags - {gc.todo[0].reference}, a.records, a.disk, a.reading, Forgetting(t, gc)));
  }

  /** A record is dropped in memory, which is saved next. */
  function Dropping(a: State, t: Tid, gc: Collection, counted: bool): State
    requires gc.todo != []
  {
    Mid(a, a.now, a.tags, a.records - {gc.todo[0].reference}, a.disk, a.reading, Flushing(t, gc, a.records, counted))
  }

  lemma InspectsStale(cfg: Config, s: State, t: Tid, a: State, gc: Collection)
    requires Reaches(cfg, s, t, a) && Scans(cfg, a, t, gc) && !Skipped(cfg, a, gc.todo[0])
    requires Resolve(a, gc.todo[0].reference) != Some(gc.todo[0].imageId)
    ensures Reaches(cfg, s, t, Dropping(a, t, gc, false))
  {
    GoesOn(cfg, s, t, a, Gc(t, GcInspect(true)), Dropping(a, t, gc, false));
  }

  lemma Drops(cfg: Config, s: State, t: Tid, a: State, gc: Collection)
    requires Reaches(cfg, s, t, a) && At(a, t) && Collecting(a.pcs[t]) && a.lock == Forgetting(t, gc) && gc.todo != []
    ensures Reaches(cfg, s, t, Dropping(a, t, gc, true))
  {
    GoesOn(cfg, s, t, a, Gc(t, GcDrop), Dropping(a, t, gc, true));
  }

  lemma Flushes(cfg: Config, s: State, t: Tid, a: State, gc: Collection, before: Records, counted: bool,
                reading: Option<int>)
    requires Reaches(cfg, s, t, a) && At(a, t) && Collecting(a.pcs[t]) && gc.todo != []
    requires a.lock == Flushing(t, gc, before, counted)
    ensures Reaches(cfg, s, t, Mid(a, a.now, a.tags, a.records, a.records, Replaced(a.reading),
                                   Scanning(t, Visited(gc, counted, reading))))
  {
    GoesOn(cfg, s, t, a, Gc(t, GcFlush(reading)),
           Mid(a, a.now, a.tags, a.records, a.records, Replaced(a.reading),
               Scanning(t, Visited(gc, counted, reading))));
  }

  /** The state once the head of the list is dropped, or removed, and that is saved. */
  function Dropped(a: State, t: Tid, gc: Collection): State
    requires gc.todo != []
  {
    var left := a.records - {gc.todo[0].reference};
    Mid(a, a.now, a.tags, left, left, Replaced(a.reading), Scanning(t, Tail(gc)))
  }

  function Removed(a: State, t: Tid, gc: Collection, reading: Option<int>): State
    requires gc.todo != []
  {
    var left := a.records - {gc.todo[0].reference};
    Mid(a, a.now, a.tags - {gc.todo[0].reference}, left, left, Replaced(a.reading),
        Scanning(t, Visited(gc, true, reading)))
  }

  lemma DropsStale(cfg: Config, s: State, t: Tid, a: State, gc: Collection)
    requires Reaches(cfg, s, t, a) && Scans(cfg, a, t, gc) && !Skipped(cfg, a, gc.todo[0])
    requires Resolve(a, gc.todo[0].reference) != Some(gc.todo[0].imageId)
    ensures Reaches(cfg, s, t, Dropped(a, t, gc))
  {
    InspectsStale(cfg, s, t, a, gc);
    Flushes(cfg, s, t, Dropping(a, t, gc, false), gc, a.records, false, None);
  }

  lemma RemovesIdle(cfg: Config, s: State, t: Tid, a: State, gc: Collection, reading: Option<int>)
    requires Reaches(cfg, s, t, a) && Scans(cfg, a, t, gc) && !Skipped(cfg, a, gc.todo[0])
    requires Resolve(a, gc.todo[0].reference) == Some(gc.todo[0].imageId) && gc.todo[0].imageId !in gc.active
    ensures Reaches(cfg, s, t, Removed(a, t, gc, reading))
  {
    var epoch := |PulledFor(a, gc.todo[0].reference)|;
    InspectsIdle(cfg, s, t, a, gc);
    Deletes(cfg, s, t, Locked(a, Deleting(t, gc, epoch)), gc, epoch);
    var b := Mid(a, a.now, a.tags - {gc.todo[0].reference}, a.records, a.disk, a.reading, Forgetting(t, gc));
    Drops(cfg, s, t, b, gc);
    Flushes(cfg, s, t, Dropping(b, t, gc, true), gc, a.records, true, reading);
  }

  // ---------- A whole collection ----------

  /** What the protocol's collector holds after `n` records. */
  function GcOf(p: P.Pass, n: nat, listed: set<CtrId>): Collection
    requires n <= |p.visits|
  {
    var removed := P.Eligible(p, n);
    Collection(p.visits[n..], p.active, listed, P.Free(p, |removed|), p.emergency && removed == [], removed)
  }

  /** The state after `n` records, at instant `now`. */
  function Scan(s: State, t: Tid, p: P.Pass, n: nat, now: Time): State
    requires n <= |p.visits|
  {
    var gone := P.Gone(p, n);
    Mid(s, now, P.Left(p, n), s.records - gone,
        if gone == {} then s.disk else s.records - gone, if gone == {} then s.reading else Replaced(s.reading),
        Scanning(t, GcOf(p, n, s.ctrs.Keys)))
  }

  /** A pass over what the state shows. */
  ghost predicate PassOver(cfg: Config, s: State, t: Tid, p: P.Pass) {
    && At(s, t) && Collecting(s.pcs[t])
    && Orders(p.visits, s.records) && p.tags == s.tags && p.gated == s.gates.Keys && p.active == ActiveImages(s)
    && p.minAge == cfg.minAge && p.target == cfg.targetFree && p.emergency == Emergency(s.pcs[t])
    && (forall i, j | 0 <= i <= j :: s.now <= p.clock(i) <= p.clock(j))
  }

  lemma NextIsFresh(p: P.Pass, n: nat)
    requires n < |p.visits| && DistinctReferences(p.visits)
    ensures p.visits[n].reference !in P.Eligible(p, n)
    ensures GcOf(p, n, {}).todo != [] && GcOf(p, n, {}).todo[0] == p.visits[n]
    ensures p.visits[n..][1..] == p.visits[n + 1..]
  {
    P.EligibleAt(p, n, p.visits[n].reference);
  }

  lemma KeepTakesSteps(cfg: Config, s0: State, s: State, t: Tid, p: P.Pass, n: nat)
    requires PassOver(cfg, s, t, p) && n < |p.visits| && !P.Enough(p, |P.Eligible(p, n)|) && P.Judge(p, n).Keep?
    requires Reaches(cfg, s0, t, Scan(s, t, p, n, p.clock(n)))
    ensures Reaches(cfg, s0, t, Scan(s, t, p, n + 1, p.clock(n)))
  {
    NextIsFresh(p, n);
    P.LeftNext(p, n);
    var a, gc, r := Scan(s, t, p, n, p.clock(n)), GcOf(p, n, s.ctrs.Keys), p.visits[n];
    assert Locked(a, Scanning(t, Tail(gc))) == Scan(s, t, p, n + 1, p.clock(n));
    if Skipped(cfg, a, r) {
      Skips(cfg, s0, t, a, gc);
    } else if r.reference in p.uninspectable {
      InspectsInVain(cfg, s0, t, a, gc);
    } else if r.imageId in p.active {
      InspectsActive(cfg, s0, t, a, gc);
    } else {
      InspectsIdle(cfg, s0, t, a, gc);
      var epoch := |PulledFor(a, r.reference)|;
      CannotDelete(cfg, s0, t, Locked(a, Deleting(t, gc, epoch)), gc, epoch);
    }
  }

  lemma DroppedIs(s: State, t: Tid, p: P.Pass, n: nat, now: Time)
    requires n < |p.visits| && P.Judge(p, n).Drop?
    ensures Dropped(Scan(s, t, p, n, now), t, GcOf(p, n, s.ctrs.Keys)) == Scan(s, t, p, n + 1, now)
  {
    var ref := p.visits[n].reference;
    P.LeftNext(p, n);
    assert s.records - P.Gone(p, n) - {ref} == s.records - P.Gone(p, n + 1);
    assert p.visits[n..][1..] == p.visits[n + 1..];
  }

  lemma VisitedIs(p: P.Pass, n: nat, listed: set<CtrId>)
    requires n < |p.visits| && P.Judge(p, n).Remove?
    ensures Visited(GcOf(p, n, listed), true, p.readings(|P.Eligible(p, n)| + 1)) == GcOf(p, n + 1, listed)
  {
    assert p.visits[n..][1..] == p.visits[n + 1..];
  }

  lemma RemovedIs(s: State, t: Tid, p: P.Pass, n: nat, now: Time)
    requires n < |p.visits| && P.Judge(p, n).Remove?
    ensures var reading := p.readings(|P.Eligible(p, n)| + 1);
            Removed(Scan(s, t, p, n, now), t, GcOf(p, n, s.ctrs.Keys), reading) == Scan(s, t, p, n + 1, now)
  {
    VisitedIs(p, n, s.ctrs.Keys);
    P.LeftNext(p, n);
    assert s.records - P.Gone(p, n) - {p.visits[n].reference} == s.records - P.Gone(p, n + 1);
  }

  lemma DropTakesSteps(cfg: Config, s0: State, s: State, t: Tid, p: P.Pass, n: nat)
    requires PassOver(cfg, s, t, p) && n < |p.visits| && !P.Enough(p, |P.Eligible(p, n)|) && P.Judge(p, n).Drop?
    requires Reaches(cfg, s0, t, Scan(s, t, p, n, p.clock(n)))
    ensures Reaches(cfg, s0, t, Scan(s, t, p, n + 1, p.clock(n)))
  {
    NextIsFresh(p, n);
    DropsStale(cfg, s0, t, Scan(s, t, p, n, p.clock(n)), GcOf(p, n, s.ctrs.Keys));
    DroppedIs(s, t, p, n, p.clock(n));
  }

  lemma RemoveTakesSteps(cfg: Config, s0: State, s: State, t: Tid, p: P.Pass, n: nat)
    requires PassOver(cfg, s, t, p) && n < |p.visits| && !P.Enough(p, |P.Eligible(p, n)|) && P.Judge(p, n).Remove?
    requires Reaches(cfg, s0, t, Scan(s, t, p, n, p.clock(n)))
    ensures Reaches(cfg, s0, t, Scan(s, t, p, n + 1, p.clock(n)))
  {
    NextIsFresh(p, n);
    RemovesIdle(cfg, s0, t, Scan(s, t, p, n, p.clock(n)), GcOf(p, n, s.ctrs.Keys), p.readings(|P.Eligible(p, n)| + 1));
    RemovedIs(s, t, p, n, p.clock(n));
  }

  /** ... at the instant the last of them was looked at. */
  function ScanAt(s: State, t: Tid, p: P.Pass, n: nat): State
    requires n <= |p.visits|
  {
    Scan(s, t, p, n, if n == 0 then s.now else p.clock(n - 1))
  }

  /** One turn of the loop. */
  lemma TurnTakesSteps(cfg: Config, s0: State, s: State, t: Tid, p: P.Pass, n: nat)
    requires PassOver(cfg, s, t, p) && n < |p.visits| && !P.Enough(p, |P.Eligible(p, n)|)
    requires Reaches(cfg, s0, t, ScanAt(s, t, p, n))
    ensures Reaches(cfg, s0, t, ScanAt(s, t, p, n + 1))
  {
    Waits(cfg, s0, t, ScanAt(s, t, p, n), p.clock(n));
    var verdict := P.Judge(p, n);
    if verdict.Keep? {
      KeepTakesSteps(cfg, s0, s, t, p, n);
    } else if verdict.Drop? {
      DropTakesSteps(cfg, s0, s, t, p, n);
    } else {
      RemoveTakesSteps(cfg, s0, s, t, p, n);
    }
  }

  /** The loop, record by record. */
  lemma LoopTakesSteps(cfg: Config, s0: State, s: State, t: Tid, p: P.Pass, n: nat)
    requires PassOver(cfg, s, t, p) && n <= |p.visits| && forall k | 0 <= k < n :: !P.Enough(p, |P.Eligible(p, k)|)
    requires Reaches(cfg, s0, t, ScanAt(s, t, p, 0))
    ensures Reaches(cfg, s0, t, ScanAt(s, t, p, n))
  {
    forall k | 0 <= k < n && Reaches(cfg, s0, t, ScanAt(s, t, p, k))
      ensures Reaches(cfg, s0, t, ScanAt(s, t, p, k + 1))
    {
      TurnTakesSteps(cfg, s0, s, t, p, k);
    }
    Persists(k => 0 <= k <= |p.visits| && Reaches(cfg, s0, t, ScanAt(s, t, p, k)), 0, n);
  }

  // ---------- collect_if_needed ----------

  /** The thread has returned from its collection; only it and what a collection works on have changed. */
  ghost predicate Returned(s: State, t: Tid, s': State)
    requires At(s, t) && Collecting(s.pcs[t])
  {
    && s'.lock.Unlocked? && s'.pcs == Moved(s.pcs, t, AfterGc(s.pcs[t])) && SameTables(s, s')
  }

  function Ended(s: State, t: Tid, a: State): State
    requires At(s, t) && Collecting(s.pcs[t])
  {
    State(a.tags, s.ctrs, a.now, a.records, a.disk, a.reading, s.gates, s.reservations, Unlocked, s.holders, s.nextGate,
          Moved(s.pcs, t, AfterGc(s.pcs[t])), s.acquired, s.used, s.pulls)
  }

  lemma EndsAtOnce(cfg: Config, s: State, t: Tid, reading: Option<int>)
    requires s.lock.Unlocked? && At(s, t) && Collecting(s.pcs[t])
    requires s.records == map[] || reading.None? || (!Emergency(s.pcs[t]) && reading.value >= cfg.minFree)
    ensures Reaches(cfg, s, t, Ended(s, t, s))
  {
    Stays(cfg, s, t);
    GoesOn(cfg, s, t, s, Gc(t, GcBegin(reading)), Ended(s, t, s));
  }

  lemma ComesToList(cfg: Config, s: State, t: Tid, free: int)
    requires s.lock.Unlocked? && At(s, t) && Collecting(s.pcs[t])
    requires s.records != map[] && (Emergency(s.pcs[t]) || free < cfg.minFree)
    ensures Reaches(cfg, s, t, Locked(s, Listing(t, free)))
  {
    Stays(cfg, s, t);
    GoesOn(cfg, s, t, s, Gc(t, GcBegin(Some(free))), Locked(s, Listing(t, free)));
  }

  lemma CannotList(cfg: Config, s: State, t: Tid, free: int)
    requires s.lock.Unlocked? && At(s, t) && Collecting(s.pcs[t])
    requires Reaches(cfg, s, t, Locked(s, Listing(t, free)))
    ensures Reaches(cfg, s, t, Ended(s, t, s))
  {
    GoesOn(cfg, s, t, Locked(s, Listing(t, free)), Gc(t, GcList(false, [])), Ended(s, t, s));
  }

  lemma NotNeededTakesSteps(cfg: Config, s: State, t: Tid, images: Images, w: C.World)
    requires s.lock.Unlocked? && At(s, t) && Collecting(s.pcs[t]) && s.records == images.entry
    requires !(|images.order| > 0 && w.first.Some? && (Emergency(s.pcs[t]) || w.first.value < cfg.minFree) && w.listed)
    ensures Reaches(cfg, s, t, Ended(s, t, s))
  {
    EmptyInventory(images);
    if s.records == map[] || w.first.None? || (!Emergency(s.pcs[t]) && w.first.value >= cfg.minFree) {
      EndsAtOnce(cfg, s, t, w.first);
    } else {
      ComesToList(cfg, s, t, w.first.value);
      CannotList(cfg, s, t, w.first.value);
    }
  }

  lemma StartTakesSteps(cfg: Config, s: State, t: Tid, p: P.Pass)
    requires s.lock.Unlocked? && PassOver(cfg, s, t, p) && s.records != map[] && (p.emergency || p.first < cfg.minFree)
    ensures Reaches(cfg, s, t, ScanAt(s, t, p, 0))
  {
    var a := Locked(s, Listing(t, p.first));
    ComesToList(cfg, s, t, p.first);
    assert p.visits[0..] == p.visits;
    assert P.Left(p, 0) == p.tags && s.records - P.Gone(p, 0) == s.records;
    assert ActiveImages(a) == p.active;
    GoesOn(cfg, s, t, a, Gc(t, GcList(true, p.visits)), Scan(s, t, p, 0, s.now));
  }

  lemma StopTakesSteps(cfg: Config, s: State, t: Tid, p: P.Pass, n: nat)
    requires PassOver(cfg, s, t, p) && P.StopsAt(p, n) && Reaches(cfg, s, t, ScanAt(s, t, p, n))
    ensures Reaches(cfg, s, t, Ended(s, t, ScanAt(s, t, p, n)))
  {
    GoesOn(cfg, s, t, ScanAt(s, t, p, n), Gc(t, GcStop), Ended(s, t, ScanAt(s, t, p, n)));
  }

  lemma EndShows(s: State, t: Tid, p: P.Pass, n: nat, before: C.Stock, after: C.Stock)
    requires At(s, t) && Collecting(s.pcs[t]) && n <= |p.visits| && Shows(s, before) && p.tags == s.tags
    requires C.Reached(p, before.records, before.file, n, after.tags, after.records, after.file)
    ensures Shows(Ended(s, t, ScanAt(s, t, p, n)), after)
  {
    LoadAfterSave(after.records);
  }

  lemma PassTakesSteps(cfg: Config, s: State, t: Tid, p: P.Pass, n: nat)
    requires s.lock.Unlocked? && PassOver(cfg, s, t, p) && s.records != map[] && (p.emergency || p.first < cfg.minFree)
    requires P.StopsAt(p, n)
    ensures Reaches(cfg, s, t, Ended(s, t, ScanAt(s, t, p, n)))
  {
    StartTakesSteps(cfg, s, t, p);
    LoopTakesSteps(cfg, s, s, t, p, n);
    StopTakesSteps(cfg, s, t, p, n);
  }

  lemma NeededTakesSteps(cfg: Config, s: State, t: Tid, p: P.Pass, n: nat, before: C.Stock, after: C.Stock)
    requires s.lock.Unlocked? && PassOver(cfg, s, t, p) && Shows(s, before)
    requires |before.records.order| > 0 && (p.emergency || p.first < cfg.minFree) && P.StopsAt(p, n)
    requires C.Reached(p, before.records, before.file, n, after.tags, after.records, after.file)
    ensures var s' := Ended(s, t, ScanAt(s, t, p, n));
            && Reaches(cfg, s, t, s') && Returned(s, t, s') && Shows(s', after)
            && s'.now == if n == 0 then s.now else p.clock(n - 1)
  {
    EmptyInventory(before.records);
    PassTakesSteps(cfg, s, t, p, n);
    EndShows(s, t, p, n, before, after);
  }

  lemma PassIsOver(cfg: Config, cache: C.Cache, s: State, t: Tid, before: C.Stock, first: int, w: C.World)
    requires At(s, t) && Collecting(s.pcs[t]) && Shows(s, before)
    requires cache.minAge == cfg.minAge && cache.targetFree == cfg.targetFree
    requires forall i, j | 0 <= i <= j :: s.now <= w.clock(i) <= w.clock(j)
    ensures PassOver(cfg, s, t, cache.PassOf(before, ActiveImages(s), s.gates.Keys, first, Emergency(s.pcs[t]), w))
  {
    C.VisitsOrderTheRecords(before.records);
  }

  /** The protocol's active images are those that containers and reservations name. */
  lemma ActiveImagesMeans(s: State, containers: seq<ImageId>, reservations: map<ImageId, nat>)
    requires s.reservations == reservations
    requires forall id :: id in containers <==> exists c :: c in s.ctrs && s.ctrs[c].image == id
    ensures forall id :: id in ActiveImages(s) <==> id in containers || id in reservations
  {
  }

  lemma CollectionIsARun(cfg: Config, cache: C.Cache, s: State, t: Tid, before: C.Stock, w: C.World,
                         removed: seq<Ref>, after: C.Stock)
    returns (s': State)
    requires s.lock.Unlocked? && At(s, t) && Collecting(s.pcs[t]) && Shows(s, before)
    requires cache.minAge == cfg.minAge && cache.minFree == cfg.minFree && cache.targetFree == cfg.targetFree
    requires forall i, j | 0 <= i <= j :: s.now <= w.clock(i) <= w.clock(j)
    requires cache.Collected(before, ActiveImages(s), s.gates.Keys, Emergency(s.pcs[t]), w, removed, after)
    ensures Reaches(cfg, s, t, s') && Returned(s, t, s') && Shows(s', after)
    ensures s'.now == s.now || exists k: nat :: s'.now == w.clock(k)
  {
    if !cache.Needed(before.records, Emergency(s.pcs[t]), w) {
      NotNeededTakesSteps(cfg, s, t, before.records, w);
      s' := Ended(s, t, s);
    } else {
      var p := cache.PassOf(before, ActiveImages(s), s.gates.Keys, w.first.value, Emergency(s.pcs[t]), w);
      var n: nat :| P.StopsAt(p, n) && removed == P.Eligible(p, n)
                    && C.Reached(p, before.records, before.file, n, after.tags, after.records, after.file);
      PassIsOver(cfg, cache, s, t, before, w.first.value, w);
      NeededTakesSteps(cfg, s, t, p, n, before, after);
      s' := Ended(s, t, ScanAt(s, t, p, n));
    }
  }

  /** `collect_if_needed` as the object does it is a run of the protocol by the one thread. */
  lemma CollectionTakesSteps(cfg: Config, cache: C.Cache, s: State, t: Tid, before: C.Stock, w: C.World,
                             containers: seq<ImageId>, reservations: map<ImageId, nat>, removed: seq<Ref>,
                             after: C.Stock)
    requires s.lock.Unlocked? && At(s, t) && Collecting(s.pcs[t]) && Shows(s, before)
    requires cache.minAge == cfg.minAge && cache.minFree == cfg.minFree && cache.targetFree == cfg.targetFree
    requires forall i, j | 0 <= i <= j :: s.now <= w.clock(i) <= w.clock(j)
    requires s.reservations == reservations
    requires forall id :: id in containers <==> exists c :: c in s.ctrs && s.ctrs[c].image == id
    requires forall active: set<ImageId> | (forall id :: id in active <==> id in containers || id in reservations) ::
               cache.Collected(before, active, s.gates.Keys, Emergency(s.pcs[t]), w, removed, after)
    ensures exists s' :: Reaches(cfg, s, t, s') && Returned(s, t, s') && Shows(s', after)
  {
    ActiveImagesMeans(s, containers, reservations);
    assert cache.Collected(before, ActiveImages(s), s.gates.Keys, Emergency(s.pcs[t]), w, removed, after);
    var _ := CollectionIsARun(cfg, cache, s, t, before, w, removed, after);
  }
}
