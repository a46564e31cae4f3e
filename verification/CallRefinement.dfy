/** Whole calls of the runtime are runs of the protocol.

`DockerRuntime` says what a call does to Docker, the records and the file, its collections and its
second attempt included; each lemma here takes what the call's contract says and gives a run of the
protocol, by one thread, from the call's first program counter to its last. */
module CallRefinement {
  import opened OrderedDict
  import opened Inventory
  import opened CacheKey
  import opened CacheProtocol
  import opened CacheSteps
  import opened CacheRefinement
  import C = ImageCache
  import D = DockerRuntime

  // ---------- Runs, one after another ----------

  lemma Follows(cfg: Config, s: State, t: Tid, a: State, b: State)
    requires Reaches(cfg, s, t, a) && Reaches(cfg, a, t, b)
    ensures Reaches(cfg, s, t, b)
  {
    var ss: seq<State>, steps: seq<Step> :| Path(cfg, ss, steps, t) && ss[0] == s && ss[|steps|] == a;
    var ss': seq<State>, steps': seq<Step> :| Path(cfg, ss', steps', t) && ss'[0] == a && ss'[|steps'|] == b;
    Joined(cfg, ss, steps, ss', steps', t);
    assert (ss + ss'[1..])[0] == s;
    assert (ss + ss'[1..])[|steps + steps'|] == b;
  }

  lemma Joined(cfg: Config, ss: seq<State>, steps: seq<Step>, ss': seq<State>, steps': seq<Step>, t: Tid)
    requires Path(cfg, ss, steps, t) && Path(cfg, ss', steps', t) && ss[|steps|] == ss'[0]
    ensures Path(cfg, ss + ss'[1..], steps + steps', t)
  {
    var all, moves := ss + ss'[1..], steps + steps';
    forall i | 0 <= i < |moves|
      ensures Next(cfg, all[i], moves[i], all[i + 1]) && (moves[i].Tick? || Moves(moves[i], t))
    {
      if i < |steps| {
        assert all[i] == ss[i] && all[i + 1] == ss[i + 1] && moves[i] == steps[i];
      } else {
        var k := i - |steps|;
        assert all[i] == ss'[k] && all[i + 1] == ss'[k + 1] && moves[i] == steps'[k];
      }
    }
  }

  function Later(s: State, now: Time): State {
    Mid(s, now, s.tags, s.records, s.disk, s.reading, s.lock)
  }

  lemma Passes(cfg: Config, s: State, t: Tid, now: Time)
    requires s.now <= now
    ensures Reaches(cfg, s, t, Later(s, now))
  {
    Stays(cfg, s, t);
    Waits(cfg, s, t, s, now);
  }

  /** The clock as a call reads it: in the first collection, in the second, and last at `now`. */
  ghost predicate InOrder(from: Time, w1: C.World, w2: C.World, now: Time) {
    && (forall i, j | 0 <= i <= j :: from <= w1.clock(i) <= w1.clock(j))
    && (forall i: nat, j: nat :: w1.clock(i) <= w2.clock(j))
    && (forall i, j | 0 <= i <= j :: w2.clock(i) <= w2.clock(j) <= now)
  }

  /** The thread has gone on to `next`, or ended, with the lock free and the tables as they were. */
  ghost predicate Goes(cfg: Config, s: State, t: Tid, s': State, next: Option<Pc>, c: C.Stock) {
    && Reaches(cfg, s, t, s') && s'.lock.Unlocked? && s'.pcs == Moved(s.pcs, t, next) && Shows(s', c)
    && SameTables(s, s')
  }

  lemma GoesThrough(cfg: Config, s: State, t: Tid, a: State, b: State, pc: Pc, next: Option<Pc>, c: C.Stock, d: C.Stock)
    requires Goes(cfg, s, t, a, Some(pc), c) && Goes(cfg, a, t, b, next, d)
    ensures Goes(cfg, s, t, b, next, d)
  {
    Follows(cfg, s, t, a, b);
    assert s.pcs[t := pc] - {t} == s.pcs - {t};
  }

  // ---------- Collections ----------

  ghost predicate SameSettings(cfg: Config, cache: C.Cache) {
    cache.minAge == cfg.minAge && cache.minFree == cfg.minFree && cache.targetFree == cfg.targetFree
  }

  lemma Collects(cfg: Config, cache: C.Cache, s: State, t: Tid, active: set<ImageId>, before: C.Stock, w: C.World,
                 removed: seq<Ref>, after: C.Stock) returns (s': State)
    requires s.lock.Unlocked? && At(s, t) && Collecting(s.pcs[t]) && Shows(s, before) && SameSettings(cfg, cache)
    requires forall i, j | 0 <= i <= j :: s.now <= w.clock(i) <= w.clock(j)
    requires active == ActiveImages(s)
    requires cache.Collected(before, active, s.gates.Keys, Emergency(s.pcs[t]), w, removed, after)
    ensures Goes(cfg, s, t, s', AfterGc(s.pcs[t]), after) && ActiveImages(s') == active
    ensures s'.now == s.now || exists k: nat :: s'.now == w.clock(k)
  {
    s' := CollectionIsARun(cfg, cache, s, t, before, w, removed, after);
  }

  // ---------- One attempt to build ----------

  lemma Builds(cfg: Config, s: State, t: Tid, image: Image, c: C.Stock) returns (s': State)
    requires s.lock.Unlocked? && At(s, t) && s.pcs[t].Build? && Shows(s, c)
    requires image.labels == BuiltLabels(cfg.brokerId, s.pcs[t].job.tag)
    ensures var pc := s.pcs[t];
            Goes(cfg, s, t, s', Some(RecordBuild(pc.job, pc.gate, image.id)), D.Put(c, pc.job.tag, image))
    ensures s'.now == s.now
  {
    var pc := s.pcs[t];
    var tag := pc.job.tag;
    s' := State(s.tags[tag := Image(image.id, BuiltLabels(cfg.brokerId, tag))], s.ctrs, s.now, s.records, s.disk,
                Drafted(s, tag, image.id), s.gates, s.reservations, s.lock, s.holders, s.nextGate,
                s.pcs[t := RecordBuild(pc.job, pc.gate, image.id)], s.acquired + {(tag, image.id)}, s.used, s.pulls);
    Stays(cfg, s, t);
    GoesOn(cfg, s, t, s, Building(t, BuildOk(image.id)), s');
  }

  lemma TablesGiveActive(s: State, s': State)
    requires SameTables(s, s')
    ensures ActiveImages(s') == ActiveImages(s)
  {
  }

  /** Only the thread has moved. */
  function Turned(s: State, t: Tid, next: Option<Pc>): State {
    s.(pcs := Moved(s.pcs, t, next))
  }

  lemma Turns(cfg: Config, s: State, t: Tid, step: Step, next: Option<Pc>, c: C.Stock)
    requires s.lock.Unlocked? && Shows(s, c) && Next(cfg, s, step, Turned(s, t, next)) && Moves(step, t)
    ensures Goes(cfg, s, t, Turned(s, t, next), next, c)
  {
    Stays(cfg, s, t);
    GoesOn(cfg, s, t, s, step, Turned(s, t, next));
  }

  lemma BuildFails(cfg: Config, s: State, t: Tid, full: bool, next: Pc, c: C.Stock) returns (s': State)
    requires s.lock.Unlocked? && At(s, t) && s.pcs[t].Build? && Shows(s, c)
    requires next == if full && !s.pcs[t].retried then BuildGc(s.pcs[t].job, s.pcs[t].gate, true)
                     else DropGate(s.pcs[t].job, s.pcs[t].gate)
    ensures Goes(cfg, s, t, s', Some(next), c) && s'.now == s.now
  {
    s' := Turned(s, t, Some(next));
    assert BuildStep(cfg, s, t, BuildFail(full), s');
    Turns(cfg, s, t, Building(t, BuildFail(full)), Some(next), c);
  }

  /** A build that succeeds, up to the end of its save. */
  lemma BuildsAndRecords(cfg: Config, s: State, t: Tid, image: Image, now: Time, c: C.Stock, after: C.Stock)
    returns (s': State)
    requires s.lock.Unlocked? && At(s, t) && s.pcs[t].Build? && Shows(s, c) && s.now <= now
    requires image.labels == BuiltLabels(cfg.brokerId, s.pcs[t].job.tag)
    requires D.RecordedAs(c, s.pcs[t].job.tag, image, Built, now, after)
    ensures Goes(cfg, s, t, s', Some(DropGate(s.pcs[t].job, s.pcs[t].gate)), after)
  {
    var pc := s.pcs[t];
    var made, next := D.Put(c, pc.job.tag, image), RecordBuild(pc.job, pc.gate, image.id);
    var a := Builds(cfg, s, t, image, c);
    Passes(cfg, a, t, now);
    var b := Later(a, now);
    var d := RecordTakesSteps(cfg, b, t, made, after);
    Follows(cfg, a, t, b, d);
    GoesThrough(cfg, s, t, a, d, next, Some(DropGate(pc.job, pc.gate)), made, after);
    s' := d;
  }

  // ---------- A whole build ----------

  /** A collection, and one attempt to build. */
  lemma TriesToBuild(cfg: Config, cache: C.Cache, s: State, t: Tid, attempt: D.Attempt, w: C.World, now: Time,
                     before: C.Stock, removed: seq<Ref>, cleared: C.Stock, after: C.Stock)
    returns (s': State)
    requires s.lock.Unlocked? && At(s, t) && s.pcs[t].BuildGc? && Shows(s, before) && SameSettings(cfg, cache)
    requires s.now <= now && forall i, j | 0 <= i <= j :: s.now <= w.clock(i) <= w.clock(j) <= now
    requires cache.Collected(before, ActiveImages(s), s.gates.Keys, s.pcs[t].emergency, w, removed, cleared)
    requires attempt.Made? ==> attempt.image.labels == BuiltLabels(cfg.brokerId, s.pcs[t].job.tag)
    requires if attempt.Made? then D.RecordedAs(cleared, s.pcs[t].job.tag, attempt.image, Built, now, after)
             else after == cleared
    ensures var pc := s.pcs[t];
            Goes(cfg, s, t, s', Some(if attempt.OutOfSpace? && !pc.emergency then BuildGc(pc.job, pc.gate, true)
                                     else DropGate(pc.job, pc.gate)), after)
    ensures attempt.Made? || s'.now == s.now || exists k: nat :: s'.now == w.clock(k)
  {
    var pc := s.pcs[t];
    var build := Build(pc.job, pc.gate, pc.emergency);
    var a := Collects(cfg, cache, s, t, ActiveImages(s), before, w, removed, cleared);
    var next := if attempt.OutOfSpace? && !pc.emergency then BuildGc(pc.job, pc.gate, true)
                else DropGate(pc.job, pc.gate);
    if attempt.Made? {
      s' := BuildsAndRecords(cfg, a, t, attempt.image, now, cleared, after);
    } else {
      s' := BuildFails(cfg, a, t, attempt.OutOfSpace?, next, cleared);
    }
    GoesThrough(cfg, s, t, a, s', build, Some(next), cleared, after);
  }

  /** `_build_and_record` */
  lemma BuildTakesSteps(cfg: Config, cache: C.Cache, s: State, t: Tid, first: D.Attempt, second: D.Attempt,
                        w1: C.World, w2: C.World, now: Time, before: C.Stock, trace: D.Trace, after: C.Stock)
    returns (s': State)
    requires s.lock.Unlocked? && At(s, t) && s.pcs[t].BuildGc? && !s.pcs[t].emergency && Shows(s, before)
    requires SameSettings(cfg, cache) && InOrder(s.now, w1, w2, now)
    requires D.Cleared(cache, ActiveImages(s), s.gates.Keys, first, w1, w2, before, trace)
    requires D.Obtained(first, second, s.pcs[t].job.tag, Built, now, trace.forced, after)
    requires forall a | a == first || a == second ::
               a.Made? ==> a.image.labels == BuiltLabels(cfg.brokerId, s.pcs[t].job.tag)
    ensures Goes(cfg, s, t, s', Some(DropGate(s.pcs[t].job, s.pcs[t].gate)), after)
  {
    var pc := s.pcs[t];
    var drop, again := DropGate(pc.job, pc.gate), BuildGc(pc.job, pc.gate, true);
    assert s.now <= w1.clock(0) <= w2.clock(0) <= now;
    assert forall i: nat :: w1.clock(i) <= w2.clock(0);
    s' := TriesToBuild(cfg, cache, s, t, first, w1, now, before, trace.gone, trace.cleared,
                       if first.Made? then after else trace.cleared);
    if first.OutOfSpace? {
      var a := s';
      assert a.now <= w2.clock(0);
      TablesGiveActive(s, a);
      s' := TriesToBuild(cfg, cache, a, t, second, w2, now, trace.cleared, trace.alsoGone, trace.forced, after);
      GoesThrough(cfg, s, t, a, s', again, Some(drop), trace.cleared, after);
    }
  }

  lemma ReusesInTime(cfg: Config, s: State, t: Tid, now: Time, before: C.Stock, answers: bool, reuse: C.Reuse,
                     looked: C.Stock)
    returns (s': State)
    requires s.lock.Unlocked? && At(s, t) && s.pcs[t].Reuse? && Shows(s, before) && s.now <= now
    requires C.ReusedAs(before, s.pcs[t].job.tag, s.pcs[t].job.want, now, answers, reuse, looked)
    ensures Goes(cfg, s, t, s', Some(AfterReuse(s.pcs[t].job, s.pcs[t].gate, reuse)), looked)
    ensures reuse.NotFound? ==> s'.now == s.now
  {
    if reuse.NotFound? {
      s' := ReuseTakesSteps(cfg, s, t, before, answers, reuse, looked);
    } else {
      Passes(cfg, s, t, now);
      s' := ReuseTakesSteps(cfg, Later(s, now), t, before, answers, reuse, looked);
      Follows(cfg, s, t, Later(s, now), s');
    }
  }

  /** The labels that the protocol's builds put on an image. */
  ghost predicate LabelledFor(cfg: Config, tag: Ref, attempt: D.Attempt) {
    attempt.Made? ==> attempt.image.labels == BuiltLabels(cfg.brokerId, tag)
  }

  /** `build_image` inside its gate. */
  lemma GatedTakesSteps(cfg: Config, cache: C.Cache, s: State, t: Tid, answers: bool, first: D.Attempt,
                        second: D.Attempt, w1: C.World, w2: C.World, now: Time, before: C.Stock, trace: D.Trace,
                        after: C.Stock)
    returns (s': State)
    requires s.lock.Unlocked? && At(s, t) && s.pcs[t].Reuse? && Shows(s, before)
    requires SameSettings(cfg, cache) && InOrder(s.now, w1, w2, now)
    requires LabelledFor(cfg, s.pcs[t].job.tag, first) && LabelledFor(cfg, s.pcs[t].job.tag, second)
    requires D.BuildsAs(cache, ActiveImages(s), s.gates.Keys, s.pcs[t].job.tag, s.pcs[t].job.want, answers,
                        first, second, w1, w2, now, before, trace, after)
    ensures Goes(cfg, s, t, s', Some(DropGate(s.pcs[t].job, s.pcs[t].gate)), after)
  {
    var job, gate := s.pcs[t].job, s.pcs[t].gate;
    var reuse, looked :|
      && C.ReusedAs(before, job.tag, job.want, now, answers, reuse, looked)
      && if reuse.NotFound? then
           && D.Cleared(cache, ActiveImages(s), s.gates.Keys, first, w1, w2, looked, trace)
           && D.Obtained(first, second, job.tag, Built, now, trace.forced, after)
         else after == looked;
    assert s.now <= w1.clock(0) <= w2.clock(0) <= now;
    s' := ReusesInTime(cfg, s, t, now, before, answers, reuse, looked);
    if reuse.NotFound? {
      var a := s';
      TablesGiveActive(s, a);
      s' := BuildTakesSteps(cfg, cache, a, t, first, second, w1, w2, now, looked, trace, after);
      GoesThrough(cfg, s, t, a, s', BuildGc(job, gate, false), Some(DropGate(job, gate)), looked, after);
    }
  }

  // ---------- Its gate ----------

  /** Only gates, their holders and the thread have changed. */
  ghost predicate Gated(cfg: Config, s: State, t: Tid, s': State, gates: map<Ref, Gate>, holders: map<GateId, Tid>,
                        pcs: map<Tid, Pc>, c: C.Stock)
  {
    && Reaches(cfg, s, t, s') && s'.lock.Unlocked? && Shows(s', c) && s'.now == s.now
    && s'.reservations == s.reservations && s'.ctrs == s.ctrs
    && s'.gates == gates && s'.holders == holders && s'.pcs == pcs
  }

  /** The table of gates with one user more for `tag`. */
  function OneMore(gates: map<Ref, Gate>, tag: Ref, gate: GateId): map<Ref, Gate> {
    gates[tag := Gate(gate, 1 + if tag in gates then gates[tag].users else 0)]
  }

  function OneLess(gates: map<Ref, Gate>, tag: Ref, gate: GateId): map<Ref, Gate>
    requires tag in gates
  {
    if gates[tag].users > 1 then gates[tag := Gate(gate, gates[tag].users - 1)] else gates - {tag}
  }

  lemma OneMoreOneLess(gates: map<Ref, Gate>, tag: Ref, gate: GateId)
    requires tag in gates ==> gates[tag].gate == gate && gates[tag].users > 0
    ensures OneLess(OneMore(gates, tag, gate), tag, gate) == gates
  {
  }

  lemma RegistersFor(cfg: Config, s: State, t: Tid, gate: GateId, c: C.Stock) returns (s': State)
    requires s.lock.Unlocked? && At(s, t) && s.pcs[t].EnterGate? && Shows(s, c)
    requires gate == if s.pcs[t].job.tag in s.gates then s.gates[s.pcs[t].job.tag].gate else s.nextGate
    ensures var job := s.pcs[t].job;
            Gated(cfg, s, t, s', OneMore(s.gates, job.tag, gate), s.holders, s.pcs[t := AwaitGate(job, gate)], c)
  {
    var job := s.pcs[t].job;
    s' := Counted(s, OneMore(s.gates, job.tag, gate), if job.tag in s.gates then s.nextGate else s.nextGate + 1,
                  s.reservations, s.pcs[t := AwaitGate(job, gate)]);
    Stays(cfg, s, t);
    GoesOn(cfg, s, t, s, Gating(t, Register), s');
  }

  lemma TakesGate(cfg: Config, s: State, t: Tid, c: C.Stock) returns (s': State)
    requires s.lock.Unlocked? && At(s, t) && s.pcs[t].AwaitGate? && s.pcs[t].gate !in s.holders && Shows(s, c)
    ensures Gated(cfg, s, t, s', s.gates, s.holders[s.pcs[t].gate := t],
                  s.pcs[t := Reuse(s.pcs[t].job, s.pcs[t].gate)], c)
  {
    var job, gate := s.pcs[t].job, s.pcs[t].gate;
    s' := s.(holders := s.holders[gate := t], pcs := s.pcs[t := Reuse(job, gate)]);
    Stays(cfg, s, t);
    GoesOn(cfg, s, t, s, Gating(t, Acquire), s');
  }

  lemma FreesGate(cfg: Config, s: State, t: Tid, c: C.Stock) returns (s': State)
    requires s.lock.Unlocked? && At(s, t) && s.pcs[t].DropGate? && Shows(s, c)
    ensures Gated(cfg, s, t, s', s.gates, s.holders - {s.pcs[t].gate},
                  s.pcs[t := LeaveGate(s.pcs[t].job, s.pcs[t].gate)], c)
  {
    var job, gate := s.pcs[t].job, s.pcs[t].gate;
    s' := s.(holders := s.holders - {gate}, pcs := s.pcs[t := LeaveGate(job, gate)]);
    Stays(cfg, s, t);
    GoesOn(cfg, s, t, s, Gating(t, Release), s');
  }

  lemma LeavesFor(cfg: Config, s: State, t: Tid, c: C.Stock) returns (s': State)
    requires s.lock.Unlocked? && At(s, t) && s.pcs[t].LeaveGate? && s.pcs[t].job.tag in s.gates && Shows(s, c)
    ensures Gated(cfg, s, t, s', OneLess(s.gates, s.pcs[t].job.tag, s.pcs[t].gate), s.holders, s.pcs - {t}, c)
  {
    s' := Leaves(s, t);
    Stays(cfg, s, t);
    GoesOn(cfg, s, t, s, Gating(t, Leave), s');
  }

  lemma EntersFor(cfg: Config, s: State, t: Tid, gate: GateId, c: C.Stock) returns (s': State)
    requires s.lock.Unlocked? && At(s, t) && s.pcs[t].EnterGate? && Shows(s, c) && gate !in s.holders
    requires gate == if s.pcs[t].job.tag in s.gates then s.gates[s.pcs[t].job.tag].gate else s.nextGate
    ensures var job := s.pcs[t].job;
            Gated(cfg, s, t, s', OneMore(s.gates, job.tag, gate), s.holders[gate := t],
                  s.pcs[t := Reuse(job, gate)], c)
  {
    var a := RegistersFor(cfg, s, t, gate, c);
    s' := TakesGate(cfg, a, t, c);
    Follows(cfg, s, t, a, s');
  }

  lemma ExitsFor(cfg: Config, s: State, t: Tid, c: C.Stock) returns (s': State)
    requires s.lock.Unlocked? && At(s, t) && s.pcs[t].DropGate? && s.pcs[t].job.tag in s.gates && Shows(s, c)
    ensures Gated(cfg, s, t, s', OneLess(s.gates, s.pcs[t].job.tag, s.pcs[t].gate), s.holders - {s.pcs[t].gate},
                  s.pcs - {t}, c)
  {
    var a := FreesGate(cfg, s, t, c);
    s' := LeavesFor(cfg, a, t, c);
    Follows(cfg, s, t, a, s');
  }

  /** From the gate on. */
  lemma GatedTakesStepsToTheEnd(cfg: Config, cache: C.Cache, s: State, t: Tid, answers: bool, first: D.Attempt,
                                second: D.Attempt, w1: C.World, w2: C.World, now: Time, before: C.Stock,
                                trace: D.Trace, after: C.Stock)
    returns (s': State)
    requires s.lock.Unlocked? && At(s, t) && s.pcs[t].Reuse? && s.pcs[t].job.tag in s.gates && Shows(s, before)
    requires SameSettings(cfg, cache) && InOrder(s.now, w1, w2, now)
    requires LabelledFor(cfg, s.pcs[t].job.tag, first) && LabelledFor(cfg, s.pcs[t].job.tag, second)
    requires D.BuildsAs(cache, ActiveImages(s), s.gates.Keys, s.pcs[t].job.tag, s.pcs[t].job.want, answers,
                        first, second, w1, w2, now, before, trace, after)
    ensures Reaches(cfg, s, t, s') && s'.lock.Unlocked? && s'.pcs == s.pcs - {t} && Shows(s', after)
    ensures s'.gates == OneLess(s.gates, s.pcs[t].job.tag, s.pcs[t].gate) && s'.holders == s.holders - {s.pcs[t].gate}
    ensures s'.reservations == s.reservations && s'.ctrs == s.ctrs
  {
    var drop := DropGate(s.pcs[t].job, s.pcs[t].gate);
    var a := GatedTakesSteps(cfg, cache, s, t, answers, first, second, w1, w2, now, before, trace, after);
    s' := ExitsFor(cfg, a, t, after);
    Follows(cfg, s, t, a, s');
    assert s.pcs[t := drop] - {t} == s.pcs - {t};
  }

  /** A call of `build_image`, alone in its gate: reuse or build, with every collection and both attempts,
      from the thread's first step to its last.  Gates, holders, reservations and containers are as before. */
  lemma BuildImageTakesSteps(cfg: Config, cache: C.Cache, s: State, t: Tid, answers: bool, first: D.Attempt,
                             second: D.Attempt, w1: C.World, w2: C.World, now: Time, before: C.Stock, trace: D.Trace,
                             after: C.Stock)
    returns (s': State)
    requires s.lock.Unlocked? && At(s, t) && s.pcs[t].EnterGate? && Shows(s, before)
    requires s.nextGate !in s.holders
    requires s.pcs[t].job.tag in s.gates ==>
               s.gates[s.pcs[t].job.tag].gate !in s.holders && s.gates[s.pcs[t].job.tag].users > 0
    requires SameSettings(cfg, cache) && InOrder(s.now, w1, w2, now)
    requires LabelledFor(cfg, s.pcs[t].job.tag, first) && LabelledFor(cfg, s.pcs[t].job.tag, second)
    requires D.BuildsAs(cache, ActiveImages(s), s.gates.Keys + {s.pcs[t].job.tag}, s.pcs[t].job.tag,
                        s.pcs[t].job.want, answers, first, second, w1, w2, now, before, trace, after)
    ensures Reaches(cfg, s, t, s') && s'.lock.Unlocked? && s'.pcs == s.pcs - {t} && Shows(s', after)
    ensures s'.gates == s.gates && s'.holders == s.holders
    ensures s'.reservations == s.reservations && s'.ctrs == s.ctrs
  {
    var job := s.pcs[t].job;
    var gate := if job.tag in s.gates then s.gates[job.tag].gate else s.nextGate;
    var a := EntersFor(cfg, s, t, gate, before);
    assert a.gates.Keys == s.gates.Keys + {job.tag} && ActiveImages(a) == ActiveImages(s);
    s' := GatedTakesStepsToTheEnd(cfg, cache, a, t, answers, first, second, w1, w2, now, before, trace, after);
    Follows(cfg, s, t, a, s');
    OneMoreOneLess(s.gates, job.tag, gate);
    assert s.holders[gate := t] - {gate} == s.holders;
    assert s.pcs[t := Reuse(job, gate)] - {t} == s.pcs - {t};
  }

  // ---------- _ensure_image ----------

  lemma Pulls(cfg: Config, s: State, t: Tid, image: Image, c: C.Stock) returns (s': State)
    requires s.lock.Unlocked? && At(s, t) && s.pcs[t].Pull? && !ContentTag(cfg, s.pcs[t].ref) && Shows(s, c)
    ensures Goes(cfg, s, t, s', Some(RecordPull(s.pcs[t].ref, image.id)), D.Put(c, s.pcs[t].ref, image))
    ensures s'.now == s.now
  {
    var ref := s.pcs[t].ref;
    s' := State(s.tags[ref := image], s.ctrs, s.now, s.records, s.disk, s.reading, s.gates, s.reservations, s.lock,
                s.holders, s.nextGate, s.pcs[t := RecordPull(ref, image.id)], s.acquired + {(ref, image.id)}, s.used,
                s.pulls[ref := PulledFor(s, ref) + [image.id]]);
    Stays(cfg, s, t);
    GoesOn(cfg, s, t, s, Creating(t, PullOk(image)), s');
  }

  lemma PullFails(cfg: Config, s: State, t: Tid, full: bool, next: Option<Pc>, c: C.Stock) returns (s': State)
    requires s.lock.Unlocked? && At(s, t) && s.pcs[t].Pull? && Shows(s, c)
    requires next == if full && !s.pcs[t].retried then Some(PullGc(s.pcs[t].ref, true)) else None
    ensures Goes(cfg, s, t, s', next, c) && s'.now == s.now
  {
    s' := Turned(s, t, next);
    assert CreateStep(cfg, s, t, PullFail(full), s');
    Turns(cfg, s, t, Creating(t, PullFail(full)), next, c);
  }

  lemma PullsAndRecords(cfg: Config, s: State, t: Tid, image: Image, now: Time, c: C.Stock, after: C.Stock)
    returns (s': State)
    requires s.lock.Unlocked? && At(s, t) && s.pcs[t].Pull? && !ContentTag(cfg, s.pcs[t].ref) && Shows(s, c)
    requires s.now <= now && D.RecordedAs(c, s.pcs[t].ref, image, Pulled, now, after)
    ensures Goes(cfg, s, t, s', Some(ReserveImage(s.pcs[t].ref, image.id, now)), after)
  {
    var ref := s.pcs[t].ref;
    var a := Pulls(cfg, s, t, image, c);
    Passes(cfg, a, t, now);
    s' := RecordPullTakesSteps(cfg, Later(a, now), t, D.Put(c, ref, image), after);
    Follows(cfg, a, t, Later(a, now), s');
    GoesThrough(cfg, s, t, a, s', RecordPull(ref, image.id), Some(ReserveImage(ref, image.id, now)),
                D.Put(c, ref, image), after);
  }

  /** A collection, and one attempt to pull. */
  lemma TriesToPull(cfg: Config, cache: C.Cache, s: State, t: Tid, attempt: D.Attempt, w: C.World, now: Time,
                    before: C.Stock, removed: seq<Ref>, cleared: C.Stock, after: C.Stock)
    returns (s': State)
    requires s.lock.Unlocked? && At(s, t) && s.pcs[t].PullGc? && Shows(s, before) && SameSettings(cfg, cache)
    requires s.now <= now && forall i, j | 0 <= i <= j :: s.now <= w.clock(i) <= w.clock(j) <= now
    requires cache.Collected(before, ActiveImages(s), s.gates.Keys, s.pcs[t].emergency, w, removed, cleared)
    requires attempt.Made? ==> !ContentTag(cfg, s.pcs[t].ref)
    requires if attempt.Made? then D.RecordedAs(cleared, s.pcs[t].ref, attempt.image, Pulled, now, after)
             else after == cleared
    ensures var pc := s.pcs[t];
            Goes(cfg, s, t, s', if attempt.Made? then Some(ReserveImage(pc.ref, attempt.image.id, now))
                                else if attempt.OutOfSpace? && !pc.emergency then Some(PullGc(pc.ref, true))
                                else None, after)
    ensures attempt.Made? || s'.now == s.now || exists k: nat :: s'.now == w.clock(k)
  {
    var pc := s.pcs[t];
    var a := Collects(cfg, cache, s, t, ActiveImages(s), before, w, removed, cleared);
    var next := if attempt.Made? then Some(ReserveImage(pc.ref, attempt.image.id, now))
                else if attempt.OutOfSpace? && !pc.emergency then Some(PullGc(pc.ref, true)) else None;
    if attempt.Made? {
      s' := PullsAndRecords(cfg, a, t, attempt.image, now, cleared, after);
    } else {
      s' := PullFails(cfg, a, t, attempt.OutOfSpace?, next, cleared);
    }
    GoesThrough(cfg, s, t, a, s', Pull(pc.ref, pc.emergency), next, cleared, after);
  }

  /** Where the thread is once a missing reference has been pulled, or not. */
  function AfterPull(ref: Ref, first: D.Attempt, second: D.Attempt, now: Time): Option<Pc> {
    if first.Made? then Some(ReserveImage(ref, first.image.id, now))
    else if first.OutOfSpace? && second.Made? then Some(ReserveImage(ref, second.image.id, now))
    else None
  }

  lemma PullTakesSteps(cfg: Config, cache: C.Cache, s: State, t: Tid, first: D.Attempt, second: D.Attempt,
                       w1: C.World, w2: C.World, now: Time, before: C.Stock, trace: D.Trace, after: C.Stock)
    returns (s': State)
    requires s.lock.Unlocked? && At(s, t) && s.pcs[t].PullGc? && !s.pcs[t].emergency && Shows(s, before)
    requires SameSettings(cfg, cache) && InOrder(s.now, w1, w2, now)
    requires first.Made? || (first.OutOfSpace? && second.Made?) ==> !ContentTag(cfg, s.pcs[t].ref)
    requires D.Cleared(cache, ActiveImages(s), s.gates.Keys, first, w1, w2, before, trace)
    requires D.Obtained(first, second, s.pcs[t].ref, Pulled, now, trace.forced, after)
    ensures Goes(cfg, s, t, s', AfterPull(s.pcs[t].ref, first, second, now), after)
  {
    var ref := s.pcs[t].ref;
    assert s.now <= w1.clock(0) <= w2.clock(0) <= now;
    assert forall i: nat :: w1.clock(i) <= w2.clock(0);
    s' := TriesToPull(cfg, cache, s, t, first, w1, now, before, trace.gone, trace.cleared,
                      if first.Made? then after else trace.cleared);
    if first.OutOfSpace? {
      var a := s';
      assert a.now <= w2.clock(0);
      TablesGiveActive(s, a);
      s' := TriesToPull(cfg, cache, a, t, second, w2, now, trace.cleared, trace.alsoGone, trace.forced, after);
      GoesThrough(cfg, s, t, a, s', PullGc(ref, true), AfterPull(ref, first, second, now), trace.cleared, after);
    }
  }

  /** Where the lookup of a reference leads. */
  function AfterFind(s: State, ref: Ref, answers: bool): Option<Pc> {
    if !answers then None
    else if ref !in s.tags then Some(PullGc(ref, false))
    else Some(TouchImage(ref, s.tags[ref].id, if ref in s.records then s.records[ref].lastUsed else s.now))
  }

  lemma Finds(cfg: Config, s: State, t: Tid, answers: bool, c: C.Stock) returns (s': State)
    requires s.lock.Unlocked? && At(s, t) && s.pcs[t].Find? && Shows(s, c)
    ensures Goes(cfg, s, t, s', AfterFind(s, s.pcs[t].ref, answers), c) && s'.now == s.now
    ensures ActiveImages(s') == ActiveImages(s) && s'.records == s.records
  {
    var next := AfterFind(s, s.pcs[t].ref, answers);
    s' := Turned(s, t, next);
    assert CreateStep(cfg, s, t, FindImage(answers), s');
    Turns(cfg, s, t, Creating(t, FindImage(answers)), next, c);
    TablesGiveActive(s, s');
  }

  lemma FoundTakesSteps(cfg: Config, s: State, t: Tid, now: Time, before: C.Stock, after: C.Stock)
    returns (s': State, since: Time)
    requires s.lock.Unlocked? && At(s, t) && s.pcs[t].Find? && Shows(s, before) && s.now <= now
    requires s.pcs[t].ref in s.tags && C.Touched(before, s.pcs[t].ref, s.tags[s.pcs[t].ref].id, now, after)
    ensures Goes(cfg, s, t, s', Some(ReserveImage(s.pcs[t].ref, s.tags[s.pcs[t].ref].id, since)), after)
  {
    var ref := s.pcs[t].ref;
    var id := s.tags[ref].id;
    var a := Finds(cfg, s, t, true, before);
    Passes(cfg, a, t, now);
    s', since := TouchTakesSteps(cfg, Later(a, now), t, before, after);
    Follows(cfg, a, t, Later(a, now), s');
    GoesThrough(cfg, s, t, a, s', AfterFind(s, ref, true).value, Some(ReserveImage(ref, id, since)), before, after);
  }

  /** The id that `_ensure_image` returns, if it returns. */
  function EnsuredId(tags: map<Ref, Image>, ref: Ref, answers: bool, first: D.Attempt, second: D.Attempt)
    : Option<ImageId>
  {
    if !answers then None
    else if ref in tags then Some(tags[ref].id)
    else if first.Made? then Some(first.image.id)
    else if first.OutOfSpace? && second.Made? then Some(second.image.id)
    else None
  }

  /** A call of `_ensure_image`, from the thread's first step to the one before it reserves the image; if
      the call fails, the thread ends.  A pull of a content tag does not succeed. */
  lemma EnsureImageTakesSteps(cfg: Config, cache: C.Cache, s: State, t: Tid, answers: bool, first: D.Attempt,
                              second: D.Attempt, w1: C.World, w2: C.World, now: Time, before: C.Stock, trace: D.Trace,
                              after: C.Stock)
    returns (s': State, since: Time)
    requires s.lock.Unlocked? && At(s, t) && s.pcs[t].Find? && Shows(s, before)
    requires SameSettings(cfg, cache) && InOrder(s.now, w1, w2, now)
    requires first.Made? || (first.OutOfSpace? && second.Made?) ==>
               !ContentTag(cfg, s.pcs[t].ref) || s.pcs[t].ref in s.tags
    requires D.EnsuresAs(cache, ActiveImages(s), s.gates.Keys, s.pcs[t].ref, answers, first, second, w1, w2, now,
                         before, trace, after)
    ensures var ref, id := s.pcs[t].ref, EnsuredId(s.tags, s.pcs[t].ref, answers, first, second);
            Goes(cfg, s, t, s', if id.Some? then Some(ReserveImage(ref, id.value, since)) else None, after)
  {
    var ref := s.pcs[t].ref;
    since := now;
    assert s.now <= w1.clock(0) <= w2.clock(0) <= now;
    if !answers {
      s' := Finds(cfg, s, t, false, before);
    } else if ref in s.tags {
      s', since := FoundTakesSteps(cfg, s, t, now, before, after);
    } else {
      var a := Finds(cfg, s, t, true, before);
      s' := PullTakesSteps(cfg, cache, a, t, first, second, w1, w2, now, before, trace, after);
      GoesThrough(cfg, s, t, a, s', PullGc(ref, false), AfterPull(ref, first, second, now), before, after);
    }
  }

  // ---------- create, once the image is found ----------

  /** The protocol's containers are of the object's images. */
  ghost predicate ShowsContainers(s: State, containers: seq<ImageId>) {
    forall id :: id in containers <==> exists c :: c in s.ctrs && s.ctrs[c].image == id
  }

  /** Only containers, reservations and the thread have changed. */
  ghost predicate Used(cfg: Config, s: State, t: Tid, s': State, ctrs: map<CtrId, Ctr>,
                       reservations: map<ImageId, nat>, pcs: map<Tid, Pc>, c: C.Stock)
  {
    && Reaches(cfg, s, t, s') && s'.lock.Unlocked? && Shows(s', c) && s'.tags == s.tags
    && s'.gates == s.gates && s'.holders == s.holders
    && s'.ctrs == ctrs && s'.reservations == reservations && s'.pcs == pcs
  }

  /** A step of `create` from the reservation on. */
  lemma Uses(cfg: Config, s: State, t: Tid, act: CreateAct, ctrs: map<CtrId, Ctr>, reservations: map<ImageId, nat>,
             pcs: map<Tid, Pc>, c: C.Stock)
    returns (s': State)
    requires s.lock.Unlocked? && Shows(s, c)
    requires Next(cfg, s, Creating(t, act), s.(ctrs := ctrs, reservations := reservations, pcs := pcs))
    ensures Used(cfg, s, t, s', ctrs, reservations, pcs, c)
  {
    s' := s.(ctrs := ctrs, reservations := reservations, pcs := pcs);
    Stays(cfg, s, t);
    GoesOn(cfg, s, t, s, Creating(t, act), s');
  }

  lemma Reserves(cfg: Config, s: State, t: Tid, c: C.Stock) returns (s': State, current: bool)
    requires s.lock.Unlocked? && At(s, t) && s.pcs[t].ReserveImage? && Shows(s, c)
    ensures var ref, id := s.pcs[t].ref, s.pcs[t].id;
            Used(cfg, s, t, s', s.ctrs,
                 s.reservations[id := 1 + if id in s.reservations then s.reservations[id] else 0],
                 s.pcs[t := CreateCtr(ref, id, current)], c)
  {
    var ref, id := s.pcs[t].ref, s.pcs[t].id;
    current := Resolve(s, ref) == Some(id);
    s' := Uses(cfg, s, t, Reserve, s.ctrs,
               s.reservations[id := 1 + if id in s.reservations then s.reservations[id] else 0],
               s.pcs[t := CreateCtr(ref, id, current)], c);
  }

  lemma MakesContainer(cfg: Config, s: State, t: Tid, ctr: CtrId, c: C.Stock) returns (s': State, made: Ctr)
    requires s.lock.Unlocked? && At(s, t) && s.pcs[t].CreateCtr? && Shows(s, c)
    requires s.pcs[t].ref in s.tags && ctr !in s.ctrs
    ensures made.image == s.tags[s.pcs[t].ref].id
    ensures Used(cfg, s, t, s', s.ctrs[ctr := made], s.reservations,
                 s.pcs[t := StartCtr(s.pcs[t].ref, s.pcs[t].id, ctr)], c)
  {
    var ref, id := s.pcs[t].ref, s.pcs[t].id;
    made := Ctr(s.tags[ref].id, ref, s.tags[ref].id == id);
    s' := Uses(cfg, s, t, CreateOk(ctr), s.ctrs[ctr := made], s.reservations, s.pcs[t := StartCtr(ref, id, ctr)], c);
  }

  lemma StartsContainer(cfg: Config, s: State, t: Tid, starts: bool, removed: bool, c: C.Stock) returns (s': State)
    requires s.lock.Unlocked? && At(s, t) && s.pcs[t].StartCtr? && Shows(s, c)
    ensures Used(cfg, s, t, s', if starts || !removed then s.ctrs else s.ctrs - {s.pcs[t].ctr}, s.reservations,
                 s.pcs[t := Unreserve(s.pcs[t].id)], c)
  {
    var next := s.pcs[t := Unreserve(s.pcs[t].id)];
    if starts {
      s' := Uses(cfg, s, t, StartOk, s.ctrs, s.reservations, next, c);
    } else {
      s' := Uses(cfg, s, t, StartFail(removed), if removed then s.ctrs - {s.pcs[t].ctr} else s.ctrs, s.reservations,
                 next, c);
    }
  }

  lemma MakesAndStarts(cfg: Config, s: State, t: Tid, ctr: CtrId, starts: bool, removed: bool, c: C.Stock)
    returns (s': State, left: Ctr)
    requires s.lock.Unlocked? && At(s, t) && s.pcs[t].CreateCtr? && Shows(s, c) && ctr !in s.ctrs
    requires s.pcs[t].ref in s.tags
    ensures left.image == s.tags[s.pcs[t].ref].id
    ensures Used(cfg, s, t, s', if starts || !removed then s.ctrs[ctr := left] else s.ctrs, s.reservations,
                 s.pcs[t := Unreserve(s.pcs[t].id)], c)
  {
    var a;
    a, left := MakesContainer(cfg, s, t, ctr, c);
    s' := StartsContainer(cfg, a, t, starts, removed, c);
    assert s.ctrs[ctr := left] - {ctr} == s.ctrs;
    Follows(cfg, s, t, a, s');
  }

  lemma MakesNone(cfg: Config, s: State, t: Tid, c: C.Stock) returns (s': State)
    requires s.lock.Unlocked? && At(s, t) && s.pcs[t].CreateCtr? && Shows(s, c)
    ensures Used(cfg, s, t, s', s.ctrs, s.reservations, s.pcs[t := Unreserve(s.pcs[t].id)], c)
  {
    s' := Uses(cfg, s, t, CreateFail, s.ctrs, s.reservations, s.pcs[t := Unreserve(s.pcs[t].id)], c);
  }

  /** The container, from the reservation to its release. */
  lemma RunsContainer(cfg: Config, s: State, t: Tid, ctr: CtrId, made: bool, starts: bool, removed: bool, c: C.Stock)
    returns (s': State, left: Ctr)
    requires s.lock.Unlocked? && At(s, t) && s.pcs[t].CreateCtr? && Shows(s, c) && ctr !in s.ctrs
    ensures var ref := s.pcs[t].ref;
            && (ref in s.tags ==> left.image == s.tags[ref].id)
            && Used(cfg, s, t, s',
                    if ref in s.tags && made && (starts || !removed) then s.ctrs[ctr := left] else s.ctrs,
                    s.reservations, s.pcs[t := Unreserve(s.pcs[t].id)], c)
  {
    var ref := s.pcs[t].ref;
    if ref in s.tags && made {
      s', left := MakesAndStarts(cfg, s, t, ctr, starts, removed, c);
    } else {
      s' := MakesNone(cfg, s, t, c);
      left := Ctr(if ref in s.tags then s.tags[ref].id else s.pcs[t].id, ref, false);
    }
  }

  lemma Unreserves(cfg: Config, s: State, t: Tid, c: C.Stock) returns (s': State)
    requires s.lock.Unlocked? && At(s, t) && s.pcs[t].Unreserve? && s.pcs[t].id in s.reservations && Shows(s, c)
    ensures var id := s.pcs[t].id;
            Used(cfg, s, t, s', s.ctrs,
                 if s.reservations[id] > 1 then s.reservations[id := s.reservations[id] - 1] else s.reservations - {id},
                 s.pcs - {t}, c)
  {
    var id := s.pcs[t].id;
    s' := Uses(cfg, s, t, EndReserve, s.ctrs,
               if s.reservations[id] > 1 then s.reservations[id := s.reservations[id] - 1] else s.reservations - {id},
               s.pcs - {t}, c);
  }

  lemma ShowsOneMore(s: State, s': State, ctr: CtrId, left: Ctr, containers: seq<ImageId>)
    requires ShowsContainers(s, containers) && ctr !in s.ctrs && s'.ctrs == s.ctrs[ctr := left]
    ensures ShowsContainers(s', containers + [left.image])
  {
    forall id ensures id in containers + [left.image] <==> exists c :: c in s'.ctrs && s'.ctrs[c].image == id {
      if id in containers {
        var c :| c in s.ctrs && s.ctrs[c].image == id;
        assert s'.ctrs[c].image == id;
      }
      assert s'.ctrs[ctr].image == left.image;
    }
  }

  /** The rest of a call of `create`, from the reservation of the image to the thread's end. */
  lemma CreateTakesSteps(cfg: Config, s: State, t: Tid, ctr: CtrId, made: bool, starts: bool, removed: bool,
                         c: C.Stock, containers: seq<ImageId>)
    returns (s': State)
    requires s.lock.Unlocked? && At(s, t) && s.pcs[t].ReserveImage? && Shows(s, c) && ShowsContainers(s, containers)
    requires ctr !in s.ctrs && (s.pcs[t].id in s.reservations ==> s.reservations[s.pcs[t].id] > 0)
    ensures Reaches(cfg, s, t, s') && s'.lock.Unlocked? && s'.pcs == s.pcs - {t} && Shows(s', c)
    ensures s'.reservations == s.reservations && s'.gates == s.gates && s'.holders == s.holders
    ensures var ref := s.pcs[t].ref;
            ShowsContainers(s', if ref in s.tags && made && (starts || !removed)
                                then containers + [s.tags[ref].id] else containers)
  {
    var ref, id := s.pcs[t].ref, s.pcs[t].id;
    var a, _ := Reserves(cfg, s, t, c);
    var b, left := RunsContainer(cfg, a, t, ctr, made, starts, removed, c);
    s' := Unreserves(cfg, b, t, c);
    Follows(cfg, s, t, a, b);
    Follows(cfg, s, t, b, s');
    if ref in s.tags && made && (starts || !removed) {
      ShowsOneMore(s, s', ctr, left, containers);
    }
  }
}
