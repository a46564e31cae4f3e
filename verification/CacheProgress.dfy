/** The cache cannot get stuck: no deadlock between the cache lock and the build gates, and every
thread finishes within finitely many of its own steps. */
module CacheProgress {
  import opened CacheKey
  import opened CacheProtocol
  import opened CacheGates
  import opened CacheIdentity
  import opened CacheInvariant
  import opened CacheSteps
  import opened CacheTheorems

  ghost predicate CanMove(cfg: Config, s: State, t: Tid) {
    exists step: Step :: Moves(step, t) && !step.Begin? && Enabled(cfg, s, step)
  }

  /** A next step of the lock's holder. */
  function HolderStep(cfg: Config, s: State): Step
    requires !s.lock.Unlocked?
  {
    var t := s.lock.tid;
    if s.lock.Reusing? then Building(t, Decide)
    else if s.lock.Saving? then Flush(t)
    else Gc(t, if s.lock.Listing? then GcList(false, [])
               else if s.lock.Deleting? then GcDelete(true)
               else if s.lock.Forgetting? then GcDrop
               else if s.lock.Flushing? then GcFlush(None)
               else if Stopping(cfg, s.lock.gc) then GcStop
               else if Skipped(cfg, s, s.lock.gc.todo[0]) then GcSkip
               else GcInspect(true))
  }

  /** A next step of a thread while the lock is free. */
  function FreeStep(t: Tid, pc: Pc): Step {
    if pc.EnterGate? then Gating(t, Register)
    else if pc.AwaitGate? then Gating(t, Acquire)
    else if pc.DropGate? then Gating(t, Release)
    else if pc.LeaveGate? then Gating(t, Leave)
    else if pc.Reuse? then Building(t, Look(true))
    else if pc.Build? then Building(t, BuildFail(false))
    else if pc.RecordBuild? then Building(t, RecordBuilt)
    else if Collecting(pc) then Gc(t, GcBegin(None))
    else if pc.RemoveCtr? then Removing(t, false)
    else Creating(t, if pc.Find? then FindImage(true)
                     else if pc.Pull? then PullFail(false)
                     else if pc.RecordPull? then RecordPulled
                     else if pc.TouchImage? then Touch
                     else if pc.ReserveImage? then Reserve
                     else if pc.CreateCtr? then CreateFail
                     else if pc.StartCtr? then StartOk
                     else EndReserve)
  }

  /** Whoever holds the lock can go on, whatever the other threads do. */
  lemma HolderCanMove(cfg: Config, s: State)
    requires Inv(cfg, s) && !s.lock.Unlocked?
    ensures At(s, s.lock.tid) && CanMove(cfg, s, s.lock.tid)
  {
    assert Enabled(cfg, s, HolderStep(cfg, s)) && Moves(HolderStep(cfg, s), s.lock.tid);
  }

  /** With the lock free, only a thread whose gate another holds has to wait. */
  lemma FreeCanMove(cfg: Config, s: State, t: Tid)
    requires Inv(cfg, s) && s.lock.Unlocked? && At(s, t)
    requires !(s.pcs[t].AwaitGate? && s.pcs[t].gate in s.holders)
    ensures CanMove(cfg, s, t)
  {
    var step := FreeStep(t, s.pcs[t]);
    if s.pcs[t].LeaveGate? {
      GatedWhileCounted(s, t);
    } else if s.pcs[t].Unreserve? {
      assert t in Reservers(s.pcs);
    }
    assert Enabled(cfg, s, step) && Moves(step, t);
  }

  /** In every state of a run in which some thread is at work, some thread can take a step, without
      a crash or a new request. */
  lemma NoDeadlock(cfg: Config, ss: seq<State>, steps: seq<Step>, i: nat)
    requires Run(cfg, ss, steps) && i <= |steps| && exists t :: At(ss[i], t)
    ensures exists t :: At(ss[i], t) && CanMove(cfg, ss[i], t)
  {
    RunKeepsInv(cfg, ss, steps, i);
    var s := ss[i];
    if !s.lock.Unlocked? {
      HolderCanMove(cfg, s);
    } else {
      var t :| At(s, t);
      if s.pcs[t].AwaitGate? && s.pcs[t].gate in s.holders {
        var u := s.holders[s.pcs[t].gate];
        assert u in Seats(s.pcs) && Inside(s.pcs[u]);
        FreeCanMove(cfg, s, u);
      } else {
        FreeCanMove(cfg, s, t);
      }
    }
  }

  // ---------- Finitely many steps ----------

  /** How many calls a thread has yet to make, at most. */
  function Stage(pc: Pc): nat {
    if pc.EnterGate? || pc.Find? then 10
    else if pc.AwaitGate? || (pc.PullGc? && !pc.emergency) then 9
    else if pc.Reuse? || (pc.Pull? && !pc.retried) then 8
    else if (pc.BuildGc? && !pc.emergency) || pc.PullGc? then 7
    else if (pc.Build? && !pc.retried) || pc.Pull? then 6
    else if pc.BuildGc? || pc.RecordPull? || pc.TouchImage? then 5
    else if pc.Build? || pc.ReserveImage? then 4
    else if pc.RecordBuild? || pc.CreateCtr? then 3
    else if pc.DropGate? || pc.StartCtr? || pc.RemoveCtr? then 2
    else 1
  }

  /** How far the lock's holder is in its call; the records a collection has yet to visit. */
  datatype Rank = Rank(stage: nat, phase: nat, todo: nat)

  function RankOf(s: State, t: Tid): Rank {
    if t !in s.pcs then Rank(0, 0, 0)
    else if s.lock.Unlocked? || s.lock.tid != t then Rank(Stage(s.pcs[t]), 5, 0)
    else Rank(Stage(s.pcs[t]), Phase(s.lock), Todo(s.lock))
  }

  function Phase(lock: Lock): nat {
    if lock.Listing? then 4 else if Sweeping(lock) then 3 else if lock.Reusing? then 2 else 1
  }

  function Todo(lock: Lock): nat {
    if lock.Scanning? then 4 * |lock.gc.todo| + 3
    else if lock.Deleting? then 4 * |lock.gc.todo| + 2
    else if lock.Forgetting? then 4 * |lock.gc.todo| + 1
    else if lock.Flushing? then 4 * |lock.gc.todo|
    else 0
  }

  predicate Below(a: Rank, b: Rank) {
    || a.stage < b.stage
    || (a.stage == b.stage && a.phase < b.phase)
    || (a.stage == b.stage && a.phase == b.phase && a.todo < b.todo)
  }

  lemma BuildLowers(cfg: Config, s: State, t: Tid, act: BuildAct, s': State)
    requires LockOk(s) && At(s, t) && BuildEnabled(s, t, act) && BuildStep(cfg, s, t, act, s')
    ensures Below(RankOf(s', t), RankOf(s, t))
  {
  }

  lemma GcVisitLowers(cfg: Config, s: State, t: Tid, act: GcAct, s': State)
    requires LockOk(s) && (act.GcSkip? || act.GcInspect? || act.GcDelete? || act.GcDrop? || act.GcFlush?)
    requires At(s, t) && GcEnabled(cfg, s, t, act) && GcStep(cfg, s, t, act, s')
    ensures Below(RankOf(s', t), RankOf(s, t))
  {
  }

  lemma GcLowers(cfg: Config, s: State, t: Tid, act: GcAct, s': State)
    requires LockOk(s) && At(s, t) && GcEnabled(cfg, s, t, act) && GcStep(cfg, s, t, act, s')
    ensures Below(RankOf(s', t), RankOf(s, t))
  {
    if !act.GcBegin? && !act.GcList? && !act.GcStop? {
      GcVisitLowers(cfg, s, t, act, s');
    }
  }

  lemma ResolveLowers(cfg: Config, s: State, t: Tid, act: CreateAct, s': State)
    requires LockOk(s) && At(s, t) && CreateEnabled(cfg, s, t, act) && CreateStep(cfg, s, t, act, s')
    requires act.FindImage? || act.PullOk? || act.PullFail? || act.RecordPulled? || act.Touch?
    ensures Below(RankOf(s', t), RankOf(s, t))
  {
  }

  lemma UseLowers(cfg: Config, s: State, t: Tid, act: CreateAct, s': State)
    requires LockOk(s) && At(s, t) && CreateEnabled(cfg, s, t, act) && CreateStep(cfg, s, t, act, s')
    requires !act.FindImage? && !act.PullOk? && !act.PullFail? && !act.RecordPulled? && !act.Touch?
    ensures Below(RankOf(s', t), RankOf(s, t))
  {
  }

  lemma GatingLowers(s: State, t: Tid, act: GateAct, s': State)
    requires LockOk(s) && At(s, t) && GateEnabled(s, t, act) && GateStep(s, t, act, s')
    ensures Below(RankOf(s', t), RankOf(s, t))
  {
  }

  lemma OthersLower(cfg: Config, s: State, step: Step, s': State)
    requires LockOk(s) && OtherEnabled(s, step) && OtherStep(cfg, s, step, s') && !step.Begin?
    ensures Below(RankOf(s', step.t), RankOf(s, step.t))
  {
  }

  /** Each step of a thread strictly lowers its rank. */
  lemma StepLowersRank(cfg: Config, s: State, step: Step, s': State, t: Tid)
    requires LockOk(s) && Next(cfg, s, step, s') && Moves(step, t) && !step.Begin?
    ensures Below(RankOf(s', t), RankOf(s, t))
  {
    if step.Gating? {
      GatingLowers(s, t, step.gate, s');
    } else if step.Building? {
      BuildLowers(cfg, s, t, step.build, s');
    } else if step.Gc? {
      GcLowers(cfg, s, t, step.gc, s');
    } else if step.Creating? {
      var act := step.create;
      if act.FindImage? || act.PullOk? || act.PullFail? || act.RecordPulled? || act.Touch? {
        ResolveLowers(cfg, s, t, act, s');
      } else {
        UseLowers(cfg, s, t, act, s');
      }
    } else {
      OthersLower(cfg, s, step, s');
    }
  }

  predicate Holds(lock: Lock, t: Tid) {
    !lock.Unlocked? && lock.tid == t
  }

  lemma BuildLeavesLock(cfg: Config, s: State, step: Step, s': State, t: Tid)
    requires Next(cfg, s, step, s') && (step.Building? || step.Creating?) && step.t != t
    ensures Holds(s'.lock, t) || Holds(s.lock, t) ==> s'.lock == s.lock
  {
  }

  lemma GcLeavesLock(cfg: Config, s: State, step: Step, s': State, t: Tid)
    requires Next(cfg, s, step, s') && step.Gc? && step.t != t
    ensures Holds(s'.lock, t) || Holds(s.lock, t) ==> s'.lock == s.lock
  {
  }

  lemma OthersLeaveLock(cfg: Config, s: State, step: Step, s': State, t: Tid)
    requires Next(cfg, s, step, s') && !step.Crash? && !Moves(step, t)
    ensures Holds(s'.lock, t) || Holds(s.lock, t) ==> s'.lock == s.lock
  {
    if step.Building? || step.Creating? {
      BuildLeavesLock(cfg, s, step, s', t);
    } else if step.Gc? {
      GcLeavesLock(cfg, s, step, s', t);
    }
  }

  /** No step of another thread, and no passing of time, changes it. */
  lemma OthersKeepRank(cfg: Config, s: State, step: Step, s': State, t: Tid)
    requires Next(cfg, s, step, s') && !step.Crash? && !Moves(step, t)
    ensures RankOf(s', t) == RankOf(s, t)
  {
    OnlyOwnStepsMove(cfg, s, step, s', t);
    OthersLeaveLock(cfg, s, step, s', t);
  }
}
