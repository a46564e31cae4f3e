/** The protection of a content tag over a whole run, from the use that records it to the end of a
container created from it. */
module CacheHandoff {
  import opened Inventory
  import opened CacheKey
  import opened CacheProtocol
  import opened CacheIdentity
  import opened CacheProtection
  import opened CacheInvariant
  import opened CacheSteps
  import opened CacheTheorems
  import opened Runs

  lemma {:induction false} ClockOnRun(cfg: Config, ss: seq<State>, steps: seq<Step>, i: nat, j: nat)
    requires Run(cfg, ss, steps) && i <= j <= |steps|
    ensures ss[i].now <= ss[j].now
    decreases j - i
  {
    if i < j {
      ClockOnRun(cfg, ss, steps, i, j - 1);
      ClockNeverGoesBack(cfg, ss[j - 1], steps[j - 1], ss[j]);
    }
  }

  /** Thread `t` takes no step from state `i` to state `j`, and the process lives on. */
  predicate Idle(steps: seq<Step>, t: Tid, i: nat, j: nat)
    requires i <= j <= |steps|
  {
    forall k | i <= k < j :: !steps[k].Crash? && !Moves(steps[k], t)
  }

  lemma IdleStays(cfg: Config, ss: seq<State>, steps: seq<Step>, t: Tid, i: nat, j: nat)
    requires Run(cfg, ss, steps) && i <= j <= |steps| && Idle(steps, t, i, j) && At(ss[i], t)
    ensures At(ss[j], t) && ss[j].pcs[t] == ss[i].pcs[t]
  {
    var pc := ss[i].pcs[t];
    forall k | i <= k < j && At(ss[k], t) ensures At(ss[k + 1], t) && ss[k + 1].pcs[t] == ss[k].pcs[t] {
      OnlyOwnStepsMove(cfg, ss[k], steps[k], ss[k + 1], t);
    }
    Persists(k => 0 <= k < |ss| && At(ss[k], t) && ss[k].pcs[t] == pc, i, j);
  }

  /** A completed use of a content tag makes it resolve to the same image throughout the grace
      period, crashes and emergency collections included. */
  lemma UseProtects(cfg: Config, ss: seq<State>, steps: seq<Step>, i: nat, j: nat, tag: Ref)
    requires Run(cfg, ss, steps) && i <= j <= |steps| && ContentTag(cfg, tag) && tag in ss[i].used
    ensures ss[i].used[tag].at <= ss[i].now
    ensures Kept(cfg, ss[j], tag, ss[i].used[tag].id, ss[i].used[tag].at)
  {
    var use := ss[i].used[tag];
    RunKeepsInv(cfg, ss, steps, i);
    assert UsedOk(cfg, ss[i], tag);
    forall k | i <= k < j && Kept(cfg, ss[k], tag, use.id, use.at)
      ensures Kept(cfg, ss[k + 1], tag, use.id, use.at)
    {
      RunKeepsInv(cfg, ss, steps, k);
      ClockOnRun(cfg, ss, steps, i, k);
      StepKeepsKept(cfg, ss[k], steps[k], ss[k + 1], tag, use.id, use.at);
    }
    Persists(k => 0 <= k < |ss| && Kept(cfg, ss[k], tag, use.id, use.at), i, j);
  }

  /** The same for a use that may not have reached the file yet, while the process lives. */
  lemma FreshOnRun(cfg: Config, ss: seq<State>, steps: seq<Step>, i: nat, j: nat, tag: Ref, id: ImageId, at: Time)
    requires Run(cfg, ss, steps) && i <= j <= |steps| && ContentTag(cfg, tag)
    requires at <= ss[i].now && Fresh(cfg, ss[i], tag, id, at)
    requires forall k | i <= k < j :: !steps[k].Crash?
    ensures Fresh(cfg, ss[j], tag, id, at)
  {
    forall k | i <= k < j && Fresh(cfg, ss[k], tag, id, at) ensures Fresh(cfg, ss[k + 1], tag, id, at) {
      RunKeepsInv(cfg, ss, steps, k);
      ClockOnRun(cfg, ss, steps, i, k);
      StepKeepsFresh(cfg, ss[k], steps[k], ss[k + 1], tag, id, at);
    }
    Persists(k => 0 <= k < |ss| && Fresh(cfg, ss[k], tag, id, at), i, j);
  }

  lemma OnlyTheHolderUnlocks(cfg: Config, s: State, step: Step, s': State)
    requires Next(cfg, s, step, s') && !step.Crash? && !s.lock.Unlocked? && !Moves(step, s.lock.tid)
    ensures s'.lock == s.lock
  {
  }

  lemma RecordsBuild(cfg: Config, s: State, t: Tid, s': State)
    requires Next(cfg, s, Building(t, RecordBuilt), s')
    ensures s'.lock.Saving? && s'.lock.tid == t
    ensures s'.lock.use == Some(Use(s.pcs[t].job.tag, s.pcs[t].id, s.now))
  {
  }

  lemma SavesUse(cfg: Config, s: State, t: Tid, s': State)
    requires Next(cfg, s, Flush(t), s') && s.lock.Saving? && s.lock.use.Some?
    ensures s'.used == s.used[s.lock.use.value.ref := s.lock.use.value]
  {
  }

  /** A recorded build is a completed use, of the instant it was recorded, once it is saved. */
  lemma RecordedBuildIsAUse(cfg: Config, ss: seq<State>, steps: seq<Step>, i: nat, j: nat, t: Tid)
    requires Run(cfg, ss, steps) && i < j < |steps| && steps[i] == Building(t, RecordBuilt)
    requires Idle(steps, t, i + 1, j) && steps[j] == Flush(t) && At(ss[i], t) && ss[i].pcs[t].RecordBuild?
    ensures var tag := ss[i].pcs[t].job.tag;
            tag in ss[j + 1].used && ss[j + 1].used[tag] == Use(tag, ss[i].pcs[t].id, ss[i].now)
  {
    RecordsBuild(cfg, ss[i], t, ss[i + 1]);
    var lock := ss[i + 1].lock;
    forall k | i < k < j && ss[k].lock == lock ensures ss[k + 1].lock == lock {
      OnlyTheHolderUnlocks(cfg, ss[k], steps[k], ss[k + 1]);
    }
    Persists(k => 0 <= k < |ss| && ss[k].lock == lock, i + 1, j);
    SavesUse(cfg, ss[j], t, ss[j + 1]);
  }

  // ---------- The steps of one create ----------

  lemma FindsTheTag(cfg: Config, s: State, t: Tid, s': State, tag: Ref, id: ImageId)
    requires Next(cfg, s, Creating(t, FindImage(true)), s')
    requires s.pcs[t] == Find(tag) && Resolve(s, tag) == Some(id)
    ensures At(s', t) && s'.pcs[t].TouchImage? && s'.pcs[t].ref == tag && s'.pcs[t].id == id
  {
  }

  /** A timely touch is a use of the image from that instant on. */
  lemma TouchRenews(cfg: Config, s: State, t: Tid, s': State, tag: Ref, id: ImageId)
    requires Inv(cfg, s) && Next(cfg, s, Creating(t, Touch), s') && ContentTag(cfg, tag)
    requires s.pcs[t].TouchImage? && s.pcs[t].ref == tag && s.pcs[t].id == id
    requires Resolve(s, tag) == Some(id)
    ensures Fresh(cfg, s', tag, id, s.now) && s'.now == s.now
  {
    assert TagOk(cfg, s, tag);
  }

  lemma ReservesCurrent(cfg: Config, s: State, t: Tid, s': State, tag: Ref, id: ImageId)
    requires Next(cfg, s, Creating(t, Reserve), s')
    requires s.pcs[t].ReserveImage? && s.pcs[t].ref == tag && s.pcs[t].id == id && Resolve(s, tag) == Some(id)
    ensures At(s', t) && s'.pcs[t] == CreateCtr(tag, id, true)
  {
  }

  lemma CreatesHeld(cfg: Config, s: State, t: Tid, c: CtrId, s': State, tag: Ref, id: ImageId)
    requires Next(cfg, s, Creating(t, CreateOk(c)), s')
    requires s.pcs[t] == CreateCtr(tag, id, true) && Resolve(s, tag) == Some(id)
    ensures c in s'.ctrs && s'.ctrs[c] == Ctr(id, tag, true)
  {
  }

  lemma CtrOnRun(cfg: Config, ss: seq<State>, steps: seq<Step>, i: nat, j: nat, c: CtrId)
    requires Run(cfg, ss, steps) && i <= j <= |steps| && forall k | i <= k <= j :: c in ss[k].ctrs
    ensures ss[j].ctrs[c] == ss[i].ctrs[c]
  {
    var ctr := ss[i].ctrs[c];
    forall k | i <= k < j ensures ss[k + 1].ctrs[c] == ss[k].ctrs[c] {
      ContainersStayTheSame(cfg, ss[k], steps[k], ss[k + 1], c);
    }
    Persists(k => 0 <= k < |ss| && c in ss[k].ctrs && ss[k].ctrs[c] == ctr, i, j);
  }

  /** A thread that reserved the image a content tag stands for keeps the tag until it creates. */
  lemma ReservationProtects(cfg: Config, ss: seq<State>, steps: seq<Step>, t: Tid, i: nat, j: nat,
                            tag: Ref, id: ImageId)
    requires Run(cfg, ss, steps) && i <= j <= |steps| && Idle(steps, t, i, j) && ContentTag(cfg, tag)
    requires At(ss[i], t) && ss[i].pcs[t] == CreateCtr(tag, id, true)
    ensures At(ss[j], t) && ss[j].pcs[t] == CreateCtr(tag, id, true)
    ensures Resolve(ss[j], tag) == Some(id)
  {
    IdleStays(cfg, ss, steps, t, i, j);
    RunKeepsInv(cfg, ss, steps, j);
    assert ThreadSafe(cfg, ss[j], t);
  }

  lemma ContainerProtects(cfg: Config, ss: seq<State>, steps: seq<Step>, i: nat, j: nat, c: CtrId,
                          tag: Ref, id: ImageId)
    requires Run(cfg, ss, steps) && i <= j <= |steps| && ContentTag(cfg, tag)
    requires forall k | i <= k <= j :: c in ss[k].ctrs
    requires ss[i].ctrs[c] == Ctr(id, tag, true)
    ensures Resolve(ss[j], tag) == Some(id)
  {
    CtrOnRun(cfg, ss, steps, i, j, c);
    RunKeepsInv(cfg, ss, steps, j);
    assert CtrOk(cfg, ss[j], c);
  }

  // ---------- The whole handoff ----------

  /** The course of one `create` of `tag` by thread `t`: it looks the tag up at state `find`, touches it
      at `touch`, reserves its image at `reserve`, creates container `c` at `create`, and the
      container is still there at `end`. */
  datatype Course = Course(t: Tid, c: CtrId, find: nat, touch: nat, reserve: nat, create: nat, end: nat)

  ghost predicate Takes(ss: seq<State>, steps: seq<Step>, tag: Ref, w: Course)
    requires |ss| == |steps| + 1
  {
    && w.find < w.touch < w.reserve < w.create < w.end <= |steps|
    && steps[w.find] == Creating(w.t, FindImage(true)) && At(ss[w.find], w.t) && ss[w.find].pcs[w.t] == Find(tag)
    && Idle(steps, w.t, w.find + 1, w.touch) && steps[w.touch] == Creating(w.t, Touch)
    && (forall k | w.touch <= k < w.reserve :: !steps[k].Crash?)
    && steps[w.reserve] == Creating(w.t, Reserve) && At(ss[w.touch], w.t) && At(ss[w.reserve], w.t)
    && ss[w.touch].pcs[w.t].TouchImage? && ss[w.reserve].pcs[w.t].ReserveImage?
    && ss[w.reserve].pcs[w.t].ref == tag && ss[w.reserve].pcs[w.t].id == ss[w.touch].pcs[w.t].id
    && Idle(steps, w.t, w.reserve + 1, w.create) && steps[w.create] == Creating(w.t, CreateOk(w.c))
    && (forall k | w.create < k <= w.end :: w.c in ss[k].ctrs)
  }

  /** The touch falls within the minimum age of the use completed by state `i`, and the reservation
      within the minimum age of the touch. */
  ghost predicate Timely(cfg: Config, ss: seq<State>, tag: Ref, i: nat, w: Course)
    requires i < |ss| && tag in ss[i].used && w.touch < |ss| && w.reserve < |ss|
  {
    && ss[w.touch].now - ss[i].used[tag].at < cfg.minAge
    && ss[w.reserve].now - ss[w.touch].now < cfg.minAge
  }

  ghost predicate Handoff(cfg: Config, ss: seq<State>, steps: seq<Step>, tag: Ref, i: nat, w: Course) {
    && Run(cfg, ss, steps) && ContentTag(cfg, tag) && Takes(ss, steps, tag, w)
    && i <= w.find && tag in ss[i].used && Timely(cfg, ss, tag, i, w)
  }

  lemma UntilTouch(cfg: Config, ss: seq<State>, steps: seq<Step>, tag: Ref, i: nat, w: Course, k: nat)
    requires Handoff(cfg, ss, steps, tag, i, w)
    requires i <= k <= w.touch
    ensures Resolve(ss[k], tag) == Some(ss[i].used[tag].id)
  {
    UseProtects(cfg, ss, steps, i, k, tag);
    ClockOnRun(cfg, ss, steps, k, w.touch);
  }

  lemma UntilReserve(cfg: Config, ss: seq<State>, steps: seq<Step>, tag: Ref, i: nat, w: Course, k: nat)
    requires Handoff(cfg, ss, steps, tag, i, w)
    requires w.touch < k <= w.reserve
    ensures Resolve(ss[k], tag) == Some(ss[i].used[tag].id)
    ensures ss[w.reserve].pcs[w.t].id == ss[i].used[tag].id
  {
    var id := ss[i].used[tag].id;
    UntilTouch(cfg, ss, steps, tag, i, w, w.find);
    UntilTouch(cfg, ss, steps, tag, i, w, w.touch);
    FindsTheTag(cfg, ss[w.find], w.t, ss[w.find + 1], tag, id);
    IdleStays(cfg, ss, steps, w.t, w.find + 1, w.touch);
    RunKeepsInv(cfg, ss, steps, w.touch);
    TouchRenews(cfg, ss[w.touch], w.t, ss[w.touch + 1], tag, id);
    FreshOnRun(cfg, ss, steps, w.touch + 1, k, tag, id, ss[w.touch].now);
    ClockOnRun(cfg, ss, steps, k, w.reserve);
  }

  lemma UntilCreate(cfg: Config, ss: seq<State>, steps: seq<Step>, tag: Ref, i: nat, w: Course, k: nat)
    requires Handoff(cfg, ss, steps, tag, i, w)
    requires w.reserve < k <= w.create
    ensures Resolve(ss[k], tag) == Some(ss[i].used[tag].id)
    ensures At(ss[k], w.t) && ss[k].pcs[w.t] == CreateCtr(tag, ss[i].used[tag].id, true)
  {
    var id := ss[i].used[tag].id;
    UntilReserve(cfg, ss, steps, tag, i, w, w.reserve);
    ReservesCurrent(cfg, ss[w.reserve], w.t, ss[w.reserve + 1], tag, id);
    ReservationProtects(cfg, ss, steps, w.t, w.reserve + 1, k, tag, id);
  }

  /** No gap: a content tag with a completed use stands for the same image in every state up to the
      end of the container created from it, if the touch and the reservation are timely.  The
      container is then one created from that image under its reservation. */
  lemma GapFreeHandoff(cfg: Config, ss: seq<State>, steps: seq<Step>, tag: Ref, i: nat, w: Course)
    requires Handoff(cfg, ss, steps, tag, i, w)
    ensures forall k | i <= k <= w.end :: Resolve(ss[k], tag) == Some(ss[i].used[tag].id)
    ensures ss[w.end].ctrs[w.c] == Ctr(ss[i].used[tag].id, tag, true)
  {
    var id := ss[i].used[tag].id;
    UntilCreate(cfg, ss, steps, tag, i, w, w.create);
    CreatesHeld(cfg, ss[w.create], w.t, w.c, ss[w.create + 1], tag, id);
    CtrOnRun(cfg, ss, steps, w.create + 1, w.end, w.c);
    forall k | i <= k <= w.end ensures Resolve(ss[k], tag) == Some(id) {
      if k <= w.touch {
        UntilTouch(cfg, ss, steps, tag, i, w, k);
      } else if k <= w.reserve {
        UntilReserve(cfg, ss, steps, tag, i, w, k);
      } else if k <= w.create {
        UntilCreate(cfg, ss, steps, tag, i, w, k);
      } else {
        ContainerProtects(cfg, ss, steps, w.create + 1, k, w.c, tag, id);
      }
    }
  }

  // ---------- From the build on ----------

  /** Thread `t` builds `tag` as image `id` at state `built`, records it and saves. */
  datatype Making = Making(t: Tid, built: nat, recorded: nat, saved: nat)

  ghost predicate Makes(ss: seq<State>, steps: seq<Step>, tag: Ref, id: ImageId, m: Making)
    requires |ss| == |steps| + 1
  {
    && m.built < m.recorded < m.saved < |steps|
    && steps[m.built] == Building(m.t, BuildOk(id)) && Builds(ss[m.built], steps[m.built], tag)
    && Idle(steps, m.t, m.built + 1, m.recorded) && steps[m.recorded] == Building(m.t, RecordBuilt)
    && Idle(steps, m.t, m.recorded + 1, m.saved) && steps[m.saved] == Flush(m.t)
  }

  lemma BuildComesToRecord(cfg: Config, s: State, t: Tid, id: ImageId, s': State)
    requires Next(cfg, s, Building(t, BuildOk(id)), s')
    ensures At(s', t) && s'.pcs[t] == RecordBuild(s.pcs[t].job, s.pcs[t].gate, id)
  {
  }

  lemma RecordingStaysPut(cfg: Config, s: State, t: Tid, s': State)
    requires Next(cfg, s, Building(t, RecordBuilt), s') && s.pcs[t].RecordBuild?
    ensures s'.pcs == s.pcs
  {
  }

  lemma SavingKeepsTags(cfg: Config, s: State, t: Tid, s': State)
    requires Next(cfg, s, Flush(t), s')
    ensures s'.tags == s.tags
  {
  }

  lemma MakerStays(cfg: Config, ss: seq<State>, steps: seq<Step>, tag: Ref, id: ImageId, m: Making, k: nat)
    requires Run(cfg, ss, steps) && Makes(ss, steps, tag, id, m) && m.built < k <= m.saved
    ensures At(ss[k], m.t) && ss[k].pcs[m.t].RecordBuild? && ss[k].pcs[m.t].job.tag == tag && ss[k].pcs[m.t].id == id
  {
    BuildComesToRecord(cfg, ss[m.built], m.t, id, ss[m.built + 1]);
    if k <= m.recorded {
      IdleStays(cfg, ss, steps, m.t, m.built + 1, k);
    } else {
      IdleStays(cfg, ss, steps, m.t, m.built + 1, m.recorded);
      RecordingStaysPut(cfg, ss[m.recorded], m.t, ss[m.recorded + 1]);
      IdleStays(cfg, ss, steps, m.t, m.recorded + 1, k);
    }
  }

  /** The gate protects a new image until its record is saved: then it is a completed use. */
  lemma GateProtects(cfg: Config, ss: seq<State>, steps: seq<Step>, tag: Ref, id: ImageId, m: Making)
    requires Run(cfg, ss, steps) && Makes(ss, steps, tag, id, m)
    ensures ContentTag(cfg, tag) && forall k | m.built < k <= m.saved + 1 :: Resolve(ss[k], tag) == Some(id)
    ensures tag in ss[m.saved + 1].used && ss[m.saved + 1].used[tag] == Use(tag, id, ss[m.recorded].now)
  {
    forall k | m.built < k <= m.saved ensures Resolve(ss[k], tag) == Some(id) && ContentTag(cfg, tag) {
      MakerStays(cfg, ss, steps, tag, id, m, k);
      RunKeepsInv(cfg, ss, steps, k);
      assert ThreadOk(cfg, ss[k], m.t);
    }
    SavingKeepsTags(cfg, ss[m.saved], m.t, ss[m.saved + 1]);
    MakerStays(cfg, ss, steps, tag, id, m, m.recorded);
    RecordedBuildIsAUse(cfg, ss, steps, m.recorded, m.saved, m.t);
  }

  lemma FromBuildOn(cfg: Config, ss: seq<State>, steps: seq<Step>, tag: Ref, id: ImageId, m: Making, w: Course, k: nat)
    requires Run(cfg, ss, steps) && Makes(ss, steps, tag, id, m) && Handoff(cfg, ss, steps, tag, m.saved + 1, w)
    requires m.built < k <= w.end
    ensures Resolve(ss[k], tag) == Some(id)
  {
    GateProtects(cfg, ss, steps, tag, id, m);
    if k > m.saved + 1 {
      GapFreeHandoff(cfg, ss, steps, tag, m.saved + 1, w);
    }
  }

  /** From the build to the end of a container created from it, the tag stands for the image built, in
      every state: by the gate, the grace period, the touch, the reservation and the container. */
  lemma FromBuildToContainer(cfg: Config, ss: seq<State>, steps: seq<Step>, tag: Ref, id: ImageId, m: Making, w: Course)
    requires Run(cfg, ss, steps) && Makes(ss, steps, tag, id, m) && Handoff(cfg, ss, steps, tag, m.saved + 1, w)
    ensures forall k | m.built < k <= w.end :: Resolve(ss[k], tag) == Some(id)
    ensures ss[w.end].ctrs[w.c] == Ctr(id, tag, true)
  {
    forall k | m.built < k <= w.end ensures Resolve(ss[k], tag) == Some(id) {
      FromBuildOn(cfg, ss, steps, tag, id, m, w, k);
    }
    GateProtects(cfg, ss, steps, tag, id, m);
    GapFreeHandoff(cfg, ss, steps, tag, m.saved + 1, w);
  }
}
