/** What one step of the cache machine can and cannot do. */
module CacheSteps {
  import opened Inventory
  import opened CacheProtocol
  import opened CacheIdentity
  import opened CacheProtection
  import opened CacheInvariant

  predicate Moves(step: Step, t: Tid) {
    !step.Tick? && !step.Crash? && step.t == t
  }

  /** A successful Docker build of a tag. */
  predicate Builds(s: State, step: Step, tag: Ref) {
    step.Building? && step.build.BuildOk? && At(s, step.t) && s.pcs[step.t].Build? && s.pcs[step.t].job.tag == tag
  }

  /** A successful pull of a reference. */
  predicate Pulls(s: State, step: Step, ref: Ref) {
    step.Creating? && step.create.PullOk? && At(s, step.t) && s.pcs[step.t].Pull? && s.pcs[step.t].ref == ref
  }

  /** The reuse of an image found in Docker under a build's tag, with the labels of that build. */
  predicate Adopts(s: State, step: Step, tag: Ref) {
    && step.Building? && step.build.Decide? && At(s, step.t) && s.pcs[step.t].Reuse? && s.pcs[step.t].job.tag == tag
    && tag in s.tags && Matches(s.tags[tag].labels, s.pcs[step.t].job.want)
  }

  /** The removal of a reference from Docker by the collector. */
  predicate Collects(s: State, step: Step, ref: Ref) {
    && step.Gc? && step.gc == GcDelete(true)
    && s.lock.Deleting? && s.lock.gc.todo != [] && s.lock.gc.todo[0].reference == ref
  }

  /** The image that a step acquires for a reference. */
  ghost predicate Acquires(s: State, step: Step, ref: Ref, id: ImageId) {
    || (Pulls(s, step, ref) && step.create.image.id == id)
    || (Builds(s, step, ref) && step.build.id == id)
    || (Adopts(s, step, ref) && s.tags[ref].id == id)
  }

  lemma OnlyCollectionUntags(cfg: Config, s: State, step: Step, s': State, ref: Ref)
    requires Next(cfg, s, step, s') && ref in s.tags && ref !in s'.tags
    ensures Collects(s, step, ref)
  {
  }

  lemma BuildAcquires(cfg: Config, s: State, t: Tid, act: BuildAct, s': State, ref: Ref, id: ImageId)
    requires HolderOk(s) && ThreadAcquired(s, t)
    requires At(s, t) && BuildEnabled(s, t, act) && BuildStep(cfg, s, t, act, s')
    requires (ref, id) !in s.acquired && (ref, id) in s'.acquired
    ensures Acquires(s, Building(t, act), ref, id)
  {
  }

  lemma OnlyAcquisitionsAcquire(cfg: Config, s: State, step: Step, s': State, ref: Ref, id: ImageId)
    requires HolderOk(s) && AcquiredOk(s) && Next(cfg, s, step, s')
    requires (ref, id) !in s.acquired && (ref, id) in s'.acquired
    ensures Acquires(s, step, ref, id)
  {
    if step.Building? {
      assert ThreadAcquired(s, step.t);
      BuildAcquires(cfg, s, step.t, step.build, s', ref, id);
    }
  }

  lemma ClockNeverGoesBack(cfg: Config, s: State, step: Step, s': State)
    requires Next(cfg, s, step, s')
    ensures s.now <= s'.now
  {
  }

  lemma OnlyOwnStepsMove(cfg: Config, s: State, step: Step, s': State, t: Tid)
    requires Next(cfg, s, step, s') && !step.Crash? && !Moves(step, t)
    ensures t in s'.pcs <==> t in s.pcs
    ensures t in s.pcs ==> s'.pcs[t] == s.pcs[t]
  {
    if step.Building? {
      BuildMovesOne(cfg, s, step.t, step.build, s', t);
    } else if step.Gc? {
      GcMovesOne(cfg, s, step.t, step.gc, s', t);
    } else if step.Creating? {
      CreateMovesOne(cfg, s, step.t, step.create, s', t);
    }
  }

  lemma ContainersStayTheSame(cfg: Config, s: State, step: Step, s': State, c: CtrId)
    requires Next(cfg, s, step, s') && c in s.ctrs && c in s'.ctrs
    ensures s'.ctrs[c] == s.ctrs[c]
  {
  }

  lemma OthersKeepFresh(cfg: Config, s: State, step: Step, s': State, ref: Ref, id: ImageId, at: Time)
    requires Next(cfg, s, step, s') && (step.Tick? || step.Gating? || step.Begin? || step.Flush? || step.Removing?)
    requires at <= s.now && Fresh(cfg, s, ref, id, at)
    ensures Fresh(cfg, s', ref, id, at)
  {
  }

  /** A recent use of a content tag goes on protecting it, whatever step comes next. */
  lemma StepKeepsFresh(cfg: Config, s: State, step: Step, s': State, ref: Ref, id: ImageId, at: Time)
    requires Inv(cfg, s) && Next(cfg, s, step, s') && !step.Crash?
    requires ContentTag(cfg, ref) && at <= s.now && Fresh(cfg, s, ref, id, at)
    ensures Fresh(cfg, s', ref, id, at)
  {
    if step.Building? {
      assert ThreadOk(cfg, s, step.t);
      BuildKeepsFresh(cfg, s, step.t, step.build, s', ref, id, at);
    } else if step.Gc? {
      GcKeepsFresh(cfg, s, step.t, step.gc, s', ref, id, at);
    } else if step.Creating? {
      assert ThreadOk(cfg, s, step.t);
      CreateKeepsFresh(cfg, s, step.t, step.create, s', ref, id, at);
    } else {
      OthersKeepFresh(cfg, s, step, s', ref, id, at);
    }
  }

  /** A use that has reached the file protects its tag across crashes too. */
  ghost predicate Kept(cfg: Config, s: State, ref: Ref, id: ImageId, at: Time) {
    && Fresh(cfg, s, ref, id, at)
    && (s.now - at < cfg.minAge && ref in s.disk ==> s.disk[ref].lastUsed >= at)
  }

  lemma OnlySavesWrite(cfg: Config, s: State, step: Step, s': State, ref: Ref)
    requires Next(cfg, s, step, s') && ref in s'.disk
    ensures (ref in s.disk && s'.disk[ref] == s.disk[ref]) || (ref in s.records && s'.disk[ref] == s.records[ref])
  {
  }

  lemma StepKeepsKept(cfg: Config, s: State, step: Step, s': State, ref: Ref, id: ImageId, at: Time)
    requires Inv(cfg, s) && Next(cfg, s, step, s')
    requires ContentTag(cfg, ref) && at <= s.now && Kept(cfg, s, ref, id, at)
    ensures Kept(cfg, s', ref, id, at)
  {
    ClockNeverGoesBack(cfg, s, step, s');
    if ref in s'.disk {
      OnlySavesWrite(cfg, s, step, s', ref);
    }
    if !step.Crash? {
      StepKeepsFresh(cfg, s, step, s', ref, id, at);
    }
  }
}
