/** What a content tag stands for.

In Docker, in memory and in the file a content tag has one image id, and its labels are the ones
the reuse check asks for; a build of it starts only when it is in none of the three. */
module CacheIdentity {
  import opened Inventory
  import opened CacheKey
  import opened CacheProtocol
  import opened CacheGates

  // ---------- The invariants ----------

  /** Docker, the inventory and its file agree on a content tag, unless a process has read the file
      again after one that could not; what the file may not agree with are that process's builds. */
  ghost predicate TagOk(cfg: Config, s: State, ref: Ref) {
    && (ref in s.reading.drafts ==>
          ContentTag(cfg, ref) && ref in s.tags && ref in s.disk && s.disk[ref].imageId != s.tags[ref].id)
    && (ContentTag(cfg, ref) && ref in s.tags ==>
          && Matches(s.tags[ref].labels, BuiltLabels(cfg.brokerId, ref))
          && (!s.reading.torn && ref in s.records ==> s.records[ref].imageId == s.tags[ref].id)
          && (!s.reading.torn && ref in s.disk && ref !in s.reading.drafts ==>
                s.disk[ref].imageId == s.tags[ref].id))
  }

  ghost predicate JobOk(cfg: Config, job: Job) {
    ContentTag(cfg, job.tag) && job.want == BuiltLabels(cfg.brokerId, job.tag)
  }

  predicate HasJob(pc: Pc) {
    pc.EnterGate? || pc.AwaitGate? || pc.LeaveGate? || Inside(pc)
  }

  /** What a thread knows of the tag it builds, or of the reference it pulled. */
  ghost predicate PcOk(cfg: Config, s: State, pc: Pc) {
    && (HasJob(pc) ==> JobOk(cfg, pc.job))
    && (pc.BuildGc? || pc.Build? ==>
          && pc.job.tag !in s.tags && pc.job.tag !in s.records
          && (pc.job.tag in s.disk ==> s.reading.unread))
    && (pc.RecordBuild? ==> pc.job.tag in s.tags && s.tags[pc.job.tag].id == pc.id)
    && (pc.RecordPull? ==> !ContentTag(cfg, pc.ref))
  }

  ghost predicate ThreadOk(cfg: Config, s: State, t: Tid) {
    t in s.pcs ==> PcOk(cfg, s, s.pcs[t])
  }

  /** What the lock's holder has learnt still holds. */
  ghost predicate HolderOk(s: State) {
    && LockOk(s)
    && (s.lock.Reusing? ==>
          var tag := s.pcs[s.lock.tid].job.tag;
          && (s.lock.found.Some? <==> tag in s.tags)
          && (s.lock.found.Some? ==> s.lock.found.value == s.tags[tag]))
    && (s.lock.Saving? && s.lock.next.value.BuildGc? ==>
          s.lock.next.value.job.tag !in s.tags && s.lock.next.value.job.tag !in s.records)
    && (s.lock.Listing? || Sweeping(s.lock) ==> !s.reading.unread && s.reading.drafts == {})
    && (s.lock.Deleting? || s.lock.Forgetting? ==>
          s.lock.gc.todo != [] && s.lock.gc.todo[0].reference !in s.gates)
  }

  /** The inventory as it is, or as it was before the one operation being saved. */
  function Settled(s: State): Records {
    if s.lock.Saving? || s.lock.Flushing? then s.lock.before else s.records
  }

  /** The file holds that inventory; while it is unread, there is none. */
  ghost predicate DiskOk(s: State) {
    if s.reading.unread then Settled(s) == map[] else s.disk == Settled(s) && s.reading.drafts == {}
  }

  ghost predicate IdentityOk(cfg: Config, s: State) {
    && DiskOk(s) && HolderOk(s)
    && (forall ref :: TagOk(cfg, s, ref))
    && (forall t :: ThreadOk(cfg, s, t))
  }

  /** The two threads inside gates of one tag are one thread. */
  lemma OneInside(s: State, t: Tid, u: Tid)
    requires GatesOk(s) && At(s, t) && At(s, u) && Inside(s.pcs[t]) && Inside(s.pcs[u])
    requires s.pcs[t].job.tag == s.pcs[u].job.tag
    ensures t == u
  {
    var seats := Seats(s.pcs);
    assert t in seats && u in seats;
    assert s.holders[seats[t].gate] == t && s.holders[seats[u].gate] == u;
  }

  lemma GatedWhileCounted(s: State, t: Tid)
    requires GatesOk(s) && At(s, t) && GateOf(s.pcs[t]).Seated?
    ensures s.pcs[t].job.tag in s.gates && s.gates[s.pcs[t].job.tag].gate == s.pcs[t].gate
  {
    assert t in Seats(s.pcs);
  }

  /** A thread that stays put keeps what it knows of its tag, if the tag stays as it is. */
  lemma StillThread(cfg: Config, s: State, s': State, u: Tid)
    requires ThreadOk(cfg, s, u)
    requires u in s'.pcs ==> u in s.pcs && s'.pcs[u] == s.pcs[u]
    requires u in s'.pcs && (s'.pcs[u].BuildGc? || s'.pcs[u].Build?) ==>
               var tag := s'.pcs[u].job.tag;
               && (tag in s'.tags ==> tag in s.tags)
               && (tag in s'.records ==> tag in s.records)
               && (tag in s'.disk ==> tag in s.records || (tag in s.disk && s'.reading.unread == s.reading.unread))
    requires u in s'.pcs && s'.pcs[u].RecordBuild? ==>
               var tag := s'.pcs[u].job.tag; tag in s.tags ==> tag in s'.tags && s'.tags[tag] == s.tags[tag]
    ensures ThreadOk(cfg, s', u)
  {
  }

  // ---------- build_image ----------

  lemma BuildKeepsDisk(cfg: Config, s: State, t: Tid, act: BuildAct, s': State)
    requires DiskOk(s) && ThreadOk(cfg, s, t)
    requires At(s, t) && BuildEnabled(s, t, act) && BuildStep(cfg, s, t, act, s')
    ensures DiskOk(s')
  {
  }

  lemma BuildKeepsTag(cfg: Config, s: State, t: Tid, act: BuildAct, s': State, ref: Ref)
    requires HolderOk(s) && ThreadOk(cfg, s, t) && TagOk(cfg, s, ref)
    requires At(s, t) && BuildEnabled(s, t, act) && BuildStep(cfg, s, t, act, s')
    ensures TagOk(cfg, s', ref)
  {
  }

  lemma BuildKeepsOwnThread(cfg: Config, s: State, t: Tid, act: BuildAct, s': State)
    requires HolderOk(s) && DiskOk(s) && ThreadOk(cfg, s, t)
    requires At(s, t) && BuildEnabled(s, t, act) && BuildStep(cfg, s, t, act, s')
    ensures ThreadOk(cfg, s', t)
  {
  }

  lemma BuildKeepsOtherThread(cfg: Config, s: State, t: Tid, act: BuildAct, s': State, u: Tid)
    requires GatesOk(s) && HolderOk(s) && ThreadOk(cfg, s, t) && ThreadOk(cfg, s, u) && u != t
    requires At(s, t) && BuildEnabled(s, t, act) && BuildStep(cfg, s, t, act, s')
    ensures ThreadOk(cfg, s', u)
  {
    if At(s, u) && Inside(s.pcs[u]) && s.pcs[u].job.tag == s.pcs[t].job.tag {
      OneInside(s, t, u);
    }
  }

  lemma BuildKeepsHolder(cfg: Config, s: State, t: Tid, act: BuildAct, s': State)
    requires GatesOk(s) && HolderOk(s) && ThreadOk(cfg, s, t)
    requires At(s, t) && BuildEnabled(s, t, act) && BuildStep(cfg, s, t, act, s')
    ensures HolderOk(s')
  {
    BuildKeepsLock(cfg, s, t, act, s');
    if act.BuildOk? && (s.lock.Reusing? || s.lock.Saving?) {
      var u := s.lock.tid;
      if Inside(s.pcs[u]) && s.pcs[u].job.tag == s.pcs[t].job.tag {
        OneInside(s, t, u);
      }
    }
  }

  // ---------- collect_if_needed ----------

  lemma GcVisitKeepsDisk(cfg: Config, s: State, t: Tid, act: GcAct, s': State)
    requires DiskOk(s) && (act.GcSkip? || act.GcInspect? || act.GcDelete?)
    requires At(s, t) && GcEnabled(cfg, s, t, act) && GcStep(cfg, s, t, act, s')
    ensures DiskOk(s')
  {
  }

  lemma GcKeepsDisk(cfg: Config, s: State, t: Tid, act: GcAct, s': State)
    requires DiskOk(s) && At(s, t) && GcEnabled(cfg, s, t, act) && GcStep(cfg, s, t, act, s')
    ensures DiskOk(s')
  {
    if act.GcSkip? || act.GcInspect? || act.GcDelete? {
      GcVisitKeepsDisk(cfg, s, t, act, s');
    }
  }

  lemma GcKeepsTag(cfg: Config, s: State, t: Tid, act: GcAct, s': State, ref: Ref)
    requires TagOk(cfg, s, ref) && HolderOk(s)
    requires At(s, t) && GcEnabled(cfg, s, t, act) && GcStep(cfg, s, t, act, s')
    ensures TagOk(cfg, s', ref)
  {
  }

  lemma GcKeepsOwnThread(cfg: Config, s: State, t: Tid, act: GcAct, s': State)
    requires ThreadOk(cfg, s, t)
    requires At(s, t) && GcEnabled(cfg, s, t, act) && GcStep(cfg, s, t, act, s')
    ensures ThreadOk(cfg, s', t)
  {
  }

  lemma GcSparesTag(cfg: Config, s: State, t: Tid, act: GcAct, s': State, ref: Ref)
    requires At(s, t) && GcEnabled(cfg, s, t, act) && GcStep(cfg, s, t, act, s') && HolderOk(s)
    ensures ref in s'.tags ==> ref in s.tags
    ensures ref in s'.records ==> ref in s.records
    ensures ref in s'.disk ==> ref in s.records || (ref in s.disk && s'.reading.unread == s.reading.unread)
    ensures ref in s.tags && ref in s.gates ==> ref in s'.tags && s'.tags[ref] == s.tags[ref]
  {
  }

  lemma GcMovesOne(cfg: Config, s: State, t: Tid, act: GcAct, s': State, u: Tid)
    requires At(s, t) && GcEnabled(cfg, s, t, act) && GcStep(cfg, s, t, act, s') && u != t
    ensures (u in s'.pcs <==> u in s.pcs) && (u in s.pcs ==> s'.pcs[u] == s.pcs[u])
  {
  }

  lemma GcKeepsHolder(cfg: Config, s: State, t: Tid, act: GcAct, s': State)
    requires DiskOk(s) && HolderOk(s)
    requires At(s, t) && GcEnabled(cfg, s, t, act) && GcStep(cfg, s, t, act, s')
    ensures HolderOk(s')
  {
    GcKeepsLock(cfg, s, t, act, s');
  }

  // ---------- create ----------

  lemma CreateKeepsDisk(cfg: Config, s: State, t: Tid, act: CreateAct, s': State)
    requires DiskOk(s) && At(s, t) && CreateEnabled(cfg, s, t, act) && CreateStep(cfg, s, t, act, s')
    ensures DiskOk(s') && s'.reading == s.reading
  {
  }

  lemma ResolveHasNoJob(cfg: Config, s: State, t: Tid, act: CreateAct, s': State)
    requires At(s, t) && CreateEnabled(cfg, s, t, act) && CreateStep(cfg, s, t, act, s')
    requires act.FindImage? || act.PullOk? || act.PullFail? || act.RecordPulled? || act.Touch?
    ensures t in s'.pcs ==> !HasJob(s'.pcs[t])
    ensures t in s'.pcs && s'.pcs[t].RecordPull? ==> !ContentTag(cfg, s'.pcs[t].ref) || s'.pcs[t] == s.pcs[t]
  {
  }

  lemma CreateHasNoJob(cfg: Config, s: State, t: Tid, act: CreateAct, s': State)
    requires At(s, t) && CreateEnabled(cfg, s, t, act) && CreateStep(cfg, s, t, act, s')
    ensures t in s'.pcs ==> !HasJob(s'.pcs[t])
    ensures t in s'.pcs && s'.pcs[t].RecordPull? ==> !ContentTag(cfg, s'.pcs[t].ref) || s'.pcs[t] == s.pcs[t]
  {
    if act.FindImage? || act.PullOk? || act.PullFail? || act.RecordPulled? || act.Touch? {
      ResolveHasNoJob(cfg, s, t, act, s');
    }
  }

  lemma CreateSparesTag(cfg: Config, s: State, t: Tid, act: CreateAct, s': State, ref: Ref)
    requires At(s, t) && CreateEnabled(cfg, s, t, act) && CreateStep(cfg, s, t, act, s')
    requires ThreadOk(cfg, s, t) && ContentTag(cfg, ref)
    ensures ref in s'.tags <==> ref in s.tags
    ensures ref in s.tags ==> s'.tags[ref] == s.tags[ref]
    ensures ref in s'.records ==> ref in s.records && s'.records[ref].imageId == s.records[ref].imageId
    ensures s'.disk == s.disk && s'.reading == s.reading
  {
  }

  lemma CreateMovesOne(cfg: Config, s: State, t: Tid, act: CreateAct, s': State, u: Tid)
    requires At(s, t) && CreateEnabled(cfg, s, t, act) && CreateStep(cfg, s, t, act, s') && u != t
    ensures (u in s'.pcs <==> u in s.pcs) && (u in s.pcs ==> s'.pcs[u] == s.pcs[u])
  {
  }

  lemma ResolveKeepsHolder(cfg: Config, s: State, t: Tid, act: CreateAct, s': State)
    requires HolderOk(s) && LockOk(s') && (!s.lock.Unlocked? ==> ThreadOk(cfg, s, s.lock.tid))
    requires At(s, t) && CreateEnabled(cfg, s, t, act) && CreateStep(cfg, s, t, act, s')
    requires act.FindImage? || act.PullOk? || act.PullFail? || act.RecordPulled? || act.Touch?
    ensures HolderOk(s')
  {
  }

  lemma CreateKeepsHolder(cfg: Config, s: State, t: Tid, act: CreateAct, s': State)
    requires HolderOk(s) && (!s.lock.Unlocked? ==> ThreadOk(cfg, s, s.lock.tid))
    requires At(s, t) && CreateEnabled(cfg, s, t, act) && CreateStep(cfg, s, t, act, s')
    ensures HolderOk(s')
  {
    CreateKeepsLock(cfg, s, t, act, s');
    if act.FindImage? || act.PullOk? || act.PullFail? || act.RecordPulled? || act.Touch? {
      ResolveKeepsHolder(cfg, s, t, act, s');
    }
  }

  // ---------- The other steps ----------

  lemma GatingKeepsIdentity(cfg: Config, s: State, t: Tid, act: GateAct, s': State)
    requires IdentityOk(cfg, s) && At(s, t) && GateEnabled(s, t, act) && GateStep(s, t, act, s')
    ensures IdentityOk(cfg, s')
  {
    GatingKeepsLock(s, t, act, s');
    forall ref ensures TagOk(cfg, s', ref) {
      assert TagOk(cfg, s, ref);
    }
    forall u ensures ThreadOk(cfg, s', u) {
      assert ThreadOk(cfg, s, u) && ThreadOk(cfg, s, t);
    }
  }

  lemma BeginsWithJob(cfg: Config, task: Task)
    requires task.BuildTask? && ':' !in task.key
    ensures JobOk(cfg, FirstPc(cfg, task).job)
  {
    BuiltLabelsAreKeyLabels(cfg.brokerId, task.key);
  }

  lemma OthersKeepHolder(cfg: Config, s: State, step: Step, s': State)
    requires DiskOk(s) && HolderOk(s) && OtherEnabled(s, step) && OtherStep(cfg, s, step, s')
    ensures DiskOk(s') && HolderOk(s')
  {
    OthersKeepLock(cfg, s, step, s');
  }

  lemma OthersKeepTag(cfg: Config, s: State, step: Step, s': State, ref: Ref)
    requires TagOk(cfg, s, ref) && OtherEnabled(s, step) && OtherStep(cfg, s, step, s')
    ensures TagOk(cfg, s', ref)
  {
  }

  lemma OthersKeepThread(cfg: Config, s: State, step: Step, s': State, u: Tid)
    requires DiskOk(s) && HolderOk(s) && ThreadOk(cfg, s, u)
    requires OtherEnabled(s, step) && OtherStep(cfg, s, step, s')
    ensures ThreadOk(cfg, s', u)
  {
    if step.Begin? && step.task.BuildTask? {
      BeginsWithJob(cfg, step.task);
    }
  }

  lemma OthersKeepIdentity(cfg: Config, s: State, step: Step, s': State)
    requires IdentityOk(cfg, s) && OtherEnabled(s, step) && OtherStep(cfg, s, step, s')
    ensures IdentityOk(cfg, s')
  {
    OthersKeepHolder(cfg, s, step, s');
    forall ref ensures TagOk(cfg, s', ref) {
      OthersKeepTag(cfg, s, step, s', ref);
    }
    forall u ensures ThreadOk(cfg, s', u) {
      OthersKeepThread(cfg, s, step, s', u);
    }
  }

  lemma CrashKeepsIdentity(cfg: Config, s: State, readable: bool, s': State)
    requires IdentityOk(cfg, s) && Crashing(s, readable, s')
    ensures IdentityOk(cfg, s')
  {
    forall ref ensures TagOk(cfg, s', ref) {
      assert TagOk(cfg, s, ref);
    }
  }

  lemma TickKeepsIdentity(cfg: Config, s: State, d: nat, s': State)
    requires IdentityOk(cfg, s) && Ticking(s, d, s')
    ensures IdentityOk(cfg, s')
  {
    forall ref ensures TagOk(cfg, s', ref) {
      assert TagOk(cfg, s, ref);
    }
    forall u ensures ThreadOk(cfg, s', u) {
      assert ThreadOk(cfg, s, u);
    }
  }
}
