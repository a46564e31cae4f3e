/** What keeps an image in Docker from its last use to the end of its last container.

The protection passes from the grace age of a use, through the touch and the reservation of a
`create`, to the container itself; a running collection has frozen whatever it relies on. */
module CacheProtection {
  import opened Inventory
  import opened CacheKey
  import opened CacheProtocol
  import opened CacheGates
  import opened CacheIdentity

  // ---------- The invariants ----------

  /** A use of `id` under `ref` at instant `at` still protects the tag, if it is recent enough. */
  ghost predicate Fresh(cfg: Config, s: State, ref: Ref, id: ImageId, at: Time) {
    s.now - at < cfg.minAge ==>
      && Resolve(s, ref) == Some(id)
      && (ref in s.records ==> s.records[ref].lastUsed >= at)
  }

  /** The first record of `todo` that is still in the inventory. */
  function Start(lock: Lock): nat {
    if lock.Flushing? then 1 else 0
  }

  /** While a collection runs: it will visit stored records only, every reservation is in its set of
      active images, and so is the image of every container it has listed, and of every container
      created under a reservation, whenever it was created. */
  ghost predicate SweepOk(s: State) {
    Sweeping(s.lock) ==>
      && (!s.lock.Scanning? ==> s.lock.gc.todo != [])
      && DistinctReferences(s.lock.gc.todo)
      && (forall i | Start(s.lock) <= i < |s.lock.gc.todo| ::
            var r := s.lock.gc.todo[i]; r.reference in s.records && s.records[r.reference] == r)
      && (forall id | id in s.reservations :: id in s.lock.gc.active)
      && (forall c | c in s.ctrs && (s.ctrs[c].held || c in s.lock.gc.listed) :: s.ctrs[c].image in s.lock.gc.active)
  }

  /** What the reference of the inspected record stands for: the recorded image, or the last one
      pulled since. */
  function Standing(s: State, r: CachedImage): ImageId
    requires s.lock.Deleting?
  {
    var pulled := PulledFor(s, r.reference);
    if |pulled| > s.lock.epoch then pulled[|pulled| - 1] else r.imageId
  }

  /** The record about to be removed is old, unused, and, unless pulled again since it was inspected,
      still what its reference stands for. */
  ghost predicate DoomedOk(cfg: Config, s: State) {
    s.lock.Deleting? && s.lock.gc.todo != [] ==>
      var r := s.lock.gc.todo[0];
      && !Young(cfg, s, r) && r.imageId !in s.lock.gc.active && s.lock.epoch <= |PulledFor(s, r.reference)|
      && (|PulledFor(s, r.reference)| > s.lock.epoch ==> !ContentTag(cfg, r.reference))
      && Resolve(s, r.reference) == Some(Standing(s, r))
  }

  /** No instant on record lies in the future. */
  ghost predicate RecordTimes(s: State) {
    && (forall ref | ref in s.records :: s.records[ref].lastUsed <= s.now)
    && (forall ref | ref in s.disk :: s.disk[ref].lastUsed <= s.now)
  }

  /** A young record of a content tag resolves, in memory and in the file. */
  ghost predicate YoungOk(cfg: Config, s: State, ref: Ref) {
    ContentTag(cfg, ref) ==>
      && (ref in s.records && Young(cfg, s, s.records[ref]) ==> ref in s.tags)
      && (ref in s.disk && Young(cfg, s, s.disk[ref]) ==> ref in s.tags)
  }

  /** Between its removal from Docker and from memory. */
  predicate HalfRemoved(s: State, ref: Ref) {
    s.lock.Forgetting? && s.lock.gc.todo != [] && s.lock.gc.todo[0].reference == ref
  }

  /** What a thread of `create` may rely on, for a content tag. */
  ghost predicate UserOk(cfg: Config, s: State, pc: Pc) {
    && ((pc.TouchImage? || pc.ReserveImage?) && ContentTag(cfg, pc.ref) ==>
          pc.since <= s.now && Fresh(cfg, s, pc.ref, pc.id, pc.since))
    && (pc.TouchImage? && ContentTag(cfg, pc.ref) && pc.ref in s.records ==>
          && (pc.ref in s.tags || HalfRemoved(s, pc.ref))
          && (pc.ref in s.tags && s.records[pc.ref].imageId == pc.id ==> s.tags[pc.ref].id == pc.id))
    && (pc.CreateCtr? && ContentTag(cfg, pc.ref) && pc.current ==> Resolve(s, pc.ref) == Some(pc.id))
  }

  ghost predicate ThreadSafe(cfg: Config, s: State, t: Tid) {
    t in s.pcs ==> UserOk(cfg, s, s.pcs[t])
  }

  ghost predicate UseOk(cfg: Config, s: State, use: Use) {
    ContentTag(cfg, use.ref) ==> use.at <= s.now && Fresh(cfg, s, use.ref, use.id, use.at)
  }

  ghost predicate SavingOk(cfg: Config, s: State) {
    s.lock.Saving? ==>
      && (s.lock.next.Some? && s.lock.next.value.ReserveImage? ==> UserOk(cfg, s, s.lock.next.value))
      && (s.lock.use.Some? ==> UseOk(cfg, s, s.lock.use.value))
  }

  /** The last completed use of a tag, which a crash does not undo. */
  ghost predicate UsedOk(cfg: Config, s: State, ref: Ref) {
    ref in s.used && ContentTag(cfg, ref) ==>
      && s.used[ref].ref == ref && UseOk(cfg, s, s.used[ref])
      && (s.now - s.used[ref].at < cfg.minAge && ref in s.disk ==> s.disk[ref].lastUsed >= s.used[ref].at)
  }

  /** A container created under its image's reservation keeps the tag it was created from. */
  ghost predicate CtrOk(cfg: Config, s: State, c: CtrId) {
    c in s.ctrs && s.ctrs[c].held && ContentTag(cfg, s.ctrs[c].from) ==>
      Resolve(s, s.ctrs[c].from) == Some(s.ctrs[c].image)
  }

  ghost predicate ProtectionOk(cfg: Config, s: State) {
    && SweepOk(s) && DoomedOk(cfg, s) && RecordTimes(s) && SavingOk(cfg, s)
    && (forall ref :: YoungOk(cfg, s, ref))
    && (forall ref :: UsedOk(cfg, s, ref))
    && (forall t :: ThreadSafe(cfg, s, t))
    && (forall c :: CtrOk(cfg, s, c))
  }

  // ---------- A recent use survives each step ----------

  lemma BuildKeepsFresh(cfg: Config, s: State, t: Tid, act: BuildAct, s': State, ref: Ref, id: ImageId, at: Time)
    requires HolderOk(s) && ThreadOk(cfg, s, t)
    requires At(s, t) && BuildEnabled(s, t, act) && BuildStep(cfg, s, t, act, s')
    requires ContentTag(cfg, ref) && at <= s.now && Fresh(cfg, s, ref, id, at)
    ensures Fresh(cfg, s', ref, id, at)
  {
  }

  lemma GcKeepsFresh(cfg: Config, s: State, t: Tid, act: GcAct, s': State, ref: Ref, id: ImageId, at: Time)
    requires SweepOk(s) && DoomedOk(cfg, s)
    requires At(s, t) && GcEnabled(cfg, s, t, act) && GcStep(cfg, s, t, act, s')
    requires ContentTag(cfg, ref) && at <= s.now && Fresh(cfg, s, ref, id, at)
    ensures Fresh(cfg, s', ref, id, at)
  {
  }

  lemma CreateKeepsFresh(cfg: Config, s: State, t: Tid, act: CreateAct, s': State, ref: Ref, id: ImageId, at: Time)
    requires ThreadOk(cfg, s, t)
    requires At(s, t) && CreateEnabled(cfg, s, t, act) && CreateStep(cfg, s, t, act, s')
    requires ContentTag(cfg, ref) && at <= s.now && Fresh(cfg, s, ref, id, at)
    ensures Fresh(cfg, s', ref, id, at)
  {
  }

  // ---------- The running collection ----------

  lemma BuildKeepsSweep(cfg: Config, s: State, t: Tid, act: BuildAct, s': State)
    requires SweepOk(s)
    requires At(s, t) && BuildEnabled(s, t, act) && BuildStep(cfg, s, t, act, s')
    ensures SweepOk(s')
  {
  }

  lemma GcOpensSweep(cfg: Config, s: State, t: Tid, act: GcAct, s': State)
    requires At(s, t) && GcEnabled(cfg, s, t, act) && GcStep(cfg, s, t, act, s') && act.GcList?
    ensures SweepOk(s')
  {
  }

  lemma InspectKeepsSweep(cfg: Config, s: State, t: Tid, ok: bool, s': State)
    requires SweepOk(s) && At(s, t) && GcEnabled(cfg, s, t, GcInspect(ok)) && InspectStep(s, t, ok, s')
    ensures SweepOk(s')
  {
  }

  /** Visiting a record, up to its removal from Docker. */
  lemma GcVisitKeepsSweep(cfg: Config, s: State, t: Tid, act: GcAct, s': State)
    requires SweepOk(s) && (act.GcSkip? || act.GcInspect? || act.GcDelete?)
    requires At(s, t) && GcEnabled(cfg, s, t, act) && GcStep(cfg, s, t, act, s')
    ensures SweepOk(s')
  {
    if act.GcInspect? {
      InspectKeepsSweep(cfg, s, t, act.ok, s');
    }
  }

  lemma GcKeepsSweep(cfg: Config, s: State, t: Tid, act: GcAct, s': State)
    requires SweepOk(s) && !act.GcList?
    requires At(s, t) && GcEnabled(cfg, s, t, act) && GcStep(cfg, s, t, act, s')
    ensures SweepOk(s')
  {
    if act.GcSkip? || act.GcInspect? || act.GcDelete? {
      GcVisitKeepsSweep(cfg, s, t, act, s');
    }
  }

  lemma ContainersKeepSweep(cfg: Config, s: State, t: Tid, act: CreateAct, s': State)
    requires SweepOk(s) && At(s, t) && CreateEnabled(cfg, s, t, act) && CreateStep(cfg, s, t, act, s')
    requires ReservedBy(s.pcs[t]).Reserving? && Sweeping(s.lock) ==> s.pcs[t].id in s.lock.gc.active
    requires act.CreateOk? || act.StartFail?
    ensures SweepOk(s')
  {
  }

  lemma CreateKeepsSweep(cfg: Config, s: State, t: Tid, act: CreateAct, s': State)
    requires SweepOk(s) && ReservationsOk(s)
    requires At(s, t) && CreateEnabled(cfg, s, t, act) && CreateStep(cfg, s, t, act, s')
    ensures SweepOk(s')
  {
    assert ReservedBy(s.pcs[t]).Reserving? ==> t in Reservers(s.pcs);
    if act.CreateOk? || act.StartFail? {
      ContainersKeepSweep(cfg, s, t, act, s');
    }
  }

  lemma BuildKeepsDoomed(cfg: Config, s: State, t: Tid, act: BuildAct, s': State)
    requires GatesOk(s) && HolderOk(s) && DoomedOk(cfg, s)
    requires At(s, t) && BuildEnabled(s, t, act) && BuildStep(cfg, s, t, act, s')
    ensures DoomedOk(cfg, s')
  {
    if GateOf(s.pcs[t]).Seated? {
      GatedWhileCounted(s, t);
    }
  }

  lemma GcKeepsDoomed(cfg: Config, s: State, t: Tid, act: GcAct, s': State)
    requires SweepOk(s)
    requires At(s, t) && GcEnabled(cfg, s, t, act) && GcStep(cfg, s, t, act, s')
    ensures DoomedOk(cfg, s')
  {
  }

  lemma CreateKeepsDoomed(cfg: Config, s: State, t: Tid, act: CreateAct, s': State)
    requires DoomedOk(cfg, s)
    requires At(s, t) && CreateEnabled(cfg, s, t, act) && CreateStep(cfg, s, t, act, s')
    ensures DoomedOk(cfg, s')
  {
  }

  // ---------- Records ----------

  lemma BuildKeepsRecordTimes(cfg: Config, s: State, t: Tid, act: BuildAct, s': State)
    requires RecordTimes(s)
    requires At(s, t) && BuildEnabled(s, t, act) && BuildStep(cfg, s, t, act, s')
    ensures RecordTimes(s')
  {
  }

  lemma GcKeepsRecordTimes(cfg: Config, s: State, t: Tid, act: GcAct, s': State)
    requires RecordTimes(s)
    requires At(s, t) && GcEnabled(cfg, s, t, act) && GcStep(cfg, s, t, act, s')
    ensures RecordTimes(s')
  {
  }

  lemma CreateKeepsRecordTimes(cfg: Config, s: State, t: Tid, act: CreateAct, s': State)
    requires RecordTimes(s)
    requires At(s, t) && CreateEnabled(cfg, s, t, act) && CreateStep(cfg, s, t, act, s')
    ensures RecordTimes(s')
  {
  }

  lemma BuildKeepsYoung(cfg: Config, s: State, t: Tid, act: BuildAct, s': State, ref: Ref)
    requires HolderOk(s) && ThreadOk(cfg, s, t) && YoungOk(cfg, s, ref)
    requires At(s, t) && BuildEnabled(s, t, act) && BuildStep(cfg, s, t, act, s')
    ensures YoungOk(cfg, s', ref)
  {
  }

  lemma GcKeepsYoung(cfg: Config, s: State, t: Tid, act: GcAct, s': State, ref: Ref)
    requires DiskOk(s) && SweepOk(s) && DoomedOk(cfg, s) && YoungOk(cfg, s, ref)
    requires At(s, t) && GcEnabled(cfg, s, t, act) && GcStep(cfg, s, t, act, s')
    ensures YoungOk(cfg, s', ref)
  {
  }

  lemma CreateKeepsYoung(cfg: Config, s: State, t: Tid, act: CreateAct, s': State, ref: Ref)
    requires ThreadOk(cfg, s, t) && ThreadSafe(cfg, s, t) && YoungOk(cfg, s, ref)
    requires At(s, t) && CreateEnabled(cfg, s, t, act) && CreateStep(cfg, s, t, act, s')
    ensures YoungOk(cfg, s', ref)
  {
  }

  // ---------- Uses ----------

  lemma BuildKeepsUsed(cfg: Config, s: State, t: Tid, act: BuildAct, s': State, ref: Ref)
    requires HolderOk(s) && ThreadOk(cfg, s, t) && UsedOk(cfg, s, ref)
    requires At(s, t) && BuildEnabled(s, t, act) && BuildStep(cfg, s, t, act, s')
    ensures UsedOk(cfg, s', ref)
  {
    if ref in s.used && ContentTag(cfg, ref) {
      BuildKeepsFresh(cfg, s, t, act, s', ref, s.used[ref].id, s.used[ref].at);
    }
  }

  lemma GcKeepsUsed(cfg: Config, s: State, t: Tid, act: GcAct, s': State, ref: Ref)
    requires SweepOk(s) && DoomedOk(cfg, s) && UsedOk(cfg, s, ref)
    requires At(s, t) && GcEnabled(cfg, s, t, act) && GcStep(cfg, s, t, act, s')
    ensures UsedOk(cfg, s', ref)
  {
    if ref in s.used && ContentTag(cfg, ref) {
      GcKeepsFresh(cfg, s, t, act, s', ref, s.used[ref].id, s.used[ref].at);
    }
  }

  lemma CreateKeepsUsed(cfg: Config, s: State, t: Tid, act: CreateAct, s': State, ref: Ref)
    requires ThreadOk(cfg, s, t) && UsedOk(cfg, s, ref)
    requires At(s, t) && CreateEnabled(cfg, s, t, act) && CreateStep(cfg, s, t, act, s')
    ensures UsedOk(cfg, s', ref)
  {
    if ref in s.used && ContentTag(cfg, ref) {
      CreateKeepsFresh(cfg, s, t, act, s', ref, s.used[ref].id, s.used[ref].at);
    }
  }

  // ---------- Containers ----------

  lemma BuildKeepsCtr(cfg: Config, s: State, t: Tid, act: BuildAct, s': State, c: CtrId)
    requires ThreadOk(cfg, s, t) && CtrOk(cfg, s, c)
    requires At(s, t) && BuildEnabled(s, t, act) && BuildStep(cfg, s, t, act, s')
    ensures CtrOk(cfg, s', c)
  {
  }

  lemma GcKeepsCtr(cfg: Config, s: State, t: Tid, act: GcAct, s': State, c: CtrId)
    requires SweepOk(s) && DoomedOk(cfg, s) && CtrOk(cfg, s, c)
    requires At(s, t) && GcEnabled(cfg, s, t, act) && GcStep(cfg, s, t, act, s')
    ensures CtrOk(cfg, s', c)
  {
  }

  lemma CreateKeepsCtr(cfg: Config, s: State, t: Tid, act: CreateAct, s': State, c: CtrId)
    requires CtrOk(cfg, s, c)
    requires At(s, t) && CreateEnabled(cfg, s, t, act) && CreateStep(cfg, s, t, act, s')
    ensures CtrOk(cfg, s', c)
  {
  }

  // ---------- Threads of create ----------

  lemma BuildKeepsUser(cfg: Config, s: State, t: Tid, act: BuildAct, s': State, pc: Pc)
    requires HolderOk(s) && ThreadOk(cfg, s, t) && UserOk(cfg, s, pc)
    requires At(s, t) && BuildEnabled(s, t, act) && BuildStep(cfg, s, t, act, s')
    ensures UserOk(cfg, s', pc)
  {
    if (pc.TouchImage? || pc.ReserveImage?) && ContentTag(cfg, pc.ref) {
      BuildKeepsFresh(cfg, s, t, act, s', pc.ref, pc.id, pc.since);
    }
  }

  lemma GcKeepsUser(cfg: Config, s: State, t: Tid, act: GcAct, s': State, pc: Pc)
    requires HolderOk(s) && SweepOk(s) && DoomedOk(cfg, s) && UserOk(cfg, s, pc)
    requires pc.CreateCtr? && s.lock.Deleting? ==> pc.id in s.lock.gc.active
    requires At(s, t) && GcEnabled(cfg, s, t, act) && GcStep(cfg, s, t, act, s')
    ensures UserOk(cfg, s', pc)
  {
    if (pc.TouchImage? || pc.ReserveImage?) && ContentTag(cfg, pc.ref) {
      GcKeepsFresh(cfg, s, t, act, s', pc.ref, pc.id, pc.since);
    }
  }

  lemma CreateKeepsUser(cfg: Config, s: State, t: Tid, act: CreateAct, s': State, pc: Pc)
    requires ThreadOk(cfg, s, t) && UserOk(cfg, s, pc)
    requires At(s, t) && CreateEnabled(cfg, s, t, act) && CreateStep(cfg, s, t, act, s')
    ensures UserOk(cfg, s', pc)
  {
    if (pc.TouchImage? || pc.ReserveImage?) && ContentTag(cfg, pc.ref) {
      CreateKeepsFresh(cfg, s, t, act, s', pc.ref, pc.id, pc.since);
    }
  }

  lemma CreateKeepsOwnUser(cfg: Config, s: State, t: Tid, act: CreateAct, s': State)
    requires At(s, t) && CreateEnabled(cfg, s, t, act) && CreateStep(cfg, s, t, act, s')
    requires ThreadOk(cfg, s, t) && ThreadSafe(cfg, s, t) && RecordTimes(s)
    ensures ThreadSafe(cfg, s', t)
  {
    if act.Touch? {
      CreateKeepsUser(cfg, s, t, act, s', s.pcs[t]);
      var pc := s.pcs[t];
      CreateKeepsUser(cfg, s, t, act, s', ReserveImage(pc.ref, pc.id, pc.since));
    } else if act.RecordPulled? {
      CreateKeepsUser(cfg, s, t, act, s', s.pcs[t]);
    }
  }

  // ---------- What a save is about to complete ----------

  lemma BuildKeepsSaving(cfg: Config, s: State, t: Tid, act: BuildAct, s': State)
    requires At(s, t) && BuildEnabled(s, t, act) && BuildStep(cfg, s, t, act, s')
    requires HolderOk(s) && ThreadOk(cfg, s, t) && SavingOk(cfg, s)
    ensures SavingOk(cfg, s')
  {
    if s.lock.Saving? {
      if s.lock.next.value.ReserveImage? {
        BuildKeepsUser(cfg, s, t, act, s', s.lock.next.value);
      }
      if s.lock.use.Some? && ContentTag(cfg, s.lock.use.value.ref) {
        var use := s.lock.use.value;
        BuildKeepsFresh(cfg, s, t, act, s', use.ref, use.id, use.at);
      }
    }
  }

  lemma GcKeepsSaving(cfg: Config, s: State, t: Tid, act: GcAct, s': State)
    requires At(s, t) && GcEnabled(cfg, s, t, act) && GcStep(cfg, s, t, act, s')
    requires HolderOk(s)
    ensures SavingOk(cfg, s')
  {
  }

  lemma CreateStartsSaving(cfg: Config, s: State, t: Tid, act: CreateAct, s': State)
    requires At(s, t) && CreateEnabled(cfg, s, t, act) && CreateStep(cfg, s, t, act, s')
    requires act.Touch? || act.RecordPulled?
    requires ThreadOk(cfg, s, t) && ThreadSafe(cfg, s, t)
    ensures SavingOk(cfg, s')
  {
    if act.Touch? {
      var pc := s.pcs[t];
      CreateKeepsUser(cfg, s, t, act, s', ReserveImage(pc.ref, pc.id, pc.since));
    }
  }

  lemma CreateKeepsSaving(cfg: Config, s: State, t: Tid, act: CreateAct, s': State)
    requires At(s, t) && CreateEnabled(cfg, s, t, act) && CreateStep(cfg, s, t, act, s')
    requires !act.Touch? && !act.RecordPulled? && HolderOk(s) && ThreadOk(cfg, s, t) && SavingOk(cfg, s)
    ensures SavingOk(cfg, s')
  {
    if s.lock.Saving? {
      if s.lock.next.value.ReserveImage? {
        CreateKeepsUser(cfg, s, t, act, s', s.lock.next.value);
      }
      if s.lock.use.Some? && ContentTag(cfg, s.lock.use.value.ref) {
        var use := s.lock.use.value;
        CreateKeepsFresh(cfg, s, t, act, s', use.ref, use.id, use.at);
      }
    }
  }

  // ---------- The other steps ----------

  lemma GatingKeepsRecords(cfg: Config, s: State, t: Tid, act: GateAct, s': State, ref: Ref)
    requires YoungOk(cfg, s, ref) && UsedOk(cfg, s, ref)
    requires At(s, t) && GateEnabled(s, t, act) && GateStep(s, t, act, s')
    ensures YoungOk(cfg, s', ref) && UsedOk(cfg, s', ref)
  {
  }

  lemma GatingKeepsUsers(cfg: Config, s: State, t: Tid, act: GateAct, s': State, u: Tid)
    requires ThreadSafe(cfg, s, u) && At(s, t) && GateEnabled(s, t, act) && GateStep(s, t, act, s')
    ensures ThreadSafe(cfg, s', u)
  {
  }

  lemma GatingKeepsProtection(cfg: Config, s: State, t: Tid, act: GateAct, s': State)
    requires ProtectionOk(cfg, s) && At(s, t) && GateEnabled(s, t, act) && GateStep(s, t, act, s')
    ensures ProtectionOk(cfg, s')
  {
    forall ref ensures YoungOk(cfg, s', ref) && UsedOk(cfg, s', ref) {
      GatingKeepsRecords(cfg, s, t, act, s', ref);
    }
    forall u ensures ThreadSafe(cfg, s', u) {
      GatingKeepsUsers(cfg, s, t, act, s', u);
    }
    forall c ensures CtrOk(cfg, s', c) {
      assert CtrOk(cfg, s, c);
    }
  }

  lemma TickKeepsProtection(cfg: Config, s: State, d: nat, s': State)
    requires ProtectionOk(cfg, s) && Ticking(s, d, s')
    ensures ProtectionOk(cfg, s')
  {
    forall ref ensures YoungOk(cfg, s', ref) && UsedOk(cfg, s', ref) {
      assert YoungOk(cfg, s, ref) && UsedOk(cfg, s, ref);
    }
    forall u ensures ThreadSafe(cfg, s', u) {
      assert ThreadSafe(cfg, s, u);
    }
    forall c ensures CtrOk(cfg, s', c) {
      assert CtrOk(cfg, s, c);
    }
  }

  lemma OthersKeepSweep(cfg: Config, s: State, step: Step, s': State)
    requires SweepOk(s) && DoomedOk(cfg, s) && RecordTimes(s) && SavingOk(cfg, s)
    requires LockOk(s) && OtherEnabled(s, step) && OtherStep(cfg, s, step, s')
    ensures SweepOk(s') && DoomedOk(cfg, s') && RecordTimes(s') && SavingOk(cfg, s')
  {
  }

  lemma OthersKeepRecords(cfg: Config, s: State, step: Step, s': State, ref: Ref)
    requires YoungOk(cfg, s, ref) && UsedOk(cfg, s, ref) && SavingOk(cfg, s)
    requires LockOk(s) && OtherEnabled(s, step) && OtherStep(cfg, s, step, s')
    ensures YoungOk(cfg, s', ref) && UsedOk(cfg, s', ref)
  {
  }

  lemma OthersKeepUsers(cfg: Config, s: State, step: Step, s': State, u: Tid)
    requires ThreadSafe(cfg, s, u) && SavingOk(cfg, s)
    requires LockOk(s) && OtherEnabled(s, step) && OtherStep(cfg, s, step, s')
    ensures ThreadSafe(cfg, s', u)
  {
  }

  lemma OthersKeepCtr(cfg: Config, s: State, step: Step, s': State, c: CtrId)
    requires CtrOk(cfg, s, c) && LockOk(s) && OtherEnabled(s, step) && OtherStep(cfg, s, step, s')
    ensures CtrOk(cfg, s', c)
  {
  }

  lemma CrashKeepsProtection(cfg: Config, s: State, readable: bool, s': State)
    requires ProtectionOk(cfg, s) && Crashing(s, readable, s')
    ensures ProtectionOk(cfg, s')
  {
    forall ref ensures YoungOk(cfg, s', ref) && UsedOk(cfg, s', ref) {
      assert YoungOk(cfg, s, ref) && UsedOk(cfg, s, ref);
    }
    forall c ensures CtrOk(cfg, s', c) {
      assert CtrOk(cfg, s, c);
    }
  }
}
