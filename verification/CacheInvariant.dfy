/** The whole invariant of the image cache, and that every step of the machine keeps it. */
module CacheInvariant {
  import opened Inventory
  import opened CacheProtocol
  import opened CacheGates
  import opened CacheIdentity
  import opened CacheProtection

  // ---------- Provenance ----------

  /** A record names an image that was pulled, built or adopted under its reference. */
  ghost predicate RecordAcquired(s: State, ref: Ref) {
    && (ref in s.records ==> (ref, s.records[ref].imageId) in s.acquired)
    && (ref in s.disk ==> (ref, s.disk[ref].imageId) in s.acquired)
  }

  ghost predicate ThreadAcquired(s: State, t: Tid) {
    t in s.pcs ==>
      && (s.pcs[t].RecordPull? ==> (s.pcs[t].ref, s.pcs[t].id) in s.acquired)
      && (s.pcs[t].RecordBuild? ==> (s.pcs[t].job.tag, s.pcs[t].id) in s.acquired)
  }

  ghost predicate AcquiredOk(s: State) {
    (forall ref :: RecordAcquired(s, ref)) && (forall t :: ThreadAcquired(s, t))
  }

  lemma BuildKeepsAcquired(cfg: Config, s: State, t: Tid, act: BuildAct, s': State)
    requires AcquiredOk(s) && At(s, t) && BuildEnabled(s, t, act) && BuildStep(cfg, s, t, act, s')
    ensures AcquiredOk(s')
  {
    forall ref ensures RecordAcquired(s', ref) {
      assert RecordAcquired(s, ref) && ThreadAcquired(s, t);
    }
    forall u ensures ThreadAcquired(s', u) {
      assert ThreadAcquired(s, u);
    }
  }

  lemma GcKeepsAcquired(cfg: Config, s: State, t: Tid, act: GcAct, s': State)
    requires AcquiredOk(s) && At(s, t) && GcEnabled(cfg, s, t, act) && GcStep(cfg, s, t, act, s')
    ensures AcquiredOk(s')
  {
    forall ref ensures RecordAcquired(s', ref) {
      assert RecordAcquired(s, ref);
    }
    forall u ensures ThreadAcquired(s', u) {
      assert ThreadAcquired(s, u);
    }
  }

  lemma CreateKeepsRecordAcquired(cfg: Config, s: State, t: Tid, act: CreateAct, s': State, ref: Ref)
    requires RecordAcquired(s, ref) && ThreadAcquired(s, t)
    requires At(s, t) && CreateEnabled(cfg, s, t, act) && CreateStep(cfg, s, t, act, s')
    ensures RecordAcquired(s', ref)
  {
  }

  lemma CreateKeepsAcquired(cfg: Config, s: State, t: Tid, act: CreateAct, s': State)
    requires AcquiredOk(s) && At(s, t) && CreateEnabled(cfg, s, t, act) && CreateStep(cfg, s, t, act, s')
    ensures AcquiredOk(s')
  {
    assert ThreadAcquired(s, t);
    forall ref ensures RecordAcquired(s', ref) {
      CreateKeepsRecordAcquired(cfg, s, t, act, s', ref);
    }
    forall u ensures ThreadAcquired(s', u) {
      assert ThreadAcquired(s, u);
    }
  }

  // ---------- The invariant ----------

  ghost predicate Inv(cfg: Config, s: State) {
    && GatesOk(s) && ReservationsOk(s)
    && IdentityOk(cfg, s) && ProtectionOk(cfg, s) && AcquiredOk(s)
  }

  lemma InitHasInv(cfg: Config, s: State)
    requires Init(cfg, s)
    ensures Inv(cfg, s)
  {
    assert Seats(s.pcs) == map[] && Reservers(s.pcs) == map[];
  }

  // ---------- build_image ----------

  lemma BuildKeepsTables(cfg: Config, s: State, t: Tid, act: BuildAct, s': State)
    requires GatesOk(s) && ReservationsOk(s) && LockOk(s)
    requires At(s, t) && BuildEnabled(s, t, act) && BuildStep(cfg, s, t, act, s')
    ensures GatesOk(s') && ReservationsOk(s')
  {
    forall u ensures GateAt(s', u) == GateAt(s, u) && ReserveAt(s', u) == ReserveAt(s, u) {
      BuildKeepsClaims(cfg, s, t, act, s', u);
    }
    SameGates(s, s');
    SameReservations(s, s');
  }

  lemma BuildKeepsIdentity(cfg: Config, s: State, t: Tid, act: BuildAct, s': State)
    requires GatesOk(s) && IdentityOk(cfg, s)
    requires At(s, t) && BuildEnabled(s, t, act) && BuildStep(cfg, s, t, act, s')
    ensures IdentityOk(cfg, s')
  {
    assert ThreadOk(cfg, s, t);
    BuildKeepsDisk(cfg, s, t, act, s');
    BuildKeepsHolder(cfg, s, t, act, s');
    forall ref ensures TagOk(cfg, s', ref) {
      BuildKeepsTag(cfg, s, t, act, s', ref);
    }
    forall u ensures ThreadOk(cfg, s', u) {
      if u == t {
        BuildKeepsOwnThread(cfg, s, t, act, s');
      } else {
        BuildKeepsOtherThread(cfg, s, t, act, s', u);
      }
    }
  }

  lemma BuildMovesOne(cfg: Config, s: State, t: Tid, act: BuildAct, s': State, u: Tid)
    requires At(s, t) && BuildEnabled(s, t, act) && BuildStep(cfg, s, t, act, s')
    ensures u != t ==> (u in s'.pcs <==> u in s.pcs) && (u in s.pcs ==> s'.pcs[u] == s.pcs[u])
    ensures t in s'.pcs && HasJob(s'.pcs[t])
  {
  }

  lemma BuildKeepsProtection(cfg: Config, s: State, t: Tid, act: BuildAct, s': State)
    requires GatesOk(s) && HolderOk(s) && ThreadOk(cfg, s, t) && ProtectionOk(cfg, s)
    requires At(s, t) && BuildEnabled(s, t, act) && BuildStep(cfg, s, t, act, s')
    ensures ProtectionOk(cfg, s')
  {
    BuildKeepsSweep(cfg, s, t, act, s');
    BuildKeepsDoomed(cfg, s, t, act, s');
    BuildKeepsRecordTimes(cfg, s, t, act, s');
    BuildKeepsSaving(cfg, s, t, act, s');
    forall ref ensures YoungOk(cfg, s', ref) && UsedOk(cfg, s', ref) {
      BuildKeepsYoung(cfg, s, t, act, s', ref);
      BuildKeepsUsed(cfg, s, t, act, s', ref);
    }
    forall u ensures ThreadSafe(cfg, s', u) {
      BuildMovesOne(cfg, s, t, act, s', u);
      if u != t && u in s.pcs {
        assert ThreadSafe(cfg, s, u);
        BuildKeepsUser(cfg, s, t, act, s', s.pcs[u]);
      }
    }
    forall c ensures CtrOk(cfg, s', c) {
      BuildKeepsCtr(cfg, s, t, act, s', c);
    }
  }

  // ---------- collect_if_needed ----------

  lemma GcKeepsTables(cfg: Config, s: State, t: Tid, act: GcAct, s': State)
    requires GatesOk(s) && ReservationsOk(s) && LockOk(s)
    requires At(s, t) && GcEnabled(cfg, s, t, act) && GcStep(cfg, s, t, act, s')
    ensures GatesOk(s') && ReservationsOk(s')
  {
    forall u ensures GateAt(s', u) == GateAt(s, u) && ReserveAt(s', u) == ReserveAt(s, u) {
      GcKeepsClaims(cfg, s, t, act, s', u);
    }
    SameGates(s, s');
    SameReservations(s, s');
  }

  lemma GcKeepsOtherThread(cfg: Config, s: State, t: Tid, act: GcAct, s': State, u: Tid)
    requires GatesOk(s) && HolderOk(s) && ThreadOk(cfg, s, u) && u != t
    requires At(s, t) && GcEnabled(cfg, s, t, act) && GcStep(cfg, s, t, act, s')
    ensures ThreadOk(cfg, s', u)
  {
    GcMovesOne(cfg, s, t, act, s', u);
    if u in s.pcs && Inside(s.pcs[u]) {
      GatedWhileCounted(s, u);
      GcSparesTag(cfg, s, t, act, s', s.pcs[u].job.tag);
    }
    StillThread(cfg, s, s', u);
  }

  lemma GcKeepsIdentity(cfg: Config, s: State, t: Tid, act: GcAct, s': State)
    requires GatesOk(s) && IdentityOk(cfg, s)
    requires At(s, t) && GcEnabled(cfg, s, t, act) && GcStep(cfg, s, t, act, s')
    ensures IdentityOk(cfg, s')
  {
    GcKeepsDisk(cfg, s, t, act, s');
    GcKeepsHolder(cfg, s, t, act, s');
    forall ref ensures TagOk(cfg, s', ref) {
      GcKeepsTag(cfg, s, t, act, s', ref);
    }
    forall u ensures ThreadOk(cfg, s', u) {
      if u == t {
        GcKeepsOwnThread(cfg, s, t, act, s');
      } else {
        GcKeepsOtherThread(cfg, s, t, act, s', u);
      }
    }
  }

  /** A thread creating a container has reserved its image, so a running collection knows. */
  lemma CreatorIsActive(s: State, u: Tid)
    requires ReservationsOk(s) && SweepOk(s) && Sweeping(s.lock) && At(s, u) && s.pcs[u].CreateCtr?
    ensures s.pcs[u].id in s.lock.gc.active
  {
    assert u in Reservers(s.pcs) && Reservers(s.pcs)[u] == s.pcs[u].id;
  }

  lemma GcKeepsThreadSafe(cfg: Config, s: State, t: Tid, act: GcAct, s': State, u: Tid)
    requires ReservationsOk(s) && HolderOk(s) && SweepOk(s) && DoomedOk(cfg, s)
    requires ThreadSafe(cfg, s, u) && (u == t || (u in s'.pcs ==> u in s.pcs && s'.pcs[u] == s.pcs[u]))
    requires At(s, t) && GcEnabled(cfg, s, t, act) && GcStep(cfg, s, t, act, s')
    ensures ThreadSafe(cfg, s', u)
  {
    if u in s.pcs && u != t {
      if s.pcs[u].CreateCtr? && s.lock.Deleting? {
        CreatorIsActive(s, u);
      }
      GcKeepsUser(cfg, s, t, act, s', s.pcs[u]);
    }
  }

  lemma GcKeepsProtection(cfg: Config, s: State, t: Tid, act: GcAct, s': State)
    requires ReservationsOk(s) && HolderOk(s) && DiskOk(s) && ProtectionOk(cfg, s)
    requires At(s, t) && GcEnabled(cfg, s, t, act) && GcStep(cfg, s, t, act, s')
    ensures ProtectionOk(cfg, s')
  {
    if act.GcList? {
      GcOpensSweep(cfg, s, t, act, s');
    } else {
      GcKeepsSweep(cfg, s, t, act, s');
    }
    GcKeepsDoomed(cfg, s, t, act, s');
    GcKeepsRecordTimes(cfg, s, t, act, s');
    GcKeepsSaving(cfg, s, t, act, s');
    forall ref ensures YoungOk(cfg, s', ref) && UsedOk(cfg, s', ref) {
      GcKeepsYoung(cfg, s, t, act, s', ref);
      GcKeepsUsed(cfg, s, t, act, s', ref);
    }
    forall u ensures ThreadSafe(cfg, s', u) {
      if u != t {
        GcMovesOne(cfg, s, t, act, s', u);
      }
      GcKeepsThreadSafe(cfg, s, t, act, s', u);
    }
    forall c ensures CtrOk(cfg, s', c) {
      GcKeepsCtr(cfg, s, t, act, s', c);
    }
  }

  // ---------- create ----------

  lemma CreateKeepsTables(cfg: Config, s: State, t: Tid, act: CreateAct, s': State)
    requires GatesOk(s) && ReservationsOk(s) && LockOk(s)
    requires At(s, t) && CreateEnabled(cfg, s, t, act) && CreateStep(cfg, s, t, act, s')
    ensures GatesOk(s') && ReservationsOk(s')
  {
    var resolving := act.FindImage? || act.PullOk? || act.PullFail? || act.RecordPulled? || act.Touch?;
    forall u
      ensures GateAt(s', u) == GateAt(s, u)
      ensures !act.Reserve? && !act.EndReserve? ==> ReserveAt(s', u) == ReserveAt(s, u)
    {
      if resolving {
        ResolveKeepsClaims(cfg, s, t, act, s', u);
      } else {
        UseKeepsClaims(cfg, s, t, act, s', u);
      }
    }
    SameGates(s, s');
    if act.Reserve? || act.EndReserve? {
      ReservingKeepsReservations(cfg, s, t, act, s');
    } else {
      SameReservations(s, s');
    }
  }

  lemma CreateKeepsThread(cfg: Config, s: State, t: Tid, act: CreateAct, s': State, u: Tid)
    requires ThreadOk(cfg, s, t) && ThreadOk(cfg, s, u)
    requires At(s, t) && CreateEnabled(cfg, s, t, act) && CreateStep(cfg, s, t, act, s')
    ensures ThreadOk(cfg, s', u)
  {
    if u == t {
      CreateHasNoJob(cfg, s, t, act, s');
    } else {
      CreateMovesOne(cfg, s, t, act, s', u);
      if u in s.pcs && Inside(s.pcs[u]) {
        CreateSparesTag(cfg, s, t, act, s', s.pcs[u].job.tag);
      }
      StillThread(cfg, s, s', u);
    }
  }

  lemma CreateKeepsIdentity(cfg: Config, s: State, t: Tid, act: CreateAct, s': State)
    requires IdentityOk(cfg, s)
    requires At(s, t) && CreateEnabled(cfg, s, t, act) && CreateStep(cfg, s, t, act, s')
    ensures IdentityOk(cfg, s')
  {
    assert ThreadOk(cfg, s, t) && (!s.lock.Unlocked? ==> ThreadOk(cfg, s, s.lock.tid));
    CreateKeepsDisk(cfg, s, t, act, s');
    CreateKeepsHolder(cfg, s, t, act, s');
    forall ref ensures TagOk(cfg, s', ref) {
      assert TagOk(cfg, s, ref);
      if ContentTag(cfg, ref) {
        CreateSparesTag(cfg, s, t, act, s', ref);
      }
    }
    forall u ensures ThreadOk(cfg, s', u) {
      CreateKeepsThread(cfg, s, t, act, s', u);
    }
  }

  lemma CreateKeepsThreadSafe(cfg: Config, s: State, t: Tid, act: CreateAct, s': State, u: Tid)
    requires ThreadOk(cfg, s, t) && ThreadSafe(cfg, s, t) && ThreadSafe(cfg, s, u) && RecordTimes(s)
    requires At(s, t) && CreateEnabled(cfg, s, t, act) && CreateStep(cfg, s, t, act, s')
    ensures ThreadSafe(cfg, s', u)
  {
    if u == t {
      CreateKeepsOwnUser(cfg, s, t, act, s');
    } else {
      CreateMovesOne(cfg, s, t, act, s', u);
      if u in s.pcs {
        CreateKeepsUser(cfg, s, t, act, s', s.pcs[u]);
      }
    }
  }

  lemma CreateKeepsProtection(cfg: Config, s: State, t: Tid, act: CreateAct, s': State)
    requires ReservationsOk(s) && IdentityOk(cfg, s) && ProtectionOk(cfg, s)
    requires At(s, t) && CreateEnabled(cfg, s, t, act) && CreateStep(cfg, s, t, act, s')
    ensures ProtectionOk(cfg, s')
  {
    assert ThreadOk(cfg, s, t) && ThreadSafe(cfg, s, t);
    CreateKeepsSweep(cfg, s, t, act, s');
    CreateKeepsDoomed(cfg, s, t, act, s');
    CreateKeepsRecordTimes(cfg, s, t, act, s');
    if act.Touch? || act.RecordPulled? {
      CreateStartsSaving(cfg, s, t, act, s');
    } else {
      CreateKeepsSaving(cfg, s, t, act, s');
    }
    forall ref ensures YoungOk(cfg, s', ref) && UsedOk(cfg, s', ref) {
      CreateKeepsYoung(cfg, s, t, act, s', ref);
      CreateKeepsUsed(cfg, s, t, act, s', ref);
    }
    forall u ensures ThreadSafe(cfg, s', u) {
      CreateKeepsThreadSafe(cfg, s, t, act, s', u);
    }
    forall c ensures CtrOk(cfg, s', c) {
      CreateKeepsCtr(cfg, s, t, act, s', c);
    }
  }

  // ---------- The other steps ----------

  lemma GatingKeepsInv(cfg: Config, s: State, t: Tid, act: GateAct, s': State)
    requires Inv(cfg, s) && At(s, t) && GateEnabled(s, t, act) && GateStep(s, t, act, s')
    ensures Inv(cfg, s')
  {
    if act.Register? {
      EnteringKeepsGates(s, t, s');
    } else if act.Leave? {
      LeavingKeepsGates(s, t, s');
    } else {
      MovingKeepsGates(s, t, act, s');
    }
    forall u ensures ReserveAt(s', u) == ReserveAt(s, u) {
      GatingKeepsReserves(s, t, act, s', u);
    }
    SameReservations(s, s');
    GatingKeepsIdentity(cfg, s, t, act, s');
    GatingKeepsProtection(cfg, s, t, act, s');
    GatingKeepsAcquired(s, t, act, s');
  }

  lemma GatingKeepsAcquired(s: State, t: Tid, act: GateAct, s': State)
    requires AcquiredOk(s) && At(s, t) && GateEnabled(s, t, act) && GateStep(s, t, act, s')
    ensures AcquiredOk(s')
  {
    forall ref ensures RecordAcquired(s', ref) {
      assert RecordAcquired(s, ref);
    }
    forall u ensures ThreadAcquired(s', u) {
      assert ThreadAcquired(s, u);
    }
  }

  lemma OthersKeepTables(cfg: Config, s: State, step: Step, s': State)
    requires GatesOk(s) && ReservationsOk(s) && LockOk(s)
    requires OtherEnabled(s, step) && OtherStep(cfg, s, step, s')
    ensures GatesOk(s') && ReservationsOk(s')
  {
    forall u ensures GateAt(s', u) == GateAt(s, u) && ReserveAt(s', u) == ReserveAt(s, u) {
      OthersKeepClaims(cfg, s, step, s', u);
    }
    SameGates(s, s');
    SameReservations(s, s');
  }

  lemma OthersKeepProtection(cfg: Config, s: State, step: Step, s': State)
    requires ProtectionOk(cfg, s) && LockOk(s) && OtherEnabled(s, step) && OtherStep(cfg, s, step, s')
    ensures ProtectionOk(cfg, s')
  {
    OthersKeepSweep(cfg, s, step, s');
    forall ref ensures YoungOk(cfg, s', ref) && UsedOk(cfg, s', ref) {
      OthersKeepRecords(cfg, s, step, s', ref);
    }
    forall u ensures ThreadSafe(cfg, s', u) {
      OthersKeepUsers(cfg, s, step, s', u);
    }
    forall c ensures CtrOk(cfg, s', c) {
      OthersKeepCtr(cfg, s, step, s', c);
    }
  }

  lemma OthersKeepAcquired(cfg: Config, s: State, step: Step, s': State)
    requires AcquiredOk(s) && LockOk(s) && OtherEnabled(s, step) && OtherStep(cfg, s, step, s')
    ensures AcquiredOk(s')
  {
    forall ref ensures RecordAcquired(s', ref) {
      assert RecordAcquired(s, ref);
    }
    forall u ensures ThreadAcquired(s', u) {
      assert ThreadAcquired(s, u);
    }
  }

  lemma TickKeepsInv(cfg: Config, s: State, d: nat, s': State)
    requires Inv(cfg, s) && Ticking(s, d, s')
    ensures Inv(cfg, s')
  {
    TickKeepsIdentity(cfg, s, d, s');
    TickKeepsProtection(cfg, s, d, s');
    forall ref ensures RecordAcquired(s', ref) {
      assert RecordAcquired(s, ref);
    }
    forall t ensures ThreadAcquired(s', t) {
      assert ThreadAcquired(s, t);
    }
  }

  lemma CrashKeepsInv(cfg: Config, s: State, readable: bool, s': State)
    requires Inv(cfg, s) && Crashing(s, readable, s')
    ensures Inv(cfg, s')
  {
    CrashOpens(s, readable, s');
    CrashKeepsIdentity(cfg, s, readable, s');
    CrashKeepsProtection(cfg, s, readable, s');
    forall ref ensures RecordAcquired(s', ref) {
      assert RecordAcquired(s, ref);
    }
  }

  // ---------- Every step ----------

  lemma BuildKeepsInv(cfg: Config, s: State, t: Tid, act: BuildAct, s': State)
    requires Inv(cfg, s) && At(s, t) && BuildEnabled(s, t, act) && BuildStep(cfg, s, t, act, s')
    ensures Inv(cfg, s')
  {
    assert ThreadOk(cfg, s, t);
    BuildKeepsTables(cfg, s, t, act, s');
    BuildKeepsIdentity(cfg, s, t, act, s');
    BuildKeepsProtection(cfg, s, t, act, s');
    BuildKeepsAcquired(cfg, s, t, act, s');
  }

  lemma GcKeepsInv(cfg: Config, s: State, t: Tid, act: GcAct, s': State)
    requires Inv(cfg, s) && At(s, t) && GcEnabled(cfg, s, t, act) && GcStep(cfg, s, t, act, s')
    ensures Inv(cfg, s')
  {
    GcKeepsTables(cfg, s, t, act, s');
    GcKeepsIdentity(cfg, s, t, act, s');
    GcKeepsProtection(cfg, s, t, act, s');
    GcKeepsAcquired(cfg, s, t, act, s');
  }

  lemma CreateKeepsInv(cfg: Config, s: State, t: Tid, act: CreateAct, s': State)
    requires Inv(cfg, s) && At(s, t) && CreateEnabled(cfg, s, t, act) && CreateStep(cfg, s, t, act, s')
    ensures Inv(cfg, s')
  {
    CreateKeepsTables(cfg, s, t, act, s');
    CreateKeepsIdentity(cfg, s, t, act, s');
    CreateKeepsProtection(cfg, s, t, act, s');
    CreateKeepsAcquired(cfg, s, t, act, s');
  }

  lemma OthersKeepInv(cfg: Config, s: State, step: Step, s': State)
    requires Inv(cfg, s) && OtherEnabled(s, step) && OtherStep(cfg, s, step, s')
    ensures Inv(cfg, s')
  {
    OthersKeepTables(cfg, s, step, s');
    OthersKeepIdentity(cfg, s, step, s');
    OthersKeepProtection(cfg, s, step, s');
    OthersKeepAcquired(cfg, s, step, s');
  }

  /** Every step of the machine keeps the invariant. */
  lemma StepKeepsInv(cfg: Config, s: State, step: Step, s': State)
    requires Inv(cfg, s) && Next(cfg, s, step, s')
    ensures Inv(cfg, s')
  {
    if step.Tick? {
      TickKeepsInv(cfg, s, step.d, s');
    } else if step.Crash? {
      CrashKeepsInv(cfg, s, step.readable, s');
    } else if step.Gating? {
      GatingKeepsInv(cfg, s, step.t, step.gate, s');
    } else if step.Building? {
      BuildKeepsInv(cfg, s, step.t, step.build, s');
    } else if step.Gc? {
      GcKeepsInv(cfg, s, step.t, step.gc, s');
    } else if step.Creating? {
      CreateKeepsInv(cfg, s, step.t, step.create, s');
    } else {
      OthersKeepInv(cfg, s, step, s');
    }
  }
}
