/** What the image cache guarantees over whole runs: any number of threads, collections, crashes and
restarts, in any interleaving. */
module CacheTheorems {
  import opened Inventory
  import opened CacheKey
  import opened CacheProtocol
  import opened CacheGates
  import opened CacheIdentity
  import opened CacheProtection
  import opened CacheInvariant
  import opened CacheSteps
  import opened Runs

  lemma {:induction false} RunKeepsInv(cfg: Config, ss: seq<State>, steps: seq<Step>, i: nat)
    requires Run(cfg, ss, steps) && i <= |steps|
    ensures Inv(cfg, ss[i])
  {
    if i == 0 {
      InitHasInv(cfg, ss[0]);
    } else {
      RunKeepsInv(cfg, ss, steps, i - 1);
      StepKeepsInv(cfg, ss[i - 1], steps[i - 1], ss[i]);
    }
  }

  // ---------- One build per content tag ----------

  lemma TagStays(cfg: Config, ss: seq<State>, steps: seq<Step>, i: nat, j: nat, tag: Ref)
    requires Run(cfg, ss, steps) && i <= j <= |steps| && tag in ss[i].tags
    requires forall k | i <= k < j && steps[k].Gc? && steps[k].gc == GcDelete(true) && tag in ss[k].tags ::
               tag in ss[k + 1].tags
    ensures tag in ss[j].tags
  {
    forall k | i <= k < j && tag in ss[k].tags ensures tag in ss[k + 1].tags {
      if tag !in ss[k + 1].tags {
        OnlyCollectionUntags(cfg, ss[k], steps[k], ss[k + 1], tag);
      }
    }
    Persists(k => 0 <= k < |ss| && tag in ss[k].tags, i, j);
  }

  lemma BuildsOfMissingTags(cfg: Config, s: State, step: Step, s': State, tag: Ref)
    requires Inv(cfg, s) && Next(cfg, s, step, s') && Builds(s, step, tag)
    ensures ContentTag(cfg, tag) && tag !in s.tags && tag !in s.records && (tag in s.disk ==> s.reading.unread)
    ensures tag in s'.tags && s'.tags[tag].id == step.build.id
  {
    assert ThreadOk(cfg, s, step.t);
  }

  /** Between two successful builds of the same tag the collector has removed that tag. */
  lemma OneBuildPerTag(cfg: Config, ss: seq<State>, steps: seq<Step>, i: nat, j: nat, tag: Ref)
    requires Run(cfg, ss, steps) && i < j < |steps|
    requires forall k | k == i || k == j ::
               && steps[k].Building? && steps[k].build.BuildOk?
               && steps[k].t in ss[k].pcs && ss[k].pcs[steps[k].t].Build? && ss[k].pcs[steps[k].t].job.tag == tag
    ensures tag in ss[i + 1].tags && ss[i + 1].tags[tag].id == steps[i].build.id && tag !in ss[j].tags
    ensures exists k :: i < k < j && steps[k].Gc? && steps[k].gc == GcDelete(true)
                        && tag in ss[k].tags && tag !in ss[k + 1].tags
  {
    RunKeepsInv(cfg, ss, steps, i);
    RunKeepsInv(cfg, ss, steps, j);
    BuildsOfMissingTags(cfg, ss[i], steps[i], ss[i + 1], tag);
    BuildsOfMissingTags(cfg, ss[j], steps[j], ss[j + 1], tag);
    if forall k | i < k < j && steps[k].Gc? && steps[k].gc == GcDelete(true) && tag in ss[k].tags ::
         tag in ss[k + 1].tags {
      TagStays(cfg, ss, steps, i + 1, j, tag);
    }
  }

  // ---------- Gates and reservations ----------

  /** The threads between entry to and exit from `building(tag)`. */
  ghost function Building(s: State, tag: Ref): set<Tid> {
    set t | t in s.pcs && GateOf(s.pcs[t]).Seated? && GateOf(s.pcs[t]).seat.tag == tag
  }

  /** At most one thread is inside `building(tag)`; the stored count is the number of threads between
      entry and exit, all of them on the one gate stored; and no entry is kept without a user. */
  lemma GatesExclude(cfg: Config, ss: seq<State>, steps: seq<Step>, i: nat, tag: Ref)
    requires Run(cfg, ss, steps) && i <= |steps|
    ensures forall t, u | t in Building(ss[i], tag) && u in Building(ss[i], tag) ::
              Inside(ss[i].pcs[t]) && Inside(ss[i].pcs[u]) ==> t == u
    ensures tag in ss[i].gates <==> Building(ss[i], tag) != {}
    ensures tag in ss[i].gates ==> ss[i].gates[tag].users == |Building(ss[i], tag)|
    ensures forall t | t in Building(ss[i], tag) :: ss[i].pcs[t].gate == ss[i].gates[tag].gate
  {
    RunKeepsInv(cfg, ss, steps, i);
    var s := ss[i];
    assert Building(s, tag) == UsersOf(Seats(s.pcs), tag);
    forall t, u | t in Building(s, tag) && u in Building(s, tag) && Inside(s.pcs[t]) && Inside(s.pcs[u])
      ensures t == u
    {
      OneInside(s, t, u);
    }
    forall t | t in Building(s, tag) ensures tag in s.gates && s.pcs[t].gate == s.gates[tag].gate {
      GatedWhileCounted(s, t);
    }
  }

  /** The threads inside `reserve(id)`. */
  ghost function Reserved(s: State, id: ImageId): set<Tid> {
    set t | t in s.pcs && ReservedBy(s.pcs[t]) == Reserving(id)
  }

  lemma ReservationsCount(cfg: Config, ss: seq<State>, steps: seq<Step>, i: nat, id: ImageId)
    requires Run(cfg, ss, steps) && i <= |steps|
    ensures id in ss[i].reservations <==> Reserved(ss[i], id) != {}
    ensures id in ss[i].reservations ==> ss[i].reservations[id] == |Reserved(ss[i], id)|
  {
    RunKeepsInv(cfg, ss, steps, i);
    var s := ss[i];
    var claims := Reservers(s.pcs);
    assert Reserved(s, id) == ReserversOf(claims, id);
    forall t | t in Reserved(s, id) ensures id in s.reservations {
      assert t in claims && claims[t] == id;
    }
  }

  // ---------- Collection ----------

  /** An image of a container that the running collection has listed, or that was created under its
      image's reservation; or an image that is reserved now. */
  ghost predicate InUse(s: State, id: ImageId) {
    || (exists c :: c in s.ctrs && (s.ctrs[c].held || Listed(s.lock, c)) && s.ctrs[c].image == id)
    || Reserved(s, id) != {}
  }

  /** When the collector removes a reference, no build of it is under way or waiting, its last use is
      past the grace period, and the recorded image is in use by no container and no reservation.
      The reference stands for that image, unless it was pulled again since it was inspected: then
      for the last image pulled, and only then can the removal take a reference to an image in use. */
  lemma CollectionSparesLiveUse(cfg: Config, ss: seq<State>, steps: seq<Step>, i: nat, ref: Ref)
    requires Run(cfg, ss, steps) && i < |steps| && steps[i].Gc? && steps[i].gc == GcDelete(true)
    requires ss[i].lock.Deleting? && ss[i].lock.gc.todo != [] && ss[i].lock.gc.todo[0].reference == ref
    ensures ss[i + 1].tags == ss[i].tags - {ref}
    ensures var s, r := ss[i], ss[i].lock.gc.todo[0];
            && s.now - r.lastUsed >= cfg.minAge
            && ref !in s.gates
            && (forall c | c in s.ctrs && (s.ctrs[c].held || c in s.lock.gc.listed) :: s.ctrs[c].image != r.imageId)
            && (forall t | t in s.pcs && (s.pcs[t].CreateCtr? || s.pcs[t].StartCtr? || s.pcs[t].Unreserve?) ::
                  s.pcs[t].id != r.imageId)
            && (forall t | t in s.pcs && (s.pcs[t].AwaitGate? || s.pcs[t].Build? || s.pcs[t].RecordBuild?) ::
                  s.pcs[t].job.tag != ref)
    ensures Resolve(ss[i], ref) == Some(Standing(ss[i], ss[i].lock.gc.todo[0]))
    ensures var pulled := PulledFor(ss[i], ref);
            InUse(ss[i], ss[i].tags[ref].id) <==>
              |pulled| > ss[i].lock.epoch && InUse(ss[i], pulled[|pulled| - 1])
    ensures ContentTag(cfg, ref) ==> !InUse(ss[i], ss[i].tags[ref].id)
  {
    RunKeepsInv(cfg, ss, steps, i);
    assert Next(cfg, ss[i], steps[i], ss[i + 1]);
    var s, id := ss[i], ss[i].lock.gc.todo[0].imageId;
    GatesExclude(cfg, ss, steps, i, ref);
    ReservationsCount(cfg, ss, steps, i, id);
    assert !InUse(s, id);
    assert forall t | t in s.pcs :: t !in Building(s, ref) && t !in Reserved(s, id);
  }

  /** While the inspected record waits to be removed, the count of pulls tells whether its reference
      was pulled since. */
  lemma PulledSinceInspection(cfg: Config, ss: seq<State>, steps: seq<Step>, i: nat, j: nat, ref: Ref)
    requires Run(cfg, ss, steps) && i < j <= |steps| && steps[i].Gc? && steps[i].gc.GcInspect?
    requires forall k | i < k <= j :: ss[k].lock.Deleting? && ss[k].lock.gc.todo != []
    requires ss[j].lock.gc.todo[0].reference == ref
    ensures |PulledFor(ss[j], ref)| > ss[j].lock.epoch <==> exists k :: i < k < j && Pulls(ss[k], steps[k], ref)
  {
    forall k | i < k < j
      ensures ss[k + 1].lock == ss[k].lock
      ensures |PulledFor(ss[k + 1], ref)| == |PulledFor(ss[k], ref)| + (if Pulls(ss[k], steps[k], ref) then 1 else 0)
    {
      DeletingStays(cfg, ss[k], steps[k], ss[k + 1]);
      OnlyPullsPull(cfg, ss[k], steps[k], ss[k + 1], ref);
    }
    LocksStay(ss, i + 1, j);
    InspectionCounts(cfg, ss[i], steps[i], ss[i + 1]);
    PullsCount(ss, steps, i + 1, j, ref);
  }

  lemma {:induction false} LocksStay(ss: seq<State>, i: nat, j: nat)
    requires i <= j < |ss| && forall k | i <= k < j :: ss[k + 1].lock == ss[k].lock
    ensures ss[j].lock == ss[i].lock
  {
    if i < j {
      LocksStay(ss, i, j - 1);
    }
  }

  lemma {:induction false} PullsCount(ss: seq<State>, steps: seq<Step>, i: nat, j: nat, ref: Ref)
    requires i <= j < |ss| && |steps| >= j
    requires forall k | i <= k < j ::
               |PulledFor(ss[k + 1], ref)| == |PulledFor(ss[k], ref)| + (if Pulls(ss[k], steps[k], ref) then 1 else 0)
    ensures |PulledFor(ss[j], ref)| >= |PulledFor(ss[i], ref)|
    ensures |PulledFor(ss[j], ref)| > |PulledFor(ss[i], ref)| <==> exists k :: i <= k < j && Pulls(ss[k], steps[k], ref)
  {
    if i < j {
      PullsCount(ss, steps, i, j - 1, ref);
    }
  }

  lemma InspectionCounts(cfg: Config, s: State, step: Step, s': State)
    requires Next(cfg, s, step, s') && step.Gc? && step.gc.GcInspect?
    requires s'.lock.Deleting? && s'.lock.gc.todo != []
    ensures s'.lock.epoch == |PulledFor(s', s'.lock.gc.todo[0].reference)|
  {
  }

  lemma DeletingStays(cfg: Config, s: State, step: Step, s': State)
    requires Next(cfg, s, step, s') && s.lock.Deleting? && s'.lock.Deleting?
    ensures s'.lock == s.lock
  {
  }

  lemma OnlyPullsPull(cfg: Config, s: State, step: Step, s': State, ref: Ref)
    requires Next(cfg, s, step, s')
    ensures |PulledFor(s', ref)| == |PulledFor(s, ref)| + (if Pulls(s, step, ref) then 1 else 0)
  {
  }

  // ---------- Provenance ----------

  lemma AcquiredByAStep(cfg: Config, ss: seq<State>, steps: seq<Step>, i: nat, ref: Ref, id: ImageId)
    requires Run(cfg, ss, steps) && i <= |steps| && (ref, id) in ss[i].acquired
    ensures exists k :: 0 <= k < i && Acquires(ss[k], steps[k], ref, id)
  {
    if forall k | 0 <= k < i :: !Acquires(ss[k], steps[k], ref, id) {
      forall k | 0 <= k < i && (ref, id) !in ss[k].acquired ensures (ref, id) !in ss[k + 1].acquired {
        RunKeepsInv(cfg, ss, steps, k);
        if (ref, id) in ss[k + 1].acquired {
          OnlyAcquisitionsAcquire(cfg, ss[k], steps[k], ss[k + 1], ref, id);
        }
      }
      Persists(k => 0 <= k < |ss| && (ref, id) !in ss[k].acquired, 0, i);
    }
  }

  /** Every record, in memory or in the file, names an image that the broker pulled, built or adopted
      under its labels at an earlier step: a reference merely found present is never recorded. */
  lemma OnlyAcquiredRecorded(cfg: Config, ss: seq<State>, steps: seq<Step>, i: nat, ref: Ref)
    requires Run(cfg, ss, steps) && i <= |steps|
    ensures ref in ss[i].records ==>
              exists k :: 0 <= k < i && Acquires(ss[k], steps[k], ref, ss[i].records[ref].imageId)
    ensures ref in ss[i].disk ==>
              exists k :: 0 <= k < i && Acquires(ss[k], steps[k], ref, ss[i].disk[ref].imageId)
  {
    RunKeepsInv(cfg, ss, steps, i);
    assert RecordAcquired(ss[i], ref);
    if ref in ss[i].records {
      AcquiredByAStep(cfg, ss, steps, i, ref, ss[i].records[ref].imageId);
    }
    if ref in ss[i].disk {
      AcquiredByAStep(cfg, ss, steps, i, ref, ss[i].disk[ref].imageId);
    }
  }

  /** Every reference the collector removes was acquired earlier, with the image it was recorded as. */
  lemma OnlyAcquiredCollected(cfg: Config, ss: seq<State>, steps: seq<Step>, i: nat, ref: Ref)
    requires Run(cfg, ss, steps) && i < |steps| && Collects(ss[i], steps[i], ref)
    ensures exists k :: 0 <= k < i && Acquires(ss[k], steps[k], ref, ss[i].lock.gc.todo[0].imageId)
  {
    RunKeepsInv(cfg, ss, steps, i);
    OnlyAcquiredRecorded(cfg, ss, steps, i, ref);
  }
}
