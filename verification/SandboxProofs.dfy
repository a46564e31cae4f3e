/** No container is leaked, and sandboxes leave only when they may. */
module SandboxProofs {
  import opened Sandboxes

  predicate Creates(step: Step) {
    step.BeginCreate? || step.MakeContainer? || step.StartContainer? || step.Enlist?
  }

  // ---------- create ----------

  lemma CreateKeepsRecord(s: State, step: Step, s': State, id: Id)
    requires Enabled(s, step) && Creates(step) && CreateStep(s, step, s')
    requires (forall id | id in s.recorded :: id in s.births) && RecordOk(s, id) && ThreadOk(s, step.t)
    ensures RecordOk(s', id)
  {
  }

  lemma CreateKeepsOwned(s: State, step: Step, s': State, c: RuntimeId)
    requires Enabled(s, step) && Creates(step) && CreateStep(s, step, s')
    requires Owned(s, c) && ThreadOk(s, step.t) && (c in s.containers ==> RecordOk(s, s.containers[c]))
    ensures Owned(s', c)
  {
  }

  lemma CreateKeepsOwnThread(s: State, step: Step, s': State)
    requires Enabled(s, step) && Creates(step) && CreateStep(s, step, s')
    requires (forall id | id in s.recorded :: id in s.births) && ThreadOk(s, step.t)
    requires step.MakeContainer? ==> step.container !in s.abandoned
    ensures ThreadOk(s', step.t)
  {
  }

  lemma CreateKeepsOtherCreation(s: State, step: Step, s': State, t: Tid)
    requires Enabled(s, step) && Creates(step) && CreateStep(s, step, s') && t in s.pcs && InCreation(s.pcs[t])
    requires ThreadOk(s, t) && ThreadOk(s, step.t) && Apart(s, step.t, t) && t != step.t
    requires step.MakeContainer? ==> step.container !in s.containers
    ensures ThreadOk(s', t)
  {
  }

  lemma CreateKeepsOtherThread(s: State, step: Step, s': State, t: Tid)
    requires Enabled(s, step) && Creates(step) && CreateStep(s, step, s')
    requires (forall id | id in s.recorded :: id in s.births)
    requires ThreadOk(s, t) && ThreadOk(s, step.t) && Apart(s, step.t, t) && t != step.t
    requires step.MakeContainer? ==> step.container !in s.containers
    ensures ThreadOk(s', t)
  {
    if t in s.pcs && InCreation(s.pcs[t]) {
      CreateKeepsOtherCreation(s, step, s', t);
    }
  }

  lemma CreateKeepsApart(s: State, step: Step, s': State, t: Tid, u: Tid)
    requires Enabled(s, step) && Creates(step) && CreateStep(s, step, s')
    requires Apart(s, t, u) && ThreadOk(s, t) && ThreadOk(s, u)
    ensures Apart(s', t, u)
  {
  }

  // ---------- delete and sweep ----------

  lemma DeleteKeepsRecord(s: State, step: Step, s': State, id: Id)
    requires Enabled(s, step) && !Creates(step) && SameHistory(s, s') && DeleteStep(s, step, s')
    requires RecordOk(s, id)
    ensures RecordOk(s', id)
  {
  }

  lemma DeleteKeepsOwned(s: State, step: Step, s': State, c: RuntimeId)
    requires Enabled(s, step) && !Creates(step) && SameHistory(s, s') && DeleteStep(s, step, s')
    requires Owned(s, c) && ThreadOk(s, step.t)
    requires c in s.containers && s.creators[c] in s.pcs ==> ThreadOk(s, s.creators[c])
    ensures Owned(s', c)
  {
  }

  lemma ListsRecorded(s: State, now: Time, due: seq<Id>)
    requires Lists(due, s.records, now) && forall id :: RecordOk(s, id)
    ensures JobOk(s, Sweep(now, due, []))
  {
    forall i | 0 <= i < |due| 
      ensures due[i] in s.recorded && due[i] in s.births && Due(DeadlineOf(s.births[due[i]]), now)
    {
      assert due[i] in due && RecordOk(s, due[i]);
    }
  }

  /** Popping records and going on to the next keeps what a sweep has noted. */
  lemma JobStays(s: State, s': State, job: Job)
    requires JobOk(s, job) && SameHistory(s, s') && forall id | id in s'.records :: id in s.records
    ensures JobOk(s', job)
  {
  }

  lemma JobAdvances(s: State, job: Job, ok: bool)
    requires JobOk(s, job) && job.Sweep? && |job.results| < |job.due|
    requires ok ==> job.due[|job.results|] !in s.records
    ensures JobOk(s, Sweep(job.now, job.due, job.results + [ok]))
  {
  }

  lemma DeleteKeepsRecords(s: State, step: Step, s': State, id: Id)
    requires Enabled(s, step) && !Creates(step) && SameHistory(s, s') && DeleteStep(s, step, s')
    ensures id in s'.records ==> id in s.records && s'.records[id] == s.records[id]
    ensures id in s.records && id !in s'.records ==> step.Pop? && s.pcs[step.t].id == id
    ensures step.Pop? ==> s.pcs[step.t].id !in s'.records
  {
  }

  predicate InCreation(pc: Pc) {
    pc.Creating? || pc.Starting? || pc.Recording?
  }

  lemma DeleteKeepsCreation(s: State, step: Step, s': State, t: Tid)
    requires Enabled(s, step) && !Creates(step) && SameHistory(s, s') && DeleteStep(s, step, s')
    requires ThreadOk(s, t) && ThreadOk(s, step.t) && t != step.t && t in s.pcs && InCreation(s.pcs[t])
    ensures ThreadOk(s', t)
  {
  }

  lemma DeleteOnlyShrinks(s: State, step: Step, s': State, t: Tid)
    requires Enabled(s, step) && !Creates(step) && SameHistory(s, s') && DeleteStep(s, step, s') && t != step.t
    ensures (t in s'.pcs <==> t in s.pcs) && (t in s.pcs ==> s'.pcs[t] == s.pcs[t])
    ensures forall id | id in s'.records :: id in s.records && s'.records[id] == s.records[id]
    ensures forall c | c in s'.containers :: c in s.containers && s'.containers[c] == s.containers[c]
  {
  }

  /** What a deleting thread knows outlives what others remove. */
  lemma WorkerStays(s: State, s': State, t: Tid)
    requires ThreadOk(s, t) && SameHistory(s, s') && t in s.pcs && !InCreation(s.pcs[t])
    requires t in s'.pcs && s'.pcs[t] == s.pcs[t]
    requires forall id | id in s'.records :: id in s.records && s'.records[id] == s.records[id]
    requires forall c | c in s'.containers :: c in s.containers && s'.containers[c] == s.containers[c]
    ensures ThreadOk(s', t)
  {
    JobStays(s, s', s.pcs[t].job);
  }

  lemma DeleteKeepsOtherThread(s: State, step: Step, s': State, t: Tid)
    requires Enabled(s, step) && !Creates(step) && SameHistory(s, s') && DeleteStep(s, step, s')
    requires ThreadOk(s, t) && ThreadOk(s, step.t) && t != step.t
    ensures ThreadOk(s', t)
  {
    DeleteOnlyShrinks(s, step, s', t);
    if t in s.pcs {
      if InCreation(s.pcs[t]) {
        DeleteKeepsCreation(s, step, s', t);
      } else {
        WorkerStays(s, s', t);
      }
    }
  }

  lemma DeleteKeepsOwnThread(s: State, step: Step, s': State)
    requires Enabled(s, step) && !Creates(step) && SameHistory(s, s') && DeleteStep(s, step, s')
    requires ThreadOk(s, step.t) && (step.Look? ==> RecordOk(s, s.pcs[step.t].id))
    requires step.BeginSweep? ==> JobOk(s, Sweep(step.now, step.due, []))
    ensures ThreadOk(s', step.t)
  {
    if step.BeginSweep? {
      JobStays(s, s', Sweep(step.now, step.due, []));
    } else if step.Look? || step.Remove? || step.Pop? {
      var job := s.pcs[step.t].job;
      forall id | id in s'.records ensures id in s.records {
        DeleteKeepsRecords(s, step, s', id);
      }
      JobStays(s, s', job);
      if job.Sweep? {
        JobAdvances(s', job, false);
        if step.Pop? || (step.Look? && s.pcs[step.t].id !in s.records) {
          JobAdvances(s', job, true);
        }
      }
    }
  }

  lemma DeleteKeepsApart(s: State, step: Step, s': State, t: Tid, u: Tid)
    requires Enabled(s, step) && !Creates(step) && SameHistory(s, s') && DeleteStep(s, step, s')
    requires Apart(s, t, u)
    ensures Apart(s', t, u)
  {
  }

  // ---------- Every step ----------

  lemma CreateKeepsInv(s: State, step: Step, s': State)
    requires Inv(s) && Enabled(s, step) && Creates(step) && CreateStep(s, step, s')
    ensures Inv(s')
  {
    assert ThreadOk(s, step.t);
    if step.MakeContainer? {
      assert Owned(s, step.container);
    }
    forall id ensures RecordOk(s', id) {
      CreateKeepsRecord(s, step, s', id);
    }
    forall c ensures Owned(s', c) {
      assert c in s.containers ==> RecordOk(s, s.containers[c]);
      CreateKeepsOwned(s, step, s', c);
    }
    forall t ensures ThreadOk(s', t) {
      if t == step.t {
        CreateKeepsOwnThread(s, step, s');
      } else {
        assert ThreadOk(s, t) && Apart(s, step.t, t);
        CreateKeepsOtherThread(s, step, s', t);
      }
    }
    forall t, u ensures Apart(s', t, u) {
      assert Apart(s, t, u) && ThreadOk(s, t) && ThreadOk(s, u);
      CreateKeepsApart(s, step, s', t, u);
    }
  }

  lemma DeleteKeepsInv(s: State, step: Step, s': State)
    requires Inv(s) && Enabled(s, step) && !Creates(step) && SameHistory(s, s') && DeleteStep(s, step, s')
    ensures Inv(s')
  {
    assert ThreadOk(s, step.t);
    forall id ensures RecordOk(s', id) {
      assert RecordOk(s, id);
      DeleteKeepsRecord(s, step, s', id);
    }
    forall c ensures Owned(s', c) {
      assert c in s.containers ==> Owned(s, c) && ThreadOk(s, s.creators[c]);
      DeleteKeepsOwned(s, step, s', c);
    }
    forall t ensures ThreadOk(s', t) {
      if t == step.t {
        if step.BeginSweep? {
          ListsRecorded(s, step.now, step.due);
        } else if step.Look? {
          assert RecordOk(s, s.pcs[t].id);
        }
        DeleteKeepsOwnThread(s, step, s');
      } else {
        DeleteKeepsOtherThread(s, step, s', t);
      }
    }
    forall t, u ensures Apart(s', t, u) {
      assert Apart(s, t, u);
      DeleteKeepsApart(s, step, s', t, u);
    }
  }

  lemma StepKeepsInv(s: State, step: Step, s': State)
    requires Inv(s) && Next(s, step, s')
    ensures Inv(s')
  {
    if Creates(step) {
      CreateKeepsInv(s, step, s');
    } else {
      DeleteKeepsInv(s, step, s');
    }
  }

  lemma {:induction false} RunKeepsInv(ss: seq<State>, steps: seq<Step>, i: nat)
    requires Run(ss, steps) && i <= |steps|
    ensures Inv(ss[i])
  {
    if i > 0 {
      RunKeepsInv(ss, steps, i - 1);
      StepKeepsInv(ss[i - 1], steps[i - 1], ss[i]);
    }
  }

  // ---------- Over whole runs ----------

  /** No record names the container, and no creation is at work on it. */
  ghost predicate Unaccounted(s: State, c: RuntimeId) {
    && (forall id | id in s.records :: s.records[id].container != c)
    && (forall t :: !Makes(s, t, c))
  }

  lemma AbandonedMeansUnaccounted(s: State, c: RuntimeId)
    requires Inv(s)
    ensures c in s.abandoned <==> c in s.containers && Unaccounted(s, c)
  {
    assert Owned(s, c);
    if c in s.abandoned {
      forall id | id in s.records ensures s.records[id].container != c {
        assert RecordOk(s, id);
      }
      forall t ensures !Makes(s, t, c) {
        assert ThreadOk(s, t);
      }
    }
  }

  lemma OnlyCreationsAbandon(s: State, step: Step, s': State, c: RuntimeId)
    requires Next(s, step, s')
    ensures c in s'.abandoned <==> c in s.abandoned || Abandons(s, step, c)
  {
  }

  lemma AbandonedByAStep(ss: seq<State>, steps: seq<Step>, i: nat, c: RuntimeId)
    requires Run(ss, steps) && i <= |steps|
    ensures c in ss[i].abandoned <==> exists k :: 0 <= k < i && Abandons(ss[k], steps[k], c)
  {
    forall k | 0 <= k < i ensures c in ss[k + 1].abandoned <==> c in ss[k].abandoned || Abandons(ss[k], steps[k], c) {
      OnlyCreationsAbandon(ss[k], steps[k], ss[k + 1], c);
    }
    assert Init(ss[0]);
    AbandonedHistory(ss, steps, i, c);
  }

  lemma {:induction false} AbandonedHistory(ss: seq<State>, steps: seq<Step>, i: nat, c: RuntimeId)
    requires |ss| == |steps| + 1 && i <= |steps| && c !in ss[0].abandoned
    requires forall k | 0 <= k < i ::
               c in ss[k + 1].abandoned <==> c in ss[k].abandoned || Abandons(ss[k], steps[k], c)
    ensures c in ss[i].abandoned <==> exists k :: 0 <= k < i && Abandons(ss[k], steps[k], c)
  {
    if i > 0 {
      AbandonedHistory(ss, steps, i - 1, c);
      assert (i - 1) + 1 == i;
    }
  }

  /** A live container is in no record and in no creation exactly if its creation has left it behind:
      by a cleanup that failed, or by a deadline past the latest datetime.  It then stays for good. */
  lemma LeaksExactlyWhenAbandoned(ss: seq<State>, steps: seq<Step>, i: nat, c: RuntimeId)
    requires Run(ss, steps) && i <= |steps|
    ensures c in ss[i].containers
            && (forall id | id in ss[i].records :: ss[i].records[id].container != c)
            && (forall t | t in ss[i].pcs && (ss[i].pcs[t].Starting? || ss[i].pcs[t].Recording?) ::
                  ss[i].pcs[t].container != c)
            <==>
            exists k :: 0 <= k < i && steps[k].t in ss[k].pcs
                        && var pc := ss[k].pcs[steps[k].t];
                           || (&& steps[k].StartContainer? && !steps[k].ok && !steps[k].removed
                               && pc.Starting? && pc.container == c)
                           || (&& steps[k].Enlist? && pc.Recording? && pc.container == c
                               && pc.birth.ttl > 0 && pc.birth.created + pc.birth.ttl * 1_000_000 > LATEST)
  {
    RunKeepsInv(ss, steps, i);
    AbandonedMeansUnaccounted(ss[i], c);
    AbandonedByAStep(ss, steps, i, c);
    UnaccountedMeans(ss[i], c);
    if k :| 0 <= k < i && Abandons(ss[k], steps[k], c) {
      assert steps[k].t in ss[k].pcs;
    }
  }

  lemma UnaccountedMeans(s: State, c: RuntimeId)
    ensures Unaccounted(s, c) <==>
              && (forall id | id in s.records :: s.records[id].container != c)
              && (forall t | t in s.pcs && (s.pcs[t].Starting? || s.pcs[t].Recording?) :: s.pcs[t].container != c)
  {
    if Unaccounted(s, c) {
      assert forall t | t in s.pcs :: !Makes(s, t, c);
    }
  }

  lemma OnlyBeginningsBear(s: State, step: Step, s': State, id: Id)
    requires Next(s, step, s') && id in s'.births && (id !in s.births || s'.births[id] != s.births[id])
    ensures step.BeginCreate? && step.id == id && step.birth == s'.births[id]
  {
  }

  lemma {:induction false} BornByAStep(ss: seq<State>, steps: seq<Step>, i: nat, id: Id)
    requires Run(ss, steps) && i <= |steps| && id in ss[i].births
    ensures exists k :: 0 <= k < i && steps[k].BeginCreate? && steps[k].id == id && steps[k].birth == ss[i].births[id]
  {
    if i > 0 {
      if id in ss[i - 1].births && ss[i].births[id] == ss[i - 1].births[id] {
        BornByAStep(ss, steps, i - 1, id);
      } else {
        OnlyBeginningsBear(ss[i - 1], steps[i - 1], ss[i], id);
      }
    }
  }

  /** A caller's condition: if every request's ttl leads to a deadline a datetime can hold, and no cleanup
      fails, every live container belongs to a record or to a creation still under way. */
  lemma NoContainerLeaks(ss: seq<State>, steps: seq<Step>, i: nat, c: RuntimeId)
    requires Run(ss, steps) && i <= |steps| && c in ss[i].containers
    requires forall k | 0 <= k < i && steps[k].BeginCreate? ::
               steps[k].birth.ttl <= 0 || steps[k].birth.created + steps[k].birth.ttl * 1_000_000 <= LATEST
    requires forall k | 0 <= k < i && steps[k].StartContainer? && !steps[k].ok :: steps[k].removed
    ensures (exists id :: id in ss[i].records && ss[i].records[id].container == c)
            || (exists t :: t in ss[i].pcs && (ss[i].pcs[t].Starting? || ss[i].pcs[t].Recording?)
                            && ss[i].pcs[t].container == c)
  {
    LeaksExactlyWhenAbandoned(ss, steps, i, c);
    if k :| 0 <= k < i && Abandons(ss[k], steps[k], c) {
      RunKeepsInv(ss, steps, k);
      assert ThreadOk(ss[k], steps[k].t);
      if steps[k].Enlist? {
        BornByAStep(ss, steps, k, ss[k].pcs[steps[k].t].id);
      }
    }
  }

  /** A record's deadline is the one that the request which began it asked for. */
  lemma DeadlineIsTheRequests(ss: seq<State>, steps: seq<Step>, i: nat, id: Id)
    requires Run(ss, steps) && i <= |steps| && id in ss[i].records
    ensures exists k :: 0 <= k < i && steps[k].BeginCreate? && steps[k].id == id
                        && var b := steps[k].birth;
                           if b.ttl <= 0 then ss[i].records[id].expires == Never
                           else && b.created + b.ttl * 1_000_000 <= LATEST
                                && ss[i].records[id].expires == At(b.created + b.ttl * 1_000_000)
  {
    RunKeepsInv(ss, steps, i);
    assert RecordOk(ss[i], id);
    BornByAStep(ss, steps, i, id);
  }

  /** A creation whose container runs ends with a record, exactly if the deadline can be computed. */
  lemma RecordedExactlyIfItFits(ss: seq<State>, steps: seq<Step>, i: nat)
    requires Run(ss, steps) && i < |steps| && steps[i].Enlist?
    ensures steps[i].t in ss[i].pcs && ss[i].pcs[steps[i].t].Recording? && steps[i].t !in ss[i + 1].pcs
    ensures var pc := ss[i].pcs[steps[i].t];
            && pc.container in ss[i].containers && ss[i].containers[pc.container] == pc.id && pc.id !in ss[i].records
            && ss[i + 1].containers == ss[i].containers
            && ss[i + 1].records ==
               if pc.birth.ttl <= 0 then ss[i].records[pc.id := Record(pc.container, Never)]
               else if pc.birth.created + pc.birth.ttl * 1_000_000 <= LATEST
               then ss[i].records[pc.id := Record(pc.container, At(pc.birth.created + pc.birth.ttl * 1_000_000))]
               else ss[i].records
  {
    RunKeepsInv(ss, steps, i);
    assert Next(ss[i], steps[i], ss[i + 1]);
    assert ThreadOk(ss[i], steps[i].t) && RecordOk(ss[i], ss[i].pcs[steps[i].t].id);
  }

  /** One creation, alone. */
  function Lone(b: Birth, containers: map<RuntimeId, Id>, pcs: map<Tid, Pc>, creators: map<RuntimeId, Tid>,
                abandoned: set<RuntimeId>): State
  {
    State(map[], containers, pcs, map["s" := b], {}, creators, abandoned)
  }

  lemma LoneContainer(b: Birth)
    ensures Next(State(map[], map[], map[], map[], {}, map[], {}), BeginCreate(1, "s", b),
                 Lone(b, map[], map[1 := Creating("s", b)], map[], {}))
    ensures Next(Lone(b, map[], map[1 := Creating("s", b)], map[], {}), MakeContainer(1, true, 7),
                 Lone(b, map[7 := "s"], map[1 := Starting("s", 7, b)], map[7 := 1], {}))
  {
  }

  lemma LoneLeak(b: Birth)
    requires !Fits(b)
    ensures Next(Lone(b, map[7 := "s"], map[1 := Starting("s", 7, b)], map[7 := 1], {}), StartContainer(1, true, true),
                 Lone(b, map[7 := "s"], map[1 := Recording("s", 7, b)], map[7 := 1], {}))
    ensures Next(Lone(b, map[7 := "s"], map[1 := Recording("s", 7, b)], map[7 := 1], {}), Enlist(1),
                 Lone(b, map[7 := "s"], map[], map[7 := 1], {7}))
  {
  }

  /** A request that leaves its container behind: a ttl of ten to the twelfth seconds, whenever it comes. */
  lemma HugeTtlLeaks(created: Time)
    requires 0 <= created <= LATEST
    ensures exists ss: seq<State>, steps: seq<Step> ::
              && Run(ss, steps) && |steps| == 4 && steps[0] == BeginCreate(1, "s", Birth(created, 1_000_000_000_000))
              && ss[4].containers == map[7 := "s"] && ss[4].records == map[] && ss[4].pcs == map[]
  {
    var b := Birth(created, 1_000_000_000_000);
    LoneContainer(b);
    LoneLeak(b);
    var ss := [State(map[], map[], map[], map[], {}, map[], {}),
               Lone(b, map[], map[1 := Creating("s", b)], map[], {}),
               Lone(b, map[7 := "s"], map[1 := Starting("s", 7, b)], map[7 := 1], {}),
               Lone(b, map[7 := "s"], map[1 := Recording("s", 7, b)], map[7 := 1], {}),
               Lone(b, map[7 := "s"], map[], map[7 := 1], {7})];
    assert Run(ss, [BeginCreate(1, "s", b), MakeContainer(1, true, 7), StartContainer(1, true, true), Enlist(1)]);
  }

  /** A deletion never finds another sandbox's container: the ownership error is not raised. */
  lemma NeverForeign(ss: seq<State>, steps: seq<Step>, i: nat, t: Tid)
    requires Run(ss, steps) && i <= |steps| && t in ss[i].pcs && ss[i].pcs[t].Removing?
    ensures var pc := ss[i].pcs[t];
            pc.container in ss[i].containers ==> ss[i].containers[pc.container] == pc.id
  {
    RunKeepsInv(ss, steps, i);
    assert ThreadOk(ss[i], t);
  }

  /** A deletion's call into Docker takes the container away unless Docker does not; the record goes when
      the call has succeeded. */
  lemma DeletionTakesContainerThenRecord(ss: seq<State>, steps: seq<Step>, i: nat)
    requires Run(ss, steps) && i < |steps| && (steps[i].Remove? || steps[i].Pop?)
    ensures var s, s', step := ss[i], ss[i + 1], steps[i];
            && step.t in s.pcs
            && var pc := s.pcs[step.t];
            && (step.Remove? ==>
                  && pc.Removing? && s'.records == s.records
                  && s'.containers == (if step.result.Removed? || step.result.RemovedThenFailed?
                                       then s.containers - {pc.container} else s.containers)
                  && (!step.result.Unanswered? && (pc.container !in s.containers || step.result.Removed?) <==>
                      step.t in s'.pcs && s'.pcs[step.t] == Popping(pc.id, pc.container, pc.job)))
            && (step.Pop? ==>
                  && pc.Popping? && s'.records == s.records - {pc.id} && s'.containers == s.containers)
  {
    RunKeepsInv(ss, steps, i);
    assert Next(ss[i], steps[i], ss[i + 1]);
    assert ThreadOk(ss[i], steps[i].t);
    var c := ss[i].pcs[steps[i].t].container;
    assert c !in ss[i].containers ==> ss[i].containers - {c} == ss[i].containers;
  }

  /** A sandbox leaves the records only when a deletion has seen its container gone: a client's, or a
      sweep's at an instant not before its deadline.  One without a deadline leaves only by the first. */
  lemma LeavesOnlyWhenDue(ss: seq<State>, steps: seq<Step>, i: nat, id: Id)
    requires Run(ss, steps) && i < |steps| && id in ss[i].records && id !in ss[i + 1].records
    ensures ss[i].records[id].container !in ss[i].containers
    ensures steps[i].Pop? && steps[i].t in ss[i].pcs && ss[i].pcs[steps[i].t].Popping?
    ensures var job := ss[i].pcs[steps[i].t].job;
            job.Explicit? || (ss[i].records[id].expires.At? && ss[i].records[id].expires.time <= job.now)
  {
    RunKeepsInv(ss, steps, i);
    var s, step := ss[i], steps[i];
    assert Next(s, step, ss[i + 1]);
    assert RecordOk(s, id) && ThreadOk(s, step.t);
    if !Creates(step) {
      DeleteKeepsRecords(s, step, ss[i + 1], id);
    }
  }

  /** A sweep lists what is due when it begins, each sandbox once. */
  lemma SweepListsTheDue(ss: seq<State>, steps: seq<Step>, i: nat, id: Id)
    requires Run(ss, steps) && i < |steps| && steps[i].BeginSweep?
    ensures id in steps[i].due <==>
              && id in ss[i].records
              && ss[i].records[id].expires.At? && ss[i].records[id].expires.time <= steps[i].now
    ensures forall a, b | 0 <= a < b < |steps[i].due| :: steps[i].due[a] != steps[i].due[b]
    ensures steps[i].t in ss[i + 1].pcs && ss[i + 1].records == ss[i].records
    ensures var pc := ss[i + 1].pcs[steps[i].t];
            if steps[i].due == [] then pc == Swept(Sweep(steps[i].now, [], []))
            else pc == Looking(steps[i].due[0], Sweep(steps[i].now, steps[i].due, []))
  {
    assert Next(ss[i], steps[i], ss[i + 1]);
  }

  lemma RecordsStay(s: State, step: Step, s': State, id: Id)
    requires Inv(s) && Next(s, step, s') && id in s.recorded
    ensures id in s'.recorded
    ensures id in s'.records ==> id in s.records && s'.records[id] == s.records[id]
  {
    assert ThreadOk(s, step.t);
    if !Creates(step) {
      DeleteKeepsRecords(s, step, s', id);
    }
  }

  /** A record never changes, its deadline and its container included, and a sandbox that has left
      never comes back. */
  lemma {:induction false} RecordsAreFixed(ss: seq<State>, steps: seq<Step>, i: nat, j: nat, id: Id)
    requires Run(ss, steps) && i <= j <= |steps| && id in ss[i].recorded
    ensures id in ss[j].recorded
    ensures id in ss[j].records ==> id in ss[i].records && ss[j].records[id] == ss[i].records[id]
    decreases j - i
  {
    if i < j {
      RecordsAreFixed(ss, steps, i, j - 1, id);
      RunKeepsInv(ss, steps, j - 1);
      RecordsStay(ss[j - 1], steps[j - 1], ss[j], id);
    }
  }

  /** A finished sweep has a result for every sandbox it listed; those it reports have left for good. */
  lemma SweepReportsTheGone(ss: seq<State>, steps: seq<Step>, i: nat, j: nat, t: Tid, k: nat)
    requires Run(ss, steps) && i <= j <= |steps| && t in ss[i].pcs && ss[i].pcs[t].Swept?
    requires ss[i].pcs[t].job.Sweep? && k < |ss[i].pcs[t].job.due|
    ensures |ss[i].pcs[t].job.results| == |ss[i].pcs[t].job.due|
    ensures ss[i].pcs[t].job.results[k] ==> ss[i].pcs[t].job.due[k] !in ss[j].records
  {
    RunKeepsInv(ss, steps, i);
    assert ThreadOk(ss[i], t);
    RecordsAreFixed(ss, steps, i, j, ss[i].pcs[t].job.due[k]);
  }

  /** A deletion that raises. */
  predicate Fails(s: State, step: Step) {
    && step.Remove? && step.t in s.pcs && s.pcs[step.t].Removing?
    && var pc := s.pcs[step.t];
       || step.result.Unanswered?
       || (pc.container in s.containers && (!step.result.Removed? || Foreign(s, pc.container, pc.id)))
  }

  lemma FailureKeepsRecord(s: State, step: Step, s': State)
    requires Inv(s) && Next(s, step, s') && Fails(s, step) && s.pcs[step.t].job.Sweep?
    ensures var pc := s.pcs[step.t];
            && s'.records == s.records && pc.id in s.recorded
            && (pc.id in s.records ==> Due(s.records[pc.id].expires, pc.job.now))
    ensures step.t in s'.pcs && (s'.pcs[step.t].Looking? || s'.pcs[step.t].Swept?)
    ensures var job := s.pcs[step.t].job;
            s'.pcs[step.t].job == Sweep(job.now, job.due, job.results + [false])
  {
    assert ThreadOk(s, step.t) && RecordOk(s, s.pcs[step.t].id);
  }

  /** A deletion that fails in a sweep is noted and keeps the record; while the record is there, every
      later sweep lists it again. */
  lemma FailedDeletionIsRetried(ss: seq<State>, steps: seq<Step>, i: nat, j: nat)
    requires Run(ss, steps) && i < j < |steps| && steps[i].Remove? && steps[j].BeginSweep?
    requires steps[i].t in ss[i].pcs && ss[i].pcs[steps[i].t].Removing? && ss[i].pcs[steps[i].t].job.Sweep?
    requires steps[i].result.Unanswered?
             || (ss[i].pcs[steps[i].t].container in ss[i].containers && !steps[i].result.Removed?)
    ensures var pc := ss[i].pcs[steps[i].t];
            && ss[i + 1].records == ss[i].records && steps[i].t in ss[i + 1].pcs
            && (ss[i + 1].pcs[steps[i].t].Looking? || ss[i + 1].pcs[steps[i].t].Swept?)
            && ss[i + 1].pcs[steps[i].t].job == Sweep(pc.job.now, pc.job.due, pc.job.results + [false])
            && (pc.id in ss[j].records && steps[j].now >= pc.job.now ==> pc.id in steps[j].due)
  {
    RunKeepsInv(ss, steps, i);
    assert Next(ss[i], steps[i], ss[i + 1]);
    FailureKeepsRecord(ss[i], steps[i], ss[i + 1]);
    RecordsAreFixed(ss, steps, i, j, ss[i].pcs[steps[i].t].id);
    SweepListsTheDue(ss, steps, j, ss[i].pcs[steps[i].t].id);
  }
}
