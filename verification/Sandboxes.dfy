/** The life of sandboxes: creations, deletions and expiry sweeps by many threads at once.

The service's lock covers only single looks at the records; every call into Docker runs outside it. */
module Sandboxes {
  type Id = string         // a sandbox
  type RuntimeId = int     // its container
  type Tid = int
  type Time = int          // microseconds since the first instant a datetime can hold

  /** The last instant a datetime can hold, the end of the year 9999. */
  const LATEST: Time := 3_652_059 * 86_400_000_000 - 1

  datatype Deadline = Never | At(time: Time)

  /** When a sandbox's creation began, and its ttl in seconds: the request's or the default. */
  datatype Birth = Birth(created: Time, ttl: int)

  datatype Record = Record(container: RuntimeId, expires: Deadline)

  /** On whose behalf a sandbox is deleted: a client's, or a sweep's.  A sweep has listed the sandboxes
      due at `now`; `results` says of those it has gone through which deletions raised no error. */
  datatype Job = Explicit | Sweep(now: Time, due: seq<Id>, results: seq<bool>)

  datatype Pc =
    // create
    | Creating(id: Id, birth: Birth)
    | Starting(id: Id, container: RuntimeId, birth: Birth)
    | Recording(id: Id, container: RuntimeId, birth: Birth)
    // delete, alone or in a sweep
    | Looking(id: Id, job: Job)
    | Removing(id: Id, container: RuntimeId, job: Job)
    | Popping(id: Id, container: RuntimeId, job: Job)
    // sweep
    | Swept(job: Job)

  /** `containers` maps each of the broker's containers to the sandbox its label names.  History: the
      sandboxes ever begun and ever recorded, each container's creator, and the containers that a
      creation has left behind. */
  datatype State = State(
    records: map<Id, Record>, containers: map<RuntimeId, Id>, pcs: map<Tid, Pc>,
    births: map<Id, Birth>, recorded: set<Id>, creators: map<RuntimeId, Tid>, abandoned: set<RuntimeId>)

  /** What Docker does about a container of ours: `Unanswered` if it cannot even look it up. */
  datatype Removal = Removed | RemovedThenFailed | Failed | Unanswered

  datatype Step =
    | BeginCreate(t: Tid, id: Id, birth: Birth)
    | MakeContainer(t: Tid, ok: bool, container: RuntimeId)
    | StartContainer(t: Tid, ok: bool, removed: bool)
    | Enlist(t: Tid)
    | BeginDelete(t: Tid, id: Id)
    | BeginSweep(t: Tid, now: Time, due: seq<Id>)
    | Look(t: Tid)
    | Remove(t: Tid, result: Removal)
    | Pop(t: Tid)
    | Return(t: Tid)

  // ---------- Deadlines ----------

  /** Whether `_deadline` can be computed: past the latest datetime it raises. */
  predicate Fits(b: Birth) {
    b.ttl <= 0 || b.created + b.ttl * 1_000_000 <= LATEST
  }

  /** `_deadline` */
  function DeadlineOf(b: Birth): Deadline {
    if b.ttl <= 0 then Never else At(b.created + b.ttl * 1_000_000)
  }

  /** An omitted or zero `ttl_seconds` means the default. */
  function EffectiveTtl(requested: int, fallback: int): int {
    if requested != 0 then requested else fallback
  }

  predicate Due(d: Deadline, now: Time) {
    d.At? && d.time <= now
  }

  // ---------- Steps ----------

  /** A sweep's list: every record that is due, once. */
  predicate Lists(due: seq<Id>, records: map<Id, Record>, now: Time) {
    && (forall i, j | 0 <= i < j < |due| :: due[i] != due[j])
    && (forall id | id in due :: id in records && Due(records[id].expires, now))
    && (forall id | id in records && Due(records[id].expires, now) :: id in due)
  }

  /** Where a thread goes when its deletion has returned or raised; a sweep goes on regardless. */
  function Onward(pcs: map<Tid, Pc>, t: Tid, job: Job, ok: bool): map<Tid, Pc> {
    if job.Explicit? then pcs - {t} else pcs[t := NextOf(Sweep(job.now, job.due, job.results + [ok]))]
  }

  function NextOf(job: Job): Pc
    requires job.Sweep?
  {
    if |job.results| < |job.due| then Looking(job.due[|job.results|], job) else Swept(job)
  }

  predicate Enabled(s: State, step: Step) {
    if step.BeginCreate? then step.t !in s.pcs && step.id !in s.births
    else if step.BeginDelete? then step.t !in s.pcs
    else if step.BeginSweep? then step.t !in s.pcs && Lists(step.due, s.records, step.now)
    else
      && step.t in s.pcs
      && var pc := s.pcs[step.t];
      if step.MakeContainer? then pc.Creating? && step.container !in s.creators
      else if step.StartContainer? then pc.Starting?
      else if step.Enlist? then pc.Recording?
      else if step.Look? then pc.Looking?
      else if step.Remove? then pc.Removing?
      else if step.Pop? then pc.Popping?
      else pc.Swept?
  }

  ghost predicate Effect(s: State, s': State, records: map<Id, Record>, containers: map<RuntimeId, Id>,
                         pcs: map<Tid, Pc>)
  {
    s'.records == records && s'.containers == containers && s'.pcs == pcs
  }

  ghost predicate SameHistory(s: State, s': State) {
    && s'.births == s.births && s'.recorded == s.recorded
    && s'.creators == s.creators && s'.abandoned == s.abandoned
  }

  ghost predicate Next(s: State, step: Step, s': State) {
    && Enabled(s, step)
    && if step.BeginCreate? || step.MakeContainer? || step.StartContainer? || step.Enlist? then CreateStep(s, step, s')
       else SameHistory(s, s') && DeleteStep(s, step, s')
  }

  /** `create`.  A container that does not start is removed again, unless that fails.  The deadline is
      computed once the container runs; if that raises, there will be no record. */
  ghost predicate CreateStep(s: State, step: Step, s': State)
    requires Enabled(s, step) && (step.BeginCreate? || step.MakeContainer? || step.StartContainer? || step.Enlist?)
  {
    var t := step.t;
    if step.BeginCreate? then
      && Effect(s, s', s.records, s.containers, s.pcs[t := Creating(step.id, step.birth)])
      && s'.births == s.births[step.id := step.birth] && s'.recorded == s.recorded
      && s'.creators == s.creators && s'.abandoned == s.abandoned
    else
      var pc := s.pcs[t];
      && s'.births == s.births
      && s'.recorded == (if step.Enlist? && Fits(pc.birth) then s.recorded + {pc.id} else s.recorded)
      && s'.creators == (if step.MakeContainer? && step.ok then s.creators[step.container := t] else s.creators)
      && (forall c :: c in s'.abandoned <==> c in s.abandoned || Abandons(s, step, c))
      && if step.MakeContainer? then
           if step.ok then
             Effect(s, s', s.records, s.containers[step.container := pc.id],
                    s.pcs[t := Starting(pc.id, step.container, pc.birth)])
           else Effect(s, s', s.records, s.containers, s.pcs - {t})
         else if step.StartContainer? then
           if step.ok then
             Effect(s, s', s.records, s.containers, s.pcs[t := Recording(pc.id, pc.container, pc.birth)])
           else
             Effect(s, s', s.records, if step.removed then s.containers - {pc.container} else s.containers, s.pcs - {t})
         else if Fits(pc.birth) then
           Effect(s, s', s.records[pc.id := Record(pc.container, DeadlineOf(pc.birth))], s.containers, s.pcs - {t})
         else Effect(s, s', s.records, s.containers, s.pcs - {t})
  }

  /** The two ways a creation leaves its container behind: it cannot remove one that did not start, or
      it cannot compute the deadline of one that did. */
  predicate Abandons(s: State, step: Step, c: RuntimeId) {
    && (step.StartContainer? || step.Enlist?) && step.t in s.pcs
    && var pc := s.pcs[step.t];
       if step.StartContainer? then pc.Starting? && pc.container == c && !step.ok && !step.removed
       else pc.Recording? && pc.container == c && !Fits(pc.birth)
  }

  /** Whether a container's label names another sandbox: the guard of the ownership error. */
  predicate Foreign(s: State, container: RuntimeId, id: Id) {
    container in s.containers && s.containers[container] != id
  }

  /** `delete` and `sweep_expired`. */
  ghost predicate DeleteStep(s: State, step: Step, s': State)
    requires Enabled(s, step) && !step.BeginCreate? && !step.MakeContainer? && !step.StartContainer? && !step.Enlist?
  {
    var t := step.t;
    if step.BeginDelete? then Effect(s, s', s.records, s.containers, s.pcs[t := Looking(step.id, Explicit)])
    else if step.BeginSweep? then
      Effect(s, s', s.records, s.containers, s.pcs[t := NextOf(Sweep(step.now, step.due, []))])
    else
      var pc := s.pcs[t];
      if step.Look? then
        if pc.id in s.records then
          Effect(s, s', s.records, s.containers, s.pcs[t := Removing(pc.id, s.records[pc.id].container, pc.job)])
        else Effect(s, s', s.records, s.containers, Onward(s.pcs, t, pc.job, true))
      else if step.Remove? then
        var popping := s.pcs[t := Popping(pc.id, pc.container, pc.job)];
        if pc.container !in s.containers && !step.result.Unanswered? then
          Effect(s, s', s.records, s.containers, popping)
        else if step.result.Unanswered? || Foreign(s, pc.container, pc.id) || step.result.Failed? then
          Effect(s, s', s.records, s.containers, Onward(s.pcs, t, pc.job, false))
        else if step.result.RemovedThenFailed? then
          Effect(s, s', s.records, s.containers - {pc.container}, Onward(s.pcs, t, pc.job, false))
        else Effect(s, s', s.records, s.containers - {pc.container}, popping)
      else if step.Pop? then
        Effect(s, s', s.records - {pc.id}, s.containers, Onward(s.pcs, t, pc.job, true))
      else Effect(s, s', s.records, s.containers, s.pcs - {t})
  }

  ghost predicate Init(s: State) {
    && s.records == map[] && s.containers == map[] && s.pcs == map[]
    && s.births == map[] && s.recorded == {} && s.creators == map[] && s.abandoned == {}
  }

  ghost predicate Run(ss: seq<State>, steps: seq<Step>) {
    && |ss| == |steps| + 1
    && Init(ss[0])
    && forall i | 0 <= i < |steps| :: Next(ss[i], steps[i], ss[i + 1])
  }

  // ---------- The invariant ----------

  /** A record names a container made for it and not left behind, and the deadline fixed at its birth. */
  ghost predicate RecordOk(s: State, id: Id) {
    id in s.records ==>
      && id in s.recorded && s.records[id].container in s.creators && s.records[id].container !in s.abandoned
      && (s.records[id].container in s.containers ==> s.containers[s.records[id].container] == id)
      && id in s.births && Fits(s.births[id]) && s.records[id].expires == DeadlineOf(s.births[id])
  }

  ghost predicate Makes(s: State, t: Tid, c: RuntimeId) {
    t in s.pcs && (s.pcs[t].Starting? || s.pcs[t].Recording?) && s.pcs[t].container == c
  }

  /** A live container belongs to the record of the sandbox it is labelled with, or to the creation that
      made it, or it has been left behind; and one left behind stays. */
  ghost predicate Owned(s: State, c: RuntimeId) {
    && (c in s.abandoned ==> c in s.containers)
    && (c in s.containers ==>
          && c in s.creators && s.containers[c] in s.births
          && (c in s.abandoned || Makes(s, s.creators[c], c)
              || (s.containers[c] in s.records && s.records[s.containers[c]].container == c)))
  }

  ghost predicate JobOk(s: State, job: Job) {
    job.Sweep? ==>
      && |job.results| <= |job.due|
      && (forall i, j | 0 <= i < j < |job.due| :: job.due[i] != job.due[j])
      && (forall i | 0 <= i < |job.due| ::
            job.due[i] in s.recorded && job.due[i] in s.births && Due(DeadlineOf(s.births[job.due[i]]), job.now))
      && (forall i | 0 <= i < |job.results| && job.results[i] :: job.due[i] !in s.records)
  }

  predicate Working(pc: Pc) {
    pc.Looking? || pc.Removing? || pc.Popping?
  }

  /** What a thread knows of its sandbox. */
  ghost predicate PcOk(s: State, t: Tid, pc: Pc) {
    && (pc.Creating? || pc.Starting? || pc.Recording? ==>
          && pc.id !in s.recorded && pc.id in s.births && s.births[pc.id] == pc.birth)
    && (pc.Starting? || pc.Recording? ==>
          && pc.container in s.creators && s.creators[pc.container] == t
          && pc.container in s.containers && s.containers[pc.container] == pc.id && pc.container !in s.abandoned)
    && (Working(pc) ==>
          && JobOk(s, pc.job)
          && (pc.job.Sweep? ==> |pc.job.results| < |pc.job.due| && pc.job.due[|pc.job.results|] == pc.id))
    && (pc.Removing? || pc.Popping? ==>
          && pc.id in s.recorded && pc.container in s.creators && pc.container !in s.abandoned
          && (pc.id in s.records ==> s.records[pc.id].container == pc.container)
          && (pc.container in s.containers ==> s.containers[pc.container] == pc.id))
    && (pc.Popping? ==> pc.container !in s.containers)
    && (pc.Swept? ==> pc.job.Sweep? && JobOk(s, pc.job) && |pc.job.results| == |pc.job.due|)
  }

  ghost predicate ThreadOk(s: State, t: Tid) {
    t in s.pcs ==> PcOk(s, t, s.pcs[t])
  }

  /** Two creations never work on one sandbox. */
  ghost predicate Apart(s: State, t: Tid, u: Tid) {
    t in s.pcs && u in s.pcs && t != u
      && (s.pcs[t].Creating? || s.pcs[t].Starting? || s.pcs[t].Recording?)
      && (s.pcs[u].Creating? || s.pcs[u].Starting? || s.pcs[u].Recording?) ==>
      s.pcs[t].id != s.pcs[u].id
  }

  ghost predicate Inv(s: State) {
    && (forall id | id in s.recorded :: id in s.births)
    && (forall id :: RecordOk(s, id))
    && (forall c :: Owned(s, c))
    && (forall t :: ThreadOk(s, t))
    && (forall t, u :: Apart(s, t, u))
  }
}
