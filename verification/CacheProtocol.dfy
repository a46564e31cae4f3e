/** The image cache and the runtime paths that use it, as one interleaved machine.

A thread runs `build_image`, `create` or `delete`; its program counter says which call comes next.
The cache lock is held for one step by the short critical sections and for many by a collection,
by `reuse_built` and by every save, so unlocked Docker calls of other threads can fall anywhere
inside them.  A crash at any point leaves Docker and the inventory file only. */
module CacheProtocol {
  import opened Inventory
  import opened CacheKey

  type Tid = int
  type GateId = int  // identity of a build gate's lock object
  type CtrId = int

  datatype Config = Config(brokerId: string, minAge: nat, minFree: int, targetFree: int)

  datatype Image = Image(id: ImageId, labels: Labels)

  /** A sandbox container: its image, the reference it was created from, and (history) whether its
      creator held a reservation on that image. */
  datatype Ctr = Ctr(image: ImageId, from: Ref, held: bool)

  datatype Gate = Gate(gate: GateId, users: nat)

  /** A build request: its tag and the labels that `reuse_built` must find. */
  datatype Job = Job(tag: Ref, want: Labels)

  datatype Pc =
    // build_image
    | EnterGate(job: Job)
    | AwaitGate(job: Job, gate: GateId)                    // counted as a user, gate not yet held
    | Reuse(job: Job, gate: GateId)
    | BuildGc(job: Job, gate: GateId, emergency: bool)
    | Build(job: Job, gate: GateId, retried: bool)
    | RecordBuild(job: Job, gate: GateId, id: ImageId)
    | DropGate(job: Job, gate: GateId)
    | LeaveGate(job: Job, gate: GateId)                    // gate released, still counted
    // create
    | Find(ref: Ref)
    | PullGc(ref: Ref, emergency: bool)
    | Pull(ref: Ref, retried: bool)
    | RecordPull(ref: Ref, id: ImageId)
    | TouchImage(ref: Ref, id: ImageId, since: Time)       // since: last use known to protect id
    | ReserveImage(ref: Ref, id: ImageId, since: Time)
    | CreateCtr(ref: Ref, id: ImageId, current: bool)      // current: ref resolved to id on reserving
    | StartCtr(ref: Ref, id: ImageId, ctr: CtrId)
    | Unreserve(id: ImageId)
    // delete
    | RemoveCtr(ctr: CtrId)
    | RemoveGc

  /** The inventory without its order; `Inventory.LoadAfterSave` covers the order of the file. */
  type Records = map<Ref, CachedImage>

  /** `listed` is history: the containers there when the collection asked for them. */
  datatype Collection = Collection(
    todo: seq<CachedImage>, active: set<ImageId>, listed: set<CtrId>, free: int, mustRemove: bool, removed: seq<Ref>)

  datatype Use = Use(ref: Ref, id: ImageId, at: Time)

  /** The cache lock, with how far its holder has come. */
  datatype Lock =
    | Unlocked
    | Reusing(tid: Tid, found: Option<Image>)
    | Saving(tid: Tid, before: Records, next: Option<Pc>, use: Option<Use>)
    | Listing(tid: Tid, free: int)
    | Scanning(tid: Tid, gc: Collection)
    | Deleting(tid: Tid, gc: Collection, epoch: nat)       // head of todo inspected
    | Forgetting(tid: Tid, gc: Collection)                 // head removed from Docker
    | Flushing(tid: Tid, gc: Collection, before: Records, counted: bool)  // head forgotten in memory

  /** History of the inventory file.  `unread`: this process could not read it, and has not replaced it
      since.  `drafts`: the tags built since as another image than it records.  `torn`: a later process
      has read it while there were any. */
  datatype Reading = Reading(unread: bool, drafts: set<Ref>, torn: bool)

  datatype State = State(
    // Docker and the clock
    tags: map<Ref, Image>, ctrs: map<CtrId, Ctr>, now: Time,
    // the cache
    records: Records, disk: Records, reading: Reading, gates: map<Ref, Gate>, reservations: map<ImageId, nat>,
    // threads and locks
    lock: Lock, holders: map<GateId, Tid>, nextGate: GateId, pcs: map<Tid, Pc>,
    // history: what was ever pulled, built or adopted; the last completed use of a reference; the
    // images pulled for it, in order
    acquired: set<(Ref, ImageId)>, used: map<Ref, Use>, pulls: map<Ref, seq<ImageId>>)

  // ---------- Steps ----------

  datatype Task = BuildTask(key: string) | CreateTask(ref: Ref) | DeleteTask(ctr: CtrId)

  datatype GateAct = Register | Interrupt | Acquire | Release | Leave

  datatype BuildAct =
    | Look(ok: bool)
    | Decide
    | BuildOk(id: ImageId)
    | BuildFail(outOfSpace: bool)
    | RecordBuilt

  datatype GcAct =
    | GcBegin(reading: Option<int>)
    | GcList(ok: bool, todo: seq<CachedImage>)
    | GcStop
    | GcSkip
    | GcInspect(ok: bool)
    | GcDelete(ok: bool)
    | GcDrop
    | GcFlush(reading: Option<int>)

  datatype CreateAct =
    | FindImage(ok: bool)
    | PullOk(image: Image)
    | PullFail(outOfSpace: bool)
    | RecordPulled
    | Touch
    | Reserve
    | CreateOk(ctr: CtrId)
    | CreateFail
    | StartOk
    | StartFail(removed: bool)
    | EndReserve

  datatype Step =
    | Tick(d: nat)
    | Crash(readable: bool)
    | Begin(t: Tid, task: Task)
    | Gating(t: Tid, gate: GateAct)
    | Building(t: Tid, build: BuildAct)
    | Gc(t: Tid, gc: GcAct)
    | Creating(t: Tid, create: CreateAct)
    | Removing(t: Tid, ok: bool)
    | Flush(t: Tid)

  // ---------- Projections of a program counter ----------

  /** A thread's entry in `_build_gates`, and whether it holds the gate. */
  datatype Seat = Seat(tag: Ref, gate: GateId, inside: bool)

  datatype GateClaim = NoGate | Seated(seat: Seat)

  datatype ReserveClaim = NoReserve | Reserving(id: ImageId)

  function GateOf(pc: Pc): GateClaim {
    if pc.AwaitGate? || pc.LeaveGate? then Seated(Seat(pc.job.tag, pc.gate, false))
    else if Inside(pc) then Seated(Seat(pc.job.tag, pc.gate, true))
    else NoGate
  }

  /** Whether a thread is between acquiring and releasing its gate. */
  predicate Inside(pc: Pc) {
    pc.Reuse? || pc.BuildGc? || pc.Build? || pc.RecordBuild? || pc.DropGate?
  }

  /** The image a thread holds a reservation on. */
  function ReservedBy(pc: Pc): ReserveClaim {
    if pc.CreateCtr? || pc.StartCtr? || pc.Unreserve? then Reserving(pc.id) else NoReserve
  }

  /** Whether a thread's next call is `collect_if_needed`. */
  predicate Collecting(pc: Pc) {
    pc.BuildGc? || pc.PullGc? || pc.RemoveGc?
  }

  function AfterGc(pc: Pc): Option<Pc>
    requires Collecting(pc)
  {
    if pc.BuildGc? then Some(Build(pc.job, pc.gate, pc.emergency))
    else if pc.PullGc? then Some(Pull(pc.ref, pc.emergency))
    else None
  }

  predicate Emergency(pc: Pc)
    requires Collecting(pc)
  {
    !pc.RemoveGc? && pc.emergency
  }

  // ---------- Small pieces of the steps ----------

  /** Tags that only `build_image` of this broker creates. */
  predicate ContentTag(cfg: Config, ref: Ref) {
    TagPrefix(cfg.brokerId) <= ref
  }

  predicate Matches(labels: Labels, want: Labels) {
    forall k | k in want :: k in labels && labels[k] == want[k]
  }

  lemma OwnLabels(labels: Labels, brokerId: string, key: string)
    ensures Matches(labels, KeyLabels(brokerId, key)) <==> Carries(labels, brokerId, key)
  {
    var want := KeyLabels(brokerId, key);
    assert MANAGED_BY_LABEL in want && BROKER_ID_LABEL in want && BUILD_KEY_LABEL in want;
    assert MANAGED_BY_LABEL != BROKER_ID_LABEL && BROKER_ID_LABEL != BUILD_KEY_LABEL;
    assert MANAGED_BY_LABEL != BUILD_KEY_LABEL;
  }

  predicate Young(cfg: Config, s: State, record: CachedImage) {
    s.now - record.lastUsed < cfg.minAge
  }

  predicate At(s: State, t: Tid) {
    t in s.pcs
  }

  /** The threads after `t` goes on to `next`, or ends. */
  function Moved(pcs: map<Tid, Pc>, t: Tid, next: Option<Pc>): map<Tid, Pc> {
    if next.Some? then pcs[t := next.value] else pcs - {t}
  }

  function PulledFor(s: State, ref: Ref): seq<ImageId> {
    if ref in s.pulls then s.pulls[ref] else []
  }

  function Resolve(s: State, ref: Ref): Option<ImageId> {
    if ref in s.tags then Some(s.tags[ref].id) else None
  }

  function ActiveImages(s: State): set<ImageId> {
    (set c | c in s.ctrs :: s.ctrs[c].image) + s.reservations.Keys
  }

  /** A visiting order of the inventory: every record once, oldest use first. */
  predicate Orders(todo: seq<CachedImage>, records: Records) {
    && DistinctReferences(todo) && InUseOrder(todo)
    && (forall r | r in todo :: r.reference in records && records[r.reference] == r)
    && (forall ref | ref in records :: records[ref] in todo)
  }

  predicate Stopping(cfg: Config, gc: Collection) {
    gc.todo == [] || (gc.free >= cfg.targetFree && !gc.mustRemove)
  }

  /** Passed over before Docker is asked. */
  predicate Skipped(cfg: Config, s: State, record: CachedImage) {
    record.reference in s.gates || Young(cfg, s, record)
  }

  function Tail(gc: Collection): Collection
    requires gc.todo != []
  {
    gc.(todo := gc.todo[1..])
  }

  predicate Sweeping(lock: Lock) {
    lock.Scanning? || lock.Deleting? || lock.Forgetting? || lock.Flushing?
  }

  /** Whether a running collection has listed the container; ids of containers are not used again. */
  predicate Listed(lock: Lock, c: CtrId) {
    Sweeping(lock) && c in lock.gc.listed
  }

  // ---------- Enabled steps ----------

  predicate Enabled(cfg: Config, s: State, step: Step) {
    if step.Tick? || step.Crash? then true
    else if step.Gating? then At(s, step.t) && GateEnabled(s, step.t, step.gate)
    else if step.Building? then At(s, step.t) && BuildEnabled(s, step.t, step.build)
    else if step.Gc? then At(s, step.t) && GcEnabled(cfg, s, step.t, step.gc)
    else if step.Creating? then At(s, step.t) && CreateEnabled(cfg, s, step.t, step.create)
    else OtherEnabled(s, step)
  }

  /** The start of a thread, the end of a save, and the removal of a container. */
  predicate OtherEnabled(s: State, step: Step) {
    || (step.Begin? && !At(s, step.t) && (step.task.BuildTask? ==> ':' !in step.task.key))
    || (step.Flush? && At(s, step.t) && s.lock.Saving? && s.lock.tid == step.t)
    || (step.Removing? && At(s, step.t) && s.pcs[step.t].RemoveCtr? && (step.ok ==> s.pcs[step.t].ctr in s.ctrs))
  }

  predicate GateEnabled(s: State, t: Tid, act: GateAct)
    requires At(s, t)
  {
    var pc := s.pcs[t];
    if act.Register? then s.lock.Unlocked? && pc.EnterGate?
    else if act.Interrupt? then pc.AwaitGate?
    else if act.Acquire? then pc.AwaitGate? && pc.gate !in s.holders
    else if act.Release? then pc.DropGate?
    else s.lock.Unlocked? && pc.LeaveGate? && pc.job.tag in s.gates
  }

  predicate BuildEnabled(s: State, t: Tid, act: BuildAct)
    requires At(s, t)
  {
    var pc := s.pcs[t];
    if act.Look? then s.lock.Unlocked? && pc.Reuse?
    else if act.Decide? then s.lock.Reusing? && s.lock.tid == t && pc.Reuse?
    else if act.RecordBuilt? then s.lock.Unlocked? && pc.RecordBuild?
    else pc.Build?
  }

  predicate GcEnabled(cfg: Config, s: State, t: Tid, act: GcAct)
    requires At(s, t)
  {
    && Collecting(s.pcs[t])
    && if act.GcBegin? then s.lock.Unlocked?
       else
         && !s.lock.Unlocked? && s.lock.tid == t
         && if act.GcList? then s.lock.Listing? && (act.ok ==> Orders(act.todo, s.records))
            else if act.GcStop? then s.lock.Scanning? && Stopping(cfg, s.lock.gc)
            else if act.GcSkip? || act.GcInspect? then
              && s.lock.Scanning? && !Stopping(cfg, s.lock.gc)
              && (act.GcSkip? <==> Skipped(cfg, s, s.lock.gc.todo[0]))
            else if act.GcDelete? then s.lock.Deleting? && s.lock.gc.todo != []
            else if act.GcDrop? then s.lock.Forgetting? && s.lock.gc.todo != []
            else s.lock.Flushing? && s.lock.gc.todo != []
  }

  predicate CreateEnabled(cfg: Config, s: State, t: Tid, act: CreateAct)
    requires At(s, t)
  {
    var pc := s.pcs[t];
    if act.FindImage? then pc.Find?
    else if act.PullOk? then pc.Pull? && !ContentTag(cfg, pc.ref)
    else if act.PullFail? then pc.Pull?
    else if act.RecordPulled? then s.lock.Unlocked? && pc.RecordPull?
    else if act.Touch? then s.lock.Unlocked? && pc.TouchImage?
    else if act.Reserve? then s.lock.Unlocked? && pc.ReserveImage?
    else if act.CreateOk? then pc.CreateCtr? && act.ctr !in s.ctrs && !Listed(s.lock, act.ctr) && pc.ref in s.tags
    else if act.CreateFail? then pc.CreateCtr?
    else if act.StartOk? || act.StartFail? then pc.StartCtr?
    else s.lock.Unlocked? && pc.Unreserve? && pc.id in s.reservations
  }

  // ---------- Their effect ----------
  // Each family of steps first says what none of its steps changes; every other field is given.

  ghost predicate Next(cfg: Config, s: State, step: Step, s': State) {
    && Enabled(cfg, s, step)
    && if step.Tick? then Ticking(s, step.d, s')
       else if step.Crash? then Crashing(s, step.readable, s')
       else if step.Gating? then GateStep(s, step.t, step.gate, s')
       else if step.Building? then BuildStep(cfg, s, step.t, step.build, s')
       else if step.Gc? then GcStep(cfg, s, step.t, step.gc, s')
       else if step.Creating? then CreateStep(cfg, s, step.t, step.create, s')
       else OtherStep(cfg, s, step, s')
  }

  function FirstPc(cfg: Config, task: Task): Pc {
    if task.BuildTask? then EnterGate(Job(Tag(cfg.brokerId, task.key), KeyLabels(cfg.brokerId, task.key)))
    else if task.CreateTask? then Find(task.ref)
    else RemoveCtr(task.ctr)
  }

  ghost predicate Ticking(s: State, d: nat, s': State) {
    && s'.tags == s.tags && s'.ctrs == s.ctrs && s'.records == s.records && s'.disk == s.disk
    && s'.reading == s.reading && s'.gates == s.gates && s'.reservations == s.reservations && s'.lock == s.lock
    && s'.holders == s.holders && s'.nextGate == s.nextGate && s'.pcs == s.pcs
    && s'.acquired == s.acquired && s'.used == s.used && s'.pulls == s.pulls
    && s'.now == s.now + d
  }

  /** A new process finds Docker as it was and loads the file.  If it cannot read the file, it starts
      with an empty inventory and leaves the file alone. */
  ghost predicate Crashing(s: State, readable: bool, s': State) {
    && s'.tags == s.tags && s'.ctrs == s.ctrs && s'.now == s.now && s'.disk == s.disk
    && s'.acquired == s.acquired && s'.used == s.used && s'.pulls == s.pulls
    && s'.records == (if readable then s.disk else map[])
    && s'.reading == (if readable then Reading(false, {}, s.reading.torn || s.reading.drafts != {})
                      else Reading(true, s.reading.drafts, s.reading.torn))
    && s'.gates == map[] && s'.reservations == map[] && s'.lock == Unlocked && s'.holders == map[]
    && s'.nextGate == s.nextGate && s'.pcs == map[]
  }

  ghost predicate OtherEffect(s: State, s': State, ctrs: map<CtrId, Ctr>, disk: Records, reading: Reading,
                              used: map<Ref, Use>, lock: Lock, pcs: map<Tid, Pc>)
  {
    && s'.tags == s.tags && s'.now == s.now && s'.records == s.records
    && s'.gates == s.gates && s'.reservations == s.reservations
    && s'.holders == s.holders && s'.nextGate == s.nextGate
    && s'.acquired == s.acquired && s'.pulls == s.pulls
    && s'.ctrs == ctrs && s'.disk == disk && s'.reading == reading && s'.used == used
    && s'.lock == lock && s'.pcs == pcs
  }

  /** After a save the file is this process's own. */
  function Replaced(r: Reading): Reading {
    Reading(false, {}, r.torn)
  }

  /** A save ends by replacing the file and releasing the lock. */
  ghost predicate OtherStep(cfg: Config, s: State, step: Step, s': State)
    requires OtherEnabled(s, step)
  {
    var t := step.t;
    if step.Begin? then
      OtherEffect(s, s', s.ctrs, s.disk, s.reading, s.used, s.lock, s.pcs[t := FirstPc(cfg, step.task)])
    else if step.Flush? then
      var use := s.lock.use;
      OtherEffect(s, s', s.ctrs, s.records, Replaced(s.reading),
                  if use.Some? then s.used[use.value.ref := use.value] else s.used,
                  Unlocked, Moved(s.pcs, t, s.lock.next))
    else if step.ok then
      OtherEffect(s, s', s.ctrs - {s.pcs[t].ctr}, s.disk, s.reading, s.used, s.lock, s.pcs[t := RemoveGc])
    else OtherEffect(s, s', s.ctrs, s.disk, s.reading, s.used, s.lock, s.pcs - {t})
  }

  // ----- Gates -----

  ghost predicate GateEffect(s: State, s': State, gates: map<Ref, Gate>, holders: map<GateId, Tid>,
                             nextGate: GateId, pcs: map<Tid, Pc>)
  {
    && s'.tags == s.tags && s'.ctrs == s.ctrs && s'.now == s.now
    && s'.records == s.records && s'.disk == s.disk && s'.reading == s.reading
    && s'.reservations == s.reservations && s'.lock == s.lock
    && s'.acquired == s.acquired && s'.used == s.used && s'.pulls == s.pulls
    && s'.gates == gates && s'.holders == holders && s'.nextGate == nextGate && s'.pcs == pcs
  }

  ghost predicate GateStep(s: State, t: Tid, act: GateAct, s': State)
    requires At(s, t) && GateEnabled(s, t, act)
  {
    var job := s.pcs[t].job;
    if act.Register? then
      if job.tag in s.gates then
        var g := s.gates[job.tag];
        GateEffect(s, s', s.gates[job.tag := Gate(g.gate, g.users + 1)], s.holders, s.nextGate,
                   s.pcs[t := AwaitGate(job, g.gate)])
      else
        GateEffect(s, s', s.gates[job.tag := Gate(s.nextGate, 1)], s.holders, s.nextGate + 1,
                   s.pcs[t := AwaitGate(job, s.nextGate)])
    else
      var gate := s.pcs[t].gate;
      if act.Interrupt? then
        GateEffect(s, s', s.gates, s.holders, s.nextGate, s.pcs[t := LeaveGate(job, gate)])
      else if act.Acquire? then
        GateEffect(s, s', s.gates, s.holders[gate := t], s.nextGate, s.pcs[t := Reuse(job, gate)])
      else if act.Release? then
        GateEffect(s, s', s.gates, s.holders - {gate}, s.nextGate, s.pcs[t := LeaveGate(job, gate)])
      else
        var users := s.gates[job.tag].users;
        GateEffect(s, s', if users > 1 then s.gates[job.tag := Gate(gate, users - 1)] else s.gates - {job.tag},
                   s.holders, s.nextGate, s.pcs - {t})
  }

  // ----- build_image -----

  ghost predicate BuildEffect(s: State, s': State, tags: map<Ref, Image>, records: Records, reading: Reading,
                              lock: Lock, pcs: map<Tid, Pc>, acquired: set<(Ref, ImageId)>)
  {
    && s'.ctrs == s.ctrs && s'.now == s.now && s'.disk == s.disk && s'.reservations == s.reservations
    && s'.gates == s.gates && s'.holders == s.holders && s'.nextGate == s.nextGate
    && s'.used == s.used && s'.pulls == s.pulls
    && s'.tags == tags && s'.records == records && s'.reading == reading && s'.lock == lock && s'.pcs == pcs
    && s'.acquired == acquired
  }

  /** The memory half of `record(tag, id, "built")`, the save still to come. */
  ghost predicate RecordingBuild(s: State, t: Tid, id: ImageId, s': State)
    requires At(s, t) && (s.pcs[t].Reuse? || s.pcs[t].RecordBuild?)
  {
    var job, gate := s.pcs[t].job, s.pcs[t].gate;
    BuildEffect(s, s', s.tags, s.records[job.tag := CachedImage(job.tag, id, Built, s.now)], s.reading,
                Saving(t, s.records, Some(DropGate(job, gate)), Some(Use(job.tag, id, s.now))),
                s.pcs, s.acquired + {(job.tag, id)})
  }

  /** The tag now stands for `id`, which the file records or not. */
  function Drafted(s: State, tag: Ref, id: ImageId): Reading {
    var other := tag in s.disk && s.disk[tag].imageId != id;
    Reading(s.reading.unread, if other then s.reading.drafts + {tag} else s.reading.drafts - {tag}, s.reading.torn)
  }

  ghost predicate BuildStep(cfg: Config, s: State, t: Tid, act: BuildAct, s': State)
    requires At(s, t) && BuildEnabled(s, t, act)
  {
    var job, gate := s.pcs[t].job, s.pcs[t].gate;
    if act.Look? then
      if act.ok then
        var found := if job.tag in s.tags then Some(s.tags[job.tag]) else None;
        BuildEffect(s, s', s.tags, s.records, s.reading, Reusing(t, found), s.pcs, s.acquired)
      else BuildEffect(s, s', s.tags, s.records, s.reading, s.lock, s.pcs[t := DropGate(job, gate)], s.acquired)
    else if act.Decide? then DecideStep(s, t, s')
    else if act.BuildOk? then
      BuildEffect(s, s', s.tags[job.tag := Image(act.id, BuiltLabels(cfg.brokerId, job.tag))], s.records,
                  Drafted(s, job.tag, act.id), s.lock,
                  s.pcs[t := RecordBuild(job, gate, act.id)],
                  s.acquired + {(job.tag, act.id)})
    else if act.BuildFail? then
      var retry := act.outOfSpace && !s.pcs[t].retried;
      BuildEffect(s, s', s.tags, s.records, s.reading, s.lock,
                  s.pcs[t := if retry then BuildGc(job, gate, true) else DropGate(job, gate)], s.acquired)
    else RecordingBuild(s, t, s.pcs[t].id, s')
  }

  /** The guard of the identity-mismatch error. */
  predicate Mismatch(s: State, job: Job, image: Image) {
    !Matches(image.labels, job.want) || (job.tag in s.records && s.records[job.tag].imageId != image.id)
  }

  /** `reuse_built` once Docker has answered. */
  ghost predicate DecideStep(s: State, t: Tid, s': State)
    requires s.lock.Reusing? && At(s, t) && s.pcs[t].Reuse?
  {
    var job, gate := s.pcs[t].job, s.pcs[t].gate;
    if s.lock.found.None? then
      var miss := BuildGc(job, gate, false);
      if job.tag in s.records then
        BuildEffect(s, s', s.tags, s.records - {job.tag}, s.reading, Saving(t, s.records, Some(miss), None),
                    s.pcs, s.acquired)
      else BuildEffect(s, s', s.tags, s.records, s.reading, Unlocked, s.pcs[t := miss], s.acquired)
    else
      var image := s.lock.found.value;
      if Mismatch(s, job, image) then
        BuildEffect(s, s', s.tags, s.records, s.reading, Unlocked, s.pcs[t := DropGate(job, gate)], s.acquired)
      else RecordingBuild(s, t, image.id, s')
  }

  // ----- collect_if_needed -----

  ghost predicate GcEffect(s: State, s': State, tags: map<Ref, Image>, records: Records, disk: Records,
                           reading: Reading, lock: Lock, pcs: map<Tid, Pc>)
  {
    && s'.ctrs == s.ctrs && s'.now == s.now && s'.reservations == s.reservations
    && s'.gates == s.gates && s'.holders == s.holders && s'.nextGate == s.nextGate
    && s'.acquired == s.acquired && s'.used == s.used && s'.pulls == s.pulls
    && s'.tags == tags && s'.records == records && s'.disk == disk && s'.reading == reading
    && s'.lock == lock && s'.pcs == pcs
  }

  /** The collection goes on to `lock`, having touched nothing else. */
  ghost predicate GcMoves(s: State, lock: Lock, s': State) {
    GcEffect(s, s', s.tags, s.records, s.disk, s.reading, lock, s.pcs)
  }

  ghost predicate GcEnds(s: State, t: Tid, s': State)
    requires At(s, t) && Collecting(s.pcs[t])
  {
    GcEffect(s, s', s.tags, s.records, s.disk, s.reading, Unlocked, Moved(s.pcs, t, AfterGc(s.pcs[t])))
  }

  ghost predicate GcStep(cfg: Config, s: State, t: Tid, act: GcAct, s': State)
    requires At(s, t) && GcEnabled(cfg, s, t, act)
  {
    var pc := s.pcs[t];
    if act.GcBegin? then
      if s.records == map[] || act.reading.None? || (!Emergency(pc) && act.reading.value >= cfg.minFree)
      then GcEnds(s, t, s')
      else GcMoves(s, Listing(t, act.reading.value), s')
    else if act.GcList? then
      if act.ok then
        GcMoves(s, Scanning(t, Collection(act.todo, ActiveImages(s), s.ctrs.Keys, s.lock.free, Emergency(pc), [])), s')
      else GcEnds(s, t, s')
    else if act.GcStop? then GcEnds(s, t, s')
    else if act.GcSkip? then GcMoves(s, Scanning(t, Tail(s.lock.gc)), s')
    else if act.GcInspect? then InspectStep(s, t, act.ok, s')
    else if act.GcDelete? then DeleteStep(s, t, act.ok, s')
    else if act.GcDrop? then
      GcEffect(s, s', s.tags, s.records - {s.lock.gc.todo[0].reference}, s.disk, s.reading,
               Flushing(t, s.lock.gc, s.records, true), s.pcs)
    else GcEffect(s, s', s.tags, s.records, s.records, Replaced(s.reading),
                  Scanning(t, Visited(s.lock.gc, s.lock.counted, act.reading)),
                  s.pcs)
  }

  /** The collection once its head is dealt with. */
  function Visited(gc: Collection, counted: bool, reading: Option<int>): Collection
    requires gc.todo != []
  {
    if counted then
      Collection(gc.todo[1..], gc.active, gc.listed, if reading.Some? then reading.value else gc.free, false,
                 gc.removed + [gc.todo[0].reference])
    else Tail(gc)
  }

  ghost predicate InspectStep(s: State, t: Tid, ok: bool, s': State)
    requires s.lock.Scanning? && s.lock.gc.todo != []
  {
    var gc := s.lock.gc;
    var record := gc.todo[0];
    if !ok then GcMoves(s, Scanning(t, Tail(gc)), s')
    else if Resolve(s, record.reference) != Some(record.imageId) then
      GcEffect(s, s', s.tags, s.records - {record.reference}, s.disk, s.reading,
               Flushing(t, gc, s.records, false), s.pcs)
    else if record.imageId in gc.active then GcMoves(s, Scanning(t, Tail(gc)), s')
    else GcMoves(s, Deleting(t, gc, |PulledFor(s, record.reference)|), s')
  }

  ghost predicate DeleteStep(s: State, t: Tid, ok: bool, s': State)
    requires s.lock.Deleting? && s.lock.gc.todo != []
  {
    var gc := s.lock.gc;
    var record := gc.todo[0];
    if ok then
      GcEffect(s, s', s.tags - {record.reference}, s.records, s.disk, s.reading, Forgetting(t, gc), s.pcs)
    else GcMoves(s, Scanning(t, Tail(gc)), s')
  }

  // ----- create -----

  ghost predicate CreateEffect(s: State, s': State, ctrs: map<CtrId, Ctr>, records: Records,
                               reservations: map<ImageId, nat>, lock: Lock, pcs: map<Tid, Pc>)
  {
    && s'.now == s.now && s'.disk == s.disk && s'.reading == s.reading && s'.used == s.used
    && s'.gates == s.gates && s'.holders == s.holders && s'.nextGate == s.nextGate
    && s'.ctrs == ctrs && s'.records == records && s'.reservations == reservations && s'.lock == lock
    && s'.pcs == pcs
  }

  ghost predicate SameImages(s: State, s': State) {
    s'.tags == s.tags && s'.acquired == s.acquired && s'.pulls == s.pulls
  }

  /** Only the thread moves. */
  ghost predicate CreateMoves(s: State, pcs: map<Tid, Pc>, s': State) {
    CreateEffect(s, s', s.ctrs, s.records, s.reservations, s.lock, pcs)
  }

  ghost predicate CreateStep(cfg: Config, s: State, t: Tid, act: CreateAct, s': State)
    requires At(s, t) && CreateEnabled(cfg, s, t, act)
  {
    if act.PullOk? then
      var ref := s.pcs[t].ref;
      && CreateMoves(s, s.pcs[t := RecordPull(ref, act.image.id)], s')
      && s'.tags == s.tags[ref := act.image] && s'.acquired == s.acquired + {(ref, act.image.id)}
      && s'.pulls == s.pulls[ref := PulledFor(s, ref) + [act.image.id]]
    else
      && SameImages(s, s')
      && if act.FindImage? || act.PullFail? || act.RecordPulled? || act.Touch? then ResolveStep(s, t, act, s')
         else UseStep(s, t, act, s')
  }

  /** `_ensure_image`, apart from a successful pull. */
  ghost predicate ResolveStep(s: State, t: Tid, act: CreateAct, s': State)
    requires At(s, t)
    requires if act.FindImage? then s.pcs[t].Find? else if act.PullFail? then s.pcs[t].Pull?
             else if act.Touch? then s.pcs[t].TouchImage? else act.RecordPulled? && s.pcs[t].RecordPull?
  {
    var ref := s.pcs[t].ref;
    if act.FindImage? then
      if !act.ok then CreateMoves(s, s.pcs - {t}, s')
      else if ref !in s.tags then CreateMoves(s, s.pcs[t := PullGc(ref, false)], s')
      else
        var since := if ref in s.records then s.records[ref].lastUsed else s.now;
        CreateMoves(s, s.pcs[t := TouchImage(ref, s.tags[ref].id, since)], s')
    else if act.PullFail? then
      CreateMoves(s, if act.outOfSpace && !s.pcs[t].retried then s.pcs[t := PullGc(ref, true)] else s.pcs - {t}, s')
    else if act.RecordPulled? then RecordingUse(s, t, ref, s.pcs[t].id, Pulled, s')
    else
      var id, since := s.pcs[t].id, s.pcs[t].since;
      if ref !in s.records then CreateMoves(s, s.pcs[t := ReserveImage(ref, id, since)], s')
      else if s.records[ref].imageId != id then
        CreateEffect(s, s', s.ctrs, s.records - {ref}, s.reservations,
                     Saving(t, s.records, Some(ReserveImage(ref, id, since)), None), s.pcs)
      else RecordingUse(s, t, ref, id, s.records[ref].origin, s')
  }

  /** The memory half of recording a pull or refreshing a last use, the save still to come. */
  ghost predicate RecordingUse(s: State, t: Tid, ref: Ref, id: ImageId, origin: Origin, s': State) {
    CreateEffect(s, s', s.ctrs, s.records[ref := CachedImage(ref, id, origin, s.now)], s.reservations,
                 Saving(t, s.records, Some(ReserveImage(ref, id, s.now)), Some(Use(ref, id, s.now))), s.pcs)
  }

  /** `create` from the reservation on. */
  ghost predicate UseStep(s: State, t: Tid, act: CreateAct, s': State)
    requires At(s, t)
    requires if act.Reserve? then s.pcs[t].ReserveImage?
             else if act.CreateOk? then s.pcs[t].CreateCtr? && s.pcs[t].ref in s.tags
             else if act.CreateFail? then s.pcs[t].CreateCtr?
             else if act.StartOk? || act.StartFail? then s.pcs[t].StartCtr?
             else act.EndReserve? && s.pcs[t].Unreserve? && s.pcs[t].id in s.reservations
  {
    var id := s.pcs[t].id;
    if act.Reserve? then
      var ref := s.pcs[t].ref;
      var count := if id in s.reservations then s.reservations[id] else 0;
      CreateEffect(s, s', s.ctrs, s.records, s.reservations[id := count + 1], s.lock,
                   s.pcs[t := CreateCtr(ref, id, Resolve(s, ref) == Some(id))])
    else if act.CreateOk? then
      var ref := s.pcs[t].ref;
      var image := s.tags[ref].id;
      CreateEffect(s, s', s.ctrs[act.ctr := Ctr(image, ref, image == id)], s.records, s.reservations, s.lock,
                   s.pcs[t := StartCtr(ref, id, act.ctr)])
    else if act.CreateFail? || act.StartOk? then CreateMoves(s, s.pcs[t := Unreserve(id)], s')
    else if act.StartFail? then
      CreateEffect(s, s', if act.removed then s.ctrs - {s.pcs[t].ctr} else s.ctrs, s.records, s.reservations,
                   s.lock, s.pcs[t := Unreserve(id)])
    else
      var count := s.reservations[id];
      CreateEffect(s, s', s.ctrs, s.records,
                   if count > 1 then s.reservations[id := count - 1] else s.reservations - {id},
                   s.lock, s.pcs - {t})
  }

  // ---------- Runs ----------

  /** The broker's first start on a host: Docker may hold any images and containers, but no image
      under a content tag yet, and there is no inventory file.  Later starts are `Crash` steps. */
  ghost predicate Init(cfg: Config, s: State) {
    && s.lock == Unlocked && s.gates == map[] && s.reservations == map[] && s.holders == map[]
    && s.pcs == map[] && s.acquired == {} && s.used == map[] && s.pulls == map[]
    && s.records == map[] && s.disk == map[] && s.reading == Reading(false, {}, false)
    && (forall ref | ref in s.tags :: !ContentTag(cfg, ref))
    && (forall c | c in s.ctrs :: !s.ctrs[c].held)
  }

  /** `ss` are the states of a run taking `steps`. */
  ghost predicate Run(cfg: Config, ss: seq<State>, steps: seq<Step>) {
    && |ss| == |steps| + 1
    && Init(cfg, ss[0])
    && forall i | 0 <= i < |steps| :: Next(cfg, ss[i], steps[i], ss[i + 1])
  }
}
