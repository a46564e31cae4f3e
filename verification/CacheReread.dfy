/** A run in which the identity-mismatch error is raised.

A build is recorded and saved.  A collection removes its tag from Docker, and the process dies before
it has saved that.  The next process cannot read the file; it builds the tag again and dies before it
has recorded the image.  The third can read the file, and finds the first image there and the second
in Docker.  `CacheFile.NeverMismatched` says what every such run has in common. */
module CacheReread {
  import opened Inventory
  import opened CacheKey
  import opened CacheProtocol
  import opened CacheReach

  const CFG := Config("broker", 0, 10, 20)
  const TAG := Tag("broker", "k")
  const JOB := Job(TAG, KeyLabels("broker", "k"))
  const FIRST := Image("first", BuiltLabels("broker", TAG))
  const SECOND := Image("second", BuiltLabels("broker", TAG))
  const RECORD := CachedImage(TAG, "first", Origin.Built, 0)
  const FILE: Records := map[TAG := RECORD]

  // ---------- Thread 1 comes to build ----------

  /** Thread 1 alone, on a new gate. */
  function Alone(s: State, holders: map<GateId, Tid>, lock: Lock, pc: Pc): State {
    State(s.tags, s.ctrs, s.now, s.records, s.disk, s.reading, map[TAG := Gate(s.nextGate, 1)], s.reservations, lock,
          holders, s.nextGate + 1, map[1 := pc], s.acquired, s.used, s.pulls)
  }

  ghost predicate Fresh(s: State) {
    s.pcs == map[] && s.gates == map[] && s.holders == map[] && s.lock == Unlocked
  }

  lemma Registers(s: State)
    requires Reachable(CFG, s) && Fresh(s)
    ensures Reachable(CFG, Alone(s, map[], Unlocked, AwaitGate(JOB, s.nextGate)))
  {
    Onward(CFG, s, Begin(1, BuildTask("k")), Put(s, 1, EnterGate(JOB)));
    EntersGate(s);
  }

  lemma EntersGate(s: State)
    requires Fresh(s) && Reachable(CFG, Put(s, 1, EnterGate(JOB)))
    ensures Reachable(CFG, Alone(s, map[], Unlocked, AwaitGate(JOB, s.nextGate)))
  {
    Onward(CFG, Put(s, 1, EnterGate(JOB)), Gating(1, Register), Alone(s, map[], Unlocked, AwaitGate(JOB, s.nextGate)));
  }

  lemma Acquires(s: State)
    requires Reachable(CFG, Alone(s, map[], Unlocked, AwaitGate(JOB, s.nextGate)))
    ensures Reachable(CFG, Alone(s, map[s.nextGate := 1], Unlocked, Reuse(JOB, s.nextGate)))
  {
    Onward(CFG, Alone(s, map[], Unlocked, AwaitGate(JOB, s.nextGate)), Gating(1, Acquire),
           Alone(s, map[s.nextGate := 1], Unlocked, Reuse(JOB, s.nextGate)));
  }

  lemma Looks(s: State)
    requires Reachable(CFG, Alone(s, map[s.nextGate := 1], Unlocked, Reuse(JOB, s.nextGate)))
    ensures var found := if TAG in s.tags then Some(s.tags[TAG]) else None;
            Reachable(CFG, Alone(s, map[s.nextGate := 1], Reusing(1, found), Reuse(JOB, s.nextGate)))
  {
    var found := if TAG in s.tags then Some(s.tags[TAG]) else None;
    Onward(CFG, Alone(s, map[s.nextGate := 1], Unlocked, Reuse(JOB, s.nextGate)), Building(1, Look(true)),
           Alone(s, map[s.nextGate := 1], Reusing(1, found), Reuse(JOB, s.nextGate)));
  }

  lemma FindsNone(s: State)
    requires Reachable(CFG, Alone(s, map[s.nextGate := 1], Reusing(1, None), Reuse(JOB, s.nextGate)))
    requires TAG !in s.records
    ensures Reachable(CFG, Alone(s, map[s.nextGate := 1], Unlocked, BuildGc(JOB, s.nextGate, false)))
  {
    Onward(CFG, Alone(s, map[s.nextGate := 1], Reusing(1, None), Reuse(JOB, s.nextGate)), Building(1, Decide),
           Alone(s, map[s.nextGate := 1], Unlocked, BuildGc(JOB, s.nextGate, false)));
  }

  lemma NeedsNoRoomToBuild(s: State)
    requires Reachable(CFG, Alone(s, map[s.nextGate := 1], Unlocked, BuildGc(JOB, s.nextGate, false)))
    ensures Reachable(CFG, Alone(s, map[s.nextGate := 1], Unlocked, Build(JOB, s.nextGate, false)))
  {
    Onward(CFG, Alone(s, map[s.nextGate := 1], Unlocked, BuildGc(JOB, s.nextGate, false)), Gc(1, GcBegin(None)),
           Alone(s, map[s.nextGate := 1], Unlocked, Build(JOB, s.nextGate, false)));
  }

  lemma ComesToBuild(s: State)
    requires Reachable(CFG, s) && Fresh(s) && TAG !in s.tags && TAG !in s.records
    ensures Reachable(CFG, Alone(s, map[s.nextGate := 1], Unlocked, Build(JOB, s.nextGate, false)))
  {
    Registers(s);
    Acquires(s);
    Looks(s);
    FindsNone(s);
    NeedsNoRoomToBuild(s);
  }

  // ---------- The run ----------

  /** Between processes, or while nothing is built. */
  function St(tags: map<Ref, Image>, records: Records, disk: Records, reading: Reading, lock: Lock, nextGate: GateId,
              pcs: map<Tid, Pc>, acquired: set<(Ref, ImageId)>, used: map<Ref, Use>): State
  {
    State(tags, map[], 0, records, disk, reading, map[], map[], lock, map[], nextGate, pcs, acquired, used, map[])
  }

  const CLEAN := Reading(false, {}, false)
  const USED := map[TAG := Use(TAG, "first", 0)]

  /** Before the first build. */
  function Start(): State {
    St(map[], map[], map[], CLEAN, Unlocked, 0, map[], {}, map[])
  }

  /** The first process: thread 1 has built the first image. */
  function InFirst(records: Records, disk: Records, lock: Lock, used: map<Ref, Use>, pc: Pc): State {
    State(map[TAG := FIRST], map[], 0, records, disk, CLEAN, map[TAG := Gate(0, 1)], map[], lock, map[0 := 1], 1,
          map[1 := pc], {(TAG, "first")}, used, map[])
  }

  /** The second process, collecting. */
  function InSecond(tags: map<Ref, Image>, lock: Lock, pcs: map<Tid, Pc>): State {
    St(tags, FILE, FILE, CLEAN, lock, 1, pcs, {(TAG, "first")}, USED)
  }

  /** The third process, which cannot read the file. */
  function Blind(): State {
    St(map[], map[], FILE, Reading(true, {}, false), Unlocked, 1, map[], {(TAG, "first")}, USED)
  }

  /** ... has built the second image. */
  function Rebuilt(): State {
    State(map[TAG := SECOND], map[], 0, map[], FILE, Reading(true, {TAG}, false), map[TAG := Gate(1, 1)], map[],
          Unlocked, map[1 := 1], 2, map[1 := RecordBuild(JOB, 1, "second")], {(TAG, "first"), (TAG, "second")}, USED,
          map[])
  }

  /** The fourth process. */
  function Reread(): State {
    St(map[TAG := SECOND], FILE, FILE, Reading(false, {}, true), Unlocked, 2, map[], {(TAG, "first"), (TAG, "second")},
       USED)
  }

  const GC := Collection([RECORD], {}, {}, 0, false, [])
  const SAVING := Saving(1, map[], Some(DropGate(JOB, 0)), Some(Use(TAG, "first", 0)))
  const COLLECTOR := map[2 := PullGc("z", false)]

  lemma BuildsFirst()
    ensures Reachable(CFG, InFirst(map[], map[], Unlocked, map[], RecordBuild(JOB, 0, "first")))
  {
    StartsRun();
    ComesToBuild(Start());
    Onward(CFG, Alone(Start(), map[0 := 1], Unlocked, Build(JOB, 0, false)), Building(1, BuildOk("first")),
           InFirst(map[], map[], Unlocked, map[], RecordBuild(JOB, 0, "first")));
  }

  lemma StartsRun()
    ensures Reachable(CFG, Start())
  {
    assert Run(CFG, [Start()], []);
  }

  lemma RecordsFirst()
    requires Reachable(CFG, InFirst(map[], map[], Unlocked, map[], RecordBuild(JOB, 0, "first")))
    ensures Reachable(CFG, InFirst(FILE, map[], SAVING, map[], RecordBuild(JOB, 0, "first")))
  {
    Onward(CFG, InFirst(map[], map[], Unlocked, map[], RecordBuild(JOB, 0, "first")), Building(1, RecordBuilt),
           InFirst(FILE, map[], SAVING, map[], RecordBuild(JOB, 0, "first")));
  }

  lemma SavesFirst()
    requires Reachable(CFG, InFirst(FILE, map[], SAVING, map[], RecordBuild(JOB, 0, "first")))
    ensures Reachable(CFG, InFirst(FILE, FILE, Unlocked, USED, DropGate(JOB, 0)))
  {
    Onward(CFG, InFirst(FILE, map[], SAVING, map[], RecordBuild(JOB, 0, "first")), Flush(1),
           InFirst(FILE, FILE, Unlocked, USED, DropGate(JOB, 0)));
  }

  lemma Restarts()
    requires Reachable(CFG, InFirst(FILE, FILE, Unlocked, USED, DropGate(JOB, 0)))
    ensures Reachable(CFG, InSecond(map[TAG := FIRST], Unlocked, map[]))
  {
    Onward(CFG, InFirst(FILE, FILE, Unlocked, USED, DropGate(JOB, 0)), Crash(true),
           InSecond(map[TAG := FIRST], Unlocked, map[]));
  }

  lemma LacksRoom()
    requires Reachable(CFG, InSecond(map[TAG := FIRST], Unlocked, COLLECTOR))
    ensures Reachable(CFG, InSecond(map[TAG := FIRST], Listing(2, 0), COLLECTOR))
  {
    assert TAG in FILE;
    Onward(CFG, InSecond(map[TAG := FIRST], Unlocked, COLLECTOR), Gc(2, GcBegin(Some(0))),
           InSecond(map[TAG := FIRST], Listing(2, 0), COLLECTOR));
  }

  lemma Lists()
    requires Reachable(CFG, InSecond(map[TAG := FIRST], Listing(2, 0), COLLECTOR))
    ensures Reachable(CFG, InSecond(map[TAG := FIRST], Scanning(2, GC), COLLECTOR))
  {
    var s := InSecond(map[TAG := FIRST], Listing(2, 0), COLLECTOR);
    assert Orders([RECORD], s.records);
    assert ActiveImages(s) == {} && s.ctrs.Keys == {};
    Onward(CFG, s, Gc(2, GcList(true, [RECORD])), InSecond(map[TAG := FIRST], Scanning(2, GC), COLLECTOR));
  }

  lemma Inspects()
    requires Reachable(CFG, InSecond(map[TAG := FIRST], Scanning(2, GC), COLLECTOR))
    ensures Reachable(CFG, InSecond(map[TAG := FIRST], Deleting(2, GC, 0), COLLECTOR))
  {
    Onward(CFG, InSecond(map[TAG := FIRST], Scanning(2, GC), COLLECTOR), Gc(2, GcInspect(true)),
           InSecond(map[TAG := FIRST], Deleting(2, GC, 0), COLLECTOR));
  }

  lemma Deletes()
    requires Reachable(CFG, InSecond(map[TAG := FIRST], Deleting(2, GC, 0), COLLECTOR))
    ensures Reachable(CFG, InSecond(map[], Forgetting(2, GC), COLLECTOR))
  {
    Onward(CFG, InSecond(map[TAG := FIRST], Deleting(2, GC, 0), COLLECTOR), Gc(2, GcDelete(true)),
           InSecond(map[], Forgetting(2, GC), COLLECTOR));
  }

  lemma CannotRead()
    requires Reachable(CFG, InSecond(map[], Forgetting(2, GC), COLLECTOR))
    ensures Reachable(CFG, Blind())
  {
    Onward(CFG, InSecond(map[], Forgetting(2, GC), COLLECTOR), Crash(false), Blind());
  }

  lemma BuildsSecond()
    requires Reachable(CFG, Alone(Blind(), map[1 := 1], Unlocked, Build(JOB, 1, false)))
    ensures Reachable(CFG, Rebuilt())
  {
    Onward(CFG, Alone(Blind(), map[1 := 1], Unlocked, Build(JOB, 1, false)), Building(1, BuildOk("second")), Rebuilt());
  }

  lemma ReadsAgain()
    requires Reachable(CFG, Rebuilt())
    ensures Reachable(CFG, Reread())
  {
    Onward(CFG, Rebuilt(), Crash(true), Reread());
  }

  lemma SavesOneImage()
    ensures Reachable(CFG, InSecond(map[TAG := FIRST], Unlocked, map[]))
  {
    BuildsFirst();
    RecordsFirst();
    SavesFirst();
    Restarts();
  }

  lemma LosesItUnsaved()
    ensures Reachable(CFG, Blind())
  {
    SavesOneImage();
    ComesToCollect(CFG, InSecond(map[TAG := FIRST], Unlocked, map[]), 2, "z");
    LacksRoom();
    Lists();
    Inspects();
    Deletes();
    CannotRead();
  }

  /** A build of `TAG` finds its own image in Docker, and is refused. */
  lemma RaisesMismatch()
    ensures exists s :: Reachable(CFG, s) && s.lock.Reusing? && s.lock.found.Some? && s.lock.tid in s.pcs
                        && s.pcs[s.lock.tid].Reuse? && s.pcs[s.lock.tid].job == JOB
                        && JOB.tag in s.records && s.records[JOB.tag].imageId != s.lock.found.value.id
  {
    LosesItUnsaved();
    ComesToBuild(Blind());
    BuildsSecond();
    ReadsAgain();
    var s := Reread();
    Registers(s);
    Acquires(s);
    Looks(s);
    var looked := Alone(s, map[2 := 1], Reusing(1, Some(SECOND)), Reuse(JOB, 2));
    assert looked.records[JOB.tag].imageId != SECOND.id;
  }
}
