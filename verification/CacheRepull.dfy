/** A run in which a collection removes a reference to an image in use.

Pulls of one reference are not serialized.  The collector inspects a reference; before it removes
it, a second pull moves the reference to another image, one that a third thread has reserved.
`CacheTheorems.CollectionSparesLiveUse` says that this is the only way. */
module CacheRepull {
  import opened Inventory
  import opened CacheKey
  import opened CacheProtocol
  import opened CacheReach

  const CFG := Config("broker", 0, 10, 20)
  const OLD := Image("old", map[])
  const NEW := Image("new", map[])
  const RECORD := CachedImage("r", "old", Origin.Pulled, 0)
  const GC := Collection([RECORD], {"new"}, {}, 0, false, [])

  // ---------- The run ----------

  // Thread 1 reserves the image of "q"; threads 2 and 3 pull "r"; thread 4 collects.
  const T1 := CreateCtr("q", "new", true)
  const T2 := Pull("r", false)
  const T3 := ReserveImage("r", "old", 0)
  const T4 := PullGc("z", false)

  /** A state with no container and no gate, at instant 0. */
  function St(tags: map<Ref, Image>, records: Records, disk: Records, reservations: map<ImageId, nat>, lock: Lock,
              pcs: map<Tid, Pc>, acquired: set<(Ref, ImageId)>, used: map<Ref, Use>,
              pulls: map<Ref, seq<ImageId>>): State
  {
    State(tags, map[], 0, records, disk, Reading(false, {}, false), map[], reservations, lock, map[], 0, pcs, acquired,
          used, pulls)
  }

  /** Before anything is pulled. */
  function Early(reservations: map<ImageId, nat>, pcs: map<Tid, Pc>): State {
    St(map["q" := NEW], map[], map[], reservations, Unlocked, pcs, {}, map[], map[])
  }

  /** The old image pulled, its record on the way to the file. */
  function Pulling(records: Records, lock: Lock): State {
    St(map["q" := NEW, "r" := OLD], records, map[], map["new" := 1], lock,
       map[1 := T1, 2 := T2, 3 := RecordPull("r", "old")], {("r", "old")}, map[], map["r" := ["old"]])
  }

  /** Once "r" is pulled and recorded as the old image. */
  function Late(lock: Lock, pcs: map<Tid, Pc>): State {
    St(map["q" := NEW, "r" := OLD], map["r" := RECORD], map["r" := RECORD], map["new" := 1], lock, pcs,
       {("r", "old")}, map["r" := Use("r", "old", 0)], map["r" := ["old"]])
  }

  /** Once "r" is pulled again. */
  function Again(tags: map<Ref, Image>, lock: Lock): State {
    St(tags, map["r" := RECORD], map["r" := RECORD], map["new" := 1], lock,
       map[1 := T1, 2 := RecordPull("r", "new"), 3 := T3, 4 := T4], {("r", "old"), ("r", "new")},
       map["r" := Use("r", "old", 0)], map["r" := ["old", "new"]])
  }

  const SAVING := Saving(3, map[], Some(T3), Some(Use("r", "old", 0)))
  const ALL := map[1 := T1, 2 := T2, 3 := T3, 4 := T4]

  lemma Starts()
    ensures Reachable(CFG, Early(map[], map[]))
  {
    assert Run(CFG, [Early(map[], map[])], []);
  }

  lemma FirstReserves()
    ensures Reachable(CFG, Early(map["new" := 1], map[1 := T1]))
  {
    Starts();
    var found, touched := TouchImage("q", "new", 0), ReserveImage("q", "new", 0);
    Begins(CFG, Early(map[], map[]), 1, "q");
    Finds(CFG, Early(map[], map[1 := Find("q")]), 1, "q");
    assert map[1 := Find("q")][1 := found] == map[1 := found];
    Touches(CFG, Early(map[], map[1 := found]), 1, "q");
    assert map[1 := found][1 := touched] == map[1 := touched];
    ReservesNow();
  }

  lemma ReservesNow()
    requires Reachable(CFG, Early(map[], map[1 := ReserveImage("q", "new", 0)]))
    ensures Reachable(CFG, Early(map["new" := 1], map[1 := T1]))
  {
    Onward(CFG, Early(map[], map[1 := ReserveImage("q", "new", 0)]), Creating(1, CreateAct.Reserve),
           Early(map["new" := 1], map[1 := T1]));
  }

  lemma PullsOld()
    requires Reachable(CFG, Early(map["new" := 1], map[1 := T1, 2 := T2, 3 := T2]))
    ensures Reachable(CFG, Pulling(map[], Unlocked))
  {
    assert [] + ["old"] == ["old"];
    Onward(CFG, Early(map["new" := 1], map[1 := T1, 2 := T2, 3 := T2]), Creating(3, PullOk(OLD)),
           Pulling(map[], Unlocked));
  }

  lemma RecordsOld()
    requires Reachable(CFG, Pulling(map[], Unlocked))
    ensures Reachable(CFG, Pulling(map["r" := RECORD], SAVING))
  {
    Onward(CFG, Pulling(map[], Unlocked), Creating(3, RecordPulled), Pulling(map["r" := RECORD], SAVING));
  }

  lemma SavesOld()
    requires Reachable(CFG, Pulling(map["r" := RECORD], SAVING))
    ensures Reachable(CFG, Late(Unlocked, map[1 := T1, 2 := T2, 3 := T3]))
  {
    Onward(CFG, Pulling(map["r" := RECORD], SAVING), Flush(3), Late(Unlocked, map[1 := T1, 2 := T2, 3 := T3]));
  }

  lemma LacksRoom()
    requires Reachable(CFG, Late(Unlocked, ALL))
    ensures Reachable(CFG, Late(Listing(4, 0), ALL))
  {
    assert "r" in Late(Unlocked, ALL).records;
    Onward(CFG, Late(Unlocked, ALL), Gc(4, GcBegin(Some(0))), Late(Listing(4, 0), ALL));
  }

  lemma Lists()
    requires Reachable(CFG, Late(Listing(4, 0), ALL))
    ensures Reachable(CFG, Late(Scanning(4, GC), ALL))
  {
    var s := Late(Listing(4, 0), ALL);
    assert Orders([RECORD], s.records);
    assert ActiveImages(s) == {"new"};
    Onward(CFG, s, Gc(4, GcList(true, [RECORD])), Late(Scanning(4, GC), ALL));
  }

  lemma Inspects()
    requires Reachable(CFG, Late(Scanning(4, GC), ALL))
    ensures Reachable(CFG, Late(Deleting(4, GC, 1), ALL))
  {
    Onward(CFG, Late(Scanning(4, GC), ALL), Gc(4, GcInspect(true)), Late(Deleting(4, GC, 1), ALL));
  }

  lemma PullsNew()
    requires Reachable(CFG, Late(Deleting(4, GC, 1), ALL))
    ensures Reachable(CFG, Again(map["q" := NEW, "r" := NEW], Deleting(4, GC, 1)))
  {
    assert ["old"] + ["new"] == ["old", "new"];
    Onward(CFG, Late(Deleting(4, GC, 1), ALL), Creating(2, PullOk(NEW)),
           Again(map["q" := NEW, "r" := NEW], Deleting(4, GC, 1)));
  }

  lemma PullsOnce()
    ensures Reachable(CFG, Late(Unlocked, map[1 := T1, 2 := T2, 3 := T3]))
  {
    FirstReserves();
    ComesToPull(CFG, Early(map["new" := 1], map[1 := T1]), 2, "r");
    ComesToPull(CFG, Early(map["new" := 1], map[1 := T1, 2 := T2]), 3, "r");
    PullsOld();
    RecordsOld();
    SavesOld();
  }

  lemma PullsTwice()
    ensures Reachable(CFG, Again(map["q" := NEW, "r" := NEW], Deleting(4, GC, 1)))
  {
    PullsOnce();
    ComesToCollect(CFG, Late(Unlocked, map[1 := T1, 2 := T2, 3 := T3]), 4, "z");
    LacksRoom();
    Lists();
    Inspects();
    PullsNew();
  }

  lemma Removes()
    ensures var s := Again(map["q" := NEW, "r" := NEW], Deleting(4, GC, 1));
            && Next(CFG, s, Gc(4, GcDelete(true)), Again(map["q" := NEW], Forgetting(4, GC)))
            && "r" in s.tags && s.pcs[1] == CreateCtr("q", s.tags["r"].id, true)
  {
  }

  /** The collector removes "r" while it stands for an image that thread 1 has reserved. */
  lemma RemovesWhatIsInUse()
    ensures exists s, t, s' :: Reachable(CFG, s) && Next(CFG, s, Gc(t, GcDelete(true)), s')
                               && "r" in s.tags && "r" !in s'.tags
                               && 1 in s.pcs && s.pcs[1] == CreateCtr("q", s.tags["r"].id, true)
  {
    PullsTwice();
    Removes();
  }
}
