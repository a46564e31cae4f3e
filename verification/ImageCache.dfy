/** The image cache as an object: its dictionaries, its file, and the collection loop.

Each method is one critical section; `CacheProtocol` is about their interleaving.  The clock, the
disk and Docker's failures are parameters. */
module ImageCache {
  import opened OrderedDict
  import opened Inventory
  import opened CacheKey
  import opened CollectionPass
  import Protocol = CacheProtocol

  /** The inventory file. */
  datatype File = Missing | Unreadable | Holding(images: seq<CachedImage>)

  /** What a process started now would load. */
  function Reloaded(file: File): Images {
    if file.Holding? then Loaded(file.images) else NOTHING
  }

  /** What the cache keeps in step: Docker's tags, its records and its file. */
  datatype Stock = Stock(tags: map<Ref, Image>, records: Images, file: File)

  /** Docker's tags and the images of its containers. */
  class Docker {
    var tags: map<Ref, Image>
    var containers: seq<ImageId>

    constructor ()
      ensures tags == map[] && containers == []
    {
      tags, containers := map[], [];
    }
  }

  /** The lock object of a build gate. */
  class Mutex {
    constructor () {
    }
  }

  datatype Users = Users(gate: Mutex, count: nat)

  datatype Reuse = Reused | NotFound | Mismatched | Unanswered

  /** What the clock, the disk and a failing Docker answer during one collection. */
  datatype World = World(
    clock: nat -> Time, first: Option<int>, readings: nat -> Option<int>, listed: bool,
    uninspectable: set<Ref>, stuck: set<Ref>)

  /** What a verdict on a record does to Docker's tags, the records and the file. */
  ghost predicate Handled(ref: Ref, verdict: Verdict, tags: map<Ref, Image>, records: Images, file: File,
                          tags': map<Ref, Image>, records': Images, file': File)
  {
    && tags' == (if verdict.Remove? then tags - {ref} else tags)
    && records' == (if verdict.Keep? then records else Forget(records, ref))
    && file' == (if verdict.Keep? then file else Holding(Saved(records')))
  }

  /** A collection that has visited `n` records has removed the eligible ones, forgotten those and
      the ones Docker lacks, and saved if it forgot any. */
  ghost predicate Reached(p: Pass, was: Images, before: File, n: nat,
                          tags: map<Ref, Image>, records: Images, file: File)
    requires n <= |p.visits|
  {
    && tags == Left(p, n)
    && records == Without(was, Gone(p, n))
    && file == if Gone(p, n) == {} then before else Holding(Saved(records))
  }

  lemma ReachedAtStart(p: Pass, was: Images, before: File)
    ensures Reached(p, was, before, 0, p.tags, was, before)
  {
    WithoutNothing(was, {});
  }

  /** The next record visited is still stored, and Docker still has for its reference what it had
      when the collection began. */
  lemma VisitsNext(p: Pass, was: Images, before: File, n: nat, tags: map<Ref, Image>, records: Images, file: File)
    requires DistinctReferences(p.visits) && n < |p.visits| && p.visits[n].reference in was.entry
    requires Reached(p, was, before, n, tags, records, file)
    ensures p.visits[n].reference in records.entry
    ensures forall passedOver, spared ::
              Judged(p.visits[n], passedOver, tags, spared) == Judged(p.visits[n], passedOver, p.tags, spared)
  {
    GoneAt(p, n, p.visits[n].reference);
    EligibleAt(p, n, p.visits[n].reference);
  }

  lemma ReachesNext(p: Pass, was: Images, before: File, n: nat, tags: map<Ref, Image>, records: Images, file: File,
                    tags': map<Ref, Image>, records': Images, file': File)
    requires n < |p.visits| && Reached(p, was, before, n, tags, records, file)
    requires Handled(p.visits[n].reference, Judge(p, n), tags, records, file, tags', records', file')
    ensures Reached(p, was, before, n + 1, tags', records', file')
  {
    WithoutTwice(was, Gone(p, n), {p.visits[n].reference});
  }

  lemma ReachedIsDurable(p: Pass, was: Images, before: File, n: nat, tags: map<Ref, Image>, records: Images, file: File)
    requires n <= |p.visits| && Reached(p, was, before, n, tags, records, file) && Reloaded(before) == was
    ensures Reloaded(file) == records
  {
    if Gone(p, n) == {} {
      WithoutNothing(was, {});
    } else {
      LoadAfterSave(records);
    }
  }

  /** A reference with a build gate is untouched, in Docker and in the inventory. */
  ghost predicate Untouched(ref: Ref, tags: map<Ref, Image>, records: Images,
                            tags': map<Ref, Image>, records': Images)
  {
    && (ref in tags' <==> ref in tags) && (ref in tags ==> tags'[ref] == tags[ref])
    && (ref in records'.entry <==> ref in records.entry)
    && (ref in records.entry ==> records'.entry[ref] == records.entry[ref])
  }

  lemma GatedIsUntouched(p: Pass, was: Images, before: File, n: nat,
                         tags: map<Ref, Image>, records: Images, file: File, ref: Ref)
    requires n <= |p.visits| && Reached(p, was, before, n, tags, records, file) && ref in p.gated
    ensures Untouched(ref, p.tags, was, tags, records)
  {
    EligibleAt(p, n, ref);
    GoneAt(p, n, ref);
  }

  /** A record is stored and saved. */
  predicate Recorded(before: Stock, record: CachedImage, after: Stock) {
    after == Stock(before.tags, Store(before.records, record), Holding(Saved(after.records)))
  }

  /** A missing record is left missing, one of another image is dropped, one of this image refreshed. */
  predicate Touched(before: Stock, ref: Ref, id: ImageId, now: Time, after: Stock) {
    if ref !in before.records.entry then after == before
    else
      && after.tags == before.tags && after.file == Holding(Saved(after.records))
      && after.records == if before.records.entry[ref].imageId == id then Refresh(before.records, ref, now)
                          else Forget(before.records, ref)
  }

  /** A found image with the right identity is recorded; the record of a missing one is dropped. */
  predicate ReusedAs(before: Stock, ref: Ref, want: Labels, now: Time, answers: bool, r: Reuse, after: Stock) {
    if !answers then r.Unanswered? && after == before
    else if ref !in before.tags then
      && r.NotFound? && after.tags == before.tags && after.records == Forget(before.records, ref)
      && after.file == if ref in before.records.entry then Holding(Saved(after.records)) else before.file
    else if Clashes(before.tags[ref], want, ref, before.records) then r.Mismatched? && after == before
    else r.Reused? && Recorded(before, CachedImage(ref, before.tags[ref].id, Built, now), after)
  }

  /** The guard of the identity-mismatch error. */
  predicate Clashes(image: Image, want: Labels, ref: Ref, records: Images) {
    !Protocol.Matches(image.labels, want) || (ref in records.entry && records.entry[ref].imageId != image.id)
  }

  lemma VisitOf(images: Images, ref: Ref) returns (i: nat)
    requires ref in images.entry
    ensures i < |Visits(images)| && Visits(images)[i] == images.entry[ref] && Visits(images)[i].reference == ref
  {
    VisitsEachRecordOnce(images);
    assert images.entry[ref] in Visits(images);
    i :| 0 <= i < |Visits(images)| && Visits(images)[i] == images.entry[ref];
  }

  class Cache {
    const docker: Docker
    const minFree: int
    const targetFree: int
    const minAge: int
    var records: Images
    var file: File
    var gates: map<Ref, Users>
    var reservations: map<ImageId, nat>

    /** A restart would load the inventory as it is; no count is zero. */
    ghost predicate Valid()
      reads this
    {
      && Reloaded(file) == records
      && (forall ref | ref in gates :: gates[ref].count > 0)
      && (forall id | id in reservations :: reservations[id] > 0)
    }

    constructor (docker: Docker, file: File, minFree: int, targetFree: int, minAge: int)
      ensures Valid() && this.file == file && this.docker == docker
      ensures this.minFree == minFree && this.targetFree == targetFree && this.minAge == minAge
      ensures gates == map[] && reservations == map[]
    {
      this.docker, this.file, this.minFree, this.targetFree, this.minAge := docker, file, minFree, targetFree, minAge;
      records := Reloaded(file);
      gates, reservations := map[], map[];
    }

    /** `_save` */
    method Save()
      modifies this`file
      ensures file == Holding(Saved(records)) && Reloaded(file) == records
    {
      file := Holding(Saved(records));
      LoadAfterSave(records);
    }

    /** `building`, entry. */
    method Enter(ref: Ref) returns (gate: Mutex)
      requires Valid()
      modifies this`gates
      ensures Valid()
      ensures ref in old(gates) ==> gate == old(gates)[ref].gate
      ensures ref !in old(gates) ==> fresh(gate)
      ensures gates == old(gates)[ref := Users(gate, 1 + if ref in old(gates) then old(gates)[ref].count else 0)]
    {
      if ref in gates {
        gate := gates[ref].gate;
        gates := gates[ref := Users(gate, gates[ref].count + 1)];
      } else {
        gate := new Mutex();
        gates := gates[ref := Users(gate, 1)];
      }
    }

    /** `building`, exit: undoes one entry. */
    method Leave(ref: Ref, gate: Mutex)
      requires Valid() && ref in gates && gates[ref].gate == gate
      modifies this`gates
      ensures Valid()
      ensures gates == if old(gates)[ref].count > 1 then old(gates)[ref := Users(gate, old(gates)[ref].count - 1)]
                       else old(gates) - {ref}
    {
      var users := gates[ref].count;
      if users == 1 {
        gates := gates - {ref};
      } else {
        gates := gates[ref := Users(gate, users - 1)];
      }
    }

    method Reserve(id: ImageId)
      requires Valid()
      modifies this`reservations
      ensures Valid()
      ensures reservations == old(reservations)[id := 1 + if id in old(reservations) then old(reservations)[id] else 0]
    {
      reservations := reservations[id := (if id in reservations then reservations[id] else 0) + 1];
    }

    method Unreserve(id: ImageId)
      requires Valid() && id in reservations
      modifies this`reservations
      ensures Valid()
      ensures reservations == if old(reservations)[id] > 1 then old(reservations)[id := old(reservations)[id] - 1]
                              else old(reservations) - {id}
    {
      var remaining := reservations[id] - 1;
      if remaining != 0 {
        reservations := reservations[id := remaining];
      } else {
        reservations := reservations - {id};
      }
    }

    /** `record` */
    method Record(ref: Ref, id: ImageId, origin: Origin, now: Time)
      requires Valid()
      modifies this`records, this`file
      ensures Valid()
      ensures Recorded(old(Now()), CachedImage(ref, id, origin, now), Now())
      ensures records == Store(old(records), CachedImage(ref, id, origin, now)) && file == Holding(Saved(records))
    {
      records := Store(records, CachedImage(ref, id, origin, now));
      Save();
    }

    /** `touch` */
    method Touch(ref: Ref, id: ImageId, now: Time)
      requires Valid()
      modifies this`records, this`file
      ensures Valid()
      ensures Touched(old(Now()), ref, id, now, Now())
      ensures docker.tags == old(docker.tags)
      ensures ref !in old(records).entry ==> records == old(records) && file == old(file)
      ensures ref in old(records).entry ==> file == Holding(Saved(records))
      ensures ref in old(records).entry && old(records).entry[ref].imageId != id ==>
                records == Forget(old(records), ref)
      ensures ref in old(records).entry && old(records).entry[ref].imageId == id ==>
                records == Refresh(old(records), ref, now)
    {
      if ref !in records.entry {
        return;
      }
      if records.entry[ref].imageId != id {
        Drop(ref);
      } else {
        records := Refresh(records, ref, now);
        Save();
      }
    }

    /** `_forget` */
    method Drop(ref: Ref)
      modifies this`records, this`file
      ensures records == Forget(old(records), ref) && file == Holding(Saved(records)) && Reloaded(file) == records
    {
      records := Forget(records, ref);
      Save();
    }

    /** `reuse_built`: `answers` is false if Docker fails. */
    method ReuseBuilt(ref: Ref, want: Labels, now: Time, answers: bool) returns (r: Reuse)
      requires Valid()
      modifies this`records, this`file
      ensures Valid()
      ensures ReusedAs(old(Now()), ref, want, now, answers, r, Now())
      ensures r.Unanswered? <==> !answers
      ensures r.NotFound? <==> answers && ref !in docker.tags
      ensures r.Reused? <==>
                && answers && ref in docker.tags
                && (forall k | k in want :: k in docker.tags[ref].labels && docker.tags[ref].labels[k] == want[k])
                && (ref in old(records).entry ==> old(records).entry[ref].imageId == docker.tags[ref].id)
      ensures r.Reused? ==>
                && records == Store(old(records), CachedImage(ref, docker.tags[ref].id, Built, now))
                && file == Holding(Saved(records))
      ensures r.NotFound? ==>
                && records == Forget(old(records), ref)
                && file == if ref in old(records).entry then Holding(Saved(records)) else old(file)
      ensures r.Mismatched? || r.Unanswered? ==> records == old(records) && file == old(file)
    {
      if !answers {
        return Unanswered;
      }
      if ref !in docker.tags {
        if ref in records.entry {
          Drop(ref);
        } else {
          WithoutNothing(records, {ref});
        }
        return NotFound;
      }
      var image := docker.tags[ref];
      if Clashes(image, want, ref, records) {
        return Mismatched;
      }
      Record(ref, image.id, Built, now);
      return Reused;
    }

    // ---------- Collection ----------

    /** `_active_image_ids` */
    method ActiveImages() returns (active: set<ImageId>)
      ensures forall id :: id in active <==> id in docker.containers || id in reservations
    {
      active := reservations.Keys;
      var i := 0;
      while i < |docker.containers|
        invariant 0 <= i <= |docker.containers|
        invariant forall id :: id in active <==> id in docker.containers[..i] || id in reservations
      {
        active := active + {docker.containers[i]};
        i := i + 1;
      }
    }

    /** `_remove_if_eligible` */
    method RemoveIfEligible(record: CachedImage, active: set<ImageId>, now: Time, answers: bool, removable: bool)
      returns (removed: bool)
      requires record.reference in records.entry
      modifies this`records, this`file, docker`tags
      ensures var ref := record.reference;
              var verdict := Judged(record, ref in gates || now - record.lastUsed < minAge || !answers,
                                    old(docker.tags), record.imageId in active || !removable);
              && (removed <==> verdict.Remove?)
              && Handled(ref, verdict, old(docker.tags), old(records), old(file), docker.tags, records, file)
      ensures var ref := record.reference;
              var seen := ref !in gates && now - record.lastUsed >= minAge && answers;
              var there := ref in old(docker.tags) && old(docker.tags)[ref].id == record.imageId;
              && (removed <==> seen && there && record.imageId !in active && removable)
              && docker.tags == (if removed then old(docker.tags) - {ref} else old(docker.tags))
              && records == (if removed || (seen && !there) then Forget(old(records), ref) else old(records))
              && file == (if removed || (seen && !there) then Holding(Saved(records)) else old(file))
    {
      var ref := record.reference;
      if ref in gates || now - record.lastUsed < minAge || !answers {
        return false;
      }
      if ref !in docker.tags || docker.tags[ref].id != record.imageId {
        Drop(ref);
        return false;
      }
      if docker.tags[ref].id in active || !removable {
        return false;
      }
      docker.tags := docker.tags - {ref};
      Drop(ref);
      return true;
    }

    ghost function Now(): Stock
      reads this, docker
    {
      Stock(docker.tags, records, file)
    }

    ghost function PassOf(s: Stock, active: set<ImageId>, gated: set<Ref>, first: int, emergency: bool,
                          w: World): Pass
    {
      Pass(Visits(s.records), gated, minAge, w.clock, s.tags, active, w.uninspectable, w.stuck, first,
           w.readings, targetFree, emergency)
    }

    /** `_collect_records`; `n` records are visited. */
    method CollectRecords(first: int, active: set<ImageId>, emergency: bool, w: World)
      returns (removed: seq<Ref>, free: int, ghost n: nat)
      modifies this`records, this`file, docker`tags
      ensures var p := PassOf(old(Now()), active, gates.Keys, first, emergency, w);
              && StopsAt(p, n) && removed == Eligible(p, n) && free == Free(p, |removed|)
              && Reached(p, old(records), old(file), n, docker.tags, records, file)
    {
      VisitsEachRecordOnce(records);
      removed, free, n := VisitRecords(Visits(records), first, active, emergency, w,
                                       PassOf(Now(), active, gates.Keys, first, emergency, w));
    }

    /** One turn of its loop, up to the verdict. */
    method Visit(record: CachedImage, active: set<ImageId>, now: Time, answers: bool, removable: bool,
                 ghost p: Pass, ghost was: Images, ghost before: File, ghost i: nat)
      returns (removed: bool)
      requires i < |p.visits| && p.visits[i] == record && DistinctReferences(p.visits)
      requires record.reference in was.entry
      requires p.gated == gates.Keys && p.minAge == minAge && p.clock(i) == now && p.active == active
      requires answers == (record.reference !in p.uninspectable) && removable == (record.reference !in p.stuck)
      requires Reached(p, was, before, i, docker.tags, records, file)
      modifies this`records, this`file, docker`tags
      ensures Reached(p, was, before, i + 1, docker.tags, records, file)
      ensures removed <==> Judge(p, i).Remove?
    {
      ghost var tags, stored, saved := docker.tags, records, file;
      VisitsNext(p, was, before, i, tags, stored, saved);
      removed := RemoveIfEligible(record, active, now, answers, removable);
      ReachesNext(p, was, before, i, tags, stored, saved, docker.tags, records, file);
    }

    /** Its loop. */
    method VisitRecords(visits: seq<CachedImage>, first: int, active: set<ImageId>, emergency: bool, w: World,
                        ghost p: Pass)
      returns (removed: seq<Ref>, free: int, ghost n: nat)
      requires DistinctReferences(visits) && forall i | 0 <= i < |visits| :: visits[i].reference in records.entry
      requires p == Pass(visits, gates.Keys, minAge, w.clock, docker.tags, active, w.uninspectable, w.stuck, first,
                         w.readings, targetFree, emergency)
      modifies this`records, this`file, docker`tags
      ensures StopsAt(p, n) && removed == Eligible(p, n) && free == Free(p, |removed|)
      ensures Reached(p, old(records), old(file), n, docker.tags, records, file)
    {
      ReachedAtStart(p, records, file);
      removed, free := [], first;
      var mustRemoveOne := emergency;
      var i := 0;
      while i < |visits|
        invariant 0 <= i <= |visits|
        invariant Tally(p, i, removed, free, mustRemoveOne)
        invariant Reached(p, old(records), old(file), i, docker.tags, records, file)
      {
        if free >= targetFree && !mustRemoveOne {
          break;
        }
        var ref := visits[i].reference;
        TallyNext(p, i, removed, free, mustRemoveOne);
        var gone := Visit(visits[i], active, w.clock(i), ref !in w.uninspectable, ref !in w.stuck,
                          p, old(records), old(file), i);
        if gone {
          removed := removed + [ref];
          mustRemoveOne := false;
          var updated := w.readings(|removed|);
          if updated.Some? {
            free := updated.value;
          }
        }
        i := i + 1;
      }
      TallyStops(p, i, removed, free, mustRemoveOne);
      n := i;
    }

    /** `_prepare_collection`: whether there is anything to do, and by which readings. */
    method PrepareCollection(emergency: bool, w: World) returns (needed: bool, active: set<ImageId>)
      ensures needed <==> Needed(records, emergency, w)
      ensures needed <==>
                && records.entry != map[] && w.first.Some? && (emergency || w.first.value < minFree) && w.listed
      ensures needed ==> forall id :: id in active <==> id in docker.containers || id in reservations
    {
      EmptyInventory(records);
      needed, active := false, {};
      if |records.order| > 0 && w.first.Some? && (emergency || w.first.value < minFree) && w.listed {
        needed := true;
        active := ActiveImages();
      }
    }

    /** The inventory is not empty, the disk answers, space is short, and Docker lists its containers. */
    predicate Needed(records: Images, emergency: bool, w: World) {
      |records.order| > 0 && w.first.Some? && (emergency || w.first.value < minFree) && w.listed
    }

    /** What a collection does: it removes the shortest prefix of the eligible records, oldest use first,
        that frees enough space, and nothing else; it forgets these, and the visited ones that Docker
        lacks. */
    ghost predicate Collected(before: Stock, active: set<ImageId>, gated: set<Ref>, emergency: bool, w: World,
                              removed: seq<Ref>, after: Stock)
    {
      if Needed(before.records, emergency, w) then
        var p := PassOf(before, active, gated, w.first.value, emergency, w);
        && Shortest(p, removed)
        && exists n: nat :: StopsAt(p, n) && removed == Eligible(p, n)
                       && Reached(p, before.records, before.file, n, after.tags, after.records, after.file)
      else removed == [] && after == before
    }

    /** Collects by the images that containers and reservations name. */
    method Collect(emergency: bool, w: World) returns (removed: seq<Ref>, ghost active: set<ImageId>)
      requires Valid()
      modifies this`records, this`file, docker`tags
      ensures Valid()
      ensures forall id :: id in active <==> id in docker.containers || id in reservations
      ensures Collected(old(Now()), active, gates.Keys, emergency, w, removed, Now())
      ensures forall ref | ref in gates :: Untouched(ref, old(docker.tags), old(records), docker.tags, records)
    {
      active := (set id | id in docker.containers) + reservations.Keys;
      var needed, images := PrepareCollection(emergency, w);
      if !needed {
        return [], active;
      }
      assert images == active;
      ghost var p := PassOf(Now(), images, gates.Keys, w.first.value, emergency, w);
      var free;
      ghost var n;
      removed, free, n := CollectRecords(w.first.value, images, emergency, w);
      EligibleIsShortest(p, n, removed);
      ReachedIsDurable(p, old(records), old(file), n, docker.tags, records, file);
      forall ref | ref in gates ensures Untouched(ref, old(docker.tags), old(records), docker.tags, records) {
        GatedIsUntouched(p, old(records), old(file), n, docker.tags, records, file, ref);
      }
    }

    /** `collect_if_needed`, going by the images of containers and the reserved ones.  In particular, what
        it removes was recorded, old enough, in Docker as recorded, and used by nobody; and without records,
        a reading, a shortage of space or a list of containers, nothing happens. */
    method CollectIfNeeded(emergency: bool, w: World) returns (removed: seq<Ref>)
      requires Valid()
      modifies this`records, this`file, docker`tags
      ensures Valid()
      ensures forall active: set<ImageId> |
                (forall id :: id in active <==> id in docker.containers || id in reservations) ::
                Collected(old(Now()), active, gates.Keys, emergency, w, removed, Now())
      ensures forall ref | ref in removed ::
                && ref in old(records).entry && ref in old(docker.tags) && ref !in gates
                && old(docker.tags)[ref].id == old(records).entry[ref].imageId
                && old(docker.tags)[ref].id !in docker.containers && old(docker.tags)[ref].id !in reservations
                && exists i: nat :: w.clock(i) - old(records).entry[ref].lastUsed >= minAge
      ensures old(records).entry == map[] || w.first.None? || (!emergency && w.first.value >= minFree) || !w.listed ==>
                removed == [] && Now() == old(Now())
      ensures forall ref | ref in gates :: Untouched(ref, old(docker.tags), old(records), docker.tags, records)
    {
      ghost var active;
      removed, active := Collect(emergency, w);
      RemovedMeans(old(Now()), active, gates.Keys, emergency, w, removed, Now());
      IdleMeans(old(Now()), active, gates.Keys, emergency, w, removed, Now());
      forall other: set<ImageId> | forall id :: id in other <==> id in docker.containers || id in reservations
        ensures Collected(old(Now()), other, gates.Keys, emergency, w, removed, Now())
      {
        assert other == active;
      }
    }

    /** Without records, a reading, a shortage of space or a list of containers, nothing happens. */
    lemma IdleMeans(before: Stock, active: set<ImageId>, gated: set<Ref>, emergency: bool, w: World,
                    removed: seq<Ref>, after: Stock)
      requires Collected(before, active, gated, emergency, w, removed, after)
      ensures before.records.entry == map[] || w.first.None? || (!emergency && w.first.value >= minFree)
              || !w.listed ==>
                removed == [] && after == before
    {
      EmptyInventory(before.records);
    }

    /** What is removed was recorded, old enough, in Docker as recorded, and neither gated nor active. */
    lemma RemovedMeans(before: Stock, active: set<ImageId>, gated: set<Ref>, emergency: bool, w: World,
                       removed: seq<Ref>, after: Stock)
      requires Collected(before, active, gated, emergency, w, removed, after)
      ensures forall ref | ref in removed ::
                && ref in before.records.entry && ref in before.tags && ref !in gated
                && before.tags[ref].id == before.records.entry[ref].imageId && before.tags[ref].id !in active
                && exists i: nat :: w.clock(i) - before.records.entry[ref].lastUsed >= minAge
    {
      if Needed(before.records, emergency, w) {
        var p := PassOf(before, active, gated, w.first.value, emergency, w);
        var n: nat :| StopsAt(p, n) && removed == Eligible(p, n);
        VisitsEachRecordOnce(before.records);
        forall ref | ref in removed
          ensures ref in before.records.entry && ref in before.tags && ref !in gated
          ensures before.tags[ref].id == before.records.entry[ref].imageId && before.tags[ref].id !in active
          ensures exists i: nat :: w.clock(i) - before.records.entry[ref].lastUsed >= minAge
        {
          EligibleMeans(p, n, ref);
          var i :| 0 <= i < n && p.visits[i].reference == ref && p.clock(i) - p.visits[i].lastUsed >= p.minAge
                   && ref in p.tags && p.tags[ref].id == p.visits[i].imageId && ref !in p.gated
                   && p.visits[i].imageId !in p.active;
          assert p.visits[i] in p.visits;
        }
      }
    }

    /** A record that nothing speaks for stays only if enough space is free without it, with something gone
        in an emergency, and only if it was used no earlier than what went. */
    lemma KeptMeans(before: Stock, active: set<ImageId>, gated: set<Ref>, emergency: bool, w: World,
                    removed: seq<Ref>, after: Stock, ref: Ref)
      requires Collected(before, active, gated, emergency, w, removed, after)
      requires before.records.entry != map[] && w.first.Some? && w.listed && (emergency || w.first.value < minFree)
      requires ref in before.records.entry && ref !in removed && ref !in gated && ref in before.tags
      requires before.tags[ref].id == before.records.entry[ref].imageId && before.tags[ref].id !in active
      requires ref !in w.uninspectable && ref !in w.stuck
      requires forall i: nat :: w.clock(i) - before.records.entry[ref].lastUsed >= minAge
      ensures Free(PassOf(before, active, gated, w.first.value, emergency, w), |removed|) >= targetFree
      ensures emergency ==> removed != []
      ensures forall gone | gone in removed && gone in before.records.entry ::
                before.records.entry[gone].lastUsed <= before.records.entry[ref].lastUsed
    {
      EmptyInventory(before.records);
      var p := PassOf(before, active, gated, w.first.value, emergency, w);
      var n: nat :| StopsAt(p, n) && removed == Eligible(p, n);
      VisitsEachRecordOnce(before.records);
      var i := VisitOf(before.records, ref);
      StaysOnlyIfEnough(p, n, i);
      forall gone | gone in removed && gone in before.records.entry
        ensures before.records.entry[gone].lastUsed <= before.records.entry[ref].lastUsed
      {
        EligibleAt(p, n, gone);
        var j :| 0 <= j < n && Judge(p, j).Remove? && p.visits[j].reference == gone;
        assert p.visits[j] in p.visits;
      }
    }

    /** Docker loses the removed tags and no others; the inventory loses these and records that Docker does
        not have as recorded, and no others. */
    lemma RestMeans(before: Stock, active: set<ImageId>, gated: set<Ref>, emergency: bool, w: World,
                    removed: seq<Ref>, after: Stock, ref: Ref)
      requires Collected(before, active, gated, emergency, w, removed, after)
      ensures ref in after.tags <==> ref in before.tags && ref !in removed
      ensures ref in after.tags ==> after.tags[ref] == before.tags[ref]
      ensures ref in after.records.entry ==>
                ref in before.records.entry && after.records.entry[ref] == before.records.entry[ref] && ref !in removed
      ensures ref in before.records.entry && ref !in after.records.entry && ref !in removed ==>
                ref !in before.tags || before.tags[ref].id != before.records.entry[ref].imageId
    {
      if Needed(before.records, emergency, w) {
        var p := PassOf(before, active, gated, w.first.value, emergency, w);
        var n: nat :| StopsAt(p, n) && removed == Eligible(p, n)
                      && Reached(p, before.records, before.file, n, after.tags, after.records, after.file);
        EligibleAt(p, n, ref);
        GoneAt(p, n, ref);
        if ref in Gone(p, n) && ref !in removed {
          VisitsEachRecordOnce(before.records);
          GoneMeans(p, n, ref);
          EligibleMeans(p, n, ref);
          var i :| 0 <= i < n && p.visits[i].reference == ref
                   && (ref !in p.tags || p.tags[ref].id != p.visits[i].imageId);
          assert p.visits[i] in p.visits;
        }
      }
    }
  }

  /** The order the object visits its records in is one that the protocol's collector may take. */
  lemma VisitsOrderTheRecords(images: Images)
    ensures Protocol.Orders(Visits(images), images.entry)
  {
    VisitsEachRecordOnce(images);
  }
}
