/** Building images and creating sandboxes, one call at a time: the retries, and what every way out
of a call restores.  What Docker does with each request is a parameter. */
module DockerRuntime {
  import opened Inventory
  import opened CacheKey
  import opened ImageCache
  import Protocol = CacheProtocol

  /** What Docker does with a build or a pull. */
  datatype Attempt = Made(image: Protocol.Image) | OutOfSpace | Broken

  datatype BuildReply = Hit | Built | Mismatch | Unavailable

  /** The collections of one call: what each removed, and what it left. */
  datatype Trace = Trace(gone: seq<Ref>, cleared: Stock, alsoGone: seq<Ref>, forced: Stock)

  /** The stock with a reference moved to an image. */
  function Put(c: Stock, ref: Ref, image: Protocol.Image): Stock {
    Stock(c.tags[ref := image], c.records, c.file)
  }

  /** Room was made before the first attempt, and again, whatever the disk said, before the second. */
  ghost predicate Cleared(cache: Cache, active: set<ImageId>, gated: set<Ref>, first: Attempt, w1: World, w2: World,
                          before: Stock, trace: Trace)
  {
    && cache.Collected(before, active, gated, false, w1, trace.gone, trace.cleared)
    && if first.OutOfSpace? then cache.Collected(trace.cleared, active, gated, true, w2, trace.alsoGone, trace.forced)
       else trace.forced == trace.cleared
  }

  ghost predicate RecordedAs(forced: Stock, ref: Ref, image: Protocol.Image, origin: Origin, now: Time, after: Stock) {
    Recorded(Put(forced, ref, image), CachedImage(ref, image.id, origin, now), after)
  }

  /** The image made by the first attempt, or by the second if the first ran out of space, is recorded. */
  ghost predicate Obtained(first: Attempt, second: Attempt, ref: Ref, origin: Origin, now: Time,
                           forced: Stock, after: Stock)
  {
    if first.Made? then RecordedAs(forced, ref, first.image, origin, now, after)
    else if first.OutOfSpace? && second.Made? then RecordedAs(forced, ref, second.image, origin, now, after)
    else after == forced
  }

  /** What `build_image` does once it has the gate of its tag. */
  ghost predicate BuildsAs(cache: Cache, active: set<ImageId>, gated: set<Ref>, tag: Ref, want: Labels, answers: bool,
                           first: Attempt, second: Attempt, w1: World, w2: World, now: Time,
                           before: Stock, trace: Trace, after: Stock)
  {
    exists reuse, looked ::
      && ReusedAs(before, tag, want, now, answers, reuse, looked)
      && if reuse.NotFound? then
           && Cleared(cache, active, gated, first, w1, w2, looked, trace)
           && Obtained(first, second, tag, Origin.Built, now, trace.forced, after)
         else after == looked
  }

  /** What `_ensure_image` does. */
  ghost predicate EnsuresAs(cache: Cache, active: set<ImageId>, gated: set<Ref>, ref: Ref, answers: bool,
                            first: Attempt, second: Attempt, w1: World, w2: World, now: Time,
                            before: Stock, trace: Trace, after: Stock)
  {
    if !answers then after == before
    else if ref in before.tags then Touched(before, ref, before.tags[ref].id, now, after)
    else
      && Cleared(cache, active, gated, first, w1, w2, before, trace)
      && Obtained(first, second, ref, Pulled, now, trace.forced, after)
  }

  class Runtime {
    const brokerId: string
    const docker: Docker
    const cache: Cache

    ghost predicate Valid()
      reads this, cache
    {
      cache.docker == docker && cache.Valid()
    }

    constructor (brokerId: string, cache: Cache)
      requires cache.Valid()
      ensures Valid() && this.brokerId == brokerId && this.cache == cache
    {
      this.brokerId, this.cache, this.docker := brokerId, cache, cache.docker;
    }

    /** A build or a pull of `ref`: Docker is unchanged if it fails. */
    method Obtain(ref: Ref, attempt: Attempt) returns (ok: bool)
      modifies docker`tags
      ensures ok == attempt.Made?
      ensures docker.tags == if ok then old(docker.tags)[ref := attempt.image] else old(docker.tags)
    {
      ok := attempt.Made?;
      if ok {
        docker.tags := docker.tags[ref := attempt.image];
      }
    }

    /** Room is made first, then Docker is asked once. */
    method ClearAndObtain(ref: Ref, emergency: bool, attempt: Attempt, w: World, ghost active: set<ImageId>)
      returns (ok: bool, ghost cleared: Stock, ghost gone: seq<Ref>)
      requires Valid() && forall id :: id in active <==> id in docker.containers || id in cache.reservations
      modifies cache`records, cache`file, docker`tags
      ensures Valid() && ok == attempt.Made?
      ensures cache.Collected(old(cache.Now()), active, cache.gates.Keys, emergency, w, gone, cleared)
      ensures cache.Now() == if ok then Stock(cleared.tags[ref := attempt.image], cleared.records, cleared.file)
                             else cleared
      ensures forall other | other in cache.gates && (other != ref || !ok) ::
                Untouched(other, old(docker.tags), old(cache.records), docker.tags, cache.records)
    {
      gone := cache.CollectIfNeeded(emergency, w);
      cleared := cache.Now();
      ok := Obtain(ref, attempt);
    }

    /** Room is made if there is little; if the first attempt finds none all the same, something is
        collected whatever the disk says, and the second attempt is the last. */
    method ObtainWithRetry(ref: Ref, first: Attempt, second: Attempt, w1: World, w2: World, ghost active: set<ImageId>)
      returns (ok: bool, ghost trace: Trace)
      requires Valid() && forall id :: id in active <==> id in docker.containers || id in cache.reservations
      modifies cache`records, cache`file, docker`tags
      ensures Valid()
      ensures cache.Collected(old(cache.Now()), active, cache.gates.Keys, false, w1, trace.gone, trace.cleared)
      ensures if first.OutOfSpace?
              then cache.Collected(trace.cleared, active, cache.gates.Keys, true, w2, trace.alsoGone, trace.forced)
              else trace.forced == trace.cleared
      ensures first.Made? ==>
                && ok
                && cache.Now() == Stock(trace.forced.tags[ref := first.image], trace.forced.records, trace.forced.file)
      ensures first.OutOfSpace? && second.Made? ==>
                && ok
                && cache.Now() == Stock(trace.forced.tags[ref := second.image], trace.forced.records, trace.forced.file)
      ensures first.Broken? || (first.OutOfSpace? && !second.Made?) ==> !ok && cache.Now() == trace.forced
      ensures forall other | other in cache.gates && (other != ref || !ok) ::
                Untouched(other, old(docker.tags), old(cache.records), docker.tags, cache.records)
    {
      ghost var cleared, gone;
      ok, cleared, gone := ClearAndObtain(ref, false, first, w1, active);
      trace := Trace(gone, cleared, [], cleared);
      if first.OutOfSpace? {
        ghost var tags, records := docker.tags, cache.records;
        ghost var forced, alsoGone;
        ok, forced, alsoGone := ClearAndObtain(ref, true, second, w2, active);
        trace := Trace(gone, cleared, alsoGone, forced);
        UntouchedTwice(cache.gates.Keys, old(docker.tags), old(cache.records), tags, records,
                       docker.tags, cache.records);
      }
    }

    /** `_build_and_record`: room is made before each attempt; a build that succeeds is recorded and saved,
        a failed one leaves its tag and its record as they were. */
    method BuildAndRecord(tag: Ref, first: Attempt, second: Attempt, w1: World, w2: World, now: Time,
                          ghost active: set<ImageId>)
      returns (ok: bool, ghost trace: Trace)
      requires Valid() && tag in cache.gates
      requires forall id :: id in active <==> id in docker.containers || id in cache.reservations
      modifies cache`records, cache`file, docker`tags
      ensures Valid()
      ensures cache.Collected(old(cache.Now()), active, cache.gates.Keys, false, w1, trace.gone, trace.cleared)
      ensures if first.OutOfSpace?
              then cache.Collected(trace.cleared, active, cache.gates.Keys, true, w2, trace.alsoGone, trace.forced)
              else trace.forced == trace.cleared
      ensures first.Made? ==> ok && docker.tags == trace.forced.tags[tag := first.image]
      ensures first.OutOfSpace? && second.Made? ==> ok && docker.tags == trace.forced.tags[tag := second.image]
      ensures first.Broken? || (first.OutOfSpace? && !second.Made?) ==> !ok && cache.Now() == trace.forced
      ensures ok ==>
                && cache.records == Store(trace.forced.records,
                                          CachedImage(tag, docker.tags[tag].id, Origin.Built, now))
                && cache.file == Holding(Saved(cache.records))
      ensures !ok ==> Untouched(tag, old(docker.tags), old(cache.records), docker.tags, cache.records)
      ensures Cleared(cache, active, cache.gates.Keys, first, w1, w2, old(cache.Now()), trace)
      ensures Obtained(first, second, tag, Origin.Built, now, trace.forced, cache.Now())
    {
      ok, trace := ObtainWithRetry(tag, first, second, w1, w2, active);
      if ok {
        cache.Record(tag, docker.tags[tag].id, Origin.Built, now);
      }
    }

    /** `build_image` inside its gate. */
    method BuildGated(key: string, answers: bool, first: Attempt, second: Attempt, w1: World, w2: World, now: Time,
                      ghost active: set<ImageId>)
      returns (r: BuildReply, ghost trace: Trace)
      requires Valid() && ':' !in key && Tag(brokerId, key) in cache.gates
      requires forall id :: id in active <==> id in docker.containers || id in cache.reservations
      modifies cache`records, cache`file, docker`tags
      ensures Valid()
      ensures var tag, tags, records := Tag(brokerId, key), old(docker.tags), old(cache.records);
              && (!answers ==> r.Unavailable? && cache.Now() == old(cache.Now()))
              && (answers && tag !in tags ==>
                    && cache.Collected(Stock(tags, Forget(records, tag), if tag in records.entry
                                                                         then Holding(Saved(Forget(records, tag)))
                                                                         else old(cache.file)),
                                       active, cache.gates.Keys, false, w1, trace.gone, trace.cleared)
                    && (if first.OutOfSpace?
                        then cache.Collected(trace.cleared, active, cache.gates.Keys, true, w2, trace.alsoGone,
                                             trace.forced)
                        else trace.forced == trace.cleared)
                    && (first.Made? ==> r.Built? && docker.tags == trace.forced.tags[tag := first.image])
                    && (first.OutOfSpace? && second.Made? ==>
                          r.Built? && docker.tags == trace.forced.tags[tag := second.image])
                    && (first.Broken? || (first.OutOfSpace? && !second.Made?) ==>
                          r.Unavailable? && tag !in docker.tags && cache.Now() == trace.forced))
              && (answers && tag in tags ==>
                    && r == (if Carries(tags[tag].labels, brokerId, key)
                                && (tag in records.entry ==> records.entry[tag].imageId == tags[tag].id)
                             then Hit else Mismatch)
                    && docker.tags == tags
                    && (r.Mismatch? ==> cache.Now() == old(cache.Now()))
                    && (r.Hit? ==> cache.records == Store(records, CachedImage(tag, tags[tag].id, Origin.Built, now))))
              && (r.Hit? || r.Built? ==>
                    && tag in cache.records.entry && cache.file == Holding(Saved(cache.records))
                    && cache.records.entry[tag] == CachedImage(tag, docker.tags[tag].id, Origin.Built, now))
      ensures BuildsAs(cache, active, cache.gates.Keys, Tag(brokerId, key), KeyLabels(brokerId, key), answers,
                       first, second, w1, w2, now, old(cache.Now()), trace, cache.Now())
    {
      var tag := Tag(brokerId, key);
      trace := Trace([], cache.Now(), [], cache.Now());
      ghost var before := cache.Now();
      if tag in docker.tags {
        Protocol.OwnLabels(docker.tags[tag].labels, brokerId, key);
      }
      var reuse := cache.ReuseBuilt(tag, KeyLabels(brokerId, key), now, answers);
      ghost var looked := cache.Now();
      assert ReusedAs(before, tag, KeyLabels(brokerId, key), now, answers, reuse, looked);
      if !reuse.NotFound? {
        return if reuse.Reused? then Hit else if reuse.Mismatched? then Mismatch else Unavailable, trace;
      }
      var ok;
      ok, trace := BuildAndRecord(tag, first, second, w1, w2, now, active);
      return if ok then BuildReply.Built else Unavailable, trace;
    }

    /** `build_image`, for an attempt that puts the labels of the build on its image.  Whatever happens, the
        gates are as before.  A missing tag is built by one attempt, or two if the first ran out of space, and
        room is made before each, with the tag gated; one that is there is reused exactly if it carries the
        broker's three labels and is the image on record. */
    method BuildImage(key: string, answers: bool, first: Attempt, second: Attempt, w1: World, w2: World, now: Time,
                      ghost active: set<ImageId>)
      returns (r: BuildReply, ghost trace: Trace)
      requires Valid() && ':' !in key
      requires forall id :: id in active <==> id in docker.containers || id in cache.reservations
      modifies cache`records, cache`file, cache`gates, docker`tags
      ensures Valid() && cache.gates == old(cache.gates)
      ensures !answers ==> r.Unavailable? && cache.Now() == old(cache.Now())
      ensures var tag, records := Tag(brokerId, key), old(cache.records);
              answers && tag !in old(docker.tags) ==>
                && cache.Collected(Stock(old(docker.tags), Forget(records, tag),
                                         if tag in records.entry then Holding(Saved(Forget(records, tag)))
                                         else old(cache.file)),
                                   active, cache.gates.Keys + {tag}, false, w1, trace.gone, trace.cleared)
                && (if first.OutOfSpace?
                    then cache.Collected(trace.cleared, active, cache.gates.Keys + {tag}, true, w2, trace.alsoGone,
                                         trace.forced)
                    else trace.forced == trace.cleared)
                && (first.Made? ==> r.Built? && docker.tags == trace.forced.tags[tag := first.image])
                && (first.OutOfSpace? && second.Made? ==>
                      r.Built? && docker.tags == trace.forced.tags[tag := second.image])
                && (first.Broken? || (first.OutOfSpace? && !second.Made?) ==>
                      r.Unavailable? && tag !in docker.tags && cache.Now() == trace.forced)
      ensures var tag, records := Tag(brokerId, key), old(cache.records);
              answers && tag in old(docker.tags) ==>
                var image := old(docker.tags)[tag];
                && docker.tags == old(docker.tags)
                && (r.Hit? <==>
                      && MANAGED_BY_LABEL in image.labels && image.labels[MANAGED_BY_LABEL] == "true"
                      && BROKER_ID_LABEL in image.labels && image.labels[BROKER_ID_LABEL] == brokerId
                      && BUILD_KEY_LABEL in image.labels && image.labels[BUILD_KEY_LABEL] == key
                      && (tag in records.entry ==> records.entry[tag].imageId == image.id))
                && (!r.Hit? ==> r.Mismatch? && cache.Now() == old(cache.Now()))
                && (r.Hit? ==> cache.records == Store(records, CachedImage(tag, image.id, Origin.Built, now)))
      ensures var tag := Tag(brokerId, key);
              r.Hit? || r.Built? ==>
                && tag in docker.tags && tag in cache.records.entry && cache.file == Holding(Saved(cache.records))
                && cache.records.entry[tag] == CachedImage(tag, docker.tags[tag].id, Origin.Built, now)
      ensures BuildsAs(cache, active, cache.gates.Keys + {Tag(brokerId, key)}, Tag(brokerId, key),
                       KeyLabels(brokerId, key), answers, first, second, w1, w2, now,
                       old(cache.Now()), trace, cache.Now())
    {
      var tag := Tag(brokerId, key);
      var gate := cache.Enter(tag);
      ghost var gated := cache.gates.Keys;
      assert gated == old(cache.gates).Keys + {tag};
      r, trace := BuildGated(key, answers, first, second, w1, w2, now, active);
      cache.Leave(tag, gate);
      EnteringAndLeaving(old(cache.gates), tag, gate);
    }

    /** `_ensure_image`: the id that the reference stands for.  One that is missing is pulled, room being
        made before each attempt, and recorded; one that is there is touched. */
    method EnsureImage(ref: Ref, answers: bool, first: Attempt, second: Attempt, w1: World, w2: World, now: Time,
                       ghost active: set<ImageId>)
      returns (id: Option<ImageId>, ghost trace: Trace)
      requires Valid() && forall id :: id in active <==> id in docker.containers || id in cache.reservations
      modifies cache`records, cache`file, docker`tags
      ensures Valid()
      ensures !answers ==> id.None? && cache.Now() == old(cache.Now())
      ensures answers && ref in old(docker.tags) ==>
                && id == Some(old(docker.tags)[ref].id) && docker.tags == old(docker.tags)
                && cache.records == (if ref !in old(cache.records).entry then old(cache.records)
                                     else if old(cache.records).entry[ref].imageId == id.value
                                          then Refresh(old(cache.records), ref, now)
                                     else Forget(old(cache.records), ref))
                && cache.file == (if ref in old(cache.records).entry then Holding(Saved(cache.records))
                                  else old(cache.file))
      ensures answers && ref !in old(docker.tags) ==>
                && cache.Collected(old(cache.Now()), active, cache.gates.Keys, false, w1, trace.gone, trace.cleared)
                && (if first.OutOfSpace?
                    then cache.Collected(trace.cleared, active, cache.gates.Keys, true, w2, trace.alsoGone,
                                         trace.forced)
                    else trace.forced == trace.cleared)
                && (first.Made? ==>
                      id == Some(first.image.id) && docker.tags == trace.forced.tags[ref := first.image])
                && (first.OutOfSpace? && second.Made? ==>
                      id == Some(second.image.id) && docker.tags == trace.forced.tags[ref := second.image])
                && (first.Broken? || (first.OutOfSpace? && !second.Made?) ==>
                      id.None? && cache.Now() == trace.forced)
                && (id.Some? ==>
                      && cache.records == Store(trace.forced.records, CachedImage(ref, id.value, Pulled, now))
                      && cache.file == Holding(Saved(cache.records)))
      ensures EnsuresAs(cache, active, cache.gates.Keys, ref, answers, first, second, w1, w2, now,
                        old(cache.Now()), trace, cache.Now())
    {
      trace := Trace([], cache.Now(), [], cache.Now());
      if !answers {
        return None, trace;
      }
      if ref in docker.tags {
        cache.Touch(ref, docker.tags[ref].id, now);
        return Some(docker.tags[ref].id), trace;
      }
      var ok;
      ok, trace := ObtainWithRetry(ref, first, second, w1, w2, active);
      if !ok {
        return None, trace;
      }
      cache.Record(ref, docker.tags[ref].id, Pulled, now);
      return Some(docker.tags[ref].id), trace;
    }

    /** `create` once the image was found.  Whatever happens, the reservations are as before.  Docker makes
        no container if the reference has vanished; one that does not start is removed again, unless that
        fails too. */
    method CreateContainer(ref: Ref, id: ImageId, made: bool, starts: bool, removed: bool) returns (ok: bool)
      requires Valid()
      modifies cache`reservations, docker`containers
      ensures Valid() && cache.reservations == old(cache.reservations)
      ensures ok <==> ref in docker.tags && made && starts
      ensures docker.containers == if ref in docker.tags && made && (starts || !removed)
                                   then old(docker.containers) + [docker.tags[ref].id] else old(docker.containers)
    {
      cache.Reserve(id);
      ok := false;
      if made && ref in docker.tags {
        docker.containers := docker.containers + [docker.tags[ref].id];
        ok := starts;
        if !starts && removed {
          docker.containers := docker.containers[..|docker.containers| - 1];
        }
      }
      cache.Unreserve(id);
      ReservingAndReleasing(old(cache.reservations), id);
    }
  }

  lemma UntouchedTwice(refs: set<Ref>, tags: map<Ref, Protocol.Image>, records: Images,
                       tags': map<Ref, Protocol.Image>, records': Images,
                       tags'': map<Ref, Protocol.Image>, records'': Images)
    ensures forall ref | ref in refs && Untouched(ref, tags, records, tags', records')
                         && Untouched(ref, tags', records', tags'', records'') ::
              Untouched(ref, tags, records, tags'', records'')
  {
  }

  lemma EnteringAndLeaving(gates: map<Ref, Users>, tag: Ref, gate: Mutex)
    ensures tag in gates ==> gates[tag := Users(gate, 1 + gates[tag].count)][tag := gates[tag]] == gates
    ensures tag !in gates ==> gates[tag := Users(gate, 1)] - {tag} == gates
  {
  }

  lemma ReservingAndReleasing(counts: map<ImageId, nat>, id: ImageId)
    ensures id in counts ==> counts[id := 1 + counts[id]][id := counts[id]] == counts
    ensures id !in counts ==> counts[id := 1] - {id} == counts
  {
  }
}
