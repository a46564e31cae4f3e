/** The service as an object: its records in order of creation, and the sweep's loop.

A call runs here without interruption; `Sandboxes` interleaves them. */
module BrokerService {
  import opened OrderedDict
  import opened Sandboxes

  type Records = Dict<Id, Record>

  /** The runtime's containers, each with the sandbox its label names. */
  class Runtime {
    var containers: map<RuntimeId, Id>

    constructor ()
      ensures containers == map[]
    {
      containers := map[];
    }

    /** `DockerRuntime.delete`, where `result` is what Docker does. */
    method Delete(container: RuntimeId, id: Id, result: Removal) returns (ok: bool)
      modifies this`containers
      ensures ok <==> !result.Unanswered?
                      && (container !in old(containers) || (old(containers)[container] == id && result.Removed?))
      ensures containers == if && container in old(containers) && old(containers)[container] == id
                               && (result.Removed? || result.RemovedThenFailed?)
                            then old(containers) - {container} else old(containers)
    {
      if result.Unanswered? {
        return false;
      }
      if container !in containers {
        return true;
      }
      if containers[container] != id || result.Failed? {
        return false;
      }
      containers := containers - {container};
      return result.Removed?;
    }
  }

  predicate Removes(result: Removal) {
    result.Removed? || result.RemovedThenFailed?
  }

  /** The sandboxes due at `now`, in order of creation. */
  function Expired(records: Records, now: Time): seq<Id> {
    Filtered(records.order, set id | id in records.entry && !Due(records.entry[id].expires, now))
  }

  /** A sweep of the service lists what a sweep of the protocol may. */
  lemma ExpiredLists(records: Records, now: Time)
    ensures Lists(Expired(records, now), records.entry, now)
    ensures forall id :: id in Expired(records, now) <==>
              id in records.entry && records.entry[id].expires.At? && records.entry[id].expires.time <= now
  {
    FilteredKeepsTheRest(records.order, set id | id in records.entry && !Due(records.entry[id].expires, now));
    AllDifferent(Expired(records, now));
    assert forall id | id in records.order :: id in records.entry;
    assert forall id | id in records.entry :: id in records.order;
  }

  /** How far `DockerRuntime.create` gets. */
  datatype Making = NotMade | NotStarted(removed: bool) | Started

  datatype Reply = Created | RuntimeFailed | Overflowed

  /** A record's container, if it lives, is labelled with the record's sandbox. */
  ghost predicate Labelled(entry: map<Id, Record>, containers: map<RuntimeId, Id>) {
    forall id | id in entry && entry[id].container in containers :: containers[entry[id].container] == id
  }

  /** The containers of these sandboxes that Docker lets go. */
  ghost function Reclaimed(entry: map<Id, Record>, containers: map<RuntimeId, Id>, ids: seq<Id>,
                           result: Id -> Removal): set<RuntimeId>
  {
    set c | c in containers && containers[c] in ids && containers[c] in entry
            && entry[containers[c]].container == c && Removes(result(containers[c]))
  }

  /** The sandboxes whose deletion fails. */
  ghost function Failing(entry: map<Id, Record>, containers: map<RuntimeId, Id>, result: Id -> Removal): set<Id> {
    set id | id in entry && (result(id).Unanswered? || (entry[id].container in containers && !result(id).Removed?))
  }

  /** A sweep that has gone through `ids`. */
  ghost predicate SweptSoFar(was: Records, before: map<RuntimeId, Id>, ids: seq<Id>, result: Id -> Removal,
                             records: Records, containers: map<RuntimeId, Id>, removed: seq<Id>)
  {
    && removed == Filtered(ids, Failing(was.entry, before, result))
    && records == Without(was, set id | id in removed)
    && containers == before - Reclaimed(was.entry, before, ids, result)
  }

  lemma SweepStarts(was: Records, before: map<RuntimeId, Id>, result: Id -> Removal)
    ensures SweptSoFar(was, before, [], result, was, before, [])
  {
    var none: seq<Id> := [];
    assert (set id | id in none) == {};
    WithoutNothing(was, {});
  }

  /** The next sandbox of the list is as the sweep found it. */
  lemma SweepFinds(was: Records, before: map<RuntimeId, Id>, ids: seq<Id>, id: Id, result: Id -> Removal,
                   records: Records, containers: map<RuntimeId, Id>, removed: seq<Id>)
    requires SweptSoFar(was, before, ids, result, records, containers, removed)
    requires Labelled(was.entry, before) && id in was.entry && id !in ids
    ensures id in records.entry && records.entry[id] == was.entry[id]
    ensures was.entry[id].container in containers <==> was.entry[id].container in before
  {
    FilteredKeepsTheRest(ids, Failing(was.entry, before, result));
  }

  lemma SweepGoesOn(was: Records, before: map<RuntimeId, Id>, ids: seq<Id>, id: Id, result: Id -> Removal,
                    records: Records, containers: map<RuntimeId, Id>, removed: seq<Id>,
                    records': Records, containers': map<RuntimeId, Id>, ok: bool)
    requires SweptSoFar(was, before, ids, result, records, containers, removed)
    requires Labelled(was.entry, before) && id in was.entry && id !in ids
    requires ok <==> id !in Failing(was.entry, before, result)
    requires records' == if ok then Without(records, {id}) else records
    requires containers' == if Removes(result(id)) then containers - {was.entry[id].container} else containers
    ensures SweptSoFar(was, before, ids + [id], result, records', containers', if ok then removed + [id] else removed)
  {
    assert (ids + [id])[..|ids|] == ids;
    if ok {
      WithoutTwice(was, set r | r in removed, {id});
      assert (set r | r in removed + [id]) == (set r | r in removed) + {id};
    }
    assert containers' == before - Reclaimed(was.entry, before, ids + [id], result);
  }

  class Service {
    const runtime: Runtime
    const defaultTtl: int
    var records: Records

    ghost predicate Valid()
      reads this, runtime
    {
      Labelled(records.entry, runtime.containers)
    }

    constructor (runtime: Runtime, defaultTtl: int)
      ensures Valid() && records == Empty() && this.runtime == runtime && this.defaultTtl == defaultTtl
    {
      this.runtime, this.defaultTtl, records := runtime, defaultTtl, Empty();
    }

    /** `create`: the new record comes last.  A container is left without a record exactly if it did not
        start and could not be removed, or if its deadline cannot be computed. */
    method Create(id: Id, created: Time, ttl: int, container: RuntimeId, making: Making) returns (reply: Reply)
      requires Valid() && id !in records.entry && container !in runtime.containers
      requires forall other | other in records.entry :: records.entry[other].container != container
      modifies this`records, runtime`containers
      ensures Valid()
      ensures reply.RuntimeFailed? <==> !making.Started?
      ensures var seconds := if ttl != 0 then ttl else defaultTtl;
              && (reply.Overflowed? <==>
                    making.Started? && seconds > 0
                    && created + seconds * 1_000_000 >= 3_652_059 * 24 * 60 * 60 * 1_000_000)
              && (reply.Created? ==>
                    && records.order == old(records).order + [id]
                    && records.entry == old(records).entry[id :=
                         Record(container, if seconds <= 0 then Never else At(created + seconds * 1_000_000))])
      ensures !reply.Created? ==> records == old(records)
      ensures runtime.containers == if making == NotMade || making == NotStarted(true) then old(runtime.containers)
                                    else old(runtime.containers)[container := id]
    {
      if making != NotMade && making != NotStarted(true) {
        runtime.containers := runtime.containers[container := id];
      }
      if !making.Started? {
        return RuntimeFailed;
      }
      var birth := Birth(created, EffectiveTtl(ttl, defaultTtl));
      if !Fits(birth) {
        return Overflowed;
      }
      records := Put(records, id, Record(container, DeadlineOf(birth)));
      return Created;
    }

    /** `delete`: the record goes if the container is gone, and only then. */
    method Delete(id: Id, result: Removal) returns (ok: bool)
      requires Valid()
      modifies this`records, runtime`containers
      ensures Valid()
      ensures ok <==>
                || id !in old(records).entry
                || (!result.Unanswered?
                    && (old(records).entry[id].container !in old(runtime.containers) || result.Removed?))
      ensures records == if ok then Without(old(records), {id}) else old(records)
      ensures runtime.containers ==
              if id in old(records).entry && (result.Removed? || result.RemovedThenFailed?)
              then old(runtime.containers) - {old(records).entry[id].container} else old(runtime.containers)
    {
      if id !in records.entry {
        WithoutNothing(records, {id});
        return true;
      }
      var container := records.entry[id].container;
      assert container !in runtime.containers ==> runtime.containers - {container} == runtime.containers;
      ok := runtime.Delete(container, id, result);
      if ok {
        records := Without(records, {id});
      }
    }

    /** One turn of the sweep's loop. */
    method SweepNext(id: Id, result: Id -> Removal, soFar: seq<Id>,
                     ghost was: Records, ghost before: map<RuntimeId, Id>, ghost ids: seq<Id>)
      returns (removed: seq<Id>)
      requires Valid() && Labelled(was.entry, before) && id in was.entry && id !in ids
      requires SweptSoFar(was, before, ids, result, records, runtime.containers, soFar)
      modifies this`records, runtime`containers
      ensures Valid()
      ensures SweptSoFar(was, before, ids + [id], result, records, runtime.containers, removed)
    {
      SweepFinds(was, before, ids, id, result, records, runtime.containers, soFar);
      ghost var stored, containers := records, runtime.containers;
      var ok := Delete(id, result(id));
      SweepGoesOn(was, before, ids, id, result, stored, containers, soFar, records, runtime.containers, ok);
      removed := if ok then soFar + [id] else soFar;
    }

    /** `sweep_expired`: tries every sandbox that is due, in order of creation; those whose deletion
        succeeds leave and are returned, in that order; the others, and all that are not due, stay. */
    method SweepExpired(now: Time, result: Id -> Removal) returns (removed: seq<Id>)
      requires Valid()
      modifies this`records, runtime`containers
      ensures Valid()
      ensures SweptSoFar(old(records), old(runtime.containers), Expired(old(records), now), result,
                         records, runtime.containers, removed)
      ensures forall id | id in old(records).entry ::
                var r := old(records).entry[id];
                id in removed <==>
                  && r.expires.At? && r.expires.time <= now && !result(id).Unanswered?
                  && (r.container !in old(runtime.containers) || result(id).Removed?)
      ensures forall id :: id in records.entry <==> id in old(records).entry && id !in removed
      ensures forall id | id in records.entry :: records.entry[id] == old(records).entry[id]
      ensures forall id | id in old(records).entry ::
                var r := old(records).entry[id];
                r.container in runtime.containers <==>
                  && r.container in old(runtime.containers)
                  && !(r.expires.At? && r.expires.time <= now
                       && (result(id).Removed? || result(id).RemovedThenFailed?))
    {
      var expired := Expired(records, now);
      ghost var was, before := records, runtime.containers;
      ExpiredLists(records, now);
      SweepStarts(was, before, result);
      removed := [];
      var i := 0;
      while i < |expired|
        invariant 0 <= i <= |expired| && Valid()
        invariant SweptSoFar(was, before, expired[..i], result, records, runtime.containers, removed)
      {
        assert expired[..i + 1] == expired[..i] + [expired[i]];
        removed := SweepNext(expired[i], result, removed, was, before, expired[..i]);
        i := i + 1;
      }
      assert expired[..i] == expired;
      forall id | id in was.entry {
        SweepIsExact(was, before, now, result, records, runtime.containers, removed, id);
      }
    }
  }

  /** What a sweep returns, keeps and removes from Docker, sandbox by sandbox. */
  lemma SweepIsExact(was: Records, before: map<RuntimeId, Id>, now: Time, result: Id -> Removal,
                     records: Records, containers: map<RuntimeId, Id>, removed: seq<Id>, id: Id)
    requires SweptSoFar(was, before, Expired(was, now), result, records, containers, removed)
    requires Labelled(was.entry, before) && id in was.entry
    ensures var r := was.entry[id];
            && (id in removed <==>
                  && r.expires.At? && r.expires.time <= now && !result(id).Unanswered?
                  && (r.container !in before || result(id).Removed?))
            && (r.container in containers <==>
                  && r.container in before
                  && !(r.expires.At? && r.expires.time <= now
                       && (result(id).Removed? || result(id).RemovedThenFailed?)))
    ensures id in records.entry <==> id !in removed
    ensures id in records.entry ==> records.entry[id] == was.entry[id]
  {
    ExpiredLists(was, now);
    FilteredKeepsTheRest(Expired(was, now), Failing(was.entry, before, result));
  }

  /** The ids a sweep returns are in order of creation. */
  lemma {:induction false} FilteredInOrder(s: seq<Id>, out: set<Id>, i: nat, j: nat)
    requires NoDuplicates(s) && i < j < |s| && s[i] !in out && s[j] !in out
    ensures exists a, b :: 0 <= a < b < |Filtered(s, out)| && Filtered(s, out)[a] == s[i] && Filtered(s, out)[b] == s[j]
  {
    var init, last := s[..|s| - 1], s[|s| - 1];
    NoDuplicatesPrefix(s, |s| - 1);
    if j < |s| - 1 {
      FilteredInOrder(init, out, i, j);
      var rest := Filtered(init, out);
      var a, b :| 0 <= a < b < |rest| && rest[a] == s[i] && rest[b] == s[j];
      assert Filtered(s, out)[a] == s[i] && Filtered(s, out)[b] == s[j];
    } else {
      FilteredKeepsTheRest(init, out);
      assert init[i] in Filtered(init, out);
      var a :| 0 <= a < |Filtered(init, out)| && Filtered(init, out)[a] == s[i];
      assert Filtered(s, out)[a] == s[i] && Filtered(s, out)[|Filtered(init, out)|] == s[j];
    }
  }
}
