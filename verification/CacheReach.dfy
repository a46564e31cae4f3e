/** Reachable states of the cache machine, and the steps that lead to some. */
module CacheReach {
  import opened Inventory
  import opened CacheKey
  import opened CacheProtocol

  ghost predicate Reachable(cfg: Config, s: State) {
    exists ss: seq<State>, steps: seq<Step> :: Run(cfg, ss, steps) && ss[|steps|] == s
  }

  lemma Onward(cfg: Config, s: State, step: Step, s': State)
    requires Reachable(cfg, s) && Next(cfg, s, step, s')
    ensures Reachable(cfg, s')
  {
    var ss: seq<State>, steps: seq<Step> :| Run(cfg, ss, steps) && ss[|steps|] == s;
    assert Run(cfg, ss + [s'], steps + [step]);
  }

  function Put(s: State, t: Tid, pc: Pc): State {
    s.(pcs := s.pcs[t := pc])
  }

  lemma Begins(cfg: Config, s: State, t: Tid, ref: Ref)
    requires Reachable(cfg, s) && t !in s.pcs
    ensures Reachable(cfg, Put(s, t, Find(ref)))
  {
    Onward(cfg, s, Begin(t, CreateTask(ref)), Put(s, t, Find(ref)));
  }

  lemma Misses(cfg: Config, s: State, t: Tid, ref: Ref)
    requires Reachable(cfg, s) && t in s.pcs && s.pcs[t] == Find(ref) && ref !in s.tags
    ensures Reachable(cfg, Put(s, t, PullGc(ref, false)))
  {
    Onward(cfg, s, Creating(t, FindImage(true)), Put(s, t, PullGc(ref, false)));
  }

  lemma PutTwice(s: State, t: Tid, a: Pc, b: Pc)
    ensures Put(Put(s, t, a), t, b) == Put(s, t, b)
  {
    assert s.pcs[t := a][t := b] == s.pcs[t := b];
  }

  lemma ComesToCollect(cfg: Config, s: State, t: Tid, ref: Ref)
    requires Reachable(cfg, s) && t !in s.pcs && ref !in s.tags
    ensures Reachable(cfg, Put(s, t, PullGc(ref, false)))
  {
    Begins(cfg, s, t, ref);
    Misses(cfg, Put(s, t, Find(ref)), t, ref);
    PutTwice(s, t, Find(ref), PullGc(ref, false));
  }

  lemma ComesToPull(cfg: Config, s: State, t: Tid, ref: Ref)
    requires Reachable(cfg, s) && t !in s.pcs && ref !in s.tags && s.lock.Unlocked?
    ensures Reachable(cfg, Put(s, t, Pull(ref, false)))
  {
    ComesToCollect(cfg, s, t, ref);
    NeedsNoRoom(cfg, Put(s, t, PullGc(ref, false)), t, ref);
    PutTwice(s, t, PullGc(ref, false), Pull(ref, false));
  }

  lemma NeedsNoRoom(cfg: Config, s: State, t: Tid, ref: Ref)
    requires Reachable(cfg, s) && t in s.pcs && s.pcs[t] == PullGc(ref, false) && s.lock.Unlocked?
    ensures Reachable(cfg, Put(s, t, Pull(ref, false)))
  {
    Onward(cfg, s, Gc(t, GcBegin(None)), Put(s, t, Pull(ref, false)));
  }

  lemma Finds(cfg: Config, s: State, t: Tid, ref: Ref)
    requires Reachable(cfg, s) && t in s.pcs && s.pcs[t] == Find(ref) && ref in s.tags && ref !in s.records
    ensures Reachable(cfg, Put(s, t, TouchImage(ref, s.tags[ref].id, s.now)))
  {
    Onward(cfg, s, Creating(t, FindImage(true)), Put(s, t, TouchImage(ref, s.tags[ref].id, s.now)));
  }

  lemma Touches(cfg: Config, s: State, t: Tid, ref: Ref)
    requires Reachable(cfg, s) && t in s.pcs && s.pcs[t].TouchImage? && s.pcs[t].ref == ref
    requires ref !in s.records && s.lock.Unlocked?
    ensures Reachable(cfg, Put(s, t, ReserveImage(ref, s.pcs[t].id, s.pcs[t].since)))
  {
    Onward(cfg, s, Creating(t, Touch), Put(s, t, ReserveImage(ref, s.pcs[t].id, s.pcs[t].since)));
  }
}
