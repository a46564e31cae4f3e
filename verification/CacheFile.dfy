/** The inventory file over whole runs, and what a content tag stands for.

A start that cannot read the file leaves it alone.  If that process builds a tag anew, saves nothing,
and a later process can read the file again, memory and Docker disagree.  That is the only way. */
module CacheFile {
  import opened Inventory
  import opened CacheKey
  import opened CacheProtocol
  import opened CacheIdentity
  import opened CacheSteps
  import opened CacheTheorems

  // ---------- The history of the file, in terms of steps ----------

  /** The end of a save. */
  predicate Saves(step: Step) {
    step.Flush? || (step.Gc? && step.gc.GcFlush?)
  }

  /** The process at state `i` could not read the file when it started, and has saved nothing since. */
  predicate Unread(steps: seq<Step>, i: nat)
    requires i <= |steps|
  {
    && i > 0 && steps[i - 1] != Crash(true) && !Saves(steps[i - 1])
    && (steps[i - 1] == Crash(false) || Unread(steps, i - 1))
  }

  /** Step `b` builds `tag` as another image than the file records. */
  predicate Makes(ss: seq<State>, steps: seq<Step>, b: nat, tag: Ref)
    requires b < |ss| && b < |steps|
  {
    Builds(ss[b], steps[b], tag) && tag in ss[b].disk && ss[b].disk[tag].imageId != steps[b].build.id
  }

  /** ... and up to state `i` nothing is saved and no process reads the file. */
  ghost predicate Drafts(ss: seq<State>, steps: seq<Step>, b: nat, i: nat, tag: Ref)
    requires |ss| == |steps| + 1 && i <= |steps|
  {
    b < i && Makes(ss, steps, b, tag) && forall k | b < k < i :: !Saves(steps[k]) && steps[k] != Crash(true)
  }

  /** Step `k` starts a process that reads the file in spite of such a build. */
  ghost predicate Tears(ss: seq<State>, steps: seq<Step>, k: nat)
    requires |ss| == |steps| + 1 && k < |steps|
  {
    steps[k] == Crash(true) && exists b, tag :: 0 <= b && Drafts(ss, steps, b, k, tag)
  }

  lemma OnlyCrashesAndSavesTurn(cfg: Config, s: State, step: Step, s': State)
    requires Next(cfg, s, step, s')
    ensures s'.reading.unread <==> step == Crash(false) || (s.reading.unread && !Saves(step) && step != Crash(true))
    ensures step == Crash(true) ==> (s'.reading.torn <==> s.reading.torn || s.reading.drafts != {})
    ensures step != Crash(true) ==> s'.reading.torn == s.reading.torn
  {
  }

  /** Building a tag as another image than the file records makes it a draft; a save, or a process that
      reads the file, ends all drafts. */
  lemma DraftTurns(cfg: Config, ss: seq<State>, steps: seq<Step>, k: nat, tag: Ref)
    requires Run(cfg, ss, steps) && k < |steps|
    ensures tag in ss[k + 1].reading.drafts <==>
              !Saves(steps[k]) && steps[k] != Crash(true) && (tag in ss[k].reading.drafts || Makes(ss, steps, k, tag))
  {
    RunKeepsInv(cfg, ss, steps, k);
    assert TagOk(cfg, ss[k], tag) && (steps[k].Building? ==> ThreadOk(cfg, ss[k], steps[k].t));
    StepTurnsDraft(cfg, ss[k], steps[k], ss[k + 1], tag);
  }

  lemma BuildTurnsDraft(cfg: Config, s: State, t: Tid, act: BuildAct, s': State, tag: Ref)
    requires TagOk(cfg, s, tag) && ThreadOk(cfg, s, t)
    requires At(s, t) && BuildEnabled(s, t, act) && BuildStep(cfg, s, t, act, s')
    ensures tag in s'.reading.drafts <==>
              || tag in s.reading.drafts
              || (Builds(s, Building(t, act), tag) && tag in s.disk && s.disk[tag].imageId != act.id)
  {
  }

  lemma StepTurnsDraft(cfg: Config, s: State, step: Step, s': State, tag: Ref)
    requires TagOk(cfg, s, tag) && Next(cfg, s, step, s')
    requires step.Building? ==> ThreadOk(cfg, s, step.t)
    ensures tag in s'.reading.drafts <==>
              && !Saves(step) && step != Crash(true)
              && (tag in s.reading.drafts
                  || (Builds(s, step, tag) && tag in s.disk && s.disk[tag].imageId != step.build.id))
  {
    if step.Building? {
      BuildTurnsDraft(cfg, s, step.t, step.build, s', tag);
    }
  }

  lemma UnreadMeans(cfg: Config, ss: seq<State>, steps: seq<Step>, i: nat)
    requires Run(cfg, ss, steps) && i <= |steps|
    ensures ss[i].reading.unread <==> Unread(steps, i)
  {
    StartsSaved(cfg, ss, steps);
    forall k | 0 <= k < i
      ensures ss[k + 1].reading.unread <==>
                steps[k] == Crash(false) || (ss[k].reading.unread && !Saves(steps[k]) && steps[k] != Crash(true))
    {
      OnlyCrashesAndSavesTurn(cfg, ss[k], steps[k], ss[k + 1]);
    }
    UnreadHistory(ss, steps, i);
  }

  lemma {:induction false} UnreadHistory(ss: seq<State>, steps: seq<Step>, i: nat)
    requires |ss| == |steps| + 1 && i <= |steps| && !ss[0].reading.unread
    requires forall k | 0 <= k < i ::
               ss[k + 1].reading.unread <==>
                 steps[k] == Crash(false) || (ss[k].reading.unread && !Saves(steps[k]) && steps[k] != Crash(true))
    ensures ss[i].reading.unread <==> Unread(steps, i)
  {
    if i > 0 {
      UnreadHistory(ss, steps, i - 1);
      assert (i - 1) + 1 == i;
    }
  }

  lemma DraftMeans(cfg: Config, ss: seq<State>, steps: seq<Step>, i: nat, tag: Ref)
    requires Run(cfg, ss, steps) && i <= |steps|
    ensures tag in ss[i].reading.drafts <==> exists b :: 0 <= b && Drafts(ss, steps, b, i, tag)
  {
    StartsSaved(cfg, ss, steps);
    forall k | 0 <= k < i
      ensures tag in ss[k + 1].reading.drafts <==>
                && !Saves(steps[k]) && steps[k] != Crash(true)
                && (tag in ss[k].reading.drafts || Makes(ss, steps, k, tag))
    {
      DraftTurns(cfg, ss, steps, k, tag);
    }
    DraftHistory(ss, steps, i, tag);
  }

  lemma {:induction false} DraftHistory(ss: seq<State>, steps: seq<Step>, i: nat, tag: Ref)
    requires |ss| == |steps| + 1 && i <= |steps| && tag !in ss[0].reading.drafts
    requires forall k | 0 <= k < i ::
               tag in ss[k + 1].reading.drafts <==>
                 && !Saves(steps[k]) && steps[k] != Crash(true)
                 && (tag in ss[k].reading.drafts || Makes(ss, steps, k, tag))
    ensures tag in ss[i].reading.drafts <==> exists b :: 0 <= b && Drafts(ss, steps, b, i, tag)
  {
    if i > 0 {
      var k := i - 1;
      DraftHistory(ss, steps, k, tag);
      assert k + 1 == i;
      assert Makes(ss, steps, k, tag) ==> Drafts(ss, steps, k, i, tag);
      if tag in ss[k].reading.drafts && !Saves(steps[k]) && steps[k] != Crash(true) {
        var b :| 0 <= b && Drafts(ss, steps, b, k, tag);
        assert Drafts(ss, steps, b, i, tag);
      }
      if b :| 0 <= b < k && Drafts(ss, steps, b, i, tag) {
        assert Drafts(ss, steps, b, k, tag);
      }
    }
  }

  lemma StartsSaved(cfg: Config, ss: seq<State>, steps: seq<Step>)
    requires Run(cfg, ss, steps)
    ensures ss[0].disk == ss[0].records && ss[0].reading == Reading(false, {}, false)
  {
  }

  /** A start that reads the file tears exactly if there are drafts. */
  lemma TearsMeans(cfg: Config, ss: seq<State>, steps: seq<Step>, k: nat)
    requires Run(cfg, ss, steps) && k < |steps| && steps[k] == Crash(true)
    ensures Tears(ss, steps, k) <==> ss[k].reading.drafts != {}
  {
    if tag :| tag in ss[k].reading.drafts {
      DraftMeans(cfg, ss, steps, k, tag);
    }
    if Tears(ss, steps, k) {
      var b, tag :| 0 <= b && Drafts(ss, steps, b, k, tag);
      DraftMeans(cfg, ss, steps, k, tag);
    }
  }

  lemma {:induction false} TornMeans(cfg: Config, ss: seq<State>, steps: seq<Step>, i: nat)
    requires Run(cfg, ss, steps) && i <= |steps|
    ensures ss[i].reading.torn <==> exists k :: 0 <= k < i && Tears(ss, steps, k)
  {
    if i > 0 {
      TornMeans(cfg, ss, steps, i - 1);
      OnlyCrashesAndSavesTurn(cfg, ss[i - 1], steps[i - 1], ss[i]);
      if steps[i - 1] == Crash(true) {
        TearsMeans(cfg, ss, steps, i - 1);
      }
    } else {
      StartsSaved(cfg, ss, steps);
    }
  }

  // ---------- Identity ----------

  /** No process before state `i` has read the file in spite of a build that it does not agree with. */
  ghost predicate Untorn(ss: seq<State>, steps: seq<Step>, i: nat)
    requires |ss| == |steps| + 1 && i <= |steps|
  {
    forall k | 0 <= k < i :: !Tears(ss, steps, k)
  }

  /** Tearing takes a process that could not read the file and saved nothing before the build. */
  lemma DraftsTakeAnUnreadFile(cfg: Config, ss: seq<State>, steps: seq<Step>, b: nat, tag: Ref)
    requires Run(cfg, ss, steps) && b < |steps| && Makes(ss, steps, b, tag)
    ensures Unread(steps, b)
  {
    RunKeepsInv(cfg, ss, steps, b);
    BuildsOfMissingTags(cfg, ss[b], steps[b], ss[b + 1], tag);
    UnreadMeans(cfg, ss, steps, b);
  }

  /** In every state, crash points included, a content tag found in Docker has the labels of its builds.
      Unless the file was torn, it also has the image id that the inventory has for it, and the one that
      the file has for it except while it is a draft. */
  lemma TagIdentity(cfg: Config, ss: seq<State>, steps: seq<Step>, i: nat, tag: Ref)
    requires Run(cfg, ss, steps) && i <= |steps| && ContentTag(cfg, tag) && tag in ss[i].tags
    ensures Carries(ss[i].tags[tag].labels, cfg.brokerId, AfterLastColon(tag))
    ensures Untorn(ss, steps, i) && tag in ss[i].records ==> ss[i].records[tag].imageId == ss[i].tags[tag].id
    ensures Untorn(ss, steps, i) && tag in ss[i].disk ==>
              (ss[i].disk[tag].imageId == ss[i].tags[tag].id <==> !exists b :: 0 <= b && Drafts(ss, steps, b, i, tag))
  {
    RunKeepsInv(cfg, ss, steps, i);
    TornMeans(cfg, ss, steps, i);
    DraftMeans(cfg, ss, steps, i, tag);
    OwnLabels(ss[i].tags[tag].labels, cfg.brokerId, AfterLastColon(tag));
    assert TagOk(cfg, ss[i], tag);
  }

  /** Unless the file was torn, the guard of the identity-mismatch error is false whenever `reuse_built`
      has found an image. */
  lemma NeverMismatched(cfg: Config, ss: seq<State>, steps: seq<Step>, i: nat)
    requires Run(cfg, ss, steps) && i <= |steps| && ss[i].lock.Reusing? && ss[i].lock.found.Some?
    requires Untorn(ss, steps, i)
    ensures var s := ss[i];
            && At(s, s.lock.tid) && s.pcs[s.lock.tid].Reuse?
            && var image, tag := s.lock.found.value, s.pcs[s.lock.tid].job.tag;
            && Carries(image.labels, cfg.brokerId, AfterLastColon(tag))
            && (tag in s.records ==> s.records[tag].imageId == image.id)
  {
    RunKeepsInv(cfg, ss, steps, i);
    TornMeans(cfg, ss, steps, i);
    var s := ss[i];
    var tag := s.pcs[s.lock.tid].job.tag;
    assert ThreadOk(cfg, s, s.lock.tid) && TagOk(cfg, s, tag);
    OwnLabels(s.lock.found.value.labels, cfg.brokerId, AfterLastColon(tag));
  }

  /** What `reuse_built` decides: a tag that Docker lacks is forgotten and built; an image that carries the
      broker's three labels, and is the one on record if there is one, is recorded as used now; any other
      ends the call with the records as they were. */
  lemma ReusesOnlyItsOwn(cfg: Config, ss: seq<State>, steps: seq<Step>, i: nat)
    requires Run(cfg, ss, steps) && i < |steps| && steps[i].Building? && steps[i].build.Decide?
    ensures steps[i].t in ss[i].pcs && ss[i].pcs[steps[i].t].Reuse?
    ensures var s, s', t := ss[i], ss[i + 1], steps[i].t;
            var pc := s.pcs[t];
            var tag := pc.job.tag;
            if tag !in s.tags then
              && s'.records == s.records - {tag}
              && if tag in s.records then s'.lock.Saving? && s'.lock.next == Some(BuildGc(pc.job, pc.gate, false))
                 else s'.lock.Unlocked? && t in s'.pcs && s'.pcs[t] == BuildGc(pc.job, pc.gate, false)
            else if Carries(s.tags[tag].labels, cfg.brokerId, AfterLastColon(tag))
                    && (tag in s.records ==> s.records[tag].imageId == s.tags[tag].id) then
              && s'.records == s.records[tag := CachedImage(tag, s.tags[tag].id, Built, s.now)]
              && s'.lock.Saving? && s'.lock.next == Some(DropGate(pc.job, pc.gate))
            else
              && s'.records == s.records && s'.lock.Unlocked?
              && t in s'.pcs && s'.pcs[t] == DropGate(pc.job, pc.gate)
  {
    RunKeepsInv(cfg, ss, steps, i);
    var s, t := ss[i], steps[i].t;
    assert Next(cfg, s, steps[i], ss[i + 1]);
    assert ThreadOk(cfg, s, t) && HolderOk(s);
    var tag := s.pcs[t].job.tag;
    if tag in s.tags {
      OwnLabels(s.tags[tag].labels, cfg.brokerId, AfterLastColon(tag));
    } else {
      assert tag !in s.records ==> s.records - {tag} == s.records;
    }
  }

  /** The inventory has for every content tag the image that Docker has. */
  ghost predicate Agrees(cfg: Config, s: State) {
    forall tag | ContentTag(cfg, tag) && tag in s.tags && tag in s.records ::
      s.records[tag].imageId == s.tags[tag].id
  }

  lemma LoadKeepsDocker(cfg: Config, s: State, s': State)
    requires Next(cfg, s, Crash(true), s')
    ensures s'.records == s.disk && s'.tags == s.tags
  {
  }

  /** The condition is exact: a process that reads the file finds it in agreement with Docker if and
      only if it does not tear it. */
  lemma LoadAgreesUnlessTorn(cfg: Config, ss: seq<State>, steps: seq<Step>, i: nat)
    requires Run(cfg, ss, steps) && i < |steps| && steps[i] == Crash(true) && Untorn(ss, steps, i)
    ensures Agrees(cfg, ss[i + 1]) <==> !Tears(ss, steps, i)
  {
    RunKeepsInv(cfg, ss, steps, i);
    TornMeans(cfg, ss, steps, i);
    TearsMeans(cfg, ss, steps, i);
    LoadKeepsDocker(cfg, ss[i], ss[i + 1]);
    DraftsDisagree(cfg, ss[i], ss[i + 1]);
  }

  lemma DraftsDisagree(cfg: Config, s: State, s': State)
    requires !s.reading.torn && forall tag :: TagOk(cfg, s, tag)
    requires s'.records == s.disk && s'.tags == s.tags
    ensures Agrees(cfg, s') <==> s.reading.drafts == {}
  {
    if tag :| tag in s.reading.drafts {
      assert TagOk(cfg, s, tag);
      assert tag in s'.records && s'.records[tag].imageId != s'.tags[tag].id;
    } else {
      forall tag | ContentTag(cfg, tag) && tag in s'.tags && tag in s'.records
        ensures s'.records[tag].imageId == s'.tags[tag].id
      {
        assert TagOk(cfg, s, tag);
      }
    }
  }

  // ---------- Durability ----------

  /** Whenever the lock is free the file holds the inventory, unless this process could not read it and
      has saved nothing: then it has no records. */
  lemma SavedWhenUnlocked(cfg: Config, ss: seq<State>, steps: seq<Step>, i: nat)
    requires Run(cfg, ss, steps) && i <= |steps| && ss[i].lock.Unlocked?
    ensures if Unread(steps, i) then ss[i].records == map[] else ss[i].disk == ss[i].records
  {
    RunKeepsInv(cfg, ss, steps, i);
    UnreadMeans(cfg, ss, steps, i);
  }

  /** Memory and file change apart, and the file only by saving. */
  ghost predicate SavesOneChange(s: State, s': State) {
    || s'.disk == s'.records
    || (s'.disk == s.disk && s'.reading.unread)
    || (s'.disk == s.disk && !s.reading.unread && (s'.disk == s.records || s'.records == s.records))
  }

  lemma GcSavesOneChange(cfg: Config, s: State, t: Tid, act: GcAct, s': State)
    requires DiskOk(s) && At(s, t) && GcEnabled(cfg, s, t, act) && GcStep(cfg, s, t, act, s')
    ensures SavesOneChange(s, s')
  {
  }

  lemma BuildSavesOneChange(cfg: Config, s: State, t: Tid, act: BuildAct, s': State)
    requires DiskOk(s) && At(s, t) && BuildEnabled(s, t, act) && BuildStep(cfg, s, t, act, s')
    ensures SavesOneChange(s, s')
  {
  }

  lemma StepsSaveOneChange(cfg: Config, s: State, step: Step, s': State)
    requires DiskOk(s) && Next(cfg, s, step, s')
    ensures SavesOneChange(s, s')
  {
    if step.Gc? {
      GcSavesOneChange(cfg, s, step.t, step.gc, s');
    } else if step.Building? {
      BuildSavesOneChange(cfg, s, step.t, step.build, s');
    } else if step.Creating? {
      CreateSavesOneChange(cfg, s, step.t, step.create, s');
    }
  }

  lemma CreateSavesOneChange(cfg: Config, s: State, t: Tid, act: CreateAct, s': State)
    requires DiskOk(s) && At(s, t) && CreateEnabled(cfg, s, t, act) && CreateStep(cfg, s, t, act, s')
    ensures SavesOneChange(s, s')
  {
  }

  /** Since state `j` memory has been as it is in state `i`, and the lock has been held. */
  ghost predicate OneChangeSince(ss: seq<State>, j: nat, i: nat)
    requires j <= i < |ss|
  {
    forall k | j < k <= i :: ss[k].records == ss[i].records && !ss[k].lock.Unlocked?
  }

  ghost predicate Held(ss: seq<State>, j: nat, i: nat)
    requires j <= i < |ss|
  {
    ss[j].records == ss[i].disk && (!ss[i].reading.unread ==> OneChangeSince(ss, j, i))
  }

  /** In every state the file is one complete inventory that memory held.  Unless this process could not
      read it and has saved nothing, memory has changed at most once since, by an operation that still
      holds the lock. */
  lemma FileIsOneInventory(cfg: Config, ss: seq<State>, steps: seq<Step>, i: nat)
    requires Run(cfg, ss, steps) && i <= |steps|
    ensures exists j :: 0 <= j <= i && ss[j].records == ss[i].disk && (!Unread(steps, i) ==> OneChangeSince(ss, j, i))
  {
    forall k | 0 <= k <= i ensures DiskOk(ss[k]) {
      RunKeepsInv(cfg, ss, steps, k);
    }
    forall k | 0 <= k < i ensures SavesOneChange(ss[k], ss[k + 1]) {
      StepsSaveOneChange(cfg, ss[k], steps[k], ss[k + 1]);
    }
    StartsSaved(cfg, ss, steps);
    FileWasHeld(ss, i);
    UnreadMeans(cfg, ss, steps, i);
  }

  lemma {:induction false} FileWasHeld(ss: seq<State>, i: nat)
    requires i < |ss| && ss[0].disk == ss[0].records
    requires forall k | 0 <= k <= i :: DiskOk(ss[k])
    requires forall k | 0 <= k < i :: SavesOneChange(ss[k], ss[k + 1])
    ensures exists j :: 0 <= j <= i && Held(ss, j, i)
  {
    if ss[i].disk == ss[i].records {
      assert Held(ss, i, i);
    } else {
      assert DiskOk(ss[i]) && SavesOneChange(ss[i - 1], ss[i]);
      if ss[i].disk == ss[i - 1].records {
        assert Held(ss, i - 1, i);
      } else {
        FileWasHeld(ss, i - 1);
        var j :| 0 <= j <= i - 1 && Held(ss, j, i - 1);
        assert Held(ss, j, i);
      }
    }
  }
}
