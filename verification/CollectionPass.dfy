/** What one collection is to remove, stated without its loop. */
module CollectionPass {
  import opened Inventory
  import opened CacheKey
  import CacheProtocol

  type Image = CacheProtocol.Image

  /** Everything a collection goes by: the records in visiting order, what protects them, and what
      the clock, Docker and the disk answer. */
  datatype Pass = Pass(
    visits: seq<CachedImage>,
    gated: set<Ref>,                 // references with a build gate
    minAge: int,
    clock: nat -> Time,              // when the i-th record is looked at
    tags: map<Ref, Image>,           // what Docker has
    active: set<ImageId>,            // images of containers, and reserved ones
    uninspectable: set<Ref>,         // Docker fails to answer
    stuck: set<Ref>,                 // Docker fails to remove
    first: int,                      // free bytes before
    readings: nat -> Option<int>,    // free bytes read after the k-th removal
    target: int,
    emergency: bool)

  datatype Verdict = Keep | Drop | Remove

  /** A record is dropped if Docker does not have its image under its reference any more. */
  function Judge(p: Pass, i: nat): Verdict
    requires i < |p.visits|
  {
    var r := p.visits[i];
    Judged(r, r.reference in p.gated || p.clock(i) - r.lastUsed < p.minAge || r.reference in p.uninspectable,
           p.tags, r.imageId in p.active || r.reference in p.stuck)
  }

  function Judged(r: CachedImage, passedOver: bool, tags: map<Ref, Image>, spared: bool): Verdict {
    if passedOver then Keep
    else if r.reference !in tags || tags[r.reference].id != r.imageId then Drop
    else if spared then Keep
    else Remove
  }

  /** The eligible references among the first `n` visited, in visiting order. */
  function Eligible(p: Pass, n: nat): (refs: seq<Ref>)
    requires n <= |p.visits|
    ensures |refs| <= n
  {
    if n == 0 then []
    else if Judge(p, n - 1).Remove? then Eligible(p, n - 1) + [p.visits[n - 1].reference]
    else Eligible(p, n - 1)
  }

  /** The references forgotten while the first `n` records are visited. */
  function Gone(p: Pass, n: nat): set<Ref>
    requires n <= |p.visits|
  {
    if n == 0 then {}
    else if Judge(p, n - 1).Keep? then Gone(p, n - 1)
    else Gone(p, n - 1) + {p.visits[n - 1].reference}
  }

  /** Docker's tags once the first `n` records are visited. */
  function Left(p: Pass, n: nat): map<Ref, Image>
    requires n <= |p.visits|
  {
    p.tags - (set ref | ref in Eligible(p, n))
  }

  lemma LeftNext(p: Pass, n: nat)
    requires n < |p.visits|
    ensures Left(p, n + 1) == if Judge(p, n).Remove? then Left(p, n) - {p.visits[n].reference} else Left(p, n)
  {
    var ref, removed := p.visits[n].reference, Eligible(p, n);
    assert (set x | x in removed + [ref]) == (set x | x in removed) + {ref};
  }

  /** Free bytes as known after `k` removals: a failed reading leaves the last one. */
  function Free(p: Pass, k: nat): int {
    if k == 0 then p.first else if p.readings(k).Some? then p.readings(k).value else Free(p, k - 1)
  }

  /** It is what the last reading that succeeded gave. */
  lemma {:induction false} FreeIsTheLastReading(p: Pass, k: nat) returns (j: nat)
    ensures j <= k
    ensures if j == 0 then Free(p, k) == p.first else p.readings(j) == Some(Free(p, k))
    ensures forall m: nat | j < m <= k :: p.readings(m).None?
  {
    if k > 0 && p.readings(k).None? {
      j := FreeIsTheLastReading(p, k - 1);
    } else {
      j := k;
    }
  }

  /** Whether `k` removals are enough. */
  predicate Enough(p: Pass, k: nat) {
    Free(p, k) >= p.target && (p.emergency ==> k > 0)
  }

  /** The number of records visited: as few as leave enough removed, or all. */
  ghost predicate StopsAt(p: Pass, n: nat) {
    && n <= |p.visits|
    && (n == |p.visits| || Enough(p, |Eligible(p, n)|))
    && forall m | 0 <= m < n :: !Enough(p, |Eligible(p, m)|)
  }

  /** Visiting the first `n` records, none was reached with enough removed. */
  ghost predicate Wanting(p: Pass, n: nat)
    requires n <= |p.visits|
  {
    n == 0 || (!Enough(p, |Eligible(p, n - 1)|) && Wanting(p, n - 1))
  }

  lemma {:induction false} WantingAll(p: Pass, n: nat)
    requires n <= |p.visits| && Wanting(p, n)
    ensures forall m | 0 <= m < n :: !Enough(p, |Eligible(p, m)|)
  {
    if n > 0 {
      WantingAll(p, n - 1);
    }
  }

  /** The loop's variables after `n` turns. */
  ghost predicate Tally(p: Pass, n: nat, removed: seq<Ref>, free: int, mustRemoveOne: bool)
    requires n <= |p.visits|
  {
    && removed == Eligible(p, n) && free == Free(p, |removed|) && Wanting(p, n)
    && (mustRemoveOne <==> p.emergency && removed == [])
  }

  lemma TallyNext(p: Pass, n: nat, removed: seq<Ref>, free: int, mustRemoveOne: bool)
    requires n < |p.visits| && Tally(p, n, removed, free, mustRemoveOne)
    requires !(free >= p.target && !mustRemoveOne)
    ensures var reading := p.readings(|removed| + 1);
            if Judge(p, n).Remove? then
              Tally(p, n + 1, removed + [p.visits[n].reference], if reading.Some? then reading.value else free, false)
            else Tally(p, n + 1, removed, free, mustRemoveOne)
  {
  }

  lemma TallyStops(p: Pass, n: nat, removed: seq<Ref>, free: int, mustRemoveOne: bool)
    requires n <= |p.visits| && Tally(p, n, removed, free, mustRemoveOne)
    requires n == |p.visits| || (free >= p.target && !mustRemoveOne)
    ensures StopsAt(p, n)
  {
    WantingAll(p, n);
  }

  lemma {:induction false} EligiblePrefix(p: Pass, m: nat, n: nat)
    requires m <= n <= |p.visits|
    ensures Eligible(p, m) <= Eligible(p, n)
    decreases n
  {
    if m < n {
      EligiblePrefix(p, m, n - 1);
    }
  }

  lemma {:induction false} EligibleOneByOne(p: Pass, n: nat, k: nat)
    requires n <= |p.visits| && k < |Eligible(p, n)|
    ensures exists m :: 0 <= m < n && |Eligible(p, m)| == k
  {
    if k < |Eligible(p, n - 1)| {
      EligibleOneByOne(p, n - 1, k);
    } else {
      assert |Eligible(p, n - 1)| == k;
    }
  }

  lemma {:induction false} EligibleAt(p: Pass, n: nat, ref: Ref)
    requires n <= |p.visits|
    ensures ref in Eligible(p, n) <==> exists i :: 0 <= i < n && Judge(p, i).Remove? && p.visits[i].reference == ref
  {
    if n > 0 {
      EligibleAt(p, n - 1, ref);
    }
  }

  lemma {:induction false} GoneAt(p: Pass, n: nat, ref: Ref)
    requires n <= |p.visits|
    ensures ref in Gone(p, n) <==> exists i :: 0 <= i < n && !Judge(p, i).Keep? && p.visits[i].reference == ref
  {
    if n > 0 {
      GoneAt(p, n - 1, ref);
    }
  }

  /** The shortest prefix of all the eligible references that is enough, or all of them if none is. */
  ghost predicate Shortest(p: Pass, refs: seq<Ref>) {
    && refs <= Eligible(p, |p.visits|)
    && (Enough(p, |refs|) || refs == Eligible(p, |p.visits|))
    && forall k | 0 <= k < |refs| :: !Enough(p, k)
  }

  lemma EligibleIsShortest(p: Pass, n: nat, refs: seq<Ref>)
    requires StopsAt(p, n)
    ensures Shortest(p, refs) <==> refs == Eligible(p, n)
  {
    var removed := Eligible(p, n);
    EligiblePrefix(p, n, |p.visits|);
    forall k | 0 <= k < |removed| ensures !Enough(p, k) {
      EligibleOneByOne(p, n, k);
    }
  }

  /** What a collection removes is that prefix: its removal leaves the target free, with at least one gone
      in an emergency, or takes all there is, while no shorter one does. */
  lemma RemovesShortestPrefix(p: Pass, n: nat)
    requires StopsAt(p, n)
    ensures var removed, all := Eligible(p, n), Eligible(p, |p.visits|);
            && removed <= all
            && (removed == all || (Free(p, |removed|) >= p.target && (p.emergency ==> removed != [])))
            && forall k | 0 <= k < |removed| :: Free(p, k) < p.target || (p.emergency && k == 0)
  {
    EligibleIsShortest(p, n, Eligible(p, n));
    forall k | 0 <= k < |Eligible(p, n)| ensures Free(p, k) < p.target || (p.emergency && k == 0) {
      assert !Enough(p, k);
    }
  }

  /** These conditions determine it. */
  lemma ShortestPrefixIsRemoved(p: Pass, n: nat, refs: seq<Ref>)
    requires StopsAt(p, n) && refs <= Eligible(p, |p.visits|)
    requires refs == Eligible(p, |p.visits|) || (Free(p, |refs|) >= p.target && (p.emergency ==> refs != []))
    requires forall k | 0 <= k < |refs| :: Free(p, k) < p.target || (p.emergency && k == 0)
    ensures refs == Eligible(p, n)
  {
    forall k | 0 <= k < |refs| ensures !Enough(p, k) {
      assert Free(p, k) < p.target || (p.emergency && k == 0);
    }
    EligibleIsShortest(p, n, refs);
  }

  /** Which of the first `n` records visited are removed: those without a gate, past the minimum age,
      inspected, still in Docker as recorded, not active, and not stuck. */
  lemma EligibleMeans(p: Pass, n: nat, ref: Ref)
    requires n <= |p.visits|
    ensures ref in Eligible(p, n) <==>
              exists i :: 0 <= i < n && p.visits[i].reference == ref && ref !in p.gated
                          && p.clock(i) - p.visits[i].lastUsed >= p.minAge && ref !in p.uninspectable
                          && ref in p.tags && p.tags[ref].id == p.visits[i].imageId
                          && p.visits[i].imageId !in p.active && ref !in p.stuck
  {
    EligibleAt(p, n, ref);
  }

  /** Which are forgotten: those removed, and those without a gate, past the minimum age and inspected that
      Docker does not have as recorded. */
  lemma GoneMeans(p: Pass, n: nat, ref: Ref)
    requires n <= |p.visits|
    ensures ref in Gone(p, n) <==>
              exists i :: 0 <= i < n && p.visits[i].reference == ref && ref !in p.gated
                          && p.clock(i) - p.visits[i].lastUsed >= p.minAge && ref !in p.uninspectable
                          && (ref !in p.tags || p.tags[ref].id != p.visits[i].imageId
                              || (p.visits[i].imageId !in p.active && ref !in p.stuck))
  {
    GoneAt(p, n, ref);
  }

  /** No eligible record is kept while a more recently used one is removed. */
  lemma OldestGoFirst(p: Pass, n: nat, i: nat, j: nat)
    requires StopsAt(p, n) && InUseOrder(p.visits) && DistinctReferences(p.visits)
    requires i < |p.visits| && j < |p.visits| && Judge(p, i).Remove? && Judge(p, j).Remove?
    requires p.visits[i].reference !in Eligible(p, n) && p.visits[j].reference in Eligible(p, n)
    ensures j < i && p.visits[j].lastUsed <= p.visits[i].lastUsed
  {
    EligibleAt(p, n, p.visits[i].reference);
    EligibleAt(p, n, p.visits[j].reference);
  }

  /** An emergency collection, and with a target no lower than the threshold that triggers one also
      any other, removes something if anything is eligible. */
  lemma RemovesSomething(p: Pass, n: nat, minFree: int)
    requires StopsAt(p, n) && Eligible(p, |p.visits|) != []
    requires p.emergency || (p.first < minFree && minFree <= p.target)
    ensures Eligible(p, n) != []
  {
    EligibleIsShortest(p, n, Eligible(p, n));
  }

  lemma {:induction false} EligibleInUseOrder(p: Pass, n: nat, a: nat, b: nat) returns (i: nat, j: nat)
    requires n <= |p.visits| && a < b < |Eligible(p, n)|
    ensures i < j < n && p.visits[i].reference == Eligible(p, n)[a] && p.visits[j].reference == Eligible(p, n)[b]
  {
    if b < |Eligible(p, n - 1)| {
      i, j := EligibleInUseOrder(p, n - 1, a, b);
    } else {
      j := n - 1;
      EligibleAt(p, n - 1, Eligible(p, n - 1)[a]);
      i :| 0 <= i < n - 1 && Judge(p, i).Remove? && p.visits[i].reference == Eligible(p, n - 1)[a];
    }
  }

  /** A record that nothing speaks for stays only if enough is removed without it, and only if it was
      used no earlier than what is removed. */
  lemma StaysOnlyIfEnough(p: Pass, n: nat, i: nat)
    requires StopsAt(p, n) && InUseOrder(p.visits) && DistinctReferences(p.visits)
    requires i < |p.visits| && Judge(p, i).Remove? && p.visits[i].reference !in Eligible(p, n)
    ensures Free(p, |Eligible(p, n)|) >= p.target && (p.emergency ==> Eligible(p, n) != [])
    ensures forall j | 0 <= j < n && Judge(p, j).Remove? :: p.visits[j].lastUsed <= p.visits[i].lastUsed
  {
    EligibleAt(p, n, p.visits[i].reference);
  }
}
