/** The image inventory: its records, the order the collector visits them in, and its file. */
module Inventory {
  import opened OrderedDict

  type Ref = string
  type ImageId = string
  type Time = int

  datatype Origin = Built | Pulled

  datatype CachedImage = CachedImage(reference: Ref, imageId: ImageId, origin: Origin, lastUsed: Time)

  ghost predicate Keyed(d: Dict<Ref, CachedImage>) {
    forall ref | ref in d.entry :: d.entry[ref].reference == ref
  }

  /** The dictionary of records, each stored under its own reference. */
  type Images = d: Dict<Ref, CachedImage> | Keyed(d) witness Table([], map[])

  const NOTHING: Images := Table([], map[])

  function Store(images: Images, record: CachedImage): (r: Images)
    ensures r.entry == images.entry[record.reference := record]
  {
    Put(images, record.reference, record)
  }

  function Forget(images: Images, ref: Ref): (r: Images)
    ensures r.entry == images.entry - {ref}
  {
    Without(images, {ref})
  }

  /** The last use of a stored record moved to `now`: it keeps its place. */
  function Refresh(images: Images, ref: Ref, now: Time): (r: Images)
    requires ref in images.entry
    ensures r.order == images.order && r.entry.Keys == images.entry.Keys
    ensures forall other | other in r.entry && other != ref :: r.entry[other] == images.entry[other]
    ensures r.entry[ref] == CachedImage(ref, images.entry[ref].imageId, images.entry[ref].origin, now)
  {
    Store(images, CachedImage(ref, images.entry[ref].imageId, images.entry[ref].origin, now))
  }

  lemma EmptyInventory(images: Images)
    ensures |images.order| == 0 <==> images.entry == map[]
  {
    if |images.order| > 0 {
      assert images.order[0] in images.entry;
    } else {
      assert forall ref :: ref in images.entry ==> ref in images.order;
    }
  }

  // ---------- Collection order ----------

  /** `record` placed after everything used no later than it. */
  function InsertByUse(sorted: seq<CachedImage>, record: CachedImage): (r: seq<CachedImage>)
    ensures |r| == |sorted| + 1
  {
    if sorted == [] || sorted[|sorted| - 1].lastUsed <= record.lastUsed then sorted + [record]
    else InsertByUse(sorted[..|sorted| - 1], record) + [sorted[|sorted| - 1]]
  }

  /** Python's stable `sorted(..., key=last_used_at)`. */
  function SortedByUse(records: seq<CachedImage>): (r: seq<CachedImage>)
    ensures |r| == |records|
  {
    if records == [] then []
    else InsertByUse(SortedByUse(records[..|records| - 1]), records[|records| - 1])
  }

  predicate InUseOrder(s: seq<CachedImage>) {
    forall i, j | 0 <= i < j < |s| :: s[i].lastUsed <= s[j].lastUsed
  }

  predicate DistinctReferences(s: seq<CachedImage>) {
    forall i, j | 0 <= i < j < |s| :: s[i].reference != s[j].reference
  }

  /** The records last used at instant `at`, in order. */
  ghost function UsedAt(s: seq<CachedImage>, at: Time): seq<CachedImage> {
    if s == [] then []
    else UsedAt(s[..|s| - 1], at) + (if s[|s| - 1].lastUsed == at then [s[|s| - 1]] else [])
  }

  lemma {:induction false} InsertByUseAdds(s: seq<CachedImage>, record: CachedImage)
    ensures forall x :: x in InsertByUse(s, record) <==> x in s || x == record
  {
    if s != [] && s[|s| - 1].lastUsed > record.lastUsed {
      InsertByUseAdds(s[..|s| - 1], record);
      assert forall x :: x in s <==> x in s[..|s| - 1] || x == s[|s| - 1];
    }
  }

  lemma {:induction false} SortedByUseKeepsAll(s: seq<CachedImage>)
    ensures forall x :: x in SortedByUse(s) <==> x in s
  {
    if s != [] {
      SortedByUseKeepsAll(s[..|s| - 1]);
      InsertByUseAdds(SortedByUse(s[..|s| - 1]), s[|s| - 1]);
      assert forall x :: x in s <==> x in s[..|s| - 1] || x == s[|s| - 1];
    }
  }

  lemma {:induction false} InsertByUseSorts(s: seq<CachedImage>, record: CachedImage)
    requires InUseOrder(s)
    ensures InUseOrder(InsertByUse(s, record))
  {
    if s != [] && s[|s| - 1].lastUsed > record.lastUsed {
      var init := s[..|s| - 1];
      InsertByUseSorts(init, record);
      InsertByUseAdds(init, record);
      assert forall x | x in InsertByUse(init, record) :: x.lastUsed <= s[|s| - 1].lastUsed;
    }
  }

  lemma {:induction false} InsertByUseDistinct(s: seq<CachedImage>, record: CachedImage)
    requires DistinctReferences(s) && forall x | x in s :: x.reference != record.reference
    ensures DistinctReferences(InsertByUse(s, record))
  {
    if s != [] && s[|s| - 1].lastUsed > record.lastUsed {
      var init := s[..|s| - 1];
      InsertByUseDistinct(init, record);
      InsertByUseAdds(init, record);
      assert forall x | x in InsertByUse(init, record) :: x.reference != s[|s| - 1].reference;
    }
  }

  lemma {:induction false} InsertByUseStable(s: seq<CachedImage>, record: CachedImage, at: Time)
    requires InUseOrder(s)
    ensures UsedAt(InsertByUse(s, record), at) == UsedAt(s + [record], at)
  {
    assert (s + [record])[..|s|] == s;
    if s != [] && s[|s| - 1].lastUsed > record.lastUsed {
      var init, last := s[..|s| - 1], s[|s| - 1];
      var r := InsertByUse(init, record);
      InsertByUseStable(init, record, at);
      assert (init + [record])[..|init|] == init;
      assert (r + [last])[..|r|] == r;
    }
  }

  /** The visiting order has the oldest use first, and for every instant it holds exactly the
      records used then, in dictionary order: it is a permutation of the input, and stable. */
  lemma {:induction false} SortedByUseIsStableSort(s: seq<CachedImage>)
    ensures InUseOrder(SortedByUse(s))
    ensures forall at :: UsedAt(SortedByUse(s), at) == UsedAt(s, at)
    ensures DistinctReferences(s) ==> DistinctReferences(SortedByUse(s))
  {
    if s != [] {
      var init, last := s[..|s| - 1], s[|s| - 1];
      var sorted := SortedByUse(init);
      SortedByUseIsStableSort(init);
      InsertByUseSorts(sorted, last);
      forall at ensures UsedAt(SortedByUse(s), at) == UsedAt(s, at) {
        InsertByUseStable(sorted, last, at);
        assert (sorted + [last])[..|sorted|] == sorted;
      }
      if DistinctReferences(s) {
        SortedByUseKeepsAll(init);
        InsertByUseDistinct(sorted, last);
      }
    }
  }

  /** What the collector visits. */
  function Visits(images: Images): seq<CachedImage> {
    SortedByUse(Values(images))
  }

  lemma ValuesAreStored(images: Images)
    ensures DistinctReferences(Values(images))
    ensures forall r: CachedImage ::
              r in Values(images) <==> r.reference in images.entry && images.entry[r.reference] == r
  {
    var values := Values(images);
    AllDifferent(images.order);
    forall r | r in values ensures r.reference in images.entry && images.entry[r.reference] == r {
      var k :| 0 <= k < |values| && values[k] == r;
      assert images.order[k] in images.order;
    }
    forall r: CachedImage | r.reference in images.entry && images.entry[r.reference] == r ensures r in values {
      assert r.reference in images.order;
      var i :| 0 <= i < |images.order| && images.order[i] == r.reference;
      assert values[i] == r;
    }
    forall i, j | 0 <= i < j < |values| ensures values[i].reference != values[j].reference {
      assert images.order[i] in images.order && images.order[j] in images.order;
    }
  }

  /** Each record of the inventory is visited exactly once, oldest use first. */
  lemma VisitsEachRecordOnce(images: Images)
    ensures DistinctReferences(Visits(images)) && InUseOrder(Visits(images))
    ensures forall r: CachedImage ::
              r in Visits(images) <==> r.reference in images.entry && images.entry[r.reference] == r
  {
    ValuesAreStored(images);
    SortedByUseIsStableSort(Values(images));
    SortedByUseKeepsAll(Values(images));
  }

  // ---------- The inventory file ----------

  /** The records written to the file, in dictionary order. */
  function Saved(images: Images): seq<CachedImage> {
    Values(images)
  }

  /** The dictionary read back from a file: a repeated reference keeps its first place and its
      last record. */
  function Loaded(file: seq<CachedImage>): Images {
    if file == [] then NOTHING else Store(Loaded(file[..|file| - 1]), file[|file| - 1])
  }

  lemma {:induction false} LoadedPrefix(images: Images, n: nat)
    requires n <= |images.order|
    ensures Loaded(Saved(images)[..n]).order == images.order[..n]
    ensures forall ref :: ref in Loaded(Saved(images)[..n]).entry <==> ref in images.order[..n]
    ensures forall ref | ref in images.order[..n] ::
              Loaded(Saved(images)[..n]).entry[ref] == images.entry[ref]
  {
    if n > 0 {
      var file := Saved(images);
      LoadedPrefix(images, n - 1);
      assert file[..n][..n - 1] == file[..n - 1];
      assert images.order[..n] == images.order[..n - 1] + [images.order[n - 1]];
    }
  }

  /** Loading what was saved returns the same records in the same order. */
  lemma LoadAfterSave(images: Images)
    ensures Loaded(Saved(images)) == images
  {
    LoadedPrefix(images, |images.order|);
    assert Saved(images)[..|images.order|] == Saved(images);
    assert images.order[..|images.order|] == images.order;
    assert Loaded(Saved(images)).entry == images.entry;
  }

  /** For any file, well formed or not, loading keeps for each reference its last record. */
  lemma {:induction false} LoadedKeepsTheLast(file: seq<CachedImage>, i: nat)
    requires i < |file|
    requires forall j | i < j < |file| :: file[j].reference != file[i].reference
    ensures file[i].reference in Loaded(file).entry && Loaded(file).entry[file[i].reference] == file[i]
  {
    if i < |file| - 1 {
      LoadedKeepsTheLast(file[..|file| - 1], i);
    }
  }
}
