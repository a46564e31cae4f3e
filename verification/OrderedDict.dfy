/** Insertion-ordered dictionaries.

The broker keeps its image inventory and its sandbox records in Python dictionaries, and what it
does with them depends on their order: the collector's sort is stable over it, and the sweep
deletes in it.  Overwriting a key keeps its place; a new key goes to the end. */
module OrderedDict {

  ghost predicate NoDuplicates<K>(s: seq<K>) {
    forall i {:trigger s[..i]} | 0 <= i < |s| :: s[i] !in s[..i]
  }

  lemma AllDifferent<K>(s: seq<K>)
    requires NoDuplicates(s)
    ensures forall i, j | 0 <= i < j < |s| :: s[i] != s[j]
  {
    forall i, j | 0 <= i < j < |s| ensures s[i] != s[j] {
      assert s[..j][i] == s[i];
    }
  }

  lemma NoDuplicatesAppend<K>(s: seq<K>, k: K)
    requires NoDuplicates(s) && k !in s
    ensures NoDuplicates(s + [k])
  {
    forall i | 0 <= i < |s + [k]| ensures (s + [k])[i] !in (s + [k])[..i] {
      assert (s + [k])[..i] == s[..i];
    }
  }

  lemma NoDuplicatesPrefix<K>(s: seq<K>, n: nat)
    requires NoDuplicates(s) && n <= |s|
    ensures NoDuplicates(s[..n])
  {
    forall i | 0 <= i < n ensures s[..n][i] !in s[..n][..i] {
      assert s[..n][..i] == s[..i];
    }
  }

  /** The elements of `s` outside `ks`, in order. */
  function Filtered<K(==)>(s: seq<K>, ks: set<K>): seq<K> {
    if s == [] then []
    else if s[|s| - 1] in ks then Filtered(s[..|s| - 1], ks)
    else Filtered(s[..|s| - 1], ks) + [s[|s| - 1]]
  }

  lemma {:induction false} FilteredKeepsTheRest<K(!new)>(s: seq<K>, ks: set<K>)
    ensures forall k :: k in Filtered(s, ks) <==> k in s && k !in ks
    ensures NoDuplicates(s) ==> NoDuplicates(Filtered(s, ks))
  {
    if s != [] {
      var init, last := s[..|s| - 1], s[|s| - 1];
      FilteredKeepsTheRest(init, ks);
      assert forall k :: k in s <==> k in init || k == last;
      if NoDuplicates(s) {
        NoDuplicatesPrefix(s, |s| - 1);
        if last !in ks {
          NoDuplicatesAppend(Filtered(init, ks), last);
        }
      }
    }
  }

  lemma {:induction false} FilteredTwice<K(!new)>(s: seq<K>, a: set<K>, b: set<K>)
    ensures Filtered(Filtered(s, a), b) == Filtered(s, a + b)
  {
    if s != [] {
      var init, last := s[..|s| - 1], s[|s| - 1];
      FilteredTwice(init, a, b);
      if last !in a {
        assert (Filtered(init, a) + [last])[..|Filtered(init, a)|] == Filtered(init, a);
      }
    }
  }

  lemma {:induction false} FilteredNothing<K(!new)>(s: seq<K>, ks: set<K>)
    requires forall k | k in s :: k !in ks
    ensures Filtered(s, ks) == s
  {
    if s != [] {
      FilteredNothing(s[..|s| - 1], ks);
      assert s[..|s| - 1] + [s[|s| - 1]] == s;
    }
  }

  datatype Table<K(==, !new), V> = Table(order: seq<K>, entry: map<K, V>)

  ghost predicate Consistent<K(!new), V>(t: Table<K, V>) {
    && NoDuplicates(t.order)
    && (forall i | 0 <= i < |t.order| :: t.order[i] in t.entry)
    && (forall k {:trigger k in t.order} | k in t.entry :: k in t.order)
  }

  /** A dictionary: every key has one place in the order. */
  type Dict<K(==, !new), V> = t: Table<K, V> | Consistent(t) witness Table([], map[])

  function Empty<K(==, !new), V>(): Dict<K, V> {
    Table([], map[])
  }

  /** `d[k] = v` */
  function Put<K(==, !new), V>(d: Dict<K, V>, k: K, v: V): (r: Dict<K, V>)
    ensures r.entry == d.entry[k := v]
    ensures d.order <= r.order
  {
    if k in d.entry then Table(d.order, d.entry[k := v])
    else
      NoDuplicatesAppend(d.order, k);
      Table(d.order + [k], d.entry[k := v])
  }

  /** Every key of `ks` popped. */
  function Without<K(==, !new), V>(d: Dict<K, V>, ks: set<K>): (r: Dict<K, V>)
    ensures r.entry == d.entry - ks
  {
    FilteredKeepsTheRest(d.order, ks);
    assert forall k | k in d.order :: k in d.entry;
    Table(Filtered(d.order, ks), d.entry - ks)
  }

  lemma WithoutTwice<K(!new), V>(d: Dict<K, V>, a: set<K>, b: set<K>)
    ensures Without(Without(d, a), b) == Without(d, a + b)
  {
    FilteredTwice(d.order, a, b);
    assert d.entry - a - b == d.entry - (a + b);
  }

  lemma WithoutNothing<K(!new), V>(d: Dict<K, V>, ks: set<K>)
    requires ks !! d.entry.Keys
    ensures Without(d, ks) == d
  {
    FilteredNothing(d.order, ks);
    assert d.entry - ks == d.entry;
  }

  /** `d.values()` */
  function Values<K(==, !new), V>(d: Dict<K, V>): (r: seq<V>)
    ensures |r| == |d.order|
    ensures forall i | 0 <= i < |r| :: r[i] == d.entry[d.order[i]]
  {
    seq(|d.order|, i requires 0 <= i < |d.order| => d.entry[d.order[i]])
  }
}
