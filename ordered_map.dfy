/**
 * java.util.LinkedHashMap as a sequence of (key, value) entries in insertion
 * order with at most one entry per key: `put` on a present key replaces the
 * value in its slot, `put` on a new key appends an entry at the end.
 */
module OrderedMap {
  import opened Wrappers

  type OMap<K, V> = seq<(K, V)>

  /** The first i elements of the first i + 1 are the first i. */
  lemma PrefixOfPrefix<T>(s: seq<T>, i: nat)
    requires i < |s|
    ensures s[..i + 1][..i] == s[..i]
  {
  }

  /** Dropping the last element of a + b drops it from b. */
  lemma DropLastOfAppend<T>(a: seq<T>, b: seq<T>)
    requires b != []
    ensures (a + b)[..|a + b| - 1] == a + b[..|b| - 1] && (a + b)[|a + b| - 1] == b[|b| - 1]
  {
  }

  /** The prefix as long as the sequence is the sequence. */
  lemma WholePrefix<T>(s: seq<T>, i: nat)
    requires i == |s|
    ensures s[..i] == s
  {
  }

  /** Concatenation is associative. */
  lemma AppendAssoc<T>(a: seq<T>, b: seq<T>, c: seq<T>)
    ensures (a + b) + c == a + (b + c)
  {
  }

  function Keys<K, V>(m: OMap<K, V>): seq<K> {
    seq(|m|, i requires 0 <= i < |m| => m[i].0)
  }

  function Values<K, V>(m: OMap<K, V>): seq<V> {
    seq(|m|, i requires 0 <= i < |m| => m[i].1)
  }

  /** No element occurs twice. */
  predicate NoDup<T(==)>(s: seq<T>) {
    forall i, j :: 0 <= i < j < |s| ==> s[i] != s[j]
  }

  /** The map invariant: one entry per key. */
  predicate Valid<K(==), V>(m: OMap<K, V>) {
    NoDup(Keys(m))
  }

  /** The position of the first occurrence of x in s, if any. */
  function IndexOf<T(==)>(s: seq<T>, x: T): (r: Option<nat>)
    ensures r.Some? ==> r.value < |s| && s[r.value] == x
    ensures r.Some? ==> forall j :: 0 <= j < r.value ==> s[j] != x
    ensures r.None? <==> x !in s
    decreases |s|
  {
    if s == [] then None
    else if s[0] == x then Some(0)
    else match IndexOf(s[1..], x)
      case None => None
      case Some(i) => Some(i + 1)
  }

  /** Appending y leaves the first occurrence of every element already present where it was. */
  lemma {:induction false} IndexOfAppend<T>(s: seq<T>, y: T, x: T)
    ensures IndexOf(s + [y], x) == if x in s then IndexOf(s, x) else if x == y then Some(|s|) else None
    decreases |s|
  {
    if s != [] && s[0] != x {
      assert (s + [y])[1..] == s[1..] + [y];
      IndexOfAppend(s[1..], y, x);
      assert x in s <==> x in s[1..];
    }
  }

  /** Map.get: the value stored under k, None when k is absent. */
  function Get<K(==), V>(m: OMap<K, V>, k: K): (r: Option<V>)
    ensures r.Some? <==> k in Keys(m)
    ensures r.Some? ==> (k, r.value) in m
  {
    match IndexOf(Keys(m), k)
    case None => None
    case Some(i) => Some(m[i].1)
  }

  /** In a valid map, the entry at position i is the one Get finds for its key. */
  lemma GetAt<K, V>(m: OMap<K, V>, i: nat)
    requires Valid(m) && i < |m|
    ensures Get(m, m[i].0) == Some(m[i].1)
  {
    assert Keys(m)[i] == m[i].0;
    var j := IndexOf(Keys(m), m[i].0).value;
    assert Keys(m)[i] == m[i].0;
  }

  /** Map.put: replace the value in place when k is present, otherwise append (k, v). */
  function Put<K(==,!new), V>(m: OMap<K, V>, k: K, v: V): (r: OMap<K, V>)
    ensures k in Keys(m) ==> Keys(r) == Keys(m)
    ensures k !in Keys(m) ==> Keys(r) == Keys(m) + [k]
    ensures Get(r, k) == Some(v)
    ensures forall k' :: k' != k ==> Get(r, k') == Get(m, k')
    ensures Valid(m) ==> Valid(r)
    ensures k !in Keys(m) ==> r == m + [(k, v)]
    ensures Valid(m) && k in Keys(m) ==> |r| == |m| && forall j :: 0 <= j < |m| ==> r[j] == if m[j].0 == k then (k, v) else m[j]
  {
    match IndexOf(Keys(m), k)
    case Some(i) =>
      var r := m[i := (k, v)];
      assert Keys(r) == Keys(m);
      assert Valid(m) ==> forall j :: 0 <= j < |m| ==> r[j] == if m[j].0 == k then (k, v) else m[j] by {
        if Valid(m) {
          forall j | 0 <= j < |m| ensures r[j] == if m[j].0 == k then (k, v) else m[j] {
            if j != i { assert Keys(m)[j] != Keys(m)[i]; }
          }
        }
      }
      r
    case None =>
      var r := m + [(k, v)];
      assert Keys(r) == Keys(m) + [k];
      forall k' ensures IndexOf(Keys(r), k') == if k' in Keys(m) then IndexOf(Keys(m), k') else if k' == k then Some(|m|) else None {
        IndexOfAppend(Keys(m), k, k');
      }
      r
  }

  /** Putting the value a key already has changes nothing. */
  lemma PutSame<K(!new), V>(m: OMap<K, V>, k: K, v: V)
    requires Valid(m) && Get(m, k) == Some(v)
    ensures Put(m, k, v) == m
  {
    var r := Put(m, k, v);
    forall j | 0 <= j < |m| ensures r[j] == m[j] {
      if m[j].0 == k {
        GetAt(m, j);
      }
    }
  }

  /** A second put of the same key overwrites the first one in its slot (computeIfAbsent followed by put). */
  lemma PutTwice<K(!new), V>(m: OMap<K, V>, k: K, a: V, b: V)
    requires Valid(m)
    ensures Put(Put(m, k, a), k, b) == Put(m, k, b)
  {
    var once := Put(m, k, a);
    if k !in Keys(m) {
      forall j | 0 <= j < |m| ensures m[j].0 != k {
        assert Keys(m)[j] == m[j].0;
      }
      assert Put(once, k, b) == m + [(k, b)];
    }
  }

  /** In a valid map no entry's key occurs before it. */
  lemma KeyNotBefore<K, V>(m: OMap<K, V>, i: nat)
    requires Valid(m) && i < |m|
    ensures m[i].0 !in Keys(m[..i])
  {
    forall j | 0 <= j < i ensures Keys(m[..i])[j] != m[i].0 {
      assert Keys(m[..i])[j] == Keys(m)[j] && m[i].0 == Keys(m)[i];
    }
  }

  /**
   * Building a map whose keys follow those of a valid map src, entry by
   * entry: putting the key of src's next entry appends it.
   */
  lemma PutNextKey<K(!new), V, W>(m: OMap<K, V>, src: OMap<K, W>, i: nat, v: V)
    requires Valid(src) && i < |src|
    requires |m| == i && forall j :: 0 <= j < i ==> m[j].0 == src[j].0
    ensures Put(m, src[i].0, v) == m + [(src[i].0, v)]
  {
    KeyNotBefore(src, i);
    assert Keys(m) == Keys(src[..i]);
  }

  /** A LinkedHashMap after putting the entries one by one. */
  function PutAll<K(==,!new), V>(entries: seq<(K, V)>): OMap<K, V>
    decreases |entries|
  {
    if entries == [] then [] else Put(PutAll(entries[..|entries| - 1]), entries[|entries| - 1].0, entries[|entries| - 1].1)
  }

  /** One more put: the map after the first i + 1 entries. */
  lemma PutAllStep<K(!new), V>(entries: seq<(K, V)>, i: nat)
    requires i < |entries|
    ensures PutAll(entries[..i + 1]) == Put(PutAll(entries[..i]), entries[i].0, entries[i].1)
  {
    PrefixOfPrefix(entries, i);
  }

  /** The value of the last entry with key k. */
  function LastValue<K(==), V>(entries: seq<(K, V)>, k: K): Option<V>
    decreases |entries|
  {
    if entries == [] then None
    else if entries[|entries| - 1].0 == k then Some(entries[|entries| - 1].1)
    else LastValue(entries[..|entries| - 1], k)
  }

  /** The elements of s in the order of their first occurrence, each once. */
  function Distinct<T(==)>(s: seq<T>): (r: seq<T>)
    decreases |s|
  {
    if s == [] then []
    else
      var d := Distinct(s[..|s| - 1]);
      if s[|s| - 1] in d then d else d + [s[|s| - 1]]
  }

  /** One more element: Distinct keeps it only when it is new. */
  lemma DistinctSnoc<T>(s: seq<T>, x: T)
    ensures Distinct(s + [x]) == if x in Distinct(s) then Distinct(s) else Distinct(s) + [x]
  {
    assert (s + [x])[..|s|] == s;
  }

  lemma {:induction false} DistinctSpec<T>(s: seq<T>)
    ensures NoDup(Distinct(s))
    ensures forall x :: x in Distinct(s) <==> x in s
    ensures |Distinct(s)| <= |s|
    decreases |s|
  {
    if s != [] {
      var p := s[..|s| - 1];
      DistinctSpec(p);
      assert s == p + [s[|s| - 1]];
    }
  }

  /** Deduplicating changes nothing exactly when nothing occurs twice. */
  lemma {:induction false} DistinctIdentity<T>(s: seq<T>)
    ensures Distinct(s) == s <==> NoDup(s)
    ensures |Distinct(s)| == |s| <==> NoDup(s)
    decreases |s|
  {
    DistinctSpec(s);
    if s != [] {
      var p := s[..|s| - 1];
      var x := s[|s| - 1];
      DistinctIdentity(p);
      DistinctSpec(p);
      assert s == p + [x];
      if NoDup(s) {
        assert NoDup(p) by {
          forall i, j | 0 <= i < j < |p| ensures p[i] != p[j] { assert p[i] == s[i] && p[j] == s[j]; }
        }
        assert x !in p by {
          forall i | 0 <= i < |p| ensures p[i] != x { assert p[i] == s[i]; }
        }
      } else if x in p {
        assert |Distinct(s)| == |Distinct(p)| <= |p| < |s|;
      } else {
        assert !NoDup(p) by {
          var i, j :| 0 <= i < j < |s| && s[i] == s[j];
          assert j < |p|;
          assert p[i] == p[j];
        }
      }
    }
  }

  /** Putting entries one by one keeps the keys in first-put order, each once. */
  lemma {:induction false} PutAllKeys<K(!new), V>(entries: seq<(K, V)>)
    ensures Keys(PutAll(entries)) == Distinct(Keys(entries))
    ensures Valid(PutAll(entries))
    decreases |entries|
  {
    if entries != [] {
      var p := entries[..|entries| - 1];
      PutAllKeys(p);
      assert Keys(entries)[..|entries| - 1] == Keys(p);
    }
  }

  /** Merges one entry: a present key gets the combination of its value and the new one, a new key is appended. */
  function MergeEntry<K(==,!new), V>(acc: OMap<K, V>, e: (K, V), combine: (V, V) -> V): (r: OMap<K, V>)
    ensures Keys(r) == if e.0 in Keys(acc) then Keys(acc) else Keys(acc) + [e.0]
    ensures Valid(acc) ==> Valid(r)
  {
    match Get(acc, e.0)
    case Some(existing) => Put(acc, e.0, combine(existing, e.1))
    case None => Put(acc, e.0, e.1)
  }

  /** Merges the entries one by one into acc. */
  function MergeAll<K(==,!new), V>(acc: OMap<K, V>, es: seq<(K, V)>, combine: (V, V) -> V): OMap<K, V>
    decreases |es|
  {
    if es == [] then acc else MergeEntry(MergeAll(acc, es[..|es| - 1], combine), es[|es| - 1], combine)
  }

  /** Merging entries into an empty map keeps their keys in first-seen order, each once. */
  lemma {:induction false} MergeAllKeys<K(!new), V>(es: seq<(K, V)>, combine: (V, V) -> V)
    ensures Keys(MergeAll([], es, combine)) == Distinct(Keys(es))
    ensures Valid(MergeAll([], es, combine))
    decreases |es|
  {
    if es != [] {
      var p := es[..|es| - 1];
      var k := es[|es| - 1].0;
      MergeAllKeys(p, combine);
      var d := Distinct(Keys(p));
      assert Distinct(Keys(es)) == if k in d then d else d + [k] by {
        assert Keys(es)[..|es| - 1] == Keys(p);
        assert Keys(es)[|es| - 1] == k;
      }
    }
  }

  /** The last put of a key wins. */
  lemma {:induction false} PutAllGet<K(!new), V>(entries: seq<(K, V)>, k: K)
    ensures Get(PutAll(entries), k) == LastValue(entries, k)
    decreases |entries|
  {
    if entries != [] {
      PutAllGet(entries[..|entries| - 1], k);
    }
  }

  /** There are as many entries as puts exactly when no key is put twice. */
  lemma PutAllSize<K(!new), V>(entries: seq<(K, V)>)
    ensures |PutAll(entries)| <= |entries|
    ensures |PutAll(entries)| == |entries| <==> NoDup(Keys(entries))
  {
    PutAllKeys(entries);
    DistinctSpec(Keys(entries));
    DistinctIdentity(Keys(entries));
  }
}
