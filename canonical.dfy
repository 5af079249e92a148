/**
  The canonicaliser of the sparkl filter (`SparklFilter.mangle_`).

  A log record is a Ruby value tree. `mangle_` turns it into a canonical tree:
  a Hash becomes the list of its `[key, value]` pairs sorted by key, an Array
  keeps its order, `nil` becomes the empty string and every other scalar is
  returned unchanged. The canonical tree has no Hash and no `nil` left in it,
  so two records that hold the same entries in a different insertion order
  canonicalise to the same tree.
 */
module Canonical {

  /** A Ruby value as it occurs in a log record (floats are not modelled). */
  datatype Value =
    | Nil
    | Str(s: string)
    | Num(n: int)
    | Bool(b: bool)
    | Arr(items: seq<Value>)
    | Hash(entries: seq<Entry>)

  /** One slot of a Hash; a Hash keeps its slots in insertion order. */
  datatype Entry = Entry(key: string, val: Value)

  // ---------------------------------------------------------------------------
  // String order: Ruby compares String keys code unit by code unit, and a
  // proper prefix sorts first.
  // ---------------------------------------------------------------------------

  predicate StrLt(a: string, b: string)
  {
    if a == [] then b != []
    else if b == [] then false
    else a[0] < b[0] || (a[0] == b[0] && StrLt(a[1..], b[1..]))
  }

  lemma {:induction false} StrLtIrreflexive(a: string)
    ensures !StrLt(a, a)
  {
    if a != [] {
      StrLtIrreflexive(a[1..]);
    }
  }

  lemma {:induction false} StrLtTransitive(a: string, b: string, c: string)
    requires StrLt(a, b) && StrLt(b, c)
    ensures StrLt(a, c)
  {
    if a != [] && a[0] == b[0] && b[0] == c[0] {
      StrLtTransitive(a[1..], b[1..], c[1..]);
    }
  }

  lemma {:induction false} StrLtTotal(a: string, b: string)
    requires a != b
    ensures StrLt(a, b) || StrLt(b, a)
  {
    if a != [] && b != [] && a[0] == b[0] {
      assert a == [a[0]] + a[1..] && b == [b[0]] + b[1..];
      StrLtTotal(a[1..], b[1..]);
    }
  }

  lemma StrLtAsymmetric(a: string, b: string)
    requires StrLt(a, b)
    ensures !StrLt(b, a)
  {
    if StrLt(b, a) {
      StrLtTransitive(a, b, a);
      StrLtIrreflexive(a);
    }
  }

  /** "Not greater" is transitive: a <= b and b <= c give a <= c. */
  lemma StrLeTransitive(a: string, b: string, c: string)
    requires !StrLt(b, a) && !StrLt(c, b)
    ensures !StrLt(c, a)
  {
    if a != b && b != c {
      StrLtTotal(a, b);
      StrLtTotal(b, c);
      StrLtTransitive(a, b, c);
      StrLtAsymmetric(a, c);
    }
  }

  // ---------------------------------------------------------------------------
  // Sorting the pairs of a Hash by key (`res.sort`)
  // ---------------------------------------------------------------------------

  /** Keys never decrease along the sequence. */
  ghost predicate SortedByKey(s: seq<Entry>)
  {
    forall i, j :: 0 <= i < j < |s| ==> !StrLt(s[j].key, s[i].key)
  }

  /** No two slots share a key: what every Ruby Hash guarantees. */
  ghost predicate DistinctKeys(s: seq<Entry>)
  {
    forall i, j :: 0 <= i < j < |s| ==> s[i].key != s[j].key
  }

  /** A key determines the whole entry among the elements of `s`. */
  ghost predicate KeyDetermines(s: seq<Entry>)
  {
    forall x, y :: x in s && y in s && x.key == y.key ==> x == y
  }

  function Insert(e: Entry, s: seq<Entry>): (r: seq<Entry>)
    requires SortedByKey(s)
    ensures SortedByKey(r)
    ensures multiset(r) == multiset(s) + multiset{e}
  {
    if s == [] then [e]
    else if !StrLt(s[0].key, e.key) then
      assert forall j :: 0 <= j < |s| ==> !StrLt(s[j].key, e.key) by {
        forall j | 0 < j < |s| ensures !StrLt(s[j].key, e.key) {
          StrLeTransitive(e.key, s[0].key, s[j].key);
        }
      }
      [e] + s
    else
      var t := Insert(e, s[1..]);
      assert s == [s[0]] + s[1..];
      assert forall j :: 0 <= j < |t| ==> !StrLt(t[j].key, s[0].key) by {
        forall j | 0 <= j < |t| ensures !StrLt(t[j].key, s[0].key) {
          if t[j] == e {
            StrLtAsymmetric(s[0].key, e.key);
          } else {
            assert t[j] in multiset(t);
            assert t[j] in s[1..];
          }
        }
      }
      [s[0]] + t
  }

  /** Insertion sort by key; the result is a sorted permutation of `s`. */
  function SortByKey(s: seq<Entry>): (r: seq<Entry>)
    ensures SortedByKey(r)
    ensures multiset(r) == multiset(s)
  {
    if s == [] then []
    else
      assert s == [s[0]] + s[1..];
      Insert(s[0], SortByKey(s[1..]))
  }

  /** Two sorted arrangements of the same entries start with the same entry. */
  lemma SortedHeadsAgree(a: seq<Entry>, b: seq<Entry>)
    requires SortedByKey(a) && SortedByKey(b)
    requires multiset(a) == multiset(b)
    requires KeyDetermines(a)
    requires a != []
    ensures b != [] && a[0] == b[0]
  {
    assert a[0] in multiset(b);
    var j :| 0 <= j < |b| && b[j] == a[0];
    assert b[0] in multiset(a);
    var i :| 0 <= i < |a| && a[i] == b[0];
    // a[0] <= a[i] == b[0] <= b[j] == a[0]: the keys of a[0] and b[0] agree
    if i > 0 { assert !StrLt(a[i].key, a[0].key); } else { StrLtIrreflexive(a[0].key); }
    if j > 0 { assert !StrLt(b[j].key, b[0].key); } else { StrLtIrreflexive(b[0].key); }
    if a[0].key != b[0].key {
      StrLtTotal(a[0].key, b[0].key);
    }
    assert b[0] in a;
  }

  lemma TailMultiset<T>(s: seq<T>)
    requires s != []
    ensures multiset(s[1..]) == multiset(s) - multiset{s[0]}
  {
    assert s == [s[0]] + s[1..];
  }

  lemma RemoveAtMultiset<T>(s: seq<T>, j: nat)
    requires j < |s|
    ensures multiset(s[..j] + s[j+1..]) == multiset(s) - multiset{s[j]}
  {
    assert s == s[..j] + [s[j]] + s[j+1..];
  }

  lemma SortedTail(a: seq<Entry>)
    requires SortedByKey(a) && a != []
    ensures SortedByKey(a[1..])
  {
    forall i, j | 0 <= i < j < |a| - 1 ensures !StrLt(a[1..][j].key, a[1..][i].key) {
      assert a[1..][j] == a[j + 1] && a[1..][i] == a[i + 1];
    }
  }

  /** A sorted arrangement of entries whose keys determine them is unique. */
  lemma {:induction false} SortedPermutationUnique(a: seq<Entry>, b: seq<Entry>)
    requires SortedByKey(a) && SortedByKey(b)
    requires multiset(a) == multiset(b)
    requires KeyDetermines(a)
    ensures a == b
    decreases |a|
  {
    if a == [] {
      assert |multiset(b)| == 0;
    } else {
      SortedHeadsAgree(a, b);
      TailMultiset(a);
      TailMultiset(b);
      SortedTail(a);
      SortedTail(b);
      assert forall x :: x in a[1..] ==> x in a;
      SortedPermutationUnique(a[1..], b[1..]);
      assert a == [a[0]] + a[1..] && b == [b[0]] + b[1..];
    }
  }

  /** Putting back, at position j, an entry whose key is new keeps the keys distinct. */
  lemma DistinctKeysPutBack(b: seq<Entry>, j: nat)
    requires j < |b|
    requires DistinctKeys(b[..j] + b[j+1..])
    requires forall x :: x in b[..j] + b[j+1..] ==> x.key != b[j].key
    ensures DistinctKeys(b)
  {
    var rest := b[..j] + b[j+1..];
    forall p, q | 0 <= p < q < |b| ensures b[p].key != b[q].key {
      if p == j {
        assert b[q] == rest[q - 1];
      } else if q == j {
        assert b[p] == rest[p];
      } else {
        var p' := if p < j then p else p - 1;
        var q' := if q < j then q else q - 1;
        assert b[p] == rest[p'] && b[q] == rest[q'];
      }
    }
  }

  /** Rearranging entries keeps their keys distinct. */
  lemma {:induction false} DistinctKeysPermutation(a: seq<Entry>, b: seq<Entry>)
    requires DistinctKeys(a)
    requires multiset(a) == multiset(b)
    ensures DistinctKeys(b)
    decreases |a|
  {
    if a != [] {
      assert a[0] in multiset(b);
      var j :| 0 <= j < |b| && b[j] == a[0];
      var rest := b[..j] + b[j+1..];
      TailMultiset(a);
      RemoveAtMultiset(b, j);
      assert DistinctKeys(a[1..]) by {
        forall p, q | 0 <= p < q < |a| - 1 ensures a[1..][p].key != a[1..][q].key {
          assert a[1..][p] == a[p + 1] && a[1..][q] == a[q + 1];
        }
      }
      DistinctKeysPermutation(a[1..], rest);
      forall x | x in rest ensures x.key != b[j].key {
        assert x in multiset(a[1..]);
        var p :| 0 <= p < |a[1..]| && a[1..][p] == x;
        assert x == a[p + 1];
      }
      DistinctKeysPutBack(b, j);
    }
  }

  // ---------------------------------------------------------------------------
  // mangle_
  // ---------------------------------------------------------------------------

  /** A canonical tree: no Hash and no nil anywhere in it. */
  predicate IsCanonical(v: Value)
  {
    match v
    case Nil => false
    case Hash(_) => false
    case Arr(items) => forall i :: 0 <= i < |items| ==> IsCanonical(items[i])
    case _ => true
  }

  /** The Hash with every value canonicalised and the keys kept (`res[key] = mangle_(val[key])`). */
  function MangleEntries(es: seq<Entry>): (r: seq<Entry>)
    ensures |r| == |es|
    ensures forall i :: 0 <= i < |es| ==> r[i].key == es[i].key && IsCanonical(r[i].val)
    decreases es, 0
  {
    seq(|es|, i requires 0 <= i < |es| => Entry(es[i].key, Mangle(es[i].val)))
  }

  /** The sorted pairs, each as a two-element Array `[key, value]`. */
  function Pairs(es: seq<Entry>): (r: seq<Value>)
    ensures |r| == |es|
  {
    seq(|es|, i requires 0 <= i < |es| => Arr([Str(es[i].key), es[i].val]))
  }

  /** Rearranging slots whose values are canonical leaves them canonical. */
  lemma CanonicalValuesPermutation(a: seq<Entry>, b: seq<Entry>)
    requires forall i :: 0 <= i < |a| ==> IsCanonical(a[i].val)
    requires multiset(a) == multiset(b)
    ensures forall i :: 0 <= i < |b| ==> IsCanonical(b[i].val)
  {
    forall i | 0 <= i < |b| ensures IsCanonical(b[i].val) {
      assert b[i] in multiset(a);
      var j :| 0 <= j < |a| && a[j] == b[i];
    }
  }

  /** `SparklFilter.mangle_` */
  function Mangle(v: Value): (r: Value)
    ensures IsCanonical(r)
    ensures v.Arr? ==> r.Arr? && |r.items| == |v.items|
    ensures v.Hash? ==> r.Arr? && |r.items| == |v.entries|
    ensures v.Str? || v.Num? || v.Bool? ==> r == v
    decreases v, 2
  {
    match v
    case Hash(entries) => SortedPairs(entries)
    case Arr(items) =>
      Arr(seq(|items|, i requires 0 <= i < |items| => Mangle(items[i])))
    case Nil => Str("")
    case _ => v
  }

  /** `mangle_` of a Hash: its `[key, value]` pairs, values canonicalised, sorted by key. */
  function SortedPairs(entries: seq<Entry>): (r: Value)
    ensures IsCanonical(r) && r.Arr? && |r.items| == |entries|
    decreases entries, 1
  {
    var mangled := MangleEntries(entries);
    var sorted := SortByKey(mangled);
    CanonicalValuesPermutation(mangled, sorted);
    assert |sorted| == |multiset(sorted)| == |entries|;
    Arr(Pairs(sorted))
  }

  // ---------------------------------------------------------------------------
  // Properties of mangle_
  // ---------------------------------------------------------------------------

  /** An Array keeps its length and its order, each element canonicalised. */
  lemma MangleArray(items: seq<Value>)
    ensures Mangle(Arr(items)).Arr?
    ensures |Mangle(Arr(items)).items| == |items|
    ensures forall i :: 0 <= i < |items| ==> Mangle(Arr(items)).items[i] == Mangle(items[i])
  {
  }

  /** A canonical tree is its own canonical form. */
  lemma {:induction false} MangleFixesCanonical(v: Value)
    requires IsCanonical(v)
    ensures Mangle(v) == v
  {
    match v
    case Arr(items) =>
      forall i | 0 <= i < |items| ensures Mangle(items[i]) == items[i] {
        MangleFixesCanonical(items[i]);
      }
      assert Mangle(v).items == items;
    case _ =>
  }

  /** Canonicalising twice gives what canonicalising once gives. */
  lemma MangleIdempotent(v: Value)
    ensures Mangle(Mangle(v)) == Mangle(v)
  {
    MangleFixesCanonical(Mangle(v));
  }

  function MapSeq<A, B>(f: A -> B, s: seq<A>): (r: seq<B>)
    ensures |r| == |s| && forall i :: 0 <= i < |s| ==> r[i] == f(s[i])
  {
    seq(|s|, i requires 0 <= i < |s| => f(s[i]))
  }

  lemma MapSeqTail<A, B>(f: A -> B, a: seq<A>)
    requires a != []
    ensures MapSeq(f, a)[1..] == MapSeq(f, a[1..])
  {
  }

  lemma MapSeqRemoveAt<A, B>(f: A -> B, b: seq<A>, j: nat)
    requires j < |b|
    ensures MapSeq(f, b)[..j] + MapSeq(f, b)[j+1..] == MapSeq(f, b[..j] + b[j+1..])
  {
    var mb := MapSeq(f, b);
    var rest := b[..j] + b[j+1..];
    assert forall i :: 0 <= i < |rest| ==> (mb[..j] + mb[j+1..])[i] == f(rest[i]);
  }

  /** Removing the same element from two equal multisets that hold it. */
  lemma MultisetCancel<T>(x: T, ma: multiset<T>, mb: multiset<T>)
    requires x in ma && x in mb
    requires ma - multiset{x} == mb - multiset{x}
    ensures ma == mb
  {
    assert ma == (ma - multiset{x}) + multiset{x};
    assert mb == (mb - multiset{x}) + multiset{x};
  }

  /** Mapping a function over two rearrangements of a sequence gives rearrangements. */
  lemma {:induction false} MapSeqPermutation<A, B>(f: A -> B, a: seq<A>, b: seq<A>)
    requires multiset(a) == multiset(b)
    ensures multiset(MapSeq(f, a)) == multiset(MapSeq(f, b))
    decreases |a|
  {
    if a == [] {
      assert |multiset(b)| == 0;
      assert b == [];
    } else {
      assert a[0] in multiset(b);
      var j :| 0 <= j < |b| && b[j] == a[0];
      var rest := b[..j] + b[j+1..];
      TailMultiset(a);
      RemoveAtMultiset(b, j);
      MapSeqPermutation(f, a[1..], rest);
      var ma, mb := MapSeq(f, a), MapSeq(f, b);
      MapSeqTail(f, a);
      MapSeqRemoveAt(f, b, j);
      TailMultiset(ma);
      RemoveAtMultiset(mb, j);
      assert ma[0] == mb[j];
      MultisetCancel(ma[0], multiset(ma), multiset(mb));
    }
  }

  /** Canonicalising the values of a Hash respects permutation of its slots. */
  lemma MangleEntriesPermutation(a: seq<Entry>, b: seq<Entry>)
    requires multiset(a) == multiset(b)
    ensures multiset(MangleEntries(a)) == multiset(MangleEntries(b))
  {
    var f := (e: Entry) => Entry(e.key, Mangle(e.val));
    MapSeqPermutation(f, a, b);
    assert MangleEntries(a) == MapSeq(f, a);
    assert MangleEntries(b) == MapSeq(f, b);
  }

  lemma MangleEntriesKeyDetermines(es: seq<Entry>)
    requires DistinctKeys(es)
    ensures KeyDetermines(MangleEntries(es))
  {
    var m := MangleEntries(es);
    forall x, y | x in m && y in m && x.key == y.key ensures x == y {
      var i :| 0 <= i < |m| && m[i] == x;
      var j :| 0 <= j < |m| && m[j] == y;
      assert es[i].key == es[j].key;
    }
  }

  lemma KeyDeterminesPermutation(a: seq<Entry>, b: seq<Entry>)
    requires KeyDetermines(a) && multiset(a) == multiset(b)
    ensures KeyDetermines(b)
  {
    forall x, y | x in b && y in b && x.key == y.key ensures x == y {
      assert x in multiset(a) && y in multiset(a);
    }
  }

  /**
    Two Hashes holding the same slots in a different insertion order
    canonicalise to the same tree.
   */
  lemma MangleOrderInsensitive(a: seq<Entry>, b: seq<Entry>)
    requires DistinctKeys(a)
    requires multiset(a) == multiset(b)
    ensures Mangle(Hash(a)) == Mangle(Hash(b))
  {
    MangleEntriesPermutation(a, b);
    MangleEntriesKeyDetermines(a);
    var sa, sb := SortByKey(MangleEntries(a)), SortByKey(MangleEntries(b));
    KeyDeterminesPermutation(MangleEntries(a), sa);
    SortedPermutationUnique(sa, sb);
  }

  /** Keys strictly increase along the sequence. */
  ghost predicate StrictlySortedByKey(s: seq<Entry>)
  {
    forall i, j :: 0 <= i < j < |s| ==> StrLt(s[i].key, s[j].key)
  }

  /**
    The canonical form of a Hash with distinct keys is the list of its pairs
    in strictly increasing key order, holding each slot once with its value
    canonicalised: nil-valued slots are kept.
   */
  lemma MangleHash(es: seq<Entry>)
    requires DistinctKeys(es)
    ensures var s := SortByKey(MangleEntries(es));
      && Mangle(Hash(es)) == Arr(Pairs(s))
      && StrictlySortedByKey(s)
      && multiset(s) == multiset(MangleEntries(es))
  {
    var m := MangleEntries(es);
    var s := SortByKey(m);
    assert DistinctKeys(m);
    DistinctKeysPermutation(m, s);
    forall i, j | 0 <= i < j < |s| ensures StrLt(s[i].key, s[j].key) {
      StrLtTotal(s[i].key, s[j].key);
    }
  }

  /** A nil value canonicalises to the empty string: it is kept, not dropped. */
  lemma MangleNil()
    ensures Mangle(Nil) == Str("")
  {
  }
}
