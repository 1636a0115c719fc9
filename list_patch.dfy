/** The three in-memory patches the profile page and the admin table apply to a list of rows
    after the store confirmed a write: prepend, replace-by-key and remove-by-key, and the
    `data || []` reading of a fetched list. */
module ListPatch {
  import opened Wrappers

  /** `data || []`: a missing list reads as empty. */
  function ListOrEmpty<T>(data: Option<seq<T>>): (r: seq<T>)
    ensures data.Some? ==> r == data.value
    ensures data.None? ==> r == []
  {
    match data
    case None => []
    case Some(xs) => xs
  }

  /** `[row, ...prev]`. */
  function Prepend<T>(xs: seq<T>, row: T): seq<T> {
    [row] + xs
  }

  /** `prev.map(x => key(x) === k ? row : x)`. */
  function ReplaceWhere<T, K(==)>(xs: seq<T>, key: T -> K, k: K, row: T): (r: seq<T>)
    ensures |r| == |xs|
    ensures forall i :: 0 <= i < |xs| && key(xs[i]) == k ==> r[i] == row
    ensures forall i :: 0 <= i < |xs| && key(xs[i]) != k ==> r[i] == xs[i]
  {
    if xs == [] then []
    else [if key(xs[0]) == k then row else xs[0]] + ReplaceWhere(xs[1..], key, k, row)
  }

  /** `prev.filter(x => key(x) !== k)`. */
  function FilterOut<T, K(==)>(xs: seq<T>, key: T -> K, k: K): (r: seq<T>)
    ensures |r| <= |xs|
    ensures forall i :: 0 <= i < |r| ==> r[i] in xs && key(r[i]) != k
    ensures forall i :: 0 <= i < |xs| && key(xs[i]) != k ==> xs[i] in r
  {
    if xs == [] then []
    else (if key(xs[0]) == k then [] else [xs[0]]) + FilterOut(xs[1..], key, k)
  }

  /** How many entries of `xs` have key `k`. */
  function CountKey<T, K(==)>(xs: seq<T>, key: T -> K, k: K): nat {
    if xs == [] then 0 else (if key(xs[0]) == k then 1 else 0) + CountKey(xs[1..], key, k)
  }

  /** No two entries share a key (what the store's primary key guarantees of a fetched list). */
  ghost predicate UniqueKeys<T, K>(xs: seq<T>, key: T -> K) {
    forall i, j :: 0 <= i < j < |xs| ==> key(xs[i]) != key(xs[j])
  }

  /** The prepended row comes first and the old list follows unchanged, so the old order is kept. */
  lemma PrependKeepsOrder<T>(xs: seq<T>, row: T)
    ensures |Prepend(xs, row)| == |xs| + 1
    ensures Prepend(xs, row)[0] == row && Prepend(xs, row)[1..] == xs
    ensures forall x :: x in Prepend(xs, row) <==> x == row || x in xs
  {
  }

  /** A freshly inserted row, whose key no listed row has, keeps the keys unique. */
  lemma PrependUnique<T, K>(xs: seq<T>, key: T -> K, row: T)
    requires UniqueKeys(xs, key)
    requires forall x :: x in xs ==> key(x) != key(row)
    ensures UniqueKeys(Prepend(xs, row), key)
  {
    var r := Prepend(xs, row);
    forall i, j | 0 <= i < j < |r| ensures key(r[i]) != key(r[j]) {
      assert r[j] == xs[j - 1];
      if i > 0 {
        assert r[i] == xs[i - 1];
      } else {
        assert r[j] in xs;
      }
    }
  }

  /** The relative order of the surviving entries: filtering distributes over concatenation. */
  lemma {:induction false} FilterOutConcat<T, K>(a: seq<T>, b: seq<T>, key: T -> K, k: K)
    ensures FilterOut(a + b, key, k) == FilterOut(a, key, k) + FilterOut(b, key, k)
  {
    if a == [] {
      assert a + b == b;
    } else {
      assert (a + b)[0] == a[0];
      assert (a + b)[1..] == a[1..] + b;
      FilterOutConcat(a[1..], b, key, k);
    }
  }

  /** A list without the key is left unchanged; in particular filtering twice is filtering once. */
  lemma {:induction false} FilterOutAbsent<T, K>(xs: seq<T>, key: T -> K, k: K)
    requires forall j :: 0 <= j < |xs| ==> key(xs[j]) != k
    ensures FilterOut(xs, key, k) == xs
  {
    if xs != [] {
      FilterOutAbsent(xs[1..], key, k);
    }
  }

  lemma FilterOutIdempotent<T, K>(xs: seq<T>, key: T -> K, k: K)
    ensures FilterOut(FilterOut(xs, key, k), key, k) == FilterOut(xs, key, k)
  {
    var r := FilterOut(xs, key, k);
    assert forall j :: 0 <= j < |r| ==> key(r[j]) != k;
    FilterOutAbsent(r, key, k);
  }

  /** Exactly the entries with the key are removed. */
  lemma {:induction false} FilterOutLength<T, K>(xs: seq<T>, key: T -> K, k: K)
    ensures |FilterOut(xs, key, k)| == |xs| - CountKey(xs, key, k)
  {
    if xs != [] {
      FilterOutLength(xs[1..], key, k);
    }
  }

  /** With unique keys, removing a present key removes exactly that one entry, in place. */
  lemma FilterOutUnique<T, K>(xs: seq<T>, key: T -> K, i: nat)
    requires UniqueKeys(xs, key) && i < |xs|
    ensures FilterOut(xs, key, key(xs[i])) == xs[..i] + xs[i + 1..]
  {
    var pre, x, post := xs[..i], xs[i], xs[i + 1..];
    assert xs == pre + [x] + post;
    calc {
      FilterOut(xs, key, key(x));
      FilterOut(pre + [x] + post, key, key(x));
      { FilterOutSplit(pre, x, post, key); }
      FilterOut(pre, key, key(x)) + FilterOut(post, key, key(x));
      { UniquePrefixKept(xs, key, i); UniqueSuffixKept(xs, key, i); }
      pre + post;
    }
  }

  lemma UniquePrefixKept<T, K>(xs: seq<T>, key: T -> K, i: nat)
    requires UniqueKeys(xs, key) && i < |xs|
    ensures FilterOut(xs[..i], key, key(xs[i])) == xs[..i]
  {
    var pre := xs[..i];
    forall j | 0 <= j < |pre| ensures key(pre[j]) != key(xs[i]) {
      assert pre[j] == xs[j];
    }
    FilterOutAbsent(pre, key, key(xs[i]));
  }

  lemma UniqueSuffixKept<T, K>(xs: seq<T>, key: T -> K, i: nat)
    requires UniqueKeys(xs, key) && i < |xs|
    ensures FilterOut(xs[i + 1..], key, key(xs[i])) == xs[i + 1..]
  {
    var post := xs[i + 1..];
    forall j | 0 <= j < |post| ensures key(post[j]) != key(xs[i]) {
      assert post[j] == xs[i + 1 + j];
    }
    FilterOutAbsent(post, key, key(xs[i]));
  }

  lemma FilterOutSplit<T, K>(pre: seq<T>, x: T, post: seq<T>, key: T -> K)
    ensures FilterOut(pre + [x] + post, key, key(x)) == FilterOut(pre, key, key(x)) + FilterOut(post, key, key(x))
  {
    var k := key(x);
    assert FilterOut([x], key, k) == [] by {
      assert [x][1..] == [];
      assert FilterOut([x][1..], key, k) == [];
    }
    FilterOutConcat(pre, [x], key, k);
    FilterOutConcat(pre + [x], post, key, k);
  }

  /** With unique keys, replacing by the key of entry `i` replaces that entry alone, and a
      returned row with the same key keeps the keys unique. */
  lemma ReplaceUnique<T, K>(xs: seq<T>, key: T -> K, i: nat, row: T)
    requires UniqueKeys(xs, key) && i < |xs| && key(row) == key(xs[i])
    ensures ReplaceWhere(xs, key, key(xs[i]), row) == xs[i := row]
    ensures UniqueKeys(xs[i := row], key)
  {
    var r := ReplaceWhere(xs, key, key(xs[i]), row);
    forall j | 0 <= j < |xs| ensures r[j] == xs[i := row][j] {
      if j != i {
        assert key(xs[j]) != key(xs[i]) by {
          if j < i { } else { }
        }
      }
    }
  }
}
