// A JavaScript `Map<string, V>` as a sequence of values in insertion order,
// each value carrying its own key (`key(v)`). `Set` replaces an existing
// entry in place, as `Map.prototype.set` keeps the original insertion slot,
// and appends otherwise; `Remove` is `Map.prototype.delete`.

module Keyed {
  import opened Types

  /** No two entries share a key: the sequence is the value list of a map. */
  predicate UniqueKeys<T>(xs: seq<T>, key: T -> string) {
    forall i, j :: 0 <= i < j < |xs| ==> key(xs[i]) != key(xs[j])
  }

  predicate HasKey<T>(xs: seq<T>, key: T -> string, k: string) {
    exists j :: 0 <= j < |xs| && key(xs[j]) == k
  }

  /** Position of the first entry with key `k` (`Map.get`, `Array.find`). */
  function IndexOf<T>(xs: seq<T>, key: T -> string, k: string): (r: Option<nat>)
    ensures r.Some? ==> r.value < |xs| && key(xs[r.value]) == k
    ensures r.Some? ==> forall j :: 0 <= j < r.value ==> key(xs[j]) != k
    ensures r.None? <==> !HasKey(xs, key, k)
  {
    if xs == [] then None
    else if key(xs[0]) == k then Some(0)
    else
      match IndexOf(xs[1..], key, k)
      case None =>
        assert forall j :: 1 <= j < |xs| ==> xs[j] == xs[1..][j - 1];
        None
      case Some(i) =>
        assert forall j :: 1 <= j <= i ==> xs[j] == xs[1..][j - 1];
        Some(i + 1)
  }

  /** `Map.get`. */
  function Lookup<T>(xs: seq<T>, key: T -> string, k: string): (r: Option<T>)
    ensures r.Some? <==> HasKey(xs, key, k)
    ensures r.Some? ==> r.value in xs && key(r.value) == k
  {
    match IndexOf(xs, key, k)
    case None => None
    case Some(i) => Some(xs[i])
  }

  /** With unique keys the entry found at position `i` is the one whose key it carries. */
  lemma LookupAt<T>(xs: seq<T>, key: T -> string, i: nat)
    requires UniqueKeys(xs, key) && i < |xs|
    ensures IndexOf(xs, key, key(xs[i])) == Some(i)
    ensures Lookup(xs, key, key(xs[i])) == Some(xs[i])
  {
  }

  /** `Map.set`: overwrite the entry with the same key where it stands, or append. */
  function Set<T>(xs: seq<T>, key: T -> string, x: T): (r: seq<T>)
    ensures HasKey(xs, key, key(x)) ==> |r| == |xs|
    ensures !HasKey(xs, key, key(x)) ==> r == xs + [x]
    ensures forall j :: 0 <= j < |xs| && key(xs[j]) != key(x) ==> r[j] == xs[j]
    ensures UniqueKeys(xs, key) ==> UniqueKeys(r, key) && IndexOf(r, key, key(x)).Some?
    ensures UniqueKeys(xs, key) ==> Lookup(r, key, key(x)) == Some(x)
    ensures forall j :: 0 <= j < |r| ==> key(r[j]) == key(x) || r[j] == xs[j]
  {
    match IndexOf(xs, key, key(x))
    case None =>
      var r := xs + [x];
      assert forall j :: 0 <= j < |xs| ==> r[j] == xs[j] && key(xs[j]) != key(x);
      assert UniqueKeys(xs, key) ==> UniqueKeys(r, key);
      assert key(r[|xs|]) == key(x);
      if UniqueKeys(xs, key) then LookupAt(r, key, |xs|); r else r
    case Some(i) =>
      var r := xs[i := x];
      assert UniqueKeys(xs, key) ==> UniqueKeys(r, key) by {
        if UniqueKeys(xs, key) {
          forall a, b | 0 <= a < b < |r| ensures key(r[a]) != key(r[b]) {
            assert key(r[a]) == key(xs[a]) && key(r[b]) == key(xs[b]);
          }
        }
      }
      if UniqueKeys(xs, key) then LookupAt(r, key, i); r else r
  }

  /** `Map.delete`: every entry with key `k` is dropped (`RemoveKeepsOrder`: the rest keep their order). */
  function Remove<T(==,!new)>(xs: seq<T>, key: T -> string, k: string): (r: seq<T>)
    ensures forall y :: y in r <==> y in xs && key(y) != k
    ensures !HasKey(r, key, k)
    ensures |r| <= |xs|
    ensures !HasKey(xs, key, k) ==> r == xs
    ensures UniqueKeys(xs, key) ==> UniqueKeys(r, key)
    ensures UniqueKeys(xs, key) && |xs| > 0 && key(xs[0]) == k ==> r == xs[1..]
    ensures |xs| > 0 && key(xs[0]) != k ==> |r| > 0 && r[0] == xs[0]
  {
    if xs == [] then []
    else
      var rest := Remove(xs[1..], key, k);
      if key(xs[0]) == k then
        if UniqueKeys(xs, key) then TailLacksHeadKey(xs, key); rest else rest
      else
        var r := [xs[0]] + rest;
        if UniqueKeys(xs, key) then ConsKeepsUnique(xs, key, rest); r else r
  }

  /** With unique keys the key of the head does not occur in the tail. */
  lemma TailLacksHeadKey<T>(xs: seq<T>, key: T -> string)
    requires UniqueKeys(xs, key) && |xs| > 0
    ensures !HasKey(xs[1..], key, key(xs[0]))
    ensures UniqueKeys(xs[1..], key)
  {
    forall j | 0 <= j < |xs[1..]| ensures key(xs[1..][j]) != key(xs[0]) {
      assert xs[1..][j] == xs[j + 1];
    }
  }

  /** Putting the head back in front of a unique-keyed sub-list of the tail keeps keys unique. */
  lemma ConsKeepsUnique<T>(xs: seq<T>, key: T -> string, rest: seq<T>)
    requires UniqueKeys(xs, key) && |xs| > 0
    requires UniqueKeys(rest, key) && forall y :: y in rest ==> y in xs[1..]
    ensures UniqueKeys([xs[0]] + rest, key)
  {
    TailLacksHeadKey(xs, key);
    forall j | 0 <= j < |rest| ensures key(rest[j]) != key(xs[0]) {
      assert rest[j] in xs[1..];
    }
  }

  /** `Map.delete` works entry by entry, so it distributes over concatenation. */
  lemma {:induction false} RemoveAppend<T(!new)>(a: seq<T>, b: seq<T>, key: T -> string, k: string)
    ensures Remove(a + b, key, k) == Remove(a, key, k) + Remove(b, key, k)
  {
    if a != [] {
      assert (a + b)[0] == a[0];
      assert (a + b)[1..] == a[1..] + b;
      RemoveAppend(a[1..], b, key, k);
    } else {
      assert a + b == b;
    }
  }

  /** With unique keys no entry other than the one at position `i` carries its key. */
  lemma OnlyOneWithKey<T>(xs: seq<T>, key: T -> string, i: nat)
    requires UniqueKeys(xs, key) && i < |xs|
    ensures !HasKey(xs[..i], key, key(xs[i])) && !HasKey(xs[i + 1..], key, key(xs[i]))
  {
    var before, after := xs[..i], xs[i + 1..];
    forall j | 0 <= j < |before| ensures key(before[j]) != key(xs[i]) { }
    forall j | 0 <= j < |after| ensures key(after[j]) != key(xs[i]) {
      assert after[j] == xs[i + 1 + j];
    }
  }

  /** Deleting the key that only `x` carries cuts `x` out of `before + [x] + after`. */
  lemma RemoveCutsOut<T(!new)>(before: seq<T>, x: T, after: seq<T>, key: T -> string)
    requires !HasKey(before, key, key(x)) && !HasKey(after, key, key(x))
    ensures Remove(before + [x] + after, key, key(x)) == before + after
  {
    var k := key(x);
    assert before + [x] + after == before + ([x] + after);
    RemoveAppend([x], after, key, k);
    assert Remove([x], key, k) == [];
    RemoveAppend(before, [x] + after, key, k);
  }

  /**
   * With unique keys, deleting the key of the entry at position `i` cuts out
   * exactly that entry: the entries before and after it keep their order.
   */
  lemma RemoveKeepsOrder<T(!new)>(xs: seq<T>, key: T -> string, i: nat)
    requires UniqueKeys(xs, key) && i < |xs|
    ensures Remove(xs, key, key(xs[i])) == xs[..i] + xs[i + 1..]
  {
    OnlyOneWithKey(xs, key, i);
    assert xs == xs[..i] + [xs[i]] + xs[i + 1..];
    RemoveCutsOut(xs[..i], xs[i], xs[i + 1..], key);
  }

  /** Removing a key that is present from a map with unique keys shrinks it by one. */
  lemma {:induction false} RemovePresent<T(!new)>(xs: seq<T>, key: T -> string, k: string)
    requires UniqueKeys(xs, key) && HasKey(xs, key, k)
    ensures |Remove(xs, key, k)| == |xs| - 1
  {
    if key(xs[0]) != k {
      var j :| 0 <= j < |xs| && key(xs[j]) == k;
      assert key(xs[1..][j - 1]) == k;
      RemovePresent(xs[1..], key, k);
    }
  }
}
