/** Small helpers shared by the models: an optional value and JavaScript's
    one-element `Array.prototype.splice`. */
module Common {

  datatype Option<T> = None | Some(value: T)

  function Min(a: int, b: int): (m: int)
    ensures m <= a && m <= b && (m == a || m == b)
  {
    if a <= b then a else b
  }

  /** `s.splice(i, 1)`: the element at `i` leaves and every later element moves
      one slot to the left; an index past the end removes nothing. */
  function RemoveAt<T>(s: seq<T>, i: nat): (r: seq<T>)
    ensures |r| == if i < |s| then |s| - 1 else |s|
  {
    if i < |s| then s[..i] + s[i + 1..] else s
  }

  /** What `RemoveAt` keeps: the elements before `i` in place, the later ones
      one slot to the left, and every element but the one at `i`. */
  lemma RemoveAtShifts<T>(s: seq<T>, i: nat)
    requires i < |s|
    ensures Agree(RemoveAt(s, i), s, i)
    ensures RemoveAt(s, i)[i..] == s[i + 1..]
    ensures multiset(RemoveAt(s, i)) + multiset{s[i]} == multiset(s)
  {
    assert s == s[..i] + [s[i]] + s[i + 1..];
  }

  /** `RemoveAt` never adds an element. */
  lemma RemoveAtSubset<T>(s: seq<T>, i: nat)
    ensures forall x :: x in RemoveAt(s, i) ==> x in s
  {
    if i < |s| {
      assert s == s[..i] + [s[i]] + s[i + 1..];
    }
  }

  /** The only element `RemoveAt` can make disappear is the one it splices. */
  lemma RemoveAtLoses<T>(s: seq<T>, i: nat, x: T)
    requires x in s && x !in RemoveAt(s, i)
    ensures i < |s| && x == s[i]
  {
    if i < |s| {
      assert s == s[..i] + [s[i]] + s[i + 1..];
    }
  }

  /** `a` and `b` both have at least `k` elements and the same first `k`. */
  ghost predicate Agree<T>(a: seq<T>, b: seq<T>, k: nat)
  {
    k <= |a| && k <= |b| && a[..k] == b[..k]
  }

  lemma AgreeShorter<T>(a: seq<T>, b: seq<T>, k: nat)
    requires Agree(a, b, k + 1)
    ensures Agree(a, b, k) && a[k] == b[k]
  {
    assert a[..k] == a[..k + 1][..k] && b[..k] == b[..k + 1][..k];
    assert a[k] == a[..k + 1][k] && b[k] == b[..k + 1][k];
  }

  /** `s` without the block of `n` elements that starts at `k`, the block cut
      short at the end of `s`. */
  function Cut<T>(s: seq<T>, k: nat, n: nat): (r: seq<T>)
    requires k <= |s|
    ensures |s| - n <= |r| <= |s|
    ensures forall x :: x in r ==> x in s
  {
    s[..k] + s[Min(k + n, |s|)..]
  }

  /** Removing the element at `k` and then a block of `n` from `k` is removing
      a block of `n + 1`. */
  lemma CutStep<T>(s: seq<T>, k: nat, n: nat)
    requires k <= |s|
    ensures Cut(RemoveAt(s, k), k, n) == Cut(s, k, n + 1)
  {
    if k < |s| {
      RemoveAtShifts(s, k);
      var t := RemoveAt(s, k);
      var m := Min(k + n, |t|);
      assert t[m..] == t[k..][m - k..];
      assert s[m + 1..] == s[k + 1..][m - k..];
    }
  }

  /** After `splice(k, 1)`, the list up to and including slot `k` is the old
      prefix followed by the successor that slid in, and the rest follows it. */
  lemma SpliceSplit<T>(s: seq<T>, k: nat)
    requires k + 1 < |s|
    ensures RemoveAt(s, k)[..k + 1] == s[..k] + [s[k + 1]]
    ensures RemoveAt(s, k)[k + 1..] == s[k + 2..]
  {
  }

  /** After replacing slot `k`, the list up to and including it is the old
      prefix followed by the new element, and the rest is unchanged. */
  lemma UpdateSplit<T>(s: seq<T>, k: nat, x: T)
    requires k < |s|
    ensures s[k := x][..k + 1] == s[..k] + [x]
    ensures s[k := x][k + 1..] == s[k + 1..]
  {
  }

  lemma Regroup<T>(a: seq<T>, b: seq<T>, c: seq<T>)
    ensures a + (b + c) == (a + b) + c
  {
  }
}
