/** Circular doubly linked lists as values: when next/prev maps thread a sequence, and what
    inserting and unlinking one node does to every list at once. */
module Rings {
  import opened Layout

  type Link = map<Addr, Addr>
  type Heads = map<Addr, seq<Addr>>

  ghost predicate Total(m: Link) {
    forall a: Addr :: a in m
  }

  /** The list walked once around, from the head back to the head. */
  function Around(h: Addr, s: seq<Addr>): seq<Addr> {
    [h] + s + [h]
  }

  ghost predicate Linked(next: Link, prev: Link, h: Addr, s: seq<Addr>)
    requires Total(next) && Total(prev)
  {
    var c := Around(h, s);
    forall i, j | 0 <= i && j == i + 1 && j < |c| :: next[c[i]] == c[j] && prev[c[j]] == c[i]
  }

  ghost predicate NoDup<T>(s: seq<T>) {
    forall i, j | 0 <= i < j < |s| :: s[i] != s[j]
  }

  /** Heads head, nodes fit, no node occurs twice, and no node is on two lists. */
  ghost predicate Shape(rings: Heads) {
    && (forall h | h in rings :: h.IsHead() && NoDup(rings[h]))
    && (forall h, x | h in rings && x in rings[h] :: Fits(h, x))
    && (forall h, g, x | h in rings && g in rings && x in rings[h] && x in rings[g] :: h == g)
  }

  /** A walk stands at the head only at its end. */
  lemma HeadIsNoNode(rings: Heads, h: Addr)
    requires Shape(rings) && h in rings
    ensures h !in rings[h]
  {
    forall x | x in rings[h] ensures x != h {
      assert Fits(h, x);
    }
  }

  /** x is threaded on no list. */
  ghost predicate Loose(rings: Heads, x: Addr) {
    forall h | h in rings :: x !in rings[h]
  }

  /** The contents of list h, empty while h has never been initialised. */
  function On(rings: Heads, h: Addr): seq<Addr> {
    if h in rings then rings[h] else []
  }

  function Insert<T>(s: seq<T>, k: nat, x: T): seq<T>
    requires k <= |s|
  {
    s[..k] + [x] + s[k..]
  }

  function Delete<T>(s: seq<T>, k: nat): seq<T>
    requires k < |s|
  {
    s[..k] + s[k+1..]
  }

  /** s without x (s itself if x does not occur). */
  function Without<T(==)>(s: seq<T>, x: T): seq<T> {
    if s == [] then [] else if s[0] == x then s[1..] else [s[0]] + Without(s[1..], x)
  }

  lemma {:induction false} WithoutIsDelete<T>(s: seq<T>, k: nat)
    requires k < |s| && NoDup(s)
    ensures Without(s, s[k]) == Delete(s, k)
  {
    if k > 0 {
      WithoutIsDelete(s[1..], k - 1);
      assert Delete(s, k) == [s[0]] + Delete(s[1..], k - 1);
    }
  }

  lemma {:induction false} WithoutAbsent<T>(s: seq<T>, x: T)
    requires x !in s
    ensures Without(s, x) == s
  {
    if s != [] {
      WithoutAbsent(s[1..], x);
    }
  }

  lemma DeleteMembers<T>(s: seq<T>, k: nat)
    requires k < |s| && NoDup(s)
    ensures NoDup(Delete(s, k)) && |Delete(s, k)| == |s| - 1
    ensures forall y :: y in Delete(s, k) <==> y in s && y != s[k]
  {
    var t := Delete(s, k);
    assert forall i | 0 <= i < |t| :: t[i] == s[if i < k then i else i + 1];
    forall y | y in s && y != s[k] ensures y in t {
      var i :| 0 <= i < |s| && s[i] == y;
      assert t[if i < k then i else i - 1] == y;
    }
  }

  lemma {:induction false} WithoutMembers<T>(s: seq<T>, x: T)
    requires NoDup(s)
    ensures NoDup(Without(s, x))
    ensures forall y :: y in Without(s, x) <==> y in s && y != x
    ensures |Without(s, x)| == if x in s then |s| - 1 else |s|
  {
    if x in s {
      var k :| 0 <= k < |s| && s[k] == x;
      WithoutIsDelete(s, k);
      DeleteMembers(s, k);
    } else {
      WithoutAbsent(s, x);
    }
  }
}
