/** Facts about sequences that several parts of the model share. */
module Sequences {
  ghost predicate NoDup<T>(s: seq<T>) {
    forall i, j :: 0 <= i < j < |s| ==> s[i] != s[j]
  }

  lemma NoDupConcat<T>(a: seq<T>, b: seq<T>)
    requires NoDup(a) && NoDup(b) && forall x <- a :: x !in b
    ensures NoDup(a + b)
  {
    forall i, j | 0 <= i < j < |a + b| ensures (a + b)[i] != (a + b)[j] {
      if i < |a| <= j { assert a[i] in a && b[j - |a|] in b; }
    }
  }

  lemma {:induction false} NoDupOnce<T>(s: seq<T>, x: T)
    requires NoDup(s)
    ensures multiset(s)[x] <= 1
  {
    if s != [] {
      assert s == [s[0]] + s[1..];
      NoDupOnce(s[1..], x);
      if s[0] == x { assert x !in s[1..]; }
    }
  }

  lemma SubBagNoDup<T>(s: seq<T>, all: seq<T>)
    requires NoDup(all) && multiset(s) <= multiset(all)
    ensures NoDup(s) && forall x <- s :: x in all
  {
    forall i, j | 0 <= i < j < |s| ensures s[i] != s[j] {
      NoDupOnce(all, s[i]);
      assert s == s[..i] + [s[i]] + s[i + 1..j] + [s[j]] + s[j + 1..];
    }
    forall x | x in s ensures x in all { assert x in multiset(s); }
  }

  function Without<T>(a: seq<T>, i: nat): seq<T>
    requires i < |a|
  {
    a[..i] + a[i + 1..]
  }

  lemma ConcatAssociates<T>(a: seq<T>, b: seq<T>, c: seq<T>)
    ensures (a + b) + c == a + (b + c)
  {
  }

  /** The sequences one after the other. */
  function Flat<T>(xs: seq<seq<T>>): seq<T> { if xs == [] then [] else xs[0] + Flat(xs[1..]) }

  lemma FlatCons<T>(x: seq<T>, xs: seq<seq<T>>)
    ensures Flat([x] + xs) == x + Flat(xs)
  {
    assert ([x] + xs)[1..] == xs;
  }

  lemma FlatOne<T>(x: seq<T>)
    ensures Flat([x]) == x
  {
    assert [x][1..] == [];
  }

  lemma {:induction false} FlatConcat<T>(xs: seq<seq<T>>, ys: seq<seq<T>>)
    ensures Flat(xs + ys) == Flat(xs) + Flat(ys)
  {
    if xs == [] {
      assert xs + ys == ys;
    } else {
      assert (xs + ys)[1..] == xs[1..] + ys;
      FlatConcat(xs[1..], ys);
      ConcatAssociates(xs[0], Flat(xs[1..]), Flat(ys));
    }
  }

  function Sum(ns: seq<nat>): nat { if ns == [] then 0 else ns[0] + Sum(ns[1..]) }

  lemma SumCons(n: nat, ns: seq<nat>)
    ensures Sum([n] + ns) == n + Sum(ns)
  {
    assert ([n] + ns)[1..] == ns;
  }

  lemma WithoutInit<T>(a: seq<T>, i: nat)
    requires i < |a|
    ensures var n := |a| - 1; Without(a, i) == if i < n then Without(a[..n], i) + [a[n]] else a[..n]
  {
  }

  /** The backing array once the tail after `at` was moved down: its last place keeps what it had. */
  ghost function MovedDown<T>(xs: seq<T>, at: nat): seq<T>
    requires at < |xs|
  {
    Without(xs, at) + [xs[|xs| - 1]]
  }

  lemma MoveDown<T>(xs: seq<T>, i: nat)
    requires i < |xs|
    ensures xs[..i] + xs[i + 1..|xs|] + xs[|xs| - 1..] == MovedDown(xs, i)
  {
    assert xs[|xs| - 1..] == [xs[|xs| - 1]] && xs[i + 1..|xs|] == xs[i + 1..];
  }

  lemma MovedDownAt<T>(xs: seq<T>, at: nat, i: nat)
    requires at < i < |xs|
    ensures MovedDown(xs, at)[i] == xs[if i + 1 < |xs| then i + 1 else i]
  {
  }

  /** Go's idiom of deleting from a slice while ranging over it: on a hit the tail is moved down one place in the
      backing array that is being ranged over. With at most one hit, exactly the hit is removed. */
  method RangeDelete<T>(xs: seq<T>, hit: T -> bool) returns (r: seq<T>, at: nat)
    requires forall i, j :: 0 <= i < |xs| && 0 <= j < |xs| && hit(xs[i]) && hit(xs[j]) ==> i == j
    ensures at <= |xs| && forall i :: 0 <= i < |xs| ==> (hit(xs[i]) <==> i == at)
    ensures r == if at < |xs| then Without(xs, at) else xs
  {
    var buf, len := xs, |xs|;
    at := |xs|;
    for i := 0 to |xs|
      invariant |buf| == |xs| && at <= |xs|
      invariant at == |xs| ==> buf == xs && len == |xs| && forall k :: 0 <= k < i ==> !hit(xs[k])
      invariant at < |xs| ==> at < i && hit(xs[at]) && len == |xs| - 1 && buf == MovedDown(xs, at)
    {
      if at < |xs| { MovedDownAt(xs, at, i); }
      if hit(buf[i]) {
        MoveDown(xs, i);
        buf := buf[..i] + buf[i + 1..len] + buf[len - 1..];
        len := len - 1;
        at := i;
      }
    }
    if at < |xs| { assert MovedDown(xs, at)[..|xs| - 1] == Without(xs, at); }
    r := buf[..len];
  }
}
