/** Dependency injection: values constructed by recursion over a graph of bindings, each at most once. */
module IceSpec {
  import opened Sequences
  import opened Wrappers

  type Key = string

  /** How to make the value of a key: the keys of its arguments, and the constructor, which may fail. */
  datatype Provider<!V> = Provider(args: seq<Key>, make: seq<V> -> Option<V>)

  type Bag<!V> = map<Key, Provider<V>>

  // -------------------------------------------------------------------------------------------
  // Plain recursion, without cache or cycle check, cut off at a depth.

  ghost function Plain<V>(b: Bag<V>, key: Key, n: nat): Option<V>
    decreases n, 0
  {
    if n == 0 || key !in b then None else
    var args := PlainAll(b, b[key].args, n - 1);
    if args.None? then None else b[key].make(args.value)
  }

  ghost function PlainAll<V>(b: Bag<V>, keys: seq<Key>, n: nat): Option<seq<V>>
    decreases n, |keys| + 1
  {
    if keys == [] then Some([]) else
    var init, last := PlainAll(b, keys[..|keys| - 1], n), Plain(b, keys[|keys| - 1], n);
    if init.None? || last.None? then None else Some(init.value + [last.value])
  }

  /** The value of a key, which plain recursion finds at some depth and at every greater one. */
  ghost predicate Yields<V(!new)>(b: Bag<V>, key: Key, v: V) { exists n: nat :: Plain(b, key, n) == Some(v) }

  ghost predicate Constructible<V>(b: Bag<V>, key: Key) { exists n: nat :: Plain(b, key, n).Some? }

  lemma {:induction false} DeeperIsSame<V>(b: Bag<V>, key: Key, n: nat, m: nat)
    requires n <= m && Plain(b, key, n).Some?
    ensures Plain(b, key, m) == Plain(b, key, n)
    decreases n, 0
  {
    DeeperAllIsSame(b, b[key].args, n - 1, m - 1);
  }

  lemma {:induction false} DeeperAllIsSame<V>(b: Bag<V>, keys: seq<Key>, n: nat, m: nat)
    requires n <= m && PlainAll(b, keys, n).Some?
    ensures PlainAll(b, keys, m) == PlainAll(b, keys, n)
    decreases n, |keys| + 1
  {
    if keys != [] {
      DeeperAllIsSame(b, keys[..|keys| - 1], n, m);
      DeeperIsSame(b, keys[|keys| - 1], n, m);
    }
  }

  lemma YieldsOnce<V(!new)>(b: Bag<V>, key: Key, v: V, w: V)
    requires Yields(b, key, v) && Yields(b, key, w)
    ensures v == w
  {
    var n: nat :| Plain(b, key, n) == Some(v);
    var m: nat :| Plain(b, key, m) == Some(w);
    DeeperIsSame(b, key, n, n + m);
    DeeperIsSame(b, key, m, n + m);
  }

  lemma {:induction false} ArgsOfPlain<V>(b: Bag<V>, keys: seq<Key>, n: nat, i: nat)
    requires PlainAll(b, keys, n).Some? && i < |keys|
    ensures |PlainAll(b, keys, n).value| == |keys| && Plain(b, keys[i], n) == Some(PlainAll(b, keys, n).value[i])
  {
    if i < |keys| - 1 {
      ArgsOfPlain(b, keys[..|keys| - 1], n, i);
    } else if |keys| > 1 {
      ArgsOfPlain(b, keys[..|keys| - 1], n, 0);
    }
  }

  /** Plain recursion on a key goes through each of its arguments. */
  lemma ArgIsConstructible<V>(b: Bag<V>, key: Key, i: nat)
    requires Constructible(b, key) && key in b && i < |b[key].args|
    ensures Constructible(b, b[key].args[i])
  {
    var n: nat :| Plain(b, key, n).Some?;
    ArgsOfPlain(b, b[key].args, n - 1, i);
  }

  lemma {:induction false} AllYield<V(!new)>(b: Bag<V>, keys: seq<Key>, vs: seq<V>) returns (n: nat)
    requires |vs| == |keys| && forall i :: 0 <= i < |keys| ==> Yields(b, keys[i], vs[i])
    ensures PlainAll(b, keys, n) == Some(vs)
  {
    if keys == [] { return 0; }
    var k := |keys| - 1;
    var n1 := AllYield(b, keys[..k], vs[..k]);
    assert Yields(b, keys[k], vs[k]);
    var n2: nat :| Plain(b, keys[k], n2) == Some(vs[k]);
    n := n1 + n2;
    DeeperAllIsSame(b, keys[..k], n1, n);
    DeeperIsSame(b, keys[k], n2, n);
    assert vs == vs[..k] + [vs[k]];
  }

  /** Making a value from the values of its arguments is what plain recursion does. */
  lemma MadeYields<V(!new)>(b: Bag<V>, key: Key, vs: seq<V>)
    requires key in b && |vs| == |b[key].args| && forall i :: 0 <= i < |vs| ==> Yields(b, b[key].args[i], vs[i])
    ensures b[key].make(vs).Some? ==> Yields(b, key, b[key].make(vs).value)
    ensures b[key].make(vs).None? ==> !Constructible(b, key)
  {
    var n := AllYield(b, b[key].args, vs);
    assert Plain(b, key, n + 1) == b[key].make(vs);
    if m: nat :| Plain(b, key, m).Some? {
      DeeperIsSame(b, key, m, m + n + 1);
      DeeperAllIsSame(b, b[key].args, n, m + n);
    }
  }

  // -------------------------------------------------------------------------------------------
  // Chains of constructors.

  /** Each key is an argument of the one before it. */
  ghost predicate Chain<V>(b: Bag<V>, p: seq<Key>) {
    forall i :: 0 <= i < |p| - 1 ==> p[i] in b && p[i + 1] in b[p[i]].args
  }

  lemma {:induction false} ChainDescends<V>(b: Bag<V>, p: seq<Key>, n: nat)
    requires p != [] && Chain(b, p) && Plain(b, p[0], n).Some?
    ensures n >= |p| && Plain(b, p[|p| - 1], n - (|p| - 1)).Some?
    decreases |p|
  {
    if |p| > 1 {
      var i :| 0 <= i < |b[p[0]].args| && b[p[0]].args[i] == p[1];
      ArgsOfPlain(b, b[p[0]].args, n - 1, i);
      assert Chain(b, p[1..]) by { assert forall k :: 0 <= k < |p[1..]| ==> p[1..][k] == p[k + 1]; }
      ChainDescends(b, p[1..], n - 1);
    }
  }

  lemma {:induction false} NoDepthForCycle<V>(b: Bag<V>, p: seq<Key>, n: nat)
    requires |p| > 1 && Chain(b, p) && p[|p| - 1] == p[0]
    ensures Plain(b, p[0], n).None?
    decreases n
  {
    if Plain(b, p[0], n).Some? {
      ChainDescends(b, p, n);
      NoDepthForCycle(b, p, n - (|p| - 1));
      assert false;
    }
  }

  /** A chain that comes back to its first key has no value there. */
  lemma CycleHasNoValue<V>(b: Bag<V>, p: seq<Key>)
    requires |p| > 1 && Chain(b, p) && p[|p| - 1] == p[0]
    ensures !Constructible(b, p[0])
  {
    forall n: nat ensures Plain(b, p[0], n).None? { NoDepthForCycle(b, p, n); }
  }

  ghost predicate Works<V(!new)>(b: Bag<V>, key: Key)
    requires key in b
  {
    forall vs: seq<V> :: |vs| == |b[key].args| && (forall i :: 0 <= i < |vs| ==> Yields(b, b[key].args[i], vs[i])) ==>
      b[key].make(vs).Some?
  }

  /** However one follows arguments from the key, one never comes back to a key, and finds every key bound to a
      provider that does not fail. */
  ghost predicate Sound<V(!new)>(b: Bag<V>, key: Key) {
    forall p: seq<Key> :: p != [] && p[0] == key && Chain(b, p) ==> NoDup(p) && p[|p| - 1] in b && Works(b, p[|p| - 1])
  }

  lemma ChainPart<V>(b: Bag<V>, p: seq<Key>, i: nat, j: nat)
    requires Chain(b, p) && i <= j <= |p|
    ensures Chain(b, p[i..j])
  {
    assert forall k :: 0 <= k < j - i ==> p[i..j][k] == p[i + k];
  }

  lemma ChainEndIsConstructible<V>(b: Bag<V>, p: seq<Key>)
    requires p != [] && Chain(b, p) && Constructible(b, p[0])
    ensures Constructible(b, p[|p| - 1])
  {
    var n: nat :| Plain(b, p[0], n).Some?;
    ChainDescends(b, p, n);
  }

  lemma NoCycleFromConstructible<V>(b: Bag<V>, p: seq<Key>, i: nat, j: nat)
    requires Chain(b, p) && i < j < |p| && Constructible(b, p[0])
    ensures p[i] != p[j]
  {
    ChainPart(b, p, 0, i + 1);
    ChainEndIsConstructible(b, p[0..i + 1]);
    if p[i] == p[j] {
      ChainPart(b, p, i, j + 1);
      CycleHasNoValue(b, p[i..j + 1]);
      assert false;
    }
  }

  lemma ConstructibleIsSound<V(!new)>(b: Bag<V>, key: Key)
    requires Constructible(b, key)
    ensures Sound(b, key)
  {
    forall p: seq<Key> | p != [] && p[0] == key && Chain(b, p)
      ensures NoDup(p) && p[|p| - 1] in b && Works(b, p[|p| - 1])
    {
      var last := p[|p| - 1];
      forall i, j | 0 <= i < j < |p| ensures p[i] != p[j] { NoCycleFromConstructible(b, p, i, j); }
      ChainEndIsConstructible(b, p);
      assert last in b;
      forall vs: seq<V> | |vs| == |b[last].args| && forall i :: 0 <= i < |vs| ==> Yields(b, b[last].args[i], vs[i])
        ensures b[last].make(vs).Some?
      {
        MadeYields(b, last, vs);
      }
    }
  }

  lemma {:induction false} SoundChainEnds<V(!new)>(b: Bag<V>, p: seq<Key>)
    requires p != [] && Chain(b, p) && Sound(b, p[0])
    ensures Constructible(b, p[|p| - 1])
    decreases b.Keys - (set k <- p)
  {
    var last := p[|p| - 1];
    var args := b[last].args;
    forall i | 0 <= i < |args| ensures Constructible(b, args[i]) {
      var q := p + [args[i]];
      assert Chain(b, q);
      assert q[0] == p[0];
      LongerLeavesLess(b, p, args[i]);
      SoundChainEnds(b, q);
    }
    var vs := ValuesOf(b, args, |args|);
    MadeYields(b, last, vs);
    YieldsIsConstructible(b, last, b[last].make(vs).value);
  }

  lemma LongerLeavesLess<V(!new)>(b: Bag<V>, p: seq<Key>, key: Key)
    requires p != [] && Sound(b, p[0]) && Chain(b, p + [key])
    ensures b.Keys - (set k <- p + [key]) < b.Keys - (set k <- p)
  {
    var q := p + [key];
    assert q[0] == p[0] && q[|q| - 1] == key;
    assert key !in p by { forall i | 0 <= i < |p| ensures p[i] != key { assert q[i] != q[|p|]; } }
    assert (set k <- q) == (set k <- p) + {key};
    assert key in b.Keys - (set k <- p);
  }

  lemma {:induction false} ValuesOf<V(!new)>(b: Bag<V>, args: seq<Key>, n: nat) returns (vs: seq<V>)
    requires n <= |args| && forall i :: 0 <= i < |args| ==> Constructible(b, args[i])
    ensures |vs| == n && forall i :: 0 <= i < n ==> Yields(b, args[i], vs[i])
  {
    if n == 0 { return []; }
    vs := ValuesOf(b, args, n - 1);
    var k: nat :| Plain(b, args[n - 1], k).Some?;
    assert Yields(b, args[n - 1], Plain(b, args[n - 1], k).value);
    vs := vs + [Plain(b, args[n - 1], k).value];
  }

  lemma YieldsIsConstructible<V(!new)>(b: Bag<V>, key: Key, v: V)
    requires Yields(b, key, v)
    ensures Constructible(b, key)
  {
    var n: nat :| Plain(b, key, n) == Some(v);
    assert Plain(b, key, n).Some?;
  }

  /** A value can be constructed exactly when everything reachable is bound and acyclic and no provider fails. */
  lemma ConstructibleIffSound<V(!new)>(b: Bag<V>, key: Key)
    ensures Constructible(b, key) <==> Sound(b, key)
  {
    if Constructible(b, key) {
      ConstructibleIsSound(b, key);
    } else if Sound(b, key) {
      SoundChainEnds(b, [key]);
      assert false;
    }
  }
}

module Ice {
  import opened Sequences
  import opened Wrappers
  import opened IceSpec

  datatype Failure = Cycle(key: Key) | Unbound(key: Key) | ProviderFailed(key: Key)

  class Evaluation<V(!new)> {
    const bag: Bag<V>
    var values: map<Key, V>
    var stack: seq<Key>
    /** How often each provider was called. */
    ghost var calls: multiset<Key>

    constructor (bag: Bag<V>)
      ensures this.bag == bag && values == map[] && stack == [] && calls == multiset{}
    {
      this.bag := bag;
      values, stack, calls := map[], [], multiset{};
    }

    /** Everything cached is what plain recursion gives, and was made by one call. */
    ghost predicate CacheOk()
      reads this
    {
      && (forall k <- values :: Yields(bag, k, values[k]))
      && (forall k :: calls[k] == if k in values then 1 else 0)
    }

    /** The stack is a chain of different bound keys, none of which is made yet. */
    ghost predicate StackOk()
      reads this
    {
      && Chain(bag, stack) && NoDup(stack)
      && (forall k <- stack :: k in bag && k !in values)
    }

    ghost predicate CalledOnce()
      reads this
    {
      forall k :: calls[k] <= 1
    }

    ghost predicate MayFollow(key: Key)
      reads this
    {
      stack != [] ==> stack[|stack| - 1] in bag && key in bag[stack[|stack| - 1]].args
    }

    /** The failure is what the end of the chain of constructors shows. */
    ghost predicate Explains(f: Failure)
      reads this
    {
      && stack != [] && Chain(bag, stack) && f.key == stack[|stack| - 1]
      && (f.Cycle? ==> f.key in stack[..|stack| - 1]) && (f.Unbound? ==> f.key !in bag)
    }

    lemma PushKeepsChain(key: Key)
      requires Chain(bag, stack) && MayFollow(key)
      ensures Chain(bag, stack + [key])
    {
    }

    /** Constructs a value: with what plain recursion gives if it gives one, and with the chain of constructors that
        led to the failure otherwise. */
    method Construct(key: Key) returns (r: Result<V, Failure>)
      requires CacheOk() && StackOk() && MayFollow(key)
      modifies this
      ensures CalledOnce()
      ensures r.Ok? ==> CacheOk() && StackOk() && stack == old(stack) && key in values && r.value == values[key]
      ensures r.Ok? ==> old(values.Keys) <= values.Keys && Yields(bag, key, r.value)
      ensures r.Err? ==> !Constructible(bag, key) && old(stack) <= stack && Explains(r.error)
      decreases bag.Keys - (set k <- stack), 1
    {
      PushKeepsChain(key);
      CachedOnce();
      stack := stack + [key];
      assert stack[..|stack| - 1] == old(stack);
      if key in stack[..|stack| - 1] {
        CycleAtEnd(old(stack), key);
        return Err(Cycle(key));
      }
      if key in values {
        stack := stack[..|stack| - 1];
        return Ok(values[key]);
      }
      if key !in bag {
        UnboundHasNone(key);
        return Err(Unbound(key));
      }
      FewerKeysLeft(old(stack), key);
      r := MakeTop(key);
    }

    lemma CachedOnce()
      requires CacheOk()
      ensures CalledOnce()
    {
    }

    lemma UnboundHasNone(key: Key)
      requires key !in bag
      ensures !Constructible(bag, key)
    {
    }

    lemma CycleAtEnd(before: seq<Key>, key: Key)
      requires Chain(bag, before + [key]) && key in before
      ensures !Constructible(bag, key)
    {
      var i :| 0 <= i < |before| && before[i] == key;
      var p := (before + [key])[i..];
      assert forall k :: 0 <= k < |p| ==> p[k] == (before + [key])[i + k];
      CycleHasNoValue(bag, p);
    }

    lemma FewerKeysLeft(before: seq<Key>, key: Key)
      requires key in bag && key !in before
      ensures bag.Keys - (set k <- before + [key]) < bag.Keys - (set k <- before)
    {
      assert (set k <- before + [key]) == (set k <- before) + {key};
      assert key in bag.Keys - (set k <- before);
    }

    method MakeArgs(key: Key) returns (r: Result<seq<V>, Failure>)
      requires CacheOk() && StackOk() && stack != [] && stack[|stack| - 1] == key
      modifies this
      ensures CalledOnce()
      ensures r.Ok? ==> CacheOk() && StackOk() && stack == old(stack) && old(values.Keys) <= values.Keys
      ensures r.Ok? ==> |r.value| == |bag[key].args|
      ensures r.Ok? ==> forall j :: 0 <= j < |r.value| ==> Yields(bag, bag[key].args[j], r.value[j])
      ensures r.Err? ==> !Constructible(bag, key) && old(stack) <= stack && Explains(r.error)
      decreases bag.Keys - (set k <- stack), 2
    {
      var args := [];
      for i := 0 to |bag[key].args|
        invariant CacheOk() && StackOk() && stack == old(stack) && old(values.Keys) <= values.Keys
        invariant |args| == i && forall j :: 0 <= j < i ==> Yields(bag, bag[key].args[j], args[j])
      {
        var arg := Construct(bag[key].args[i]);
        if arg.Err? {
          ArgFails(key, i);
          return Err(arg.error);
        }
        args := args + [arg.value];
      }
      return Ok(args);
    }

    /** Makes the value of the key on top of the stack, which it then leaves. */
    method MakeTop(key: Key) returns (r: Result<V, Failure>)
      requires CacheOk() && StackOk() && stack != [] && stack[|stack| - 1] == key
      modifies this
      ensures CalledOnce()
      ensures r.Ok? ==> CacheOk() && StackOk() && stack == old(stack[..|stack| - 1])
      ensures r.Ok? ==> old(values.Keys) <= values.Keys && Yields(bag, key, r.value)
      ensures r.Ok? ==> key in values && r.value == values[key]
      ensures r.Err? ==> !Constructible(bag, key) && old(stack) <= stack && Explains(r.error)
      decreases bag.Keys - (set k <- stack), 4
    {
      r := Make(key);
      if r.Ok? { stack := stack[..|stack| - 1]; }
    }

    /** Constructs the arguments of the key on top of the stack, calls its provider and caches the result. */
    method Make(key: Key) returns (r: Result<V, Failure>)
      requires CacheOk() && StackOk() && stack != [] && stack[|stack| - 1] == key
      modifies this
      ensures CalledOnce()
      ensures r.Ok? ==> CacheOk() && stack == old(stack) && key in values && r.value == values[key]
      ensures r.Ok? ==> old(values.Keys) <= values.Keys && Yields(bag, key, r.value)
      ensures r.Ok? ==> forall k <- stack[..|stack| - 1] :: k !in values
      ensures r.Err? ==> !Constructible(bag, key) && old(stack) <= stack && Explains(r.error)
      decreases bag.Keys - (set k <- stack), 3
    {
      var args := MakeArgs(key);
      if args.Err? { return Err(args.error); }
      MadeYields(bag, key, args.value);
      calls := calls + multiset{key};
      var v := bag[key].make(args.value);
      if v.None? { return Err(ProviderFailed(key)); }
      values := values[key := v.value];
      return Ok(v.value);
    }

    lemma ArgFails(key: Key, i: nat)
      requires key in bag && i < |bag[key].args| && !Constructible(bag, bag[key].args[i])
      ensures !Constructible(bag, key)
    {
      if Constructible(bag, key) {
        ArgIsConstructible(bag, key, i);
        assert false;
      }
    }
  }

  /** Extracting a value succeeds exactly when plain recursion has one, gives the same, and calls no provider twice. */
  method Extract<V(!new)>(bag: Bag<V>, key: Key) returns (r: Result<V, Failure>, ghost calls: multiset<Key>)
    ensures r.Ok? <==> Constructible(bag, key)
    ensures r.Ok? <==> Sound(bag, key)
    ensures r.Ok? ==> Yields(bag, key, r.value)
    ensures forall k :: calls[k] <= 1
  {
    ConstructibleIffSound(bag, key);
    var e := new Evaluation(bag);
    r := e.Construct(key);
    calls := e.calls;
    if r.Ok? { YieldsIsConstructible(bag, key, r.value); }
  }
}
