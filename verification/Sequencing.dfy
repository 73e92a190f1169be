/** Dependency sequencing: what any schedule of reconciles makes of a batch of queued resources. */
module Sequencing {
  import opened Api
  import opened Operator
  import opened WellFounded

  // ----- the order in which resources fire, abstractly -----

  /** The dependency of `key` is absent or among the resources that have fired. */
  predicate Open(specs: Specs, done: set<ObjKey>, key: ObjKey)
    requires key in specs
  {
    var dep := specs[key].Dependency();
    dep.IsNil() || (DependencyKind(dep).Some? && DependencyKey(key, dep) in done)
  }

  predicate Firing(specs: Specs, done: set<ObjKey>, key: ObjKey) {
    key in specs && key !in done && Open(specs, done, key)
  }

  /** The resources that fire, in order, when the schedule `sched` is run after `done` have fired. */
  function Order(specs: Specs, done: set<ObjKey>, sched: seq<ObjKey>): seq<ObjKey>
    decreases |sched|
  {
    if sched == [] then []
    else if Firing(specs, done, sched[0]) then [sched[0]] + Order(specs, done + {sched[0]}, sched[1..])
    else Order(specs, done, sched[1..])
  }

  function Set(s: seq<ObjKey>): set<ObjKey> {
    set k | k in s
  }

  function DoneAfter(specs: Specs, done: set<ObjKey>, sched: seq<ObjKey>): set<ObjKey> {
    done + Set(Order(specs, done, sched))
  }

  /** No resource fires twice, and each fires after its dependency. */
  ghost predicate Ordered(specs: Specs, done: set<ObjKey>, order: seq<ObjKey>) {
    && (forall i :: 0 <= i < |order| ==> order[i] in specs && order[i] !in done && order[i] !in order[..i])
    && (forall i :: 0 <= i < |order| && order[i] in specs ==> Open(specs, done + Set(order[..i]), order[i]))
  }

  lemma {:induction false} SetCons(k: ObjKey, rest: seq<ObjKey>)
    ensures Set([k] + rest) == {k} + Set(rest)
  {
  }

  lemma {:induction false} ConsOrdered(specs: Specs, done: set<ObjKey>, key: ObjKey, rest: seq<ObjKey>)
    requires Firing(specs, done, key) && Ordered(specs, done + {key}, rest)
    ensures Ordered(specs, done, [key] + rest)
  {
    var order := [key] + rest;
    forall i | 0 <= i < |order|
      ensures order[i] in specs && order[i] !in done && order[i] !in order[..i]
      ensures Open(specs, done + Set(order[..i]), order[i])
    {
      if i == 0 {
        assert done + Set(order[..0]) == done;
      } else {
        assert order[..i] == [key] + rest[..i - 1] && order[i] == rest[i - 1];
        SetCons(key, rest[..i - 1]);
        assert done + Set(order[..i]) == (done + {key}) + Set(rest[..i - 1]);
      }
    }
  }

  /** Safety of every schedule. */
  lemma {:induction false} OrderIsOrdered(specs: Specs, done: set<ObjKey>, sched: seq<ObjKey>)
    ensures Ordered(specs, done, Order(specs, done, sched))
    decreases |sched|
  {
    if sched != [] {
      var key := sched[0];
      if Firing(specs, done, key) {
        OrderIsOrdered(specs, done + {key}, sched[1..]);
        ConsOrdered(specs, done, key, Order(specs, done + {key}, sched[1..]));
      } else {
        OrderIsOrdered(specs, done, sched[1..]);
      }
    }
  }

  lemma {:induction false} OrderAppend(specs: Specs, done: set<ObjKey>, a: seq<ObjKey>, b: seq<ObjKey>)
    ensures Order(specs, done, a + b) == Order(specs, done, a) + Order(specs, DoneAfter(specs, done, a), b)
    ensures DoneAfter(specs, done, a + b) == DoneAfter(specs, DoneAfter(specs, done, a), b)
    decreases |a|
  {
    if a == [] {
      assert a + b == b && DoneAfter(specs, done, a) == done;
    } else {
      var key := a[0];
      assert (a + b)[1..] == a[1..] + b;
      if Firing(specs, done, key) {
        var done' := done + {key};
        OrderAppend(specs, done', a[1..], b);
        SetCons(key, Order(specs, done', a[1..]));
        assert DoneAfter(specs, done, a) == DoneAfter(specs, done', a[1..]);
      } else {
        OrderAppend(specs, done, a[1..], b);
        assert DoneAfter(specs, done, a) == DoneAfter(specs, done, a[1..]);
      }
    }
  }

  /** Only resources whose chain of dependencies ends ever fire. */
  lemma {:induction false} OrderGrounded(specs: Specs, done: set<ObjKey>, sched: seq<ObjKey>, n: nat)
    requires forall k <- done :: Grounded(specs, k, n)
    ensures forall k <- DoneAfter(specs, done, sched) :: ChainEnds(specs, k)
    decreases |sched|
  {
    if sched == [] {
      assert DoneAfter(specs, done, sched) == done;
    } else {
      var key := sched[0];
      if Firing(specs, done, key) {
        var done' := done + {key};
        assert Grounded(specs, key, n + 1);
        forall k | k in done'
          ensures Grounded(specs, k, n + 1)
        {
          if k != key { GroundedUp(specs, k, n, n + 1); }
        }
        OrderGrounded(specs, done', sched[1..], n + 1);
        SetCons(key, Order(specs, done', sched[1..]));
        assert DoneAfter(specs, done, sched) == DoneAfter(specs, done', sched[1..]);
      } else {
        OrderGrounded(specs, done, sched[1..], n);
        assert DoneAfter(specs, done, sched) == DoneAfter(specs, done, sched[1..]);
      }
    }
  }

  // ----- passes -----

  /** A pass reconciles every resource at least once, in any order. */
  ghost predicate Pass(specs: Specs, sched: seq<ObjKey>) {
    forall key <- specs :: key in sched
  }

  function Flatten(passes: seq<seq<ObjKey>>): seq<ObjKey> {
    if passes == [] then [] else passes[0] + Flatten(passes[1..])
  }

  /** Once reconciled after its dependency has fired, a resource has fired. */
  lemma {:induction false} Turn(specs: Specs, done: set<ObjKey>, sched: seq<ObjKey>, key: ObjKey)
    requires key in specs && key in sched && Open(specs, done, key)
    ensures key in DoneAfter(specs, done, sched)
    decreases |sched|
  {
    var k := sched[0];
    if Firing(specs, done, k) {
      var done' := done + {k};
      SetCons(k, Order(specs, done', sched[1..]));
      assert DoneAfter(specs, done, sched) == DoneAfter(specs, done', sched[1..]);
      if k != key { Turn(specs, done', sched[1..], key); }
    } else {
      assert DoneAfter(specs, done, sched) == DoneAfter(specs, done, sched[1..]);
      if k != key { Turn(specs, done, sched[1..], key); }
    }
  }

  /** After `n` passes every resource whose chain has length at most `n` has fired. */
  lemma {:induction false} PassesFire(specs: Specs, done: set<ObjKey>, passes: seq<seq<ObjKey>>, key: ObjKey, n: nat)
    requires forall p <- passes :: Pass(specs, p)
    requires Grounded(specs, key, n) && n <= |passes|
    ensures key in DoneAfter(specs, done, Flatten(passes))
    decreases n
  {
    var first, last := passes[..n - 1], passes[n - 1..];
    FlattenSplit(passes, n - 1);
    OrderAppend(specs, done, Flatten(first), Flatten(last));
    var done' := DoneAfter(specs, done, Flatten(first));
    var dep := specs[key].Dependency();
    if !dep.IsNil() {
      PassesFire(specs, done, first, DependencyKey(key, dep), n - 1);
    }
    assert last[0] == passes[n - 1] && passes[n - 1] in passes;
    Turn(specs, done', Flatten(last), key);
  }

  lemma {:induction false} FlattenSplit(passes: seq<seq<ObjKey>>, n: nat)
    requires n <= |passes|
    ensures Flatten(passes) == Flatten(passes[..n]) + Flatten(passes[n..])
    decreases n
  {
    if n == 0 {
      assert passes[0..] == passes;
    } else {
      FlattenSplit(passes[1..], n - 1);
      assert passes[1..][..n - 1] == passes[..n][1..] && passes[1..][n - 1..] == passes[n..];
    }
  }

  // ----- as many passes as there are resources are enough -----

  function Level(specs: Specs, n: nat): set<ObjKey> {
    set k | k in specs && Grounded(specs, k, n)
  }

  lemma {:induction false} LevelUp(specs: Specs, n: nat)
    ensures Level(specs, n) <= Level(specs, n + 1)
  {
    forall k | k in Level(specs, n) { GroundedUp(specs, k, n, n + 1); }
  }

  lemma {:induction false} Stable(specs: Specs, n: nat, m: nat, key: ObjKey)
    requires Level(specs, n) == Level(specs, n + 1) && Grounded(specs, key, m)
    ensures key in Level(specs, n)
    decreases m
  {
    var dep := specs[key].Dependency();
    if dep.IsNil() {
      assert key in Level(specs, n + 1);
    } else {
      Stable(specs, n, m - 1, DependencyKey(key, dep));
      assert key in Level(specs, n + 1);
    }
  }

  lemma {:induction false} LevelSize(specs: Specs, n: nat)
    ensures |Level(specs, n)| >= n || exists i :: 0 <= i < n && Level(specs, i) == Level(specs, i + 1)
  {
    if n > 0 {
      LevelSize(specs, n - 1);
      LevelUp(specs, n - 1);
      if Level(specs, n - 1) != Level(specs, n) {
        SmallerSet(Level(specs, n - 1), Level(specs, n));
      } else {
        assert Level(specs, n - 1) == Level(specs, n - 1 + 1);
      }
    }
  }

  lemma {:induction false} SmallerSet(a: set<ObjKey>, b: set<ObjKey>)
    requires a < b
    ensures |a| < |b|
  {
    var x :| x in b && x !in a;
    assert a <= b - {x};
    SubsetSize(a, b - {x});
  }

  lemma {:induction false} SubsetSize(a: set<ObjKey>, b: set<ObjKey>)
    requires a <= b
    ensures |a| <= |b|
  {
    assert b == a + (b - a);
  }

  /** A chain that ends visits each resource at most once, so its length is at most their number. */
  lemma {:induction false} ChainIsShort(specs: Specs, key: ObjKey)
    requires ChainEnds(specs, key)
    ensures Grounded(specs, key, |specs|)
  {
    var m :| Grounded(specs, key, m);
    var n := |specs|;
    LevelSize(specs, n);
    if i :| 0 <= i < n && Level(specs, i) == Level(specs, i + 1) {
      Stable(specs, i, m, key);
      GroundedUp(specs, key, i, n);
    } else {
      assert Level(specs, n) <= specs.Keys;
      if Level(specs, n) != specs.Keys { SmallerSet(Level(specs, n), specs.Keys); }
    }
  }

  /** A schedule is fair when it contains as many passes as there are resources. */
  ghost predicate Fair(specs: Specs, sched: seq<ObjKey>) {
    exists passes: seq<seq<ObjKey>> ::
      sched == Flatten(passes) && |passes| >= |specs| && forall p <- passes :: Pass(specs, p)
  }

  /** Under a fair schedule a resource fires iff its chain of dependencies ends. */
  lemma {:induction false} FairFiresExactly(specs: Specs, sched: seq<ObjKey>, key: ObjKey)
    requires Fair(specs, sched)
    ensures key in DoneAfter(specs, {}, sched) <==> ChainEnds(specs, key)
  {
    OrderGrounded(specs, {}, sched, 0);
    if ChainEnds(specs, key) {
      ChainIsShort(specs, key);
      var passes: seq<seq<ObjKey>> :|
        sched == Flatten(passes) && |passes| >= |specs| && forall p <- passes :: Pass(specs, p);
      PassesFire(specs, {}, passes, key, |specs|);
    }
  }

  /** Progress: while a resource whose chain ends has not fired, every pass makes at least one more fire. */
  lemma {:induction false} PassMakesProgress(specs: Specs, done: set<ObjKey>, sched: seq<ObjKey>, key: ObjKey, n: nat)
    requires Pass(specs, sched) && Grounded(specs, key, n) && key !in done && done <= specs.Keys
    ensures done < DoneAfter(specs, done, sched) <= specs.Keys
    ensures |specs| - |DoneAfter(specs, done, sched)| < |specs| - |done|
    decreases n
  {
    OrderIsOrdered(specs, done, sched);
    var dep := specs[key].Dependency();
    if !dep.IsNil() && DependencyKey(key, dep) !in done {
      PassMakesProgress(specs, done, sched, DependencyKey(key, dep), n - 1);
    } else {
      Turn(specs, done, sched, key);
      assert done < DoneAfter(specs, done, sched);
      SmallerSet(done, DoneAfter(specs, done, sched));
    }
  }

  // ----- a single chain -----

  predicate LinkedAt(specs: Specs, c: seq<ObjKey>, i: nat)
    requires i < |c|
  {
    && c[i] in specs
    && var dep := specs[c[i]].Dependency();
       if i == 0 then dep.IsNil() else !dep.IsNil() && DependencyKind(dep).Some? && DependencyKey(c[i], dep) == c[i - 1]
  }

  /** The resources form one chain: the first depends on nothing, each other one on its predecessor. */
  ghost predicate IsChain(specs: Specs, c: seq<ObjKey>) {
    && (forall k :: k in specs <==> k in c)
    && (forall i, j :: 0 <= i < j < |c| ==> c[i] != c[j])
    && (forall i :: 0 <= i < |c| ==> LinkedAt(specs, c, i))
  }

  /** On a chain only the next resource can fire. */
  lemma {:induction false} OnlyNextFires(specs: Specs, c: seq<ObjKey>, n: nat, key: ObjKey)
    requires IsChain(specs, c) && n <= |c| && Firing(specs, Set(c[..n]), key)
    ensures n < |c| && key == c[n]
  {
    assert forall j :: 0 <= j < n ==> c[..n][j] == c[j] && c[j] in Set(c[..n]);
    var i :| 0 <= i < |c| && c[i] == key;
    assert LinkedAt(specs, c, i);
    if i > 0 {
      var j :| 0 <= j < n && c[..n][j] == c[i - 1];
      assert j == i - 1;
    }
  }

  /** On a chain every schedule fires a prefix of the chain, in its order. */
  lemma {:induction false} ChainOrder(specs: Specs, c: seq<ObjKey>, n: nat, sched: seq<ObjKey>)
    requires IsChain(specs, c) && n <= |c|
    ensures var order := Order(specs, Set(c[..n]), sched); |order| <= |c| - n && order == c[n..n + |order|]
    decreases |sched|
  {
    if sched != [] {
      var key, done := sched[0], Set(c[..n]);
      if Firing(specs, done, key) {
        OnlyNextFires(specs, c, n, key);
        assert c[..n + 1] == c[..n] + [key];
        assert Set(c[..n + 1]) == done + {key};
        ChainOrder(specs, c, n + 1, sched[1..]);
        var rest := Order(specs, done + {key}, sched[1..]);
        assert [key] + rest == c[n..n + 1 + |rest|];
      } else {
        ChainOrder(specs, c, n, sched[1..]);
      }
    }
  }

  lemma {:induction false} ChainGrounded(specs: Specs, c: seq<ObjKey>, i: nat)
    requires IsChain(specs, c) && i < |c|
    ensures Grounded(specs, c[i], i + 1)
  {
    assert LinkedAt(specs, c, i);
    if i > 0 { ChainGrounded(specs, c, i - 1); }
  }

  /** For a single chain the order of firing is unique: every fair schedule fires the whole chain, in order. */
  lemma {:induction false} FairChainOrder(specs: Specs, c: seq<ObjKey>, sched: seq<ObjKey>)
    requires IsChain(specs, c) && Fair(specs, sched)
    ensures Order(specs, {}, sched) == c
  {
    var order := Order(specs, {}, sched);
    assert Set(c[..0]) == {};
    ChainOrder(specs, c, 0, sched);
    if |order| < |c| {
      ChainGrounded(specs, c, |order|);
      assert c[|order|] !in order;
      FairFiresExactly(specs, sched, c[|order|]);
    }
  }
}
