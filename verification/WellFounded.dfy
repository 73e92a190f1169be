/** Which resources can ever fire: with fixed specs, only those whose chain of dependencies ends. */
module WellFounded {
  import opened Api
  import opened Operator
  import opened Invariants
  import opened SessionLife
  import opened Causality
  import opened Safety

  type Specs = map<ObjKey, Spec>

  /** The resource a dependency points to, in the namespace of the dependant. */
  function DependencyKey(key: ObjKey, dep: DependsOn): ObjKey
    requires DependencyKind(dep).Some?
  {
    ObjKey(DependencyKind(dep).value, NsName(key.nn.ns, dep.name))
  }

  /** Following `dependsOn` from `key` reaches, through existing resources, one that depends on nothing,
      visiting at most `n` resources. */
  predicate Grounded(specs: Specs, key: ObjKey, n: nat)
    decreases n
  {
    && n > 0 && key in specs
    && var dep := specs[key].Dependency();
       dep.IsNil() || (DependencyKind(dep).Some? && Grounded(specs, DependencyKey(key, dep), n - 1))
  }

  ghost predicate ChainEnds(specs: Specs, key: ObjKey) {
    exists n :: Grounded(specs, key, n)
  }

  lemma {:induction false} GroundedUp(specs: Specs, key: ObjKey, n: nat, n': nat)
    requires Grounded(specs, key, n) && n <= n'
    ensures Grounded(specs, key, n')
    decreases n
  {
    var dep := specs[key].Dependency();
    if !dep.IsNil() { GroundedUp(specs, DependencyKey(key, dep), n - 1, n' - 1); }
  }

  /** A set of resources each depending on a member of the set: a cycle, or anything leading nowhere else. */
  ghost predicate Circular(specs: Specs, c: set<ObjKey>) {
    forall key <- c :: key in specs ==>
      var dep := specs[key].Dependency();
      !dep.IsNil() && (DependencyKind(dep).Some? ==> DependencyKey(key, dep) in c)
  }

  lemma {:induction false} CircularNeverGrounded(specs: Specs, c: set<ObjKey>, key: ObjKey, n: nat)
    requires Circular(specs, c) && key in c
    ensures !Grounded(specs, key, n)
    decreases n
  {
    if n > 0 && key in specs {
      var dep := specs[key].Dependency();
      if DependencyKind(dep).Some? { CircularNeverGrounded(specs, c, DependencyKey(key, dep), n - 1); }
    }
  }

  // ----- runs with fixed specs -----

  predicate KeepsSpecs(specs: Specs, a: Action) {
    && (a.Create? ==> a.key in specs && a.spec == specs[a.key])
    && (a.EditSpec? ==> a.key in specs && a.spec == specs[a.key])
  }

  ghost predicate HasSpec(specs: Specs, e: Event) {
    e.Sent? ==> var key := ObjKey(e.who.kind, e.who.nn); key in specs && e.dependsOn == specs[key].Dependency()
  }

  ghost predicate FixedSpecs(specs: Specs, s: Sys) {
    && (forall key <- s.st.store :: key in specs && s.st.store[key].spec == specs[key])
    && (forall k <- s.workers :: ObjKey(k, s.workers[k].nn) in specs
                                 && s.workers[k].obj.spec == specs[ObjKey(k, s.workers[k].nn)])
    && (forall i :: 0 <= i < |s.st.log| ==> HasSpec(specs, s.st.log[i]))
  }

  lemma {:induction false} StepSpec(st: State, kind: Kind, w: Worker, c: Choice)
    requires Fits(kind, w)
    ensures var (st', p) := StepWorker(st, kind, w, c);
      && (p.Go? ==> p.next.nn == w.nn && p.next.obj.spec == w.obj.spec)
      && (forall key <- st'.store :: key in st.store && st'.store[key].spec == st.store[key].spec)
      && (|st'.log| > |st.log| && st'.log[|st.log|].Sent? ==>
            st'.log[|st.log|].who == WhoIs(kind, w) && st'.log[|st.log|].dependsOn == w.obj.spec.Dependency())
  {
    GoFits(st, kind, w, c);
    if w.pc.Initialize? || w.pc.Release? || w.pc.Report? {
      WriteStep(st, kind, w, c);
      StepWrites(st, kind, w, c);
    } else {
      ReadStep(st, kind, w, c);
    }
    StepSends(st, kind, w, c);
  }

  lemma {:induction false} StepWrites(st: State, kind: Kind, w: Worker, c: Choice)
    requires w.pc.Initialize? || w.pc.Release? || w.pc.Report?
    ensures var st' := StepWorker(st, kind, w, c).0;
      forall key <- st'.store :: key in st.store && st'.store[key].spec == st.store[key].spec
  {
    match w.pc
    case Initialize =>
    case Release =>
    case _ =>
  }

  lemma {:induction false} StepSends(st: State, kind: Kind, w: Worker, c: Choice)
    ensures var (st', p) := StepWorker(st, kind, w, c);
      |st'.log| > |st.log| && st'.log[|st.log|].Sent? ==>
        st'.log[|st.log|].who == WhoIs(kind, w) && st'.log[|st.log|].dependsOn == w.obj.spec.Dependency()
  {
    if !w.pc.Send? && !w.pc.Listen? && !w.pc.Unlisten? { StepUnrelated(st, kind, w, c); }
  }

  lemma {:induction false} FixedStep(specs: Specs, s: Sys, kind: Kind, c: Choice)
    requires Shape(s) && FixedSpecs(specs, s) && kind in s.workers
    ensures FixedSpecs(specs, Advance(s, kind, c))
  {
    var w := s.workers[kind];
    assert WorkerOk(s.st, kind, w);
    var (st, p) := StepWorker(s.st, kind, w, c);
    StepSpec(s.st, kind, w, c);
    StepExtends(s.st, kind, w, c);
    FixedAfter(specs, s, kind, st, p);
  }

  lemma {:induction false} FixedUser(specs: Specs, s: Sys, a: Action)
    requires ByUser(a) && FixedSpecs(specs, s) && KeepsSpecs(specs, a)
    ensures FixedSpecs(specs, Apply(s, a))
  {
    UserFrame(s, a);
    FixedStore(specs, s, a);
  }

  lemma {:induction false} FixedStore(specs: Specs, s: Sys, a: Action)
    requires ByUser(a) && FixedSpecs(specs, s) && KeepsSpecs(specs, a)
    ensures var st := Apply(s, a).st; forall key <- st.store :: key in specs && st.store[key].spec == specs[key]
  {
    match a
    case Create(_, _, _) =>
    case EditSpec(_, _) =>
    case Delete(_) =>
    case Hold(_, _) =>
    case Unhold(_, _) =>
  }

  lemma {:induction false} FixedKept(specs: Specs, s: Sys, a: Action)
    requires Shape(s) && FixedSpecs(specs, s) && KeepsSpecs(specs, a)
    ensures FixedSpecs(specs, Apply(s, a))
  {
    match a
    case Begin(_, _) =>
    case Step(kind, c) => if kind in s.workers { FixedStep(specs, s, kind, c); }
    case Crash =>
    case _ => FixedUser(specs, s, a);
  }

  lemma {:induction false} FixedAfter(specs: Specs, s: Sys, kind: Kind, st: State, p: Progress)
    requires FixedSpecs(specs, s) && kind in s.workers && Extends(s.st.log, st.log)
    requires p.Go? ==> p.next.nn == s.workers[kind].nn && p.next.obj.spec == s.workers[kind].obj.spec
    requires forall key <- st.store :: key in s.st.store && st.store[key].spec == s.st.store[key].spec
    requires |st.log| > |s.st.log| ==> HasSpec(specs, st.log[|s.st.log|])
    ensures FixedSpecs(specs, After(s, kind, st, p))
  {
  }

  lemma {:induction false} FixedRun(specs: Specs, s: Sys, actions: seq<Action>)
    requires Good(s) && FixedSpecs(specs, s) && forall a <- actions :: KeepsSpecs(specs, a)
    ensures Good(Run(s, actions)) && FixedSpecs(specs, Run(s, actions))
    decreases |actions|
  {
    if actions != [] {
      GoodKept(s, actions[0]);
      FixedKept(specs, s, actions[0]);
      FixedRun(specs, Apply(s, actions[0]), actions[1..]);
    }
  }

  /** An execution at position `i` has at most `i` justifying executions before it. */
  lemma {:induction false} SentGrounded(specs: Specs, log: Log, i: nat)
    requires LogOk(log) && (forall j :: 0 <= j < |log| ==> HasSpec(specs, log[j]))
    requires i < |log| && log[i].Sent? && Executes(log[i].who.kind)
    ensures Grounded(specs, ObjKey(log[i].who.kind, log[i].who.nn), i + 1)
    decreases i
  {
    assert HasSpec(specs, log[i]);
    if !log[i].dependsOn.IsNil() {
      var j := Justified(log, i);
      SentGrounded(specs, log, j);
      GroundedUp(specs, ObjKey(log[j].who.kind, log[j].who.nn), j + 1, i);
    }
  }

  /** With fixed specs, a resource that ever sends an RPC has a chain of dependencies that ends: under any
      interleaving, any replies, failures, restarts, deletions and re-creations. */
  lemma {:induction false} OnlyGroundedFire(specs: Specs, actions: seq<Action>, i: nat)
    requires forall a <- actions :: KeepsSpecs(specs, a)
    requires var log := Run(INIT, actions).st.log; i < |log| && log[i].Sent? && Executes(log[i].who.kind)
    ensures var log := Run(INIT, actions).st.log; ChainEnds(specs, ObjKey(log[i].who.kind, log[i].who.nn))
  {
    Reachable([]);
    FixedRun(specs, INIT, actions);
    SentGrounded(specs, Run(INIT, actions).st.log, i);
  }

  /** Members of a dependency cycle never send and never succeed. */
  lemma {:induction false} CyclesNeverFire(specs: Specs, actions: seq<Action>, c: set<ObjKey>, key: ObjKey)
    requires (forall a <- actions :: KeepsSpecs(specs, a)) && Circular(specs, c) && key in c && Executes(key.kind)
    ensures var st := Run(INIT, actions).st;
      && (forall i :: 0 <= i < |st.log| && st.log[i].Sent? ==> ObjKey(st.log[i].who.kind, st.log[i].who.nn) != key)
      && (key in st.store ==> st.store[key].status.status != "success")
  {
    var st := Run(INIT, actions).st;
    forall i | 0 <= i < |st.log| && st.log[i].Sent?
      ensures ObjKey(st.log[i].who.kind, st.log[i].who.nn) != key
    {
      if ObjKey(st.log[i].who.kind, st.log[i].who.nn) == key {
        OnlyGroundedFire(specs, actions, i);
        var n :| Grounded(specs, key, n);
        CircularNeverGrounded(specs, c, key, n);
      }
    }
    Reachable(actions);
    if key in st.store && st.store[key].status.status == "success" {
      assert StoredOk(st, key);
      var p :| 0 <= p < |st.log| && IsSuccess(st.log[p], key.kind, key.nn);
      assert EventOk(st.log, p);
    }
  }

  /** A dependency of any kind but the three is never met: a resource that names one never sends and never succeeds. */
  lemma {:induction false} UnsupportedNeverFires(specs: Specs, actions: seq<Action>, key: ObjKey)
    requires (forall a <- actions :: KeepsSpecs(specs, a)) && key in specs && specs[key].Kind() == key.kind
    requires specs[key].EditConfigSpec? || specs[key].CommitSpec? || specs[key].UnlockSpec?
    requires var dep := specs[key].dependsOn;
      && dep.name != "" && dep.kind != ""
      && dep.kind != "Commit" && dep.kind != "EditConfig" && dep.kind != "Lock"
    ensures var st := Run(INIT, actions).st;
      && (forall i :: 0 <= i < |st.log| && st.log[i].Sent? ==> ObjKey(st.log[i].who.kind, st.log[i].who.nn) != key)
      && (key in st.store ==> st.store[key].status.status != "success")
  {
    CyclesNeverFire(specs, actions, {key}, key);
  }

  /** Without a kind or without a name there is no dependency: in every state a validated reconcile goes straight on
      to look up its session. */
  lemma NoNameNoGate(st: State, kind: Kind, w: Worker, c: Choice)
    requires Executes(kind) && Fits(kind, w) && w.pc.CheckSession? && TargetOf(w).Key() in st.sessions
    requires !w.obj.deleting
    requires w.obj.spec.LockSpec? || w.obj.spec.dependsOn.kind == "" || w.obj.spec.dependsOn.name == ""
    ensures StepWorker(st, kind, w, c) == (st, Go(w.(pc := Lookup, seen := |st.log|)))
  {
  }
}
