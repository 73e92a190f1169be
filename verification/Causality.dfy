/** Why an RPC was sent: under any interleaving, with resources edited, deleted and re-created, every
    execution of a resource with a dependency comes after an execution of that dependency that was
    recorded as a success, and so on back to an execution that depends on nothing. */
module Causality {
  import opened Api
  import opened Operator
  import opened Invariants
  import opened SessionLife

  /** The kinds that run RPCs for their effect on the configuration. */
  predicate Executes(kind: Kind) {
    kind.Lock? || kind.EditConfig? || kind.Commit? || kind.Unlock?
  }

  predicate IsSuccess(e: Event, kind: Kind, nn: NsName) {
    e.StatusWritten? && e.who.kind == kind && e.who.nn == nn && e.ran == Some(true)
  }

  ghost predicate Succeeded(log: Log, n: nat, kind: Kind, nn: NsName) {
    exists i :: 0 <= i < n && i < |log| && IsSuccess(log[i], kind, nn)
  }

  /** The dependency of a resource in `ns`, if it has one, has succeeded before position `n`. */
  ghost predicate Met(log: Log, n: nat, ns: string, dep: DependsOn) {
    dep.IsNil() || (DependencyKind(dep).Some? && Succeeded(log, n, DependencyKind(dep).value, NsName(ns, dep.name)))
  }

  ghost predicate SentBefore(log: Log, n: nat, who: Who) {
    exists i :: 0 <= i < n && i < |log| && log[i].Sent? && log[i].who == who
  }

  ghost predicate EventOk(log: Log, i: nat)
    requires i < |log|
  {
    && (log[i].Sent? && Executes(log[i].who.kind) ==> Met(log, i, log[i].who.nn.ns, log[i].dependsOn))
    && (log[i].StatusWritten? && Executes(log[i].who.kind) && log[i].ran.Some? ==> SentBefore(log, i, log[i].who))
  }

  ghost predicate LogOk(log: Log) {
    forall i :: 0 <= i < |log| ==> EventOk(log, i)
  }

  ghost predicate StoredOk(st: State, key: ObjKey)
    requires key in st.store
  {
    Executes(key.kind) && st.store[key].status.status == "success" ==> Succeeded(st.log, |st.log|, key.kind, key.nn)
  }

  ghost predicate FlightOk(st: State, kind: Kind, w: Worker) {
    Executes(kind) ==>
      && (w.pc.Lookup? || w.pc.Send? ==> Met(st.log, |st.log|, w.nn.ns, w.obj.spec.Dependency()))
      && (w.ran.None? ==> w.obj.status == w.base.status)
      && (w.ran.Some? ==> SentBefore(st.log, |st.log|, WhoIs(kind, w)))
      && (w.ran.Some? ==> w.pc.Report? && w.obj.status.status == StatusName(kind, w.ran.value))
  }

  ghost predicate Causal(s: Sys) {
    && LogOk(s.st.log)
    && (forall key <- s.st.store :: StoredOk(s.st, key))
    && (forall k <- s.workers :: FlightOk(s.st, k, s.workers[k]))
  }

  // ----- the log only grows -----

  lemma GrowSucceeded(log: Log, log': Log, n: nat, n': nat, kind: Kind, nn: NsName)
    requires log <= log' && n <= n'
    ensures Succeeded(log, n, kind, nn) ==> Succeeded(log', n', kind, nn)
  {
    if Succeeded(log, n, kind, nn) {
      var i :| 0 <= i < n && i < |log| && IsSuccess(log[i], kind, nn);
      assert log'[i] == log[i];
    }
  }

  lemma GrowMet(log: Log, log': Log, n: nat, n': nat, ns: string, dep: DependsOn)
    requires log <= log' && n <= n' && Met(log, n, ns, dep)
    ensures Met(log', n', ns, dep)
  {
    if !dep.IsNil() {
      GrowSucceeded(log, log', n, n', DependencyKind(dep).value, NsName(ns, dep.name));
    }
  }

  lemma GrowSent(log: Log, log': Log, n: nat, n': nat, who: Who)
    requires log <= log' && n <= n' && SentBefore(log, n, who)
    ensures SentBefore(log', n', who)
  {
    var i :| 0 <= i < n && i < |log| && log[i].Sent? && log[i].who == who;
    assert log'[i] == log[i];
  }

  lemma GrowEvent(log: Log, log': Log, i: nat)
    requires log <= log' && i < |log| && EventOk(log, i)
    ensures EventOk(log', i)
  {
    assert log'[i] == log[i];
    if log[i].Sent? && Executes(log[i].who.kind) {
      GrowMet(log, log', i, i, log[i].who.nn.ns, log[i].dependsOn);
    }
    if log[i].StatusWritten? && Executes(log[i].who.kind) && log[i].ran.Some? {
      GrowSent(log, log', i, i, log[i].who);
    }
  }

  lemma GrowFlight(st: State, st': State, kind: Kind, w: Worker)
    requires FlightOk(st, kind, w) && st.log <= st'.log
    ensures FlightOk(st', kind, w)
  {
    if Executes(kind) {
      if w.pc.Lookup? || w.pc.Send? {
        GrowMet(st.log, st'.log, |st.log|, |st'.log|, w.nn.ns, w.obj.spec.Dependency());
      }
      if w.ran.Some? {
        GrowSent(st.log, st'.log, |st.log|, |st'.log|, WhoIs(kind, w));
      }
    }
  }

  lemma GrowLog(log: Log, log': Log)
    requires LogOk(log) && Extends(log, log')
    requires |log'| > |log| ==> EventOk(log', |log|)
    ensures LogOk(log')
  {
    forall i | 0 <= i < |log'|
      ensures EventOk(log', i)
    {
      if i < |log| { GrowEvent(log, log', i); }
    }
  }

  // ----- one step of a reconcile -----

  /** An open gate means the dependency has succeeded. */
  lemma GateMet(st: State, ns: string, dep: DependsOn)
    requires forall key <- st.store :: StoredOk(st, key)
    requires GateOpen(st.store, ns, dep)
    ensures Met(st.log, |st.log|, ns, dep)
  {
    if !dep.IsNil() {
      var key := ObjKey(DependencyKind(dep).value, NsName(ns, dep.name));
      assert StoredOk(st, key);
    }
  }

  lemma StepEvent(st: State, kind: Kind, w: Worker, c: Choice)
    requires LogOk(st.log) && Fits(kind, w) && FlightOk(st, kind, w)
    ensures var log' := StepWorker(st, kind, w, c).0.log; |log'| > |st.log| ==> EventOk(log', |st.log|)
  {
    var st' := StepWorker(st, kind, w, c).0;
    StepExtends(st, kind, w, c);
    if |st'.log| > |st.log| {
      match w.pc
      case Send(_, _) =>
        if Executes(kind) {
          GrowMet(st.log, st'.log, |st.log|, |st.log|, w.nn.ns, w.obj.spec.Dependency());
        }
      case Report(_) =>
        if Executes(kind) && w.ran.Some? {
          GrowSent(st.log, st'.log, |st.log|, |st.log|, WhoIs(kind, w));
        }
      case Release =>
      case Initialize =>
      case Unlisten(_) =>
      case Listen(_, _) =>
      case _ =>
    }
  }

  lemma StepStored(st: State, kind: Kind, w: Worker, c: Choice)
    requires Fits(kind, w) && FlightOk(st, kind, w)
    requires forall key <- st.store :: StoredOk(st, key)
    ensures var st' := StepWorker(st, kind, w, c).0; forall key <- st'.store :: StoredOk(st', key)
  {
    var st' := StepWorker(st, kind, w, c).0;
    var own := ObjKey(kind, w.nn);
    StepExtends(st, kind, w, c);
    if w.pc.Initialize? || w.pc.Release? || w.pc.Report? {
      WriteStep(st, kind, w, c);
    } else {
      ReadStep(st, kind, w, c);
    }
    forall key | key in st'.store
      ensures StoredOk(st', key)
    {
      GrowSucceeded(st.log, st'.log, |st.log|, |st'.log|, key.kind, key.nn);
      assert key != own ==> Find(st', key) == Find(st, key);
      if key == own && Writable(st, kind, w, c) && w.pc.Report? && w.ran == Some(true) {
        assert IsSuccess(st'.log[|st.log|], key.kind, key.nn);
      } else if key in st.store {
        assert StoredOk(st, key);
      }
    }
  }

  lemma FlightReply(st: State, kind: Kind, w: Worker, reply: Outcome)
    requires Fits(kind, w) && FlightOk(st, kind, w) && w.pc.Send? && |w.pc.todo| > 0
    requires SentBefore(st.log, |st.log|, WhoIs(kind, w))
    ensures var p := AfterReply(kind, w, w.pc.session, w.pc.todo, reply); p.Go? ==> FlightOk(st, kind, p.next)
  {
    match kind
    case EditConfig =>
    case MountPoint =>
    case EstablishSubscription =>
    case _ =>
  }

  lemma FlightCheck(st: State, kind: Kind, w: Worker, c: Choice)
    requires Fits(kind, w) && FlightOk(st, kind, w) && (forall key <- st.store :: StoredOk(st, key))
    requires w.pc.CheckMountPoint? || w.pc.CheckSession? || w.pc.CheckDependency? || w.pc.Gate?
    ensures var (st', p) := StepWorker(st, kind, w, c); p.Go? ==> FlightOk(st', kind, p.next)
  {
    if GateOpen(st.store, w.nn.ns, w.obj.spec.Dependency()) {
      GateMet(st, w.nn.ns, w.obj.spec.Dependency());
    }
    match w.pc
    case CheckSession =>
    case _ =>
  }

  lemma StepFlight(st: State, kind: Kind, w: Worker, c: Choice)
    requires Fits(kind, w) && FlightOk(st, kind, w) && (forall key <- st.store :: StoredOk(st, key))
    ensures var (st', p) := StepWorker(st, kind, w, c); p.Go? ==> FlightOk(st', kind, p.next)
  {
    if Executes(kind) {
      var (st', p) := StepWorker(st, kind, w, c);
      match w.pc
      case Lookup =>
      case Send(s, todo) =>
        if |todo| > 0 && todo[0].Buildable(c.xmlOk) {
          assert st'.log[|st.log|].Sent? && st'.log[|st.log|].who == WhoIs(kind, w);
          GrowFlight(st, st', kind, w);
          FlightReply(st', kind, w, c.reply);
        }
      case Release =>
      case Report(_) =>
      case _ => FlightCheck(st, kind, w, c);
    } else {
      GoFits(st, kind, w, c);
    }
  }

  lemma CausalAfter(s: Sys, kind: Kind, st: State, p: Progress)
    requires Causal(s) && s.st.log <= st.log && LogOk(st.log)
    requires forall key <- st.store :: StoredOk(st, key)
    requires p.Go? ==> FlightOk(st, kind, p.next)
    ensures Causal(After(s, kind, st, p))
  {
    var s' := After(s, kind, st, p);
    if p.Panic? {
      CausalRestart(st);
    } else {
      forall k | k in s'.workers
        ensures FlightOk(st, k, s'.workers[k])
      {
        if k != kind { GrowFlight(s.st, st, k, s.workers[k]); }
      }
    }
  }

  lemma CausalRestart(st: State)
    requires LogOk(st.log) && forall key <- st.store :: StoredOk(st, key)
    ensures Causal(Sys(Restart(st), map[]))
  {
    var st' := Restart(st);
    GrowLog(st.log, st'.log);
    forall key | key in st'.store
      ensures StoredOk(st', key)
    {
      assert StoredOk(st, key);
      GrowSucceeded(st.log, st'.log, |st.log|, |st'.log|, key.kind, key.nn);
    }
  }

  /** A user's write never makes a status out of nothing. */
  lemma CausalUser(s: Sys, st: State)
    requires Causal(s) && Quiet(s.st.log, st.log)
    requires |st.log| > |s.st.log| ==> !st.log[|s.st.log|].Sent? && !st.log[|s.st.log|].StatusWritten?
    requires forall key <- st.store :: st.store[key].status.status == "success" ==>
      key in s.st.store && s.st.store[key].status == st.store[key].status
    ensures Causal(Sys(st, s.workers))
  {
    GrowLog(s.st.log, st.log);
    forall key | key in st.store
      ensures StoredOk(st, key)
    {
      if st.store[key].status.status == "success" {
        assert StoredOk(s.st, key);
        GrowSucceeded(s.st.log, st.log, |s.st.log|, |st.log|, key.kind, key.nn);
      }
    }
    forall k | k in s.workers
      ensures FlightOk(st, k, s.workers[k])
    {
      GrowFlight(s.st, st, k, s.workers[k]);
    }
  }

  lemma CausalStep(s: Sys, kind: Kind, c: Choice)
    requires Shape(s) && Causal(s) && kind in s.workers
    ensures Causal(Advance(s, kind, c))
  {
    var w := s.workers[kind];
    assert WorkerOk(s.st, kind, w) && FlightOk(s.st, kind, w);
    var (st, p) := StepWorker(s.st, kind, w, c);
    StepExtends(s.st, kind, w, c);
    StepEvent(s.st, kind, w, c);
    GrowLog(s.st.log, st.log);
    StepStored(s.st, kind, w, c);
    StepFlight(s.st, kind, w, c);
    CausalAfter(s, kind, st, p);
  }

  lemma CausalKept(s: Sys, a: Action)
    requires Shape(s) && Causal(s)
    ensures Causal(Apply(s, a))
  {
    var s' := Apply(s, a);
    match a
    case Begin(kind, nn) =>
    case Step(kind, c) =>
      if kind in s.workers {
        CausalStep(s, kind, c);
      }
    case Crash => CausalRestart(s.st);
    case _ =>
      UserFrame(s, a);
      CausalUser(s, s'.st);
  }

  // ----- justification -----

  /** The execution at `j` is the one that allowed the execution at `i`: it is by the object the
      dependency names, and its success was recorded in between. */
  ghost predicate Justifies(log: Log, j: nat, i: nat) {
    && j < i < |log| && log[j].Sent? && log[i].Sent?
    && ((log[i].dependsOn.kind == "Commit" && log[j].who.kind == Commit)
        || (log[i].dependsOn.kind == "EditConfig" && log[j].who.kind == EditConfig)
        || (log[i].dependsOn.kind == "Lock" && log[j].who.kind == Lock))
    && log[j].who.nn == NsName(log[i].who.nn.ns, log[i].dependsOn.name)
    && exists p :: j < p < i && log[p].StatusWritten? && log[p].who == log[j].who && log[p].ran == Some(true)
  }

  /** A chain of executions, each allowed by the next one back, the last depending on nothing. */
  ghost predicate JustifyingChain(log: Log, c: seq<nat>) {
    && |c| > 0
    && (forall k :: 0 <= k < |c| ==> c[k] < |log| && log[c[k]].Sent? && Executes(log[c[k]].who.kind))
    && (forall k :: 0 <= k < |c| - 1 ==> Justifies(log, c[k + 1], c[k]))
    && var last := log[c[|c| - 1]].dependsOn; last.kind == "" || last.name == ""
  }

  lemma Justified(log: Log, i: nat) returns (j: nat)
    requires LogOk(log) && i < |log| && log[i].Sent? && Executes(log[i].who.kind) && !log[i].dependsOn.IsNil()
    ensures Justifies(log, j, i) && Executes(log[j].who.kind)
  {
    assert EventOk(log, i);
    var kind, nn := DependencyKind(log[i].dependsOn).value, NsName(log[i].who.nn.ns, log[i].dependsOn.name);
    var p :| 0 <= p < i && IsSuccess(log[p], kind, nn);
    assert EventOk(log, p);
    j :| 0 <= j < p && log[j].Sent? && log[j].who == log[p].who;
  }

  /** Every execution has a finite, strictly backward chain of justifying executions. */
  lemma EveryExecutionIsJustified(log: Log, i: nat) returns (c: seq<nat>)
    requires LogOk(log) && i < |log| && log[i].Sent? && Executes(log[i].who.kind)
    ensures JustifyingChain(log, c) && c[0] == i
    decreases i
  {
    if log[i].dependsOn.IsNil() {
      c := [i];
    } else {
      var j := Justified(log, i);
      var rest := EveryExecutionIsJustified(log, j);
      c := [i] + rest;
      forall k | 0 <= k < |c| - 1
        ensures Justifies(log, c[k + 1], c[k])
      {
        if k > 0 { assert c[k + 1] == rest[k] && c[k] == rest[k - 1]; }
      }
    }
  }
}
