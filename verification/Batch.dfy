/** A batch of queued resources under any schedule of atomic reconciles: the work queue of the real
    controllers refines the abstract order of firing. */
module Batch {
  import opened Api
  import opened Operator
  import opened Causality
  import opened WellFounded
  import opened Atomic
  import opened Script
  import opened Execution
  import opened Sequencing

  /** The shared state and the work queues; a resource that succeeded is not queued again, since a write of
      the status alone does not pass the watch predicate. */
  datatype Batch = Batch(st: State, queue: set<ObjKey>)

  function Executing(st: State): set<ObjKey> {
    set key | key in st.store && Executes(key.kind)
  }

  /** One turn of a resource: if queued it is reconciled; an error queues it again, a panic queues everything. */
  function Serve(b: Batch, key: ObjKey, env: Env): Batch {
    if key !in b.queue then b
    else
      var (st, ending) := Reconcile(b.st, key.kind, key.nn, env);
      match ending
      case Done => Batch(st, b.queue - {key})
      case Requeued => Batch(st, b.queue)
      case Panicked(_) => Batch(Restart(st), Executing(st))
  }

  function ServeAll(b: Batch, sched: seq<ObjKey>, env: Env): Batch
    decreases |sched|
  {
    if sched == [] then b else ServeAll(Serve(b, sched[0], env), sched[1..], env)
  }

  function Fired(st: State, specs: Specs): set<ObjKey> {
    set key | key in specs && key in st.store && st.store[key].status.status == "success"
  }

  /** The resources of the batch are the executing ones of the store, with live MountPoints, and exactly
      those that have not succeeded are queued. */
  ghost predicate Ready(b: Batch, specs: Specs) {
    && (forall key <- specs :: Live(b.st, key) && b.st.store[key].spec == specs[key])
    && (forall key <- b.st.store :: Executes(key.kind) ==> key in specs)
    && b.queue == specs.Keys - Fired(b.st, specs)
  }

  // ----- traces -----

  type Trace = seq<(nat, Rpc)>

  /** The RPCs of a log, each with its session. */
  function TraceOf(log: Log): Trace {
    if log == [] then []
    else
      var e := log[|log| - 1];
      TraceOf(log[..|log| - 1]) + if e.Sent? then [(e.session, e.rpc)] else []
  }

  function OnSession(session: nat, script: seq<Rpc>): Trace {
    seq(|script|, i requires 0 <= i < |script| => (session, script[i]))
  }

  /** The scripts of some resources, one after the other, each on the session of its MountPoint. */
  function Scripts(sessions: map<string, nat>, specs: Specs, order: seq<ObjKey>): Trace {
    if order == [] then []
    else
      var key := order[0];
      var mp := if key in specs then specs[key].MountPointOf(key.nn).Key() else "";
      (if key in specs && mp in sessions then OnSession(sessions[mp], specs[key].Script()) else [])
      + Scripts(sessions, specs, order[1..])
  }

  lemma {:induction false} TraceAppend(a: Log, b: Log)
    ensures TraceOf(a + b) == TraceOf(a) + TraceOf(b)
    decreases |b|
  {
    if b == [] {
      assert a + b == a;
    } else {
      var n := |b| - 1;
      assert (a + b)[..|a + b| - 1] == a + b[..n];
      TraceAppend(a, b[..n]);
    }
  }

  lemma {:induction false} TraceSent(sent: Log, session: nat, script: seq<Rpc>)
    requires |sent| <= |script|
    requires forall i :: 0 <= i < |sent| ==> sent[i].Sent? && sent[i].session == session && sent[i].rpc == script[i]
    ensures TraceOf(sent) == OnSession(session, script[..|sent|])
    decreases |sent|
  {
    if sent != [] {
      var n := |sent| - 1;
      TraceSent(sent[..n], session, script);
      assert script[..n] + [script[n]] == script[..|sent|];
    }
  }

  /** A script that completes leaves exactly its RPCs on the trace. */
  lemma {:induction false} PlayTrace(st: State, key: ObjKey, env: Env)
    requires Live(st, key) && PlayAt(st, key, env).stop.None?
    ensures TraceOf(PlayAt(st, key, env).sent) == OnSession(SenderAt(st, key).session, st.store[key].spec.Script())
  {
    var spec, from := st.store[key].spec, SenderAt(st, key);
    var sent := PlayAt(st, key, env).sent;
    var xmlOk := env.validXml(Payload(spec));
    PlaysInOrder(st.log, from, spec.Script(), "", env, xmlOk);
    PlaysPrefix(st.log, from, spec.Script(), "", env, xmlOk);
    forall i | 0 <= i < |sent|
      ensures sent[i].Sent? && sent[i].session == from.session && sent[i].rpc == spec.Script()[i]
    {
      assert EntryAt(st.log, from, spec.Script(), sent, env, xmlOk, i);
    }
    TraceSent(sent, from.session, spec.Script());
    assert spec.Script()[..|sent|] == spec.Script();
  }

  lemma {:induction false} TraceOne(e: Event)
    ensures TraceOf([e]) == if e.Sent? then [(e.session, e.rpc)] else []
  {
    assert [e][..0] == [];
  }

  // ----- one turn -----

  predicate Calm(env: Env) {
    env.Reads() && env.statusOk
  }

  /** If the resource fires at this turn, its whole script goes out and every reply is clean. */
  ghost predicate TurnClean(b: Batch, key: ObjKey, env: Env) {
    key in b.queue && Live(b.st, key) && OpenAt(b.st, key) ==>
      PlayAt(b.st, key, env).stop.None? && AllClean(PlayAt(b.st, key, env).sent)
  }

  ghost predicate RunClean(b: Batch, sched: seq<ObjKey>, env: Env)
    decreases |sched|
  {
    sched == [] || (TurnClean(b, sched[0], env) && RunClean(Serve(b, sched[0], env), sched[1..], env))
  }

  lemma {:induction false} OpenMatches(b: Batch, specs: Specs, key: ObjKey)
    requires Ready(b, specs) && key in specs
    ensures OpenAt(b.st, key) <==> Open(specs, Fired(b.st, specs), key)
  {
    var dep := specs[key].Dependency();
    if !dep.IsNil() && DependencyKind(dep).Some? {
      assert DependencyKey(key, dep) in b.st.store ==> DependencyKey(key, dep) in specs;
    }
  }

  lemma LiveAfter(st: State, key: ObjKey, st': State, sent: Log, k: ObjKey)
    requires key in st.store && Succeeds(st, st', key, sent) && Live(st, k)
    ensures Live(st', k) && st'.store[k].spec == st.store[k].spec
  {
  }

  lemma {:induction false} FiredAfter(st: State, specs: Specs, key: ObjKey, st': State, sent: Log)
    requires key in st.store && key in specs && Succeeds(st, st', key, sent)
    ensures Fired(st', specs) == Fired(st, specs) + {key}
  {
  }

  /** A recorded success keeps the rest of the batch as it was. */
  lemma {:induction false} ReadyAfter(b: Batch, specs: Specs, key: ObjKey, st': State, sent: Log)
    requires Ready(b, specs) && key in specs && Succeeds(b.st, st', key, sent)
    ensures Ready(Batch(st', b.queue - {key}), specs) && Fired(st', specs) == Fired(b.st, specs) + {key}
  {
    forall k | k in specs
      ensures Live(st', k) && st'.store[k].spec == specs[k]
    {
      assert Live(b.st, k) && b.st.store[k].spec == specs[k];
      LiveAfter(b.st, key, st', sent, k);
    }
    assert Live(b.st, key);
    FiredAfter(b.st, specs, key, st', sent);
  }

  lemma {:induction false} TraceAfter(st: State, st': State, key: ObjKey, sent: Log)
    requires key in st.store && Succeeds(st, st', key, sent)
    ensures TraceOf(st'.log) == TraceOf(st.log) + TraceOf(sent)
  {
    var e := StatusWritten(WhoAt(st, key), Some(true), "success");
    TraceAppend(st.log + sent, [e]);
    TraceAppend(st.log, sent);
    TraceOne(e);
  }

  lemma {:induction false} ServeFires(b: Batch, specs: Specs, key: ObjKey, env: Env)
    requires Ready(b, specs) && Calm(env) && TurnClean(b, key, env) && Firing(specs, Fired(b.st, specs), key)
    ensures var b' := Serve(b, key, env);
      && Live(b.st, key)
      && Ready(b', specs) && b'.st.sessions == b.st.sessions
      && Fired(b'.st, specs) == Fired(b.st, specs) + {key}
      && TraceOf(b'.st.log) == TraceOf(b.st.log) + OnSession(SenderAt(b.st, key).session, specs[key].Script())
  {
    assert Live(b.st, key) && b.st.store[key].spec == specs[key];
    OpenMatches(b, specs, key);
    var (st', ending) := Reconcile(b.st, key.kind, key.nn, env);
    var sent := PlayAt(b.st, key, env).sent;
    Fires(b.st, key, env);
    PlayTrace(b.st, key, env);
    ReadyAfter(b, specs, key, st', sent);
    TraceAfter(b.st, st', key, sent);
  }

  lemma {:induction false} ServeWaits(b: Batch, specs: Specs, key: ObjKey, env: Env)
    requires Ready(b, specs) && Calm(env) && !Firing(specs, Fired(b.st, specs), key)
    ensures var b' := Serve(b, key, env);
      && Ready(b', specs) && b'.st.sessions == b.st.sessions
      && Fired(b'.st, specs) == Fired(b.st, specs)
      && TraceOf(b'.st.log) == TraceOf(b.st.log)
  {
    if key in b.queue {
      OpenMatches(b, specs, key);
      ClosedGate(b.st, key, env);
      var e := StatusWritten(WhoAt(b.st, key), None, b.st.store[key].status.status);
      TraceAppend(b.st.log, [e]);
      TraceOne(e);
      var b' := Serve(b, key, env);
      assert forall k <- specs :: Live(b.st, k) && b.st.store[k].spec == specs[k];
      assert Fired(b'.st, specs) == Fired(b.st, specs);
    }
  }

  // ----- whole schedules -----

  lemma {:induction false} ScriptsOne(st: State, specs: Specs, key: ObjKey)
    requires key in specs && Live(st, key) && st.store[key].spec == specs[key]
    ensures Scripts(st.sessions, specs, [key]) == OnSession(SenderAt(st, key).session, specs[key].Script())
  {
    assert [key][1..] == [];
  }

  lemma {:induction false} ScriptsAppend(sessions: map<string, nat>, specs: Specs, a: seq<ObjKey>, b: seq<ObjKey>)
    ensures Scripts(sessions, specs, a + b) == Scripts(sessions, specs, a) + Scripts(sessions, specs, b)
    decreases |a|
  {
    if a == [] {
      assert a + b == b;
    } else {
      assert (a + b)[0] == a[0] && (a + b)[1..] == a[1..] + b;
      ScriptsAppend(sessions, specs, a[1..], b);
    }
  }

  function FiresNow(specs: Specs, done: set<ObjKey>, key: ObjKey): seq<ObjKey> {
    if Firing(specs, done, key) then [key] else []
  }

  /** From `b` to `b'` exactly the resources of `order` fired, in that order. */
  ghost predicate Refines(b: Batch, b': Batch, specs: Specs, order: seq<ObjKey>) {
    && Ready(b', specs) && b'.st.sessions == b.st.sessions
    && Fired(b'.st, specs) == Fired(b.st, specs) + Set(order)
    && TraceOf(b'.st.log) == TraceOf(b.st.log) + Scripts(b.st.sessions, specs, order)
  }

  lemma SetThen(f: set<ObjKey>, f1: set<ObjKey>, f2: set<ObjKey>, o1: seq<ObjKey>, o2: seq<ObjKey>)
    requires f1 == f + Set(o1) && f2 == f1 + Set(o2)
    ensures f2 == f + Set(o1 + o2)
  {
    assert Set(o1 + o2) == Set(o1) + Set(o2);
  }

  lemma TraceThen(t: Trace, t1: Trace, t2: Trace, s1: Trace, s2: Trace)
    requires t1 == t + s1 && t2 == t1 + s2
    ensures t2 == t + (s1 + s2)
  {
  }

  lemma {:induction false} RefinesThen(b: Batch, b1: Batch, b2: Batch, specs: Specs, o1: seq<ObjKey>, o2: seq<ObjKey>)
    requires Refines(b, b1, specs, o1) && Refines(b1, b2, specs, o2)
    ensures Refines(b, b2, specs, o1 + o2)
  {
    ScriptsAppend(b.st.sessions, specs, o1, o2);
    TraceThen(TraceOf(b.st.log), TraceOf(b1.st.log), TraceOf(b2.st.log),
              Scripts(b.st.sessions, specs, o1), Scripts(b.st.sessions, specs, o2));
    SetThen(Fired(b.st, specs), Fired(b1.st, specs), Fired(b2.st, specs), o1, o2);
  }

  /** One turn, whether the resource fires or waits. */
  lemma {:induction false} ServeRefines(b: Batch, specs: Specs, key: ObjKey, env: Env)
    requires Ready(b, specs) && Calm(env) && TurnClean(b, key, env)
    ensures Refines(b, Serve(b, key, env), specs, FiresNow(specs, Fired(b.st, specs), key))
  {
    if Firing(specs, Fired(b.st, specs), key) {
      ServeFires(b, specs, key, env);
      assert Live(b.st, key) && b.st.store[key].spec == specs[key];
      ScriptsOne(b.st, specs, key);
    } else {
      ServeWaits(b, specs, key, env);
    }
  }

  lemma {:induction false} OrderStep(specs: Specs, done: set<ObjKey>, sched: seq<ObjKey>)
    requires sched != []
    ensures var now := FiresNow(specs, done, sched[0]);
      && Order(specs, done, sched) == now + Order(specs, done + Set(now), sched[1..])
      && DoneAfter(specs, done, sched) == DoneAfter(specs, done + Set(now), sched[1..])
  {
    var now := FiresNow(specs, done, sched[0]);
    assert done + Set(now) == if Firing(specs, done, sched[0]) then done + {sched[0]} else done;
    SetCons(sched[0], Order(specs, done + {sched[0]}, sched[1..]));
  }

  /** Whatever the schedule, the resources fire in the abstract order and the RPC trace is the
      concatenation of their scripts in that order. */
  lemma {:induction false} BatchRefines(b: Batch, specs: Specs, sched: seq<ObjKey>, env: Env)
    requires Ready(b, specs) && Calm(env) && RunClean(b, sched, env)
    ensures Refines(b, ServeAll(b, sched, env), specs, Order(specs, Fired(b.st, specs), sched))
    decreases |sched|
  {
    var done := Fired(b.st, specs);
    if sched != [] {
      var b1, now := Serve(b, sched[0], env), FiresNow(specs, done, sched[0]);
      ServeRefines(b, specs, sched[0], env);
      BatchRefines(b1, specs, sched[1..], env);
      OrderStep(specs, done, sched);
      RefinesThen(b, b1, ServeAll(b, sched, env), specs, now, Order(specs, done + Set(now), sched[1..]));
    }
  }

  /** A world in which every message can be built and every reply is clean. */
  ghost predicate CleanWorld(specs: Specs, env: Env) {
    && (forall log, session, rpc :: env.peer(log, session, rpc).Clean())
    && (forall key <- specs :: forall rpc <- specs[key].Script() :: rpc.Buildable(env.validXml(Payload(specs[key]))))
  }

  lemma {:induction false} PlayClean(log: Log, from: Sender, todo: seq<Rpc>, data: string, env: Env, xmlOk: bool)
    requires forall log, session, rpc :: env.peer(log, session, rpc).Clean()
    requires forall rpc <- todo :: rpc.Buildable(xmlOk)
    ensures Play(log, from, todo, data, env, xmlOk).stop.None? && AllClean(Play(log, from, todo, data, env, xmlOk).sent)
    decreases |todo|
  {
    if todo != [] {
      var reply := env.peer(log, from.session, todo[0]);
      assert todo[0] in todo;
      PlayClean(log + [from.Entry(todo[0], reply)], from, todo[1..],
                if todo[0].EditConfigRpc? then reply.data else data, env, xmlOk);
    }
  }

  lemma {:induction false} CleanWorldRuns(b: Batch, specs: Specs, sched: seq<ObjKey>, env: Env)
    requires Ready(b, specs) && Calm(env) && CleanWorld(specs, env)
    ensures RunClean(b, sched, env)
    decreases |sched|
  {
    if sched != [] {
      var key := sched[0];
      if key in b.queue {
        assert Live(b.st, key);
        PlayClean(b.st.log, SenderAt(b.st, key), specs[key].Script(), "", env, env.validXml(Payload(specs[key])));
      }
      ServeRefines(b, specs, key, env);
      CleanWorldRuns(Serve(b, key, env), specs, sched[1..], env);
    }
  }

  lemma {:induction false} FiredStatus(b: Batch, specs: Specs, key: ObjKey)
    requires Ready(b, specs) && key in specs
    ensures key in b.st.store && (key in Fired(b.st, specs) <==> b.st.store[key].status.status == "success")
  {
    assert Live(b.st, key);
  }

  lemma {:induction false} FairOrder(specs: Specs, sched: seq<ObjKey>)
    requires Fair(specs, sched)
    ensures var order := Order(specs, {}, sched);
      && (forall key :: key in order <==> key in specs && ChainEnds(specs, key))
      && Ordered(specs, {}, order)
  {
    OrderIsOrdered(specs, {}, sched);
    forall key
      ensures key in Order(specs, {}, sched) <==> key in specs && ChainEnds(specs, key)
    {
      FairFiresExactly(specs, sched, key);
    }
  }

  /** Fires iff well founded, and schedule independence: in a clean world, every fair schedule of a fresh
      batch ends with exactly the resources whose chain of dependencies ends in `success` and the others
      still queued; each fired script went out exactly once, after the script of its dependency. */
  lemma {:induction false} FairSchedules(b: Batch, specs: Specs, sched: seq<ObjKey>, env: Env)
    requires Ready(b, specs) && Fired(b.st, specs) == {} && Calm(env) && CleanWorld(specs, env) && Fair(specs, sched)
    ensures var b', order := ServeAll(b, sched, env), Order(specs, {}, sched);
      && (forall key <- specs :: key in b'.st.store)
      && (forall key <- specs :: b'.st.store[key].status.status == "success" <==> ChainEnds(specs, key))
      && (forall key :: key in b'.queue <==> key in specs && !ChainEnds(specs, key))
      && TraceOf(b'.st.log) == TraceOf(b.st.log) + Scripts(b.st.sessions, specs, order)
      && (forall key :: key in order <==> key in specs && ChainEnds(specs, key))
      && Ordered(specs, {}, order)
  {
    var b', order := ServeAll(b, sched, env), Order(specs, {}, sched);
    CleanWorldRuns(b, specs, sched, env);
    BatchRefines(b, specs, sched, env);
    FairOrder(specs, sched);
    assert Fired(b'.st, specs) == Set(order);
    forall key | key in specs
      ensures key in b'.st.store && (b'.st.store[key].status.status == "success" <==> ChainEnds(specs, key))
    {
      FiredStatus(b', specs, key);
      assert key in Fired(b'.st, specs) <==> key in order;
    }
  }

  /** The resources whose chain has length at most `n` have succeeded after `n` passes, in any order. */
  lemma {:induction false} DonePassByPass(b: Batch, specs: Specs, passes: seq<seq<ObjKey>>, env: Env, key: ObjKey,
      n: nat)
    requires Ready(b, specs) && Calm(env) && CleanWorld(specs, env)
    requires (forall p <- passes :: Pass(specs, p)) && Grounded(specs, key, n) && n <= |passes|
    ensures key in Fired(ServeAll(b, Flatten(passes), env).st, specs)
  {
    CleanWorldRuns(b, specs, Flatten(passes), env);
    BatchRefines(b, specs, Flatten(passes), env);
    PassesFire(specs, Fired(b.st, specs), passes, key, n);
  }
}
