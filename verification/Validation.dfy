/** The parts of a reconcile several controllers share, each in one step: validation, the dependency gate,
    sending one RPC, adding and removing a finalizer. */
module Validation {
  import opened Api
  import opened Operator
  import opened Causality
  import opened Atomic
  import opened Script
  import opened Cluster

  /** The MountPoint is stored and its session cached. */
  predicate Connected(st: State, mp: NsName, env: Env) {
    env.readOk && MountPointStored(st.store, mp) && mp.Key() in st.sessions
  }

  function Fetched(st: State, key: ObjKey): Worker
    requires key in st.store
  {
    Start(key.kind, key.nn, st.store[key])
  }

  /** An invalid resource is reported as it was. */
  lemma Invalid(st: State, key: ObjKey, env: Env)
    requires env.fetchOk && key in st.store && !key.kind.MountPoint?
    requires !Connected(st, st.store[key].spec.MountPointOf(key.nn), env)
    ensures Reconcile(st, key.kind, key.nn, env) ==
      (Reported(st, key, st.store[key], st.store[key].status, None, env), Requeued)
  {
    var w := Fetched(st, key);
    var w1 := w.(pc := CheckSession);
    var w2 := w.(pc := Report(true));
    if env.readOk && MountPointStored(st.store, TargetOf(w)) {
      Onward(st, key.kind, w, env, st, w1);
      Onward(st, key.kind, w1, env, st, w2);
    } else {
      Onward(st, key.kind, w, env, st, w2);
    }
    Ends(st, key.kind, w2, env);
  }

  /** What is left of a reconcile that made progress `p`. */
  function Proceed(st: State, kind: Kind, p: Progress, env: Env): (State, Ending) {
    match p
    case Go(w) => Complete(st, kind, w, env)
    case Finish(requeue) => (st, if requeue then Requeued else Done)
    case Panic(cause) => (st, Panicked(cause))
  }

  /** How a reconcile ends once its operator logic has returned: a panic leaves the store alone, otherwise the
      status is written back, and an error or a failed write queues the object again. */
  function Conclusion(st: State, key: ObjKey, base: Obj, status: Status, ran: Option<bool>, result: Result, env: Env)
    : (State, Ending)
  {
    match result
    case Aborted(cause) => (st, Panicked(cause))
    case Returned(err) =>
      (Reported(st, key, base, status, ran, env),
       if err || !env.statusOk || key !in st.store || st.store[key] != base then Requeued else Done)
  }

  /** A connected one goes on from the session check. */
  lemma Valid(st: State, key: ObjKey, env: Env)
    requires env.fetchOk && key in st.store && !key.kind.MountPoint?
    requires Connected(st, st.store[key].spec.MountPointOf(key.nn), env)
    ensures Reconcile(st, key.kind, key.nn, env) ==
      Proceed(st, key.kind, AfterSessionCheck(key.kind, Fetched(st, key).(pc := CheckSession, seen := |st.log|),
                                              env.validXml(Payload(st.store[key].spec))), env)
  {
    var w := Fetched(st, key);
    var w1 := w.(pc := CheckSession);
    Onward(st, key.kind, w, env, st, w1);
    assert StepWorker(st, key.kind, w1, ChoiceAt(st, w1, env)) ==
           (st, AfterSessionCheck(key.kind, w1.(seen := |st.log|), env.validXml(Payload(st.store[key].spec))));
  }

  /** A gate that is closed ends like an invalid resource. */
  lemma Closed(st: State, key: ObjKey, w: Worker, env: Env)
    requires key in st.store && w == Fetched(st, key).(pc := w.pc, seen := w.seen)
    requires w.pc.CheckDependency? || w.pc.Gate?
    requires !(env.readOk && GateOpen(st.store, key.nn.ns, st.store[key].spec.Dependency()))
    ensures Complete(st, key.kind, w, env) ==
      (Reported(st, key, st.store[key], st.store[key].status, None, env), Requeued)
  {
    Onward(st, key.kind, w, env, st, w.(pc := Report(true)));
    Ends(st, key.kind, w.(pc := Report(true)), env);
  }

  /** The dependency test the logic of EditConfig and Unlock starts with. */
  predicate LogicGate(st: State, i: Instance, env: Env) {
    var dep := i.base.spec.Dependency();
    dep.IsNil() || (env.readOk && ValidDependency(st.store, i.key.nn.ns, dep))
  }

  /** For a connected EditConfig or Unlock not being deleted the logic is next, and it looks up the session
      iff its gate is open. */
  lemma GatesLogic(st: State, key: ObjKey, env: Env)
    requires env.fetchOk && key in st.store && (key.kind.EditConfig? || key.kind.Unlock?) && !st.store[key].deleting
    requires Connected(st, st.store[key].spec.MountPointOf(key.nn), env)
    ensures Reconcile(st, key.kind, key.nn, env) ==
      if GateOpen(st.store, key.nn.ns, st.store[key].spec.Dependency())
      then Complete(st, key.kind, Fetched(st, key).(pc := Lookup, seen := |st.log|), env)
      else (Reported(st, key, st.store[key], st.store[key].status, None, env), Requeued)
  {
    Valid(st, key, env);
    var dep := st.store[key].spec.Dependency();
    if !dep.IsNil() {
      var w := Fetched(st, key).(pc := Gate, seen := |st.log|);
      if GateOpen(st.store, key.nn.ns, dep) {
        Onward(st, key.kind, w, env, st, w.(pc := Lookup));
      } else {
        Closed(st, key, w, env);
      }
    }
  }

  function SenderFor(key: ObjKey, base: Obj, session: nat, since: nat): Sender {
    Sender(Who(key.kind, key.nn, base.uid), base.spec.Dependency(), base.spec.MountPointOf(key.nn), session, since)
  }

  /** The session of the MountPoint is looked up and the script starts. */
  lemma LooksUp(st: State, key: ObjKey, w: Worker, env: Env)
    requires Executes(key.kind) && key in st.store && st.store[key].spec.Kind() == key.kind
    requires w == Fetched(st, key).(pc := Lookup, seen := w.seen) && TargetOf(w).Key() in st.sessions
    ensures Complete(st, key.kind, w, env) ==
      Complete(st, key.kind,
               w.(pc := Send(st.sessions[TargetOf(w).Key()], st.store[key].spec.Script()), since := |st.log|), env)
  {
    var pc := Send(st.sessions[TargetOf(w).Key()], st.store[key].spec.Script());
    Onward(st, key.kind, w, env, st, w.(pc := pc, since := |st.log|));
  }

  /** The status, the record and the result that sending one RPC leaves. A panic leaves no result, and what
      was written to the instance before it is lost with it. */
  predicate Executed(kind: Kind, t: Transcript, before: Status, after: Status, ran: Option<bool>, result: Result) {
    match t.stop
    case Some(cause) => result == Aborted(cause)
    case None =>
      && |t.sent| == 1 && t.sent[0].Sent? && t.sent[0].reply.Reply?
      && var reply := t.sent[0].reply;
         && ran == Some(reply.Clean()) && result == Returned(reply.err)
         && after == before.(status := StatusName(kind, reply.Clean()),
                             rpcReply := if reply.Clean() then reply.data else reply.raw)
  }

  lemma PlaysOne(log: Log, from: Sender, rpc: Rpc, env: Env, xmlOk: bool)
    ensures var reply := env.peer(log, from.session, rpc);
      var t := Play(log, from, [rpc], "", env, xmlOk);
      && t.sent == (if rpc.Buildable(xmlOk) then [from.Entry(rpc, reply)] else [])
      && t.stop == (if !rpc.Buildable(xmlOk) then Some(BadMessage) else if reply.NoReply? then Some(NilReply) else None)
  {
    var reply := env.peer(log, from.session, rpc);
    var e := from.Entry(rpc, reply);
    assert [rpc][1..] == [];
    if reply.Reply? {
      assert Play(log + [e], from, [], if rpc.EditConfigRpc? then reply.data else "", env, xmlOk).sent == [];
    }
  }

  lemma StepsOne(st: State, kind: Kind, w: Worker, env: Env, rpc: Rpc)
    requires Executes(kind) && !kind.EditConfig? && w.pc.Send? && w.pc.todo == [rpc]
    ensures var reply := env.peer(st.log, w.pc.session, rpc);
      var st1 := st.(log := st.log + [SenderOf(kind, w, w.pc.session).Entry(rpc, reply)]);
      StepWorker(st, kind, w, ChoiceAt(st, w, env)) ==
        if !rpc.Buildable(env.validXml(Payload(w.obj.spec))) then (st, Panic(BadMessage))
        else if reply.NoReply? then (st1, Panic(NilReply))
        else (st1, Go(Conclude(kind, w, reply.Clean(), if reply.Clean() then reply.data else reply.raw,
                               reply.err)))
  {
  }

  /** Lock, Commit and Unlock are one machine: from the RPC to the end, for every reply. */
  lemma SinglePlays(st: State, kind: Kind, w: Worker, env: Env, status: Status, ran: Option<bool>, result: Result)
    requires Executes(kind) && !kind.EditConfig? && w.pc.Send? && |w.pc.todo| == 1 && w.ran == None
    requires
      var t := Play(st.log, SenderOf(kind, w, w.pc.session), w.pc.todo, "", env, env.validXml(Payload(w.obj.spec)));
      Executed(kind, t, w.obj.status, status, ran, result)
    ensures
      var t := Play(st.log, SenderOf(kind, w, w.pc.session), w.pc.todo, "", env, env.validXml(Payload(w.obj.spec)));
      Complete(st, kind, w, env) ==
        Conclusion(st.(log := st.log + t.sent), ObjKey(kind, w.nn), w.base, status, ran, result, env)
  {
    var rpc, from := w.pc.todo[0], SenderOf(kind, w, w.pc.session);
    var xmlOk := env.validXml(Payload(w.obj.spec));
    assert w.pc.todo == [rpc];
    PlaysOne(st.log, from, rpc, env, xmlOk);
    StepsOne(st, kind, w, env, rpc);
    var reply := env.peer(st.log, w.pc.session, rpc);
    assert st.log + [] == st.log;
    if result.Returned? {
      var st1 := st.(log := st.log + [from.Entry(rpc, reply)]);
      var w1 := Conclude(kind, w, reply.Clean(), if reply.Clean() then reply.data else reply.raw, reply.err);
      Onward(st, kind, w, env, st1, w1);
      Ends(st1, kind, w1, env);
    }
  }

  /** The same from the lookup on, in terms of the one RPC and its reply. */
  lemma RunsOne(st: State, key: ObjKey, w: Worker, env: Env, rpc: Rpc, from: Sender,
                status: Status, ran: Option<bool>, result: Result)
    requires Executes(key.kind) && !key.kind.EditConfig? && key in st.store && st.store[key].spec.Kind() == key.kind
    requires w == Fetched(st, key).(pc := Lookup, seen := w.seen) && TargetOf(w).Key() in st.sessions
    requires st.store[key].spec.Script() == [rpc]
    requires from == SenderFor(key, w.base, st.sessions[TargetOf(w).Key()], |st.log|)
    requires var reply := env.peer(st.log, from.session, rpc);
      if !rpc.Buildable(env.validXml(Payload(w.base.spec))) then result == Aborted(BadMessage)
      else if reply.NoReply? then result == Aborted(NilReply)
      else
        && result == Returned(reply.err) && ran == Some(reply.Clean())
        && status == w.base.status.(status := StatusName(key.kind, reply.Clean()),
                                    rpcReply := if reply.Clean() then reply.data else reply.raw)
    ensures var reply := env.peer(st.log, from.session, rpc);
      var sent := if result == Aborted(BadMessage) then [] else [from.Entry(rpc, reply)];
      Complete(st, key.kind, w, env) == Conclusion(st.(log := st.log + sent), key, w.base, status, ran, result, env)
  {
    var w1 := w.(pc := Send(from.session, [rpc]), since := |st.log|);
    LooksUp(st, key, w, env);
    assert SenderOf(key.kind, w1, from.session) == from;
    PlaysOne(st.log, from, rpc, env, env.validXml(Payload(w.base.spec)));
    SinglePlays(st, key.kind, w1, env, status, ran, result);
  }

  // ----- finalizers -----

  lemma AddsFinalizer(st: State, key: ObjKey, w: Worker, env: Env)
    requires OwnFinalizer(key.kind).Some? && !Finalized(key.kind, w.base) && w.obj == w.base && w.nn == key.nn
    requires w.pc.Initialize?
    ensures Complete(st, key.kind, w, env) ==
      if env.updateOk && key in st.store && st.store[key] == w.base && !w.base.deleting
      then (Put(st, key, w.base.(finalizers := w.base.finalizers + {OwnFinalizer(key.kind).value})), Done)
      else (Reported(st, key, w.base, w.obj.status, w.ran, env), Requeued)
  {
    if !(env.updateOk && key in st.store && st.store[key] == w.base && !w.base.deleting) {
      Onward(st, key.kind, w, env, st, w.(pc := Report(true)));
      Ends(st, key.kind, w.(pc := Report(true)), env);
    }
  }

  lemma RemovesFinalizer(st: State, kind: Kind, w: Worker, env: Env)
    requires OwnFinalizer(kind).Some? && w.pc.Release?
    ensures var key := ObjKey(kind, w.nn);
      Complete(st, kind, w, env) ==
        if env.updateOk && key in st.store && st.store[key] == w.base
        then (Put(st, key, w.base.(finalizers := w.base.finalizers - {OwnFinalizer(kind).value})), Done)
        else (Reported(st, key, w.base, w.obj.status, w.ran, env), Requeued)
  {
    var key := ObjKey(kind, w.nn);
    if !(env.updateOk && key in st.store && st.store[key] == w.base) {
      Onward(st, kind, w, env, st, w.(pc := Report(true)));
      Ends(st, kind, w.(pc := Report(true)), env);
    }
  }
}
