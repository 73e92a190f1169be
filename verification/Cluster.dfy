/** What the reconcilers share at run time: the API server, the process-wide session cache, the dialled
    sessions and the RPC exchange, and the in-memory copy of the resource a reconcile works on. */
module Cluster {
  import opened Api
  import opened Operator
  import opened Atomic

  /** The in-memory copy of a resource during one reconcile; `base` is the stored object it was fetched as,
      and `ran` records how the operator logic ended, if it did. */
  class Instance {
    const key: ObjKey
    const base: Obj
    var finalizers: set<string>
    var status: Status
    var ran: Option<bool>

    constructor (key: ObjKey, base: Obj)
      ensures this.key == key && this.base == base
      ensures finalizers == base.finalizers && status == base.status && ran == None
    {
      this.key, this.base := key, base;
      finalizers, status, ran := base.finalizers, base.status, None;
    }

    function WhoIs(): Who {
      Who(key.kind, key.nn, base.uid)
    }

    function MountPointName(): NsName {
      base.spec.MountPointOf(key.nn)
    }

    /** The step machine's view of the reconcile at `pc`. */
    function At(pc: Pc, seen: nat, since: nat, data: string): Worker
      reads this
    {
      Worker(key.nn, base, base.(status := status), pc, seen, since, ran, data)
    }
  }

  /** How operator logic returns: with or without an error, or not at all. */
  datatype Result = Returned(err: bool) | Aborted(cause: Cause)

  /** The store once a status was written back, if it could be. */
  function Reported(st: State, key: ObjKey, base: Obj, status: Status, ran: Option<bool>, env: Env): State {
    if env.statusOk && key in st.store && st.store[key] == base then
      st.(store := st.store[key := base.(status := status)],
          log := st.log + [StatusWritten(Who(key.kind, key.nn, base.uid), ran, status.status)])
    else st
  }

  class Manager {
    const env: Env
    var store: map<ObjKey, Obj>
    var sessions: map<string, nat>
    var dialled: seq<Session>
    var log: Log
    var nextUid: nat

    constructor (st: State, env: Env)
      ensures St() == st && this.env == env
    {
      this.env := env;
      store, sessions, dialled, log, nextUid := st.store, st.sessions, st.dialled, st.log, st.nextUid;
    }

    function St(): State
      reads this
    {
      State(store, sessions, dialled, log, nextUid)
    }

    /** The schema: what is stored under a key has the spec of its kind. */
    predicate Typed(key: ObjKey)
      reads this
    {
      key in store ==> store[key].spec.Kind() == key.kind
    }

    /** The stored object is still the one the instance was fetched as. */
    predicate Current(i: Instance)
      reads this
    {
      i.key in store && store[i.key] == i.base
    }

    // ----- the API server -----

    method Get(key: ObjKey) returns (ok: bool, i: Instance?)
      ensures ok == env.fetchOk
      ensures i == null <==> !ok || key !in store
      ensures i != null ==> fresh(i) && i.key == key && i.base == store[key]
                            && i.finalizers == i.base.finalizers && i.status == i.base.status && i.ran == None
    {
      ok, i := env.fetchOk, null;
      if ok && key in store {
        i := new Instance(key, store[key]);
      }
    }

    /** Writes the metadata. A write based on an older version, or one that adds a finalizer to an object
        being deleted, is refused. */
    method Update(i: Instance) returns (ok: bool)
      modifies this
      ensures ok == (env.updateOk && old(Current(i)) && (i.base.deleting ==> i.finalizers <= i.base.finalizers))
      ensures St() == if ok then Put(old(St()), i.key, i.base.(finalizers := i.finalizers)) else old(St())
    {
      ok := env.updateOk && Current(i) && (i.base.deleting ==> i.finalizers <= i.base.finalizers);
      if ok {
        if i.base.deleting && i.finalizers == {} {
          store := store - {i.key};
          log := log + [Gone(i.WhoIs(), i.base.status.subscriptionID)];
        } else {
          store := store[i.key := i.base.(finalizers := i.finalizers)];
        }
      }
    }

    /** Writes the status back, and nothing else of the instance. */
    method UpdateStatus(i: Instance) returns (ok: bool)
      modifies this
      ensures ok == (env.statusOk && old(Current(i)))
      ensures store == if ok then old(store)[i.key := i.base.(status := i.status)] else old(store)
      ensures log == if ok then old(log) + [StatusWritten(i.WhoIs(), i.ran, i.status.status)] else old(log)
      ensures St() == Reported(old(St()), i.key, i.base, i.status, i.ran, env)
    {
      ok := env.statusOk && Current(i);
      if ok {
        store := store[i.key := i.base.(status := i.status)];
        log := log + [StatusWritten(i.WhoIs(), i.ran, i.status.status)];
      }
    }

    method ManageError(i: Instance) returns (e: Ending)
      modifies this
      ensures e == Requeued && St() == Reported(old(St()), i.key, i.base, i.status, i.ran, env)
    {
      var _ := UpdateStatus(i);
      e := Requeued;
    }

    method ManageSuccess(i: Instance) returns (e: Ending)
      modifies this
      ensures e == if env.statusOk && old(Current(i)) then Done else Requeued
      ensures St() == Reported(old(St()), i.key, i.base, i.status, i.ran, env)
    {
      var ok := UpdateStatus(i);
      e := if ok then Done else Requeued;
    }

    // ----- sessions -----

    method SyncRPC(i: Instance, session: nat, since: nat, rpc: Rpc) returns (reply: Outcome)
      modifies this`log
      ensures reply == env.peer(old(log), session, rpc)
      ensures log == old(log)
                     + [Sent(i.WhoIs(), i.base.spec.Dependency(), i.MountPointName(), session, since, rpc, reply)]
    {
      reply := env.peer(log, session, rpc);
      log := log + [Sent(i.WhoIs(), i.base.spec.Dependency(), i.MountPointName(), session, since, rpc, reply)];
    }

    method Register(session: nat, id: string)
      modifies this`dialled
      ensures dialled == SetListeners(old(dialled), session, ListenersOf(old(dialled), session) + {id})
    {
      dialled := SetListeners(dialled, session, ListenersOf(dialled, session) + {id});
    }

    method Remove(session: nat, id: string)
      modifies this`dialled
      ensures dialled == SetListeners(old(dialled), session, ListenersOf(old(dialled), session) - {id})
    {
      dialled := SetListeners(dialled, session, ListenersOf(dialled, session) - {id});
    }

    // ----- the checks of controllers/common.go -----

    method CheckMountPointExists(mp: NsName) returns (ok: bool)
      ensures ok <==> env.readOk && ObjKey(MountPoint, mp) in store && mp.Key() in sessions
    {
      if !env.readOk || ObjKey(MountPoint, mp) !in store { return false; }
      return mp.Key() in sessions;
    }

    method ValidateExist(key: ObjKey) returns (found: Option<Obj>)
      ensures found == if env.readOk && key in store then Some(store[key]) else None
    {
      if !env.readOk || key !in store { return None; }
      return Some(store[key]);
    }

    method ValidateStatus(status: string) returns (ok: bool)
      ensures ok <==> status == "success"
    {
      return status == "success";
    }

    /** A dependency is valid iff it names one of the three kinds, exists in the namespace and succeeded. */
    method ValidateDependency(ns: string, dep: DependsOn) returns (ok: bool)
      ensures ok <==>
        && env.readOk
        && ((dep.kind == "Commit" && ObjKey(Commit, NsName(ns, dep.name)) in store
             && store[ObjKey(Commit, NsName(ns, dep.name))].status.status == "success")
            || (dep.kind == "EditConfig" && ObjKey(EditConfig, NsName(ns, dep.name)) in store
                && store[ObjKey(EditConfig, NsName(ns, dep.name))].status.status == "success")
            || (dep.kind == "Lock" && ObjKey(Lock, NsName(ns, dep.name)) in store
                && store[ObjKey(Lock, NsName(ns, dep.name))].status.status == "success"))
      ensures ok <==> env.readOk && ValidDependency(store, ns, dep)
    {
      var kind: Kind;
      match dep.kind {
        case "Commit" => kind := Commit;
        case "EditConfig" => kind := EditConfig;
        case "Lock" => kind := Lock;
        case _ => return false;
      }
      var found := ValidateExist(ObjKey(kind, NsName(ns, dep.name)));
      if found.None? { return false; }
      ok := ValidateStatus(found.value.status.status);
    }
  }

  // ----- the step machine, step by step -----

  /** One step of a reconcile. */
  lemma Onward(st: State, kind: Kind, w: Worker, env: Env, st': State, w': Worker)
    requires StepWorker(st, kind, w, ChoiceAt(st, w, env)) == (st', Go(w'))
    ensures Complete(st, kind, w, env) == Complete(st', kind, w', env)
  {
    StepDescends(st, kind, w, ChoiceAt(st, w, env));
  }

  /** The last step of most: the status is written back. */
  lemma Ends(st: State, kind: Kind, w: Worker, env: Env)
    requires w.pc.Report?
    ensures var key := ObjKey(kind, w.nn);
      Complete(st, kind, w, env) ==
        (Reported(st, key, w.base, w.obj.status, w.ran, env),
         if w.pc.failed || !env.statusOk || key !in st.store || st.store[key] != w.base then Requeued else Done)
  {
  }
}
