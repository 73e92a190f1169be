/** The Lock, Commit and Unlock controllers. Each is proved to be the one reconcile machine of module Atomic
    at its kind, so everything proved of that machine, and of its runs, holds of the three of them. */
module RpcReconcilers {
  import opened Api
  import opened Operator
  import opened Atomic
  import opened Script
  import opened Cluster
  import opened Validation

  class LockReconciler {
    const r: Manager

    constructor (r: Manager)
      ensures this.r == r
    {
      this.r := r;
    }

    method IsValid(i: Instance) returns (ok: bool)
      requires i.base.spec.LockSpec?
      ensures var mp := NsName(i.key.nn.ns, i.base.spec.mountPoint);
        ok <==> r.env.readOk && ObjKey(MountPoint, mp) in r.store && mp.Key() in r.sessions
    {
      ok := r.CheckMountPointExists(i.MountPointName());
    }

    method ManageOperatorLogic(i: Instance) returns (result: Result)
      requires i.base.spec.LockSpec? && i.key.kind.Lock? && i.ran == None
      modifies r`log, i
      ensures i.finalizers == old(i.finalizers)
      ensures var mp, ds := NsName(i.key.nn.ns, i.base.spec.mountPoint), i.base.spec.datastore;
        if mp.Key() !in r.sessions then
          result == Aborted(NilSession) && r.log == old(r.log) && i.status == old(i.status) && i.ran == None
        else if ds != "running" && ds != "candidate" then
          result == Aborted(BadMessage) && r.log == old(r.log)
        else
          var s := r.sessions[mp.Key()];
          var reply := r.env.peer(old(r.log), s, LockRpc(ds));
          var ok := reply.Reply? && !reply.err && !reply.errors;
          && r.log == old(r.log) + [Sent(i.WhoIs(), NO_DEPENDENCY, mp, s, |old(r.log)|, LockRpc(ds), reply)]
          && (reply.NoReply? ==> result == Aborted(NilReply))
          && (reply.Reply? ==>
                && result == Returned(reply.err) && i.ran == Some(ok)
                && i.status == old(i.status).(status := if ok then "success" else "failed",
                                              rpcReply := if ok then reply.data else reply.raw))
    {
      if i.MountPointName().Key() !in r.sessions { return Aborted(NilSession); }
      var s, since := r.sessions[i.MountPointName().Key()], |r.log|;
      var rpc := LockRpc(i.base.spec.datastore);
      if !rpc.Buildable(true) { return Aborted(BadMessage); }
      var reply := r.SyncRPC(i, s, since, rpc);
      if reply.Err() || reply.errors {
        i.status := i.status.(status := "failed");
        if reply.NoReply? { return Aborted(NilReply); }
        i.status, i.ran := i.status.(rpcReply := reply.raw), Some(false);
        return Returned(reply.err);
      }
      i.status, i.ran := i.status.(status := "success", rpcReply := reply.data), Some(true);
      return Returned(false);
    }

    method Reconcile(nn: NsName) returns (e: Ending)
      requires r.Typed(ObjKey(Lock, nn))
      modifies r
      ensures (r.St(), e) == Atomic.Reconcile(old(r.St()), Lock, nn, r.env)
    {
      ghost var st, key := r.St(), ObjKey(Lock, nn);
      var ok, i := r.Get(ObjKey(Lock, nn));
      if !ok { return Requeued; }
      if i == null { return Done; }
      ok := IsValid(i);
      if !ok {
        Invalid(st, key, r.env);
        e := r.ManageError(i);
        return;
      }
      Valid(st, key, r.env);
      if i.base.deleting { return Done; }
      ghost var w := i.At(Lookup, |st.log|, 0, "");
      ghost var from := SenderFor(key, i.base, st.sessions[i.MountPointName().Key()], |st.log|);
      var result := ManageOperatorLogic(i);
      RunsOne(st, key, w, r.env, LockRpc(i.base.spec.datastore), from, i.status, i.ran, result);
      if result.Aborted? { return Panicked(result.cause); }
      if result.err { e := r.ManageError(i); } else { e := r.ManageSuccess(i); }
    }
  }

  class CommitReconciler {
    const r: Manager

    constructor (r: Manager)
      ensures this.r == r
    {
      this.r := r;
    }

    /** A Commit tests its dependency already here. */
    method IsValid(i: Instance) returns (ok: bool)
      requires i.base.spec.CommitSpec?
      ensures var mp, dep := NsName(i.key.nn.ns, i.base.spec.mountPoint), i.base.spec.dependsOn;
        ok <==>
          && r.env.readOk && ObjKey(MountPoint, mp) in r.store && mp.Key() in r.sessions
          && (dep.kind == "" || dep.name == "" || ValidDependency(r.store, i.key.nn.ns, dep))
    {
      ok := r.CheckMountPointExists(i.MountPointName());
      if ok && !i.base.spec.Dependency().IsNil() {
        ok := r.ValidateDependency(i.key.nn.ns, i.base.spec.Dependency());
      }
    }

    method ManageOperatorLogic(i: Instance) returns (result: Result)
      requires i.base.spec.CommitSpec? && i.key.kind.Commit? && i.ran == None
      modifies r`log, i
      ensures i.finalizers == old(i.finalizers)
      ensures var mp := NsName(i.key.nn.ns, i.base.spec.mountPoint);
        if mp.Key() !in r.sessions then
          result == Aborted(NilSession) && r.log == old(r.log) && i.status == old(i.status) && i.ran == None
        else
          var s := r.sessions[mp.Key()];
          var reply := r.env.peer(old(r.log), s, CommitRpc);
          var ok := reply.Reply? && !reply.err && !reply.errors;
          && r.log == old(r.log) + [Sent(i.WhoIs(), i.base.spec.dependsOn, mp, s, |old(r.log)|, CommitRpc, reply)]
          && (reply.NoReply? ==> result == Aborted(NilReply))
          && (reply.Reply? ==>
                && result == Returned(reply.err) && i.ran == Some(ok)
                && i.status == old(i.status).(status := if ok then "success" else "failed",
                                              rpcReply := if ok then reply.data else reply.raw))
    {
      if i.MountPointName().Key() !in r.sessions { return Aborted(NilSession); }
      var s, since := r.sessions[i.MountPointName().Key()], |r.log|;
      var reply := r.SyncRPC(i, s, since, CommitRpc);
      if reply.Err() || reply.errors {
        i.status := i.status.(status := "failed");
        if reply.NoReply? { return Aborted(NilReply); }
        i.status, i.ran := i.status.(rpcReply := reply.raw), Some(false);
        return Returned(reply.err);
      }
      i.status, i.ran := i.status.(status := "success", rpcReply := reply.data), Some(true);
      return Returned(false);
    }

    method Reconcile(nn: NsName) returns (e: Ending)
      requires r.Typed(ObjKey(Commit, nn))
      modifies r
      ensures (r.St(), e) == Atomic.Reconcile(old(r.St()), Commit, nn, r.env)
    {
      ghost var st, key := r.St(), ObjKey(Commit, nn);
      var ok, i := r.Get(ObjKey(Commit, nn));
      if !ok { return Requeued; }
      if i == null { return Done; }
      ok := IsValid(i);
      ghost var w := i.At(Lookup, |st.log|, 0, "");
      ValidCommit(st, key, r.env);
      if !ok {
        e := r.ManageError(i);
        return;
      }
      if i.base.deleting { return Done; }
      ghost var from := SenderFor(key, i.base, st.sessions[i.MountPointName().Key()], |st.log|);
      var result := ManageOperatorLogic(i);
      RunsOne(st, key, w, r.env, CommitRpc, from, i.status, i.ran, result);
      if result.Aborted? { return Panicked(result.cause); }
      if result.err { e := r.ManageError(i); } else { e := r.ManageSuccess(i); }
    }
  }

  /** The validation of a Commit, its dependency included. */
  lemma ValidCommit(st: State, key: ObjKey, env: Env)
    requires env.fetchOk && key in st.store && key.kind.Commit?
    ensures var spec := st.store[key].spec;
      Reconcile(st, key.kind, key.nn, env) ==
        if !Connected(st, spec.MountPointOf(key.nn), env) || !GateOpen(st.store, key.nn.ns, spec.Dependency())
        then (Reported(st, key, st.store[key], st.store[key].status, None, env), Requeued)
        else Proceed(st, key.kind, AfterValidation(key.kind, Fetched(st, key).(pc := Lookup, seen := |st.log|)), env)
  {
    var spec := st.store[key].spec;
    if !Connected(st, spec.MountPointOf(key.nn), env) {
      Invalid(st, key, env);
    } else {
      Valid(st, key, env);
      if !spec.Dependency().IsNil() {
        var w := Fetched(st, key).(pc := CheckDependency, seen := |st.log|);
        if GateOpen(st.store, key.nn.ns, spec.Dependency()) {
          assert StepWorker(st, key.kind, w, ChoiceAt(st, w, env)) == (st, AfterValidation(key.kind, w));
        } else {
          Closed(st, key, w, env);
        }
      }
    }
  }

  class UnlockReconciler {
    const r: Manager

    constructor (r: Manager)
      ensures this.r == r
    {
      this.r := r;
    }

    method IsValid(i: Instance) returns (ok: bool)
      requires i.base.spec.UnlockSpec?
      ensures var mp := NsName(i.key.nn.ns, i.base.spec.mountPoint);
        ok <==> r.env.readOk && ObjKey(MountPoint, mp) in r.store && mp.Key() in r.sessions
    {
      ok := r.CheckMountPointExists(i.MountPointName());
    }

    /** An Unlock tests its dependency here; a closed gate is an error that leaves everything as it was. */
    method ManageOperatorLogic(i: Instance) returns (result: Result)
      requires i.base.spec.UnlockSpec? && i.key.kind.Unlock? && i.ran == None
      modifies r`log, i
      ensures i.finalizers == old(i.finalizers)
      ensures var mp, ds := NsName(i.key.nn.ns, i.base.spec.mountPoint), i.base.spec.datastore;
        var dep := i.base.spec.dependsOn;
        var open := dep.kind == "" || dep.name == ""
                    || (r.env.readOk && ValidDependency(r.store, i.key.nn.ns, dep));
        if !open then
          result == Returned(true) && r.log == old(r.log) && i.status == old(i.status) && i.ran == None
        else if mp.Key() !in r.sessions then
          result == Aborted(NilSession) && r.log == old(r.log) && i.status == old(i.status) && i.ran == None
        else if ds != "running" && ds != "candidate" then
          result == Aborted(BadMessage) && r.log == old(r.log)
        else
          var s := r.sessions[mp.Key()];
          var reply := r.env.peer(old(r.log), s, UnlockRpc(ds));
          var ok := reply.Reply? && !reply.err && !reply.errors;
          && r.log == old(r.log) + [Sent(i.WhoIs(), dep, mp, s, |old(r.log)|, UnlockRpc(ds), reply)]
          && (reply.NoReply? ==> result == Aborted(NilReply))
          && (reply.Reply? ==>
                && result == Returned(reply.err) && i.ran == Some(ok)
                && i.status == old(i.status).(status := if ok then "success" else "failed",
                                              rpcReply := if ok then reply.data else reply.raw))
    {
      if !i.base.spec.Dependency().IsNil() {
        var ok := r.ValidateDependency(i.key.nn.ns, i.base.spec.Dependency());
        if !ok { return Returned(true); }
      }
      if i.MountPointName().Key() !in r.sessions { return Aborted(NilSession); }
      var s, since := r.sessions[i.MountPointName().Key()], |r.log|;
      var rpc := UnlockRpc(i.base.spec.datastore);
      if !rpc.Buildable(true) { return Aborted(BadMessage); }
      var reply := r.SyncRPC(i, s, since, rpc);
      if reply.Err() || reply.errors {
        i.status := i.status.(status := "failed");
        if reply.NoReply? { return Aborted(NilReply); }
        i.status, i.ran := i.status.(rpcReply := reply.raw), Some(false);
        return Returned(reply.err);
      }
      i.status, i.ran := i.status.(status := "success", rpcReply := reply.data), Some(true);
      return Returned(false);
    }

    method Reconcile(nn: NsName) returns (e: Ending)
      requires r.Typed(ObjKey(Unlock, nn))
      modifies r
      ensures (r.St(), e) == Atomic.Reconcile(old(r.St()), Unlock, nn, r.env)
    {
      ghost var st, key := r.St(), ObjKey(Unlock, nn);
      var ok, i := r.Get(ObjKey(Unlock, nn));
      if !ok { return Requeued; }
      if i == null { return Done; }
      ok := IsValid(i);
      if !ok {
        Invalid(st, key, r.env);
        e := r.ManageError(i);
        return;
      }
      Valid(st, key, r.env);
      if i.base.deleting { return Done; }
      GatesLogic(st, key, r.env);
      ghost var w := i.At(Lookup, |st.log|, 0, "");
      var result := ManageOperatorLogic(i);
      if LogicGate(st, i, r.env) {
        ghost var from := SenderFor(key, i.base, st.sessions[i.MountPointName().Key()], |st.log|);
        RunsOne(st, key, w, r.env, UnlockRpc(i.base.spec.datastore), from, i.status, i.ran, result);
      }
      if result.Aborted? { return Panicked(result.cause); }
      if result.err { e := r.ManageError(i); } else { e := r.ManageSuccess(i); }
    }
  }
}
