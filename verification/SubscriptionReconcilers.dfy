/** The EstablishSubscription controller: finalizer, subscription, listener, clean-up. */
module SubscriptionReconcilers {
  import opened Api
  import opened Operator
  import opened Atomic
  import opened Cluster
  import opened Validation

  class EstablishSubscriptionReconciler {
    const r: Manager

    constructor (r: Manager)
      ensures this.r == r
    {
      this.r := r;
    }

    method IsValid(i: Instance) returns (ok: bool)
      requires i.base.spec.EstablishSubscriptionSpec?
      ensures var mp := NsName(i.key.nn.ns, i.base.spec.mountPoint);
        ok <==>
          && r.env.readOk && ObjKey(MountPoint, mp) in r.store && mp.Key() in r.sessions
          && r.env.validXml(i.base.spec.xml)
    {
      ok := r.CheckMountPointExists(i.MountPointName());
      if ok && !r.env.validXml(i.base.spec.xml) { return false; }
    }

    method IsInitialized(i: Instance) returns (ok: bool)
      modifies i
      ensures ok <==> SUBSCRIPTION_FINALIZER in old(i.finalizers)
      ensures i.finalizers == old(i.finalizers) + {SUBSCRIPTION_FINALIZER}
      ensures i.status == old(i.status) && i.ran == old(i.ran)
    {
      if SUBSCRIPTION_FINALIZER in i.finalizers { return true; }
      i.finalizers := i.finalizers + {SUBSCRIPTION_FINALIZER};
      return false;
    }

    /** Without a stored id there is nothing to do. Otherwise the listener of that id goes, and only that one,
        and delete-subscription is sent; it returns an error iff the RPC did. */
    method ManageCleanUpLogic(i: Instance) returns (result: Result)
      modifies r`log, r`dialled
      ensures i.status.subscriptionID == "" ==> r.St() == old(r.St()) && result == Returned(false)
      ensures i.status.subscriptionID != "" ==>
        Unsubscribed(old(r.St()), i.key, i.base, i.status.subscriptionID, r.env, r.St(), result)
    {
      var id := i.status.subscriptionID;
      if id != "" {
        if i.MountPointName().Key() !in r.sessions { return Aborted(NilSession); }
        var s, since := r.sessions[i.MountPointName().Key()], |r.log|;
        r.Remove(s, id);
        r.log := r.log + [Unlistened(i.WhoIs(), s, id, i.MountPointName().Key(), since)];
        var reply := r.SyncRPC(i, s, since, DeleteSubscriptionRpc(id));
        if reply.Err() { return Returned(true); }
      }
      return Returned(false);
    }

    /** Subscribes on the session of the MountPoint. A clean reply leaves its id both stored and registered with
        the session; any other leaves the listeners and the stored id as they were. */
    method ManageOperatorLogic(i: Instance) returns (result: Result)
      requires i.base.spec.EstablishSubscriptionSpec? && i.ran == None
      modifies r`log, r`dialled, i
      ensures i.finalizers == old(i.finalizers)
      ensures Subscribed(old(r.St()), i.key, i.base, old(i.status), r.env, r.St(), i.status, i.ran, result)
    {
      if i.MountPointName().Key() !in r.sessions { return Aborted(NilSession); }
      var s, since := r.sessions[i.MountPointName().Key()], |r.log|;
      var reply := r.SyncRPC(i, s, since, EstablishSubscriptionRpc(i.base.spec.xml));
      if reply.Err() || reply.errors {
        i.status, i.ran := i.status.(status := "failed"), Some(false);
        if reply.Reply? { i.status := i.status.(rpcReply := reply.raw); }
        return Returned(reply.Err());
      }
      r.Register(s, reply.subscriptionID);
      r.log := r.log + [Listened(i.WhoIs(), s, reply.subscriptionID, i.MountPointName().Key(), since)];
      i.status, i.ran := i.status.(status := "subscribed", subscriptionID := reply.subscriptionID), Some(true);
      return Returned(false);
    }

    method Reconcile(nn: NsName) returns (e: Ending)
      requires r.Typed(ObjKey(EstablishSubscription, nn))
      modifies r
      ensures (r.St(), e) == Atomic.Reconcile(old(r.St()), EstablishSubscription, nn, r.env)
    {
      ghost var st, key := r.St(), ObjKey(EstablishSubscription, nn);
      var ok, i := r.Get(ObjKey(EstablishSubscription, nn));
      if !ok { return Requeued; }
      if i == null { return Done; }
      ok := IsValid(i);
      ValidSubscription(st, key, r.env);
      if !ok {
        e := r.ManageError(i);
        return;
      }
      // From here on the session is there, so neither logic panics.
      ghost var w := i.At(Initialize, |st.log|, 0, "");
      ok := IsInitialized(i);
      if !ok {
        AddsFinalizer(st, key, w, r.env);
        ok := r.Update(i);
        if !ok {
          e := r.ManageError(i);
          return;
        }
        return Done;
      }
      assert i.finalizers == i.base.finalizers;
      if i.base.deleting {
        var result := ManageCleanUpLogic(i);
        UnsubscribeSteps(st, key, w, r.env, r.St(), result);
        ghost var w1 := w.(pc := Release, since := if i.status.subscriptionID != "" then |st.log| else 0);
        assert result.Returned?;
        if result.err {
          Ends(r.St(), EstablishSubscription, w1.(pc := Report(true)), r.env);
          e := r.ManageError(i);
          return;
        }
        RemovesFinalizer(r.St(), EstablishSubscription, w1, r.env);
        i.finalizers := i.finalizers - {SUBSCRIPTION_FINALIZER};
        ok := r.Update(i);
        if !ok {
          e := r.ManageError(i);
          return;
        }
        return Done;
      }
      var result := ManageOperatorLogic(i);
      SubscribeSteps(st, key, w, r.env, r.St(), i.status, i.ran, result);
      assert result.Returned?;
      Ends(r.St(), EstablishSubscription, i.At(Report(result.err), |st.log|, |st.log|, ""), r.env);
      if result.err { e := r.ManageError(i); } else { e := r.ManageSuccess(i); }
    }
  }

  /** The state once the subscription `id` of an instance was cleaned up. */
  predicate Unsubscribed(st: State, key: ObjKey, base: Obj, id: string, env: Env, st': State, result: Result) {
    if base.spec.MountPointOf(key.nn).Key() !in st.sessions then result == Aborted(NilSession) && st' == st
    else
      var s := st.sessions[base.spec.MountPointOf(key.nn).Key()];
      var log1 :=
        st.log + [Unlistened(Who(key.kind, key.nn, base.uid), s, id, base.spec.MountPointOf(key.nn).Key(), |st.log|)];
      var reply := env.peer(log1, s, DeleteSubscriptionRpc(id));
      && result == Returned(reply.Err())
      && st' == st.(dialled := SetListeners(st.dialled, s, ListenersOf(st.dialled, s) - {id}),
                    log := log1 + [SenderFor(key, base, s, |st.log|).Entry(DeleteSubscriptionRpc(id), reply)])
  }

  /** The state, status, record and result once an instance has tried to subscribe. */
  predicate Subscribed(st: State, key: ObjKey, base: Obj, before: Status, env: Env,
                       st': State, after: Status, ran: Option<bool>, result: Result)
    requires base.spec.EstablishSubscriptionSpec?
  {
    if base.spec.MountPointOf(key.nn).Key() !in st.sessions then result == Aborted(NilSession) && st' == st
    else
      var s := st.sessions[base.spec.MountPointOf(key.nn).Key()];
      var rpc := EstablishSubscriptionRpc(base.spec.xml);
      var reply := env.peer(st.log, s, rpc);
      var log1 := st.log + [SenderFor(key, base, s, |st.log|).Entry(rpc, reply)];
      && result == Returned(reply.Err()) && ran == Some(reply.Clean())
      && if reply.Clean() then
           && after == before.(status := "subscribed", subscriptionID := reply.subscriptionID)
           && st' == st.(dialled := SetListeners(st.dialled, s, ListenersOf(st.dialled, s) + {reply.subscriptionID}),
                         log := log1 + [Listened(Who(key.kind, key.nn, base.uid), s, reply.subscriptionID,
                             base.spec.MountPointOf(key.nn).Key(), |st.log|)])
         else
           && after == before.(status := "failed", rpcReply := if reply.NoReply? then before.rpcReply else reply.raw)
           && st' == st.(log := log1)
  }

  // ----- the same, step by step -----

  lemma ValidSubscription(st: State, key: ObjKey, env: Env)
    requires env.fetchOk && key in st.store && key.kind.EstablishSubscription?
    requires st.store[key].spec.EstablishSubscriptionSpec?
    ensures var spec := st.store[key].spec;
      Reconcile(st, key.kind, key.nn, env) ==
        if Connected(st, NsName(key.nn.ns, spec.mountPoint), env) && env.validXml(spec.xml)
        then Complete(st, key.kind, Fetched(st, key).(pc := Initialize, seen := |st.log|), env)
        else (Reported(st, key, st.store[key], st.store[key].status, None, env), Requeued)
  {
    if Connected(st, st.store[key].spec.MountPointOf(key.nn), env) {
      Valid(st, key, env);
      Ends(st, key.kind, Fetched(st, key).(pc := Report(true), seen := |st.log|), env);
    } else {
      Invalid(st, key, env);
    }
  }

  predicate At(key: ObjKey, w: Worker) {
    key == ObjKey(EstablishSubscription, w.nn) && w.obj == w.base && w.ran == None
    && w.base.spec.EstablishSubscriptionSpec? && Finalized(EstablishSubscription, w.base) && w.pc.Initialize?
  }

  lemma UnsubscribeSteps(st: State, key: ObjKey, w: Worker, env: Env, st': State, result: Result)
    requires At(key, w) && w.base.deleting
    requires var id := w.base.status.subscriptionID;
      if id == "" then st' == st && result == Returned(false) else Unsubscribed(st, key, w.base, id, env, st', result)
    ensures Complete(st, EstablishSubscription, w, env) ==
      if result.Aborted? then (st', Panicked(result.cause))
      else Complete(st', EstablishSubscription,
                    w.(pc := if result.err then Report(true) else Release,
                       since := if w.base.status.subscriptionID != "" then |st.log| else w.since), env)
  {
    var kind, id := EstablishSubscription, w.base.status.subscriptionID;
    if id == "" {
      Onward(st, kind, w, env, st, w.(pc := Release));
    } else {
      Onward(st, kind, w, env, st, w.(pc := Lookup));
      if TargetOf(w).Key() in st.sessions {
        var s := st.sessions[TargetOf(w).Key()];
        var w1 := w.(pc := Unlisten(s), since := |st.log|);
        var w2 := w1.(pc := Send(s, [DeleteSubscriptionRpc(id)]));
        var st1 := st.(dialled := SetListeners(st.dialled, s, ListenersOf(st.dialled, s) - {id}),
                       log := st.log
                              + [Unlistened(Who(key.kind, key.nn, w.base.uid), s, id, TargetOf(w).Key(), |st.log|)]);
        Onward(st, kind, w.(pc := Lookup), env, st, w1);
        Onward(st, kind, w1, env, st1, w2);
        Onward(st1, kind, w2, env, st', w2.(pc := if result.err then Report(true) else Release));
      }
    }
  }

  lemma SubscribeSteps(st: State, key: ObjKey, w: Worker, env: Env,
                       st': State, status: Status, ran: Option<bool>, result: Result)
    requires At(key, w) && !w.base.deleting && Subscribed(st, key, w.base, w.base.status, env, st', status, ran, result)
    ensures Complete(st, EstablishSubscription, w, env) ==
      if result.Aborted? then (st', Panicked(result.cause))
      else Complete(st', EstablishSubscription,
                    w.(obj := w.base.(status := status), ran := ran, pc := Report(result.err), since := |st.log|), env)
  {
    var kind := EstablishSubscription;
    Onward(st, kind, w, env, st, w.(pc := Lookup));
    if TargetOf(w).Key() in st.sessions {
      var s := st.sessions[TargetOf(w).Key()];
      var rpc := EstablishSubscriptionRpc(w.base.spec.xml);
      var reply := env.peer(st.log, s, rpc);
      var w1 := w.(pc := Send(s, [rpc]), since := |st.log|);
      var st1 := st.(log := st.log + [SenderFor(key, w.base, s, |st.log|).Entry(rpc, reply)]);
      var w' := w.(obj := w.base.(status := status), ran := ran, pc := Report(result.err), since := |st.log|);
      Onward(st, kind, w.(pc := Lookup), env, st, w1);
      if reply.Clean() {
        Onward(st, kind, w1, env, st1, w1.(pc := Listen(s, reply.subscriptionID)));
        Onward(st1, kind, w1.(pc := Listen(s, reply.subscriptionID)), env, st', w');
      } else {
        Onward(st, kind, w1, env, st', w');
      }
    }
  }
}
