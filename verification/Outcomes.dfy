/** One whole reconcile of each kind, read off the controllers' own steps: what it leaves and how it ends, for every
    state and every behaviour of the outside. The steps of the machine, taken one after the other, add up to this. */
module Outcomes {
  import opened Api
  import opened Operator
  import opened Causality
  import opened Atomic
  import opened Script
  import opened Cluster
  import opened Validation
  import opened MountPointReconcilers
  import opened SubscriptionReconcilers
  import Execution
  import RpcReconcilers

  // ----- Lock, Commit, Unlock -----

  /** From the lookup on, for a kind that sends one RPC. */
  lemma SendsOne(st: State, key: ObjKey, env: Env, rpc: Rpc, from: Sender, reply: Outcome)
    requires Executes(key.kind) && !key.kind.EditConfig? && key in st.store && st.store[key].spec.Kind() == key.kind
    requires st.store[key].spec.MountPointOf(key.nn).Key() in st.sessions && st.store[key].spec.Script() == [rpc]
    requires from == SenderFor(key, st.store[key], st.sessions[st.store[key].spec.MountPointOf(key.nn).Key()], |st.log|)
    requires reply == env.peer(st.log, from.session, rpc)
    ensures var o, st1 := st.store[key], st.(log := st.log + [from.Entry(rpc, reply)]);
      Complete(st, key.kind, Fetched(st, key).(pc := Lookup, seen := |st.log|), env) ==
        if !rpc.Buildable(env.validXml(Payload(o.spec))) then (st, Panicked(BadMessage))
        else if reply.NoReply? then (st1, Panicked(NilReply))
        else
          (Reported(st1, key, o, o.status.(status := StatusName(key.kind, reply.Clean()),
                                           rpcReply := if reply.Clean() then reply.data else reply.raw),
                    Some(reply.Clean()), env),
           if reply.err || !env.statusOk then Requeued else Done)
  {
    var o, w := st.store[key], Fetched(st, key).(pc := Lookup, seen := |st.log|);
    var result := if !rpc.Buildable(env.validXml(Payload(o.spec))) then Aborted(BadMessage)
                  else if reply.NoReply? then Aborted(NilReply)
                  else Returned(reply.err);
    var status := o.status.(status := StatusName(key.kind, reply.Clean()),
                            rpcReply := if reply.NoReply? then "" else if reply.Clean() then reply.data else reply.raw);
    RunsOne(st, key, w, env, rpc, from, status, Some(reply.Clean()), result);
    assert st.log + [] == st.log;
  }

  lemma LockOutcome(st: State, nn: NsName, env: Env)
    requires ObjKey(Lock, nn) in st.store ==> st.store[ObjKey(Lock, nn)].spec.LockSpec?
    ensures var key, (st', e) := ObjKey(Lock, nn), Reconcile(st, Lock, nn, env);
      if !env.fetchOk then (st', e) == (st, Requeued)
      else if key !in st.store then (st', e) == (st, Done)
      else
        var o := st.store[key];
        var mp, ds := NsName(nn.ns, o.spec.mountPoint), o.spec.datastore;
        if !env.readOk || ObjKey(MountPoint, mp) !in st.store || mp.Key() !in st.sessions then
          (st', e) == (Reported(st, key, o, o.status, None, env), Requeued)
        else if o.deleting then (st', e) == (st, Done)
        else if ds != "running" && ds != "candidate" then (st', e) == (st, Panicked(BadMessage))
        else
          var s, who := st.sessions[mp.Key()], Who(Lock, nn, o.uid);
          var reply := env.peer(st.log, s, LockRpc(ds));
          var st1 := st.(log := st.log + [Sent(who, NO_DEPENDENCY, mp, s, |st.log|, LockRpc(ds), reply)]);
          var ok := reply.Reply? && !reply.err && !reply.errors;
          if reply.NoReply? then (st', e) == (st1, Panicked(NilReply))
          else
            && st' == Reported(st1, key, o, o.status.(status := if ok then "success" else "failed",
                                                      rpcReply := if ok then reply.data else reply.raw), Some(ok), env)
            && e == if reply.err || !env.statusOk then Requeued else Done
  {
    var key := ObjKey(Lock, nn);
    if env.fetchOk && key in st.store {
      var o := st.store[key];
      var mp := NsName(nn.ns, o.spec.mountPoint);
      if Connected(st, mp, env) {
        Valid(st, key, env);
        if !o.deleting {
          var rpc, from := LockRpc(o.spec.datastore), SenderFor(key, o, st.sessions[mp.Key()], |st.log|);
          SendsOne(st, key, env, rpc, from, env.peer(st.log, from.session, rpc));
        }
      } else {
        Invalid(st, key, env);
      }
    }
  }

  lemma CommitOutcome(st: State, nn: NsName, env: Env)
    requires ObjKey(Commit, nn) in st.store ==> st.store[ObjKey(Commit, nn)].spec.CommitSpec?
    ensures var key, (st', e) := ObjKey(Commit, nn), Reconcile(st, Commit, nn, env);
      if !env.fetchOk then (st', e) == (st, Requeued)
      else if key !in st.store then (st', e) == (st, Done)
      else
        var o := st.store[key];
        var mp, dep := NsName(nn.ns, o.spec.mountPoint), o.spec.dependsOn;
        if !env.readOk || ObjKey(MountPoint, mp) !in st.store || mp.Key() !in st.sessions
           || (dep.kind != "" && dep.name != "" && !ValidDependency(st.store, nn.ns, dep)) then
          (st', e) == (Reported(st, key, o, o.status, None, env), Requeued)
        else if o.deleting then (st', e) == (st, Done)
        else
          var s, who := st.sessions[mp.Key()], Who(Commit, nn, o.uid);
          var reply := env.peer(st.log, s, CommitRpc);
          var st1 := st.(log := st.log + [Sent(who, dep, mp, s, |st.log|, CommitRpc, reply)]);
          var ok := reply.Reply? && !reply.err && !reply.errors;
          if reply.NoReply? then (st', e) == (st1, Panicked(NilReply))
          else
            && st' == Reported(st1, key, o, o.status.(status := if ok then "success" else "failed",
                                                      rpcReply := if ok then reply.data else reply.raw), Some(ok), env)
            && e == if reply.err || !env.statusOk then Requeued else Done
  {
    var key := ObjKey(Commit, nn);
    if env.fetchOk && key in st.store {
      var o := st.store[key];
      var mp := NsName(nn.ns, o.spec.mountPoint);
      RpcReconcilers.ValidCommit(st, key, env);
      if Connected(st, mp, env) && GateOpen(st.store, nn.ns, o.spec.dependsOn) && !o.deleting {
        var from := SenderFor(key, o, st.sessions[mp.Key()], |st.log|);
        SendsOne(st, key, env, CommitRpc, from, env.peer(st.log, from.session, CommitRpc));
      }
    }
  }

  lemma UnlockOutcome(st: State, nn: NsName, env: Env)
    requires ObjKey(Unlock, nn) in st.store ==> st.store[ObjKey(Unlock, nn)].spec.UnlockSpec?
    ensures var key, (st', e) := ObjKey(Unlock, nn), Reconcile(st, Unlock, nn, env);
      if !env.fetchOk then (st', e) == (st, Requeued)
      else if key !in st.store then (st', e) == (st, Done)
      else
        var o := st.store[key];
        var mp, ds, dep := NsName(nn.ns, o.spec.mountPoint), o.spec.datastore, o.spec.dependsOn;
        if !env.readOk || ObjKey(MountPoint, mp) !in st.store || mp.Key() !in st.sessions then
          (st', e) == (Reported(st, key, o, o.status, None, env), Requeued)
        else if o.deleting then (st', e) == (st, Done)
        else if dep.kind != "" && dep.name != "" && !ValidDependency(st.store, nn.ns, dep) then
          (st', e) == (Reported(st, key, o, o.status, None, env), Requeued)
        else if ds != "running" && ds != "candidate" then (st', e) == (st, Panicked(BadMessage))
        else
          var s, who := st.sessions[mp.Key()], Who(Unlock, nn, o.uid);
          var reply := env.peer(st.log, s, UnlockRpc(ds));
          var st1 := st.(log := st.log + [Sent(who, dep, mp, s, |st.log|, UnlockRpc(ds), reply)]);
          var ok := reply.Reply? && !reply.err && !reply.errors;
          if reply.NoReply? then (st', e) == (st1, Panicked(NilReply))
          else
            && st' == Reported(st1, key, o, o.status.(status := if ok then "success" else "failed",
                                                      rpcReply := if ok then reply.data else reply.raw), Some(ok), env)
            && e == if reply.err || !env.statusOk then Requeued else Done
  {
    var key := ObjKey(Unlock, nn);
    if env.fetchOk && key in st.store {
      var o := st.store[key];
      var mp := NsName(nn.ns, o.spec.mountPoint);
      if !Connected(st, mp, env) {
        Invalid(st, key, env);
      } else if o.deleting {
        Valid(st, key, env);
      } else {
        GatesLogic(st, key, env);
        var rpc, from := UnlockRpc(o.spec.datastore), SenderFor(key, o, st.sessions[mp.Key()], |st.log|);
        SendsOne(st, key, env, rpc, from, env.peer(st.log, from.session, rpc));
      }
    }
  }

  // ----- EditConfig -----

  /** Up to its transaction; what follows then is what Execution.EditConfigTransaction says. */
  lemma EditConfigOutcome(st: State, nn: NsName, env: Env)
    requires ObjKey(EditConfig, nn) in st.store ==> st.store[ObjKey(EditConfig, nn)].spec.EditConfigSpec?
    ensures var key, (st', e) := ObjKey(EditConfig, nn), Reconcile(st, EditConfig, nn, env);
      if !env.fetchOk then (st', e) == (st, Requeued)
      else if key !in st.store then (st', e) == (st, Done)
      else
        var o := st.store[key];
        var mp, dep := NsName(nn.ns, o.spec.mountPoint), o.spec.dependsOn;
        if !env.readOk || ObjKey(MountPoint, mp) !in st.store || mp.Key() !in st.sessions then
          (st', e) == (Reported(st, key, o, o.status, None, env), Requeued)
        else if o.deleting then (st', e) == (st, Done)
        else if dep.kind != "" && dep.name != "" && !ValidDependency(st.store, nn.ns, dep) then
          (st', e) == (Reported(st, key, o, o.status, None, env), Requeued)
        else Execution.Live(st, key) && Execution.OpenAt(st, key) && env.Reads()
  {
    var key := ObjKey(EditConfig, nn);
    if env.fetchOk && key in st.store {
      var o := st.store[key];
      var mp := NsName(nn.ns, o.spec.mountPoint);
      if !Connected(st, mp, env) {
        Invalid(st, key, env);
      } else if o.deleting {
        Valid(st, key, env);
      } else {
        GatesLogic(st, key, env);
      }
    }
  }

  // ----- MountPoint and EstablishSubscription -----

  /** What a finalizer's removal leaves; without finalizers the object goes. */
  lemma Unfinalizes(st: State, kind: Kind, w: Worker, env: Env, f: string)
    requires OwnFinalizer(kind) == Some(f) && w.pc.Release? && w.base.deleting && w.obj.status == w.base.status
    requires ObjKey(kind, w.nn) in st.store && st.store[ObjKey(kind, w.nn)] == w.base && w.ran == None
    ensures var key, o, (st', e) := ObjKey(kind, w.nn), w.base, Complete(st, kind, w, env);
      if !env.updateOk then (st', e) == (Reported(st, key, o, o.status, None, env), Requeued)
      else if o.finalizers <= {f} then
        (st', e) == (st.(store := st.store - {key},
                         log := st.log + [Gone(Who(kind, w.nn, o.uid), o.status.subscriptionID)]), Done)
      else (st', e) == (st.(store := st.store[key := o.(finalizers := o.finalizers - {f})]), Done)
  {
    RemovesFinalizer(st, kind, w, env);
    assert w.base.finalizers <= {f} <==> w.base.finalizers - {f} == {};
  }

  /** The clean-up of a MountPoint being deleted. */
  lemma MountPointLeaves(st: State, nn: NsName, env: Env)
    requires var key := ObjKey(MountPoint, nn);
      key in st.store && st.store[key].spec.MountPointSpec? && env.fetchOk
      && st.store[key].deleting && MOUNTPOINT_FINALIZER in st.store[key].finalizers
    ensures var key, (st', e) := ObjKey(MountPoint, nn), Reconcile(st, MountPoint, nn, env);
      var o, cached := st.store[key], nn.Key() in st.sessions;
      var s, who := if cached then st.sessions[nn.Key()] else 0, Who(MountPoint, nn, o.uid);
      var close := env.peer(st.log, s, CloseSessionRpc);
      var log1 := st.log + [Sent(who, NO_DEPENDENCY, nn, s, |st.log|, CloseSessionRpc, close)];
      var kill := env.peer(log1, s, KillSessionRpc);
      var log2 := if close.NoReply? || close.err || close.errors
                  then log1 + [Sent(who, NO_DEPENDENCY, nn, s, |st.log|, KillSessionRpc, kill)] else log1;
      var st1 := if !cached then st
                 else st.(log := log2 + [Forgotten(nn.Key(), s)], sessions := st.sessions - {nn.Key()},
                          dialled := SetListeners(st.dialled, s, ListenersOf(st.dialled, s) - {STREAM_HANDLER}));
      if (cached && !env.hangUpOk) || !env.updateOk then
        (st', e) == (Reported(st1, key, o, o.status, None, env), Requeued)
      else if o.finalizers == {MOUNTPOINT_FINALIZER} then
        (st', e) == (st1.(store := st.store - {key}, log := st1.log + [Gone(who, o.status.subscriptionID)]), Done)
      else
        (st', e) ==
          (st1.(store := st.store[key := o.(finalizers := o.finalizers - {MOUNTPOINT_FINALIZER})]), Done)
  {
    var key, cached := ObjKey(MountPoint, nn), nn.Key() in st.sessions;
    var w, err := Start(MountPoint, nn, st.store[key]), cached && !env.hangUpOk;
    var st1 := if !cached then st
               else
                 var s := st.sessions[nn.Key()];
                 st.(log := Farewell(st.log, key, w.base, s, env) + [Forgotten(nn.Key(), s)],
                     sessions := st.sessions - {nn.Key()},
                     dialled := SetListeners(st.dialled, s, ListenersOf(st.dialled, s) - {STREAM_HANDLER}));
    CleanUpSteps(st, key, w, env, st1, err);
    var w1 := w.(pc := if err then Report(true) else Release, since := if cached then |st.log| else w.since);
    if err { Ends(st1, MountPoint, w1, env); } else { Unfinalizes(st1, MountPoint, w1, env, MOUNTPOINT_FINALIZER); }
  }

  /** All the rest: initialization and connection. */
  lemma MountPointOutcome(st: State, nn: NsName, env: Env)
    requires ObjKey(MountPoint, nn) in st.store ==> st.store[ObjKey(MountPoint, nn)].spec.MountPointSpec?
    ensures var key, (st', e) := ObjKey(MountPoint, nn), Reconcile(st, MountPoint, nn, env);
      if !env.fetchOk then (st', e) == (st, Requeued)
      else if key !in st.store then (st', e) == (st, Done)
      else
        var o, s := st.store[key], |st.dialled|;
        if MOUNTPOINT_FINALIZER !in o.finalizers then
          (st', e) ==
            if env.updateOk && !o.deleting
            then (st.(store := st.store[key := o.(finalizers := o.finalizers + {MOUNTPOINT_FINALIZER})]), Done)
            else (Reported(st, key, o, o.status, None, env), Requeued)
        else if o.deleting then true
        else if !env.dialOk then
          (st', e) == (Reported(st, key, o, o.status.(status := "failed"), Some(false), env), Requeued)
        else
          var st1 := st.(dialled := st.dialled + [Session(nn, {}, env.capabilities)], log := st.log + [Dialled(s)]);
          if !env.helloOk then
            (st', e) == (Reported(st1.(log := st1.log + [HelloFailed(s)]), key, o,
                                  o.status.(status := "failed"), Some(false), env), Requeued)
          else
            && st' == Reported(st1.(log := st1.log + [Installed(nn.Key(), s)],
                                    sessions := st.sessions[nn.Key() := s]), key, o,
                               o.status.(status := "connected", capabilities := env.capabilities), Some(true), env)
            && e == if env.statusOk then Done else Requeued
  {
    var key := ObjKey(MountPoint, nn);
    if env.fetchOk && key in st.store {
      var o, w := st.store[key], Start(MountPoint, nn, st.store[key]);
      if MOUNTPOINT_FINALIZER !in o.finalizers {
        AddsFinalizer(st, key, w, env);
      } else if !o.deleting {
        var err, s := !(env.dialOk && env.helloOk), |st.dialled|;
        var status := if err then o.status.(status := "failed")
                      else o.status.(status := "connected", capabilities := env.capabilities);
        var st1 := if !env.dialOk then st
                   else st.(dialled := st.dialled + [Session(nn, {}, env.capabilities)],
                            log := st.log + [Dialled(s)] + [if err then HelloFailed(s) else Installed(nn.Key(), s)],
                            sessions := if err then st.sessions else st.sessions[nn.Key() := s]);
        ConnectSteps(st, w, env, st1, status, err);
        Ends(st1, MountPoint, w.(obj := o.(status := status), ran := Some(!err), pc := Report(err)), env);
      }
    }
  }

  /** The clean-up of a connected EstablishSubscription being deleted. */
  lemma SubscriptionLeaves(st: State, nn: NsName, env: Env)
    requires var key := ObjKey(EstablishSubscription, nn);
      key in st.store && st.store[key].spec.EstablishSubscriptionSpec? && env.fetchOk && env.readOk
      && ObjKey(MountPoint, NsName(nn.ns, st.store[key].spec.mountPoint)) in st.store
      && NsName(nn.ns, st.store[key].spec.mountPoint).Key() in st.sessions && env.validXml(st.store[key].spec.xml)
      && st.store[key].deleting && SUBSCRIPTION_FINALIZER in st.store[key].finalizers
    ensures var key, (st', e) := ObjKey(EstablishSubscription, nn), Reconcile(st, EstablishSubscription, nn, env);
      var o := st.store[key];
      var mp, id := NsName(nn.ns, o.spec.mountPoint), o.status.subscriptionID;
      var s, who := st.sessions[mp.Key()], Who(EstablishSubscription, nn, o.uid);
      var log1 := st.log + [Unlistened(who, s, id, mp.Key(), |st.log|)];
      var reply := env.peer(log1, s, DeleteSubscriptionRpc(id));
      var st1 := if id == "" then st
                 else st.(log := log1 + [Sent(who, NO_DEPENDENCY, mp, s, |st.log|, DeleteSubscriptionRpc(id), reply)],
                          dialled := SetListeners(st.dialled, s, ListenersOf(st.dialled, s) - {id}));
      if (id != "" && (reply.NoReply? || reply.err)) || !env.updateOk then
        (st', e) == (Reported(st1, key, o, o.status, None, env), Requeued)
      else if o.finalizers == {SUBSCRIPTION_FINALIZER} then
        (st', e) == (st1.(store := st.store - {key}, log := st1.log + [Gone(who, id)]), Done)
      else
        (st', e) ==
          (st1.(store := st.store[key := o.(finalizers := o.finalizers - {SUBSCRIPTION_FINALIZER})]), Done)
  {
    var key := ObjKey(EstablishSubscription, nn);
    var o := st.store[key];
    var mp, id := NsName(nn.ns, o.spec.mountPoint), o.status.subscriptionID;
    var s, who := st.sessions[mp.Key()], Who(EstablishSubscription, nn, o.uid);
    var log1 := st.log + [Unlistened(who, s, id, mp.Key(), |st.log|)];
    var reply := env.peer(log1, s, DeleteSubscriptionRpc(id));
    var st1 := if id == "" then st
               else st.(log := log1 + [Sent(who, NO_DEPENDENCY, mp, s, |st.log|, DeleteSubscriptionRpc(id), reply)],
                        dialled := SetListeners(st.dialled, s, ListenersOf(st.dialled, s) - {id}));
    var err := id != "" && (reply.NoReply? || reply.err);
    var w := Fetched(st, key).(pc := Initialize, seen := |st.log|);
    ValidSubscription(st, key, env);
    UnsubscribeSteps(st, key, w, env, st1, Returned(err));
    var w1 := w.(pc := if err then Report(true) else Release, since := if id != "" then |st.log| else w.since);
    if err { Ends(st1, key.kind, w1, env); } else { Unfinalizes(st1, key.kind, w1, env, SUBSCRIPTION_FINALIZER); }
  }

  /** All the rest: validation, initialization and subscription. */
  lemma SubscriptionOutcome(st: State, nn: NsName, env: Env)
    requires ObjKey(EstablishSubscription, nn) in st.store ==>
      st.store[ObjKey(EstablishSubscription, nn)].spec.EstablishSubscriptionSpec?
    ensures var key, (st', e) := ObjKey(EstablishSubscription, nn), Reconcile(st, EstablishSubscription, nn, env);
      if !env.fetchOk then (st', e) == (st, Requeued)
      else if key !in st.store then (st', e) == (st, Done)
      else
        var o := st.store[key];
        var mp, rpc := NsName(nn.ns, o.spec.mountPoint), EstablishSubscriptionRpc(o.spec.xml);
        if !env.readOk || ObjKey(MountPoint, mp) !in st.store || mp.Key() !in st.sessions
           || !env.validXml(o.spec.xml) then
          (st', e) == (Reported(st, key, o, o.status, None, env), Requeued)
        else if SUBSCRIPTION_FINALIZER !in o.finalizers then
          (st', e) ==
            if env.updateOk && !o.deleting
            then (st.(store := st.store[key := o.(finalizers := o.finalizers + {SUBSCRIPTION_FINALIZER})]), Done)
            else (Reported(st, key, o, o.status, None, env), Requeued)
        else if o.deleting then true
        else
          var s, who := st.sessions[mp.Key()], Who(EstablishSubscription, nn, o.uid);
          var reply := env.peer(st.log, s, rpc);
          var log1 := st.log + [Sent(who, NO_DEPENDENCY, mp, s, |st.log|, rpc, reply)];
          if reply.NoReply? || reply.err || reply.errors then
            var raw := if reply.NoReply? then o.status.rpcReply else reply.raw;
            && st' == Reported(st.(log := log1), key, o, o.status.(status := "failed", rpcReply := raw),
                               Some(false), env)
            && e == if reply.NoReply? || reply.err || !env.statusOk then Requeued else Done
          else
            var id := reply.subscriptionID;
            && st' == Reported(st.(log := log1 + [Listened(who, s, id, mp.Key(), |st.log|)],
                                   dialled := SetListeners(st.dialled, s, ListenersOf(st.dialled, s) + {id})), key, o,
                               o.status.(status := "subscribed", subscriptionID := id), Some(true), env)
            && e == if env.statusOk then Done else Requeued
  {
    var key := ObjKey(EstablishSubscription, nn);
    if env.fetchOk && key in st.store {
      var o := st.store[key];
      var mp, rpc := NsName(nn.ns, o.spec.mountPoint), EstablishSubscriptionRpc(o.spec.xml);
      ValidSubscription(st, key, env);
      if Connected(st, mp, env) && env.validXml(o.spec.xml) {
        var w := Fetched(st, key).(pc := Initialize, seen := |st.log|);
        if SUBSCRIPTION_FINALIZER !in o.finalizers {
          AddsFinalizer(st, key, w, env);
        } else if !o.deleting {
          var s, who := st.sessions[mp.Key()], Who(EstablishSubscription, nn, o.uid);
          var reply := env.peer(st.log, s, rpc);
          SubscribingEnds(st, key, w, env, reply);
        }
      }
    }
  }

  lemma SubscribingEnds(st: State, key: ObjKey, w: Worker, env: Env, reply: Outcome)
    requires At(key, w) && !w.base.deleting && key in st.store && st.store[key] == w.base
    requires TargetOf(w).Key() in st.sessions
    requires reply == env.peer(st.log, st.sessions[TargetOf(w).Key()], EstablishSubscriptionRpc(w.base.spec.xml))
    ensures var o, mp, rpc := w.base, TargetOf(w), EstablishSubscriptionRpc(w.base.spec.xml);
      var s, who, id := st.sessions[mp.Key()], Who(key.kind, key.nn, o.uid),
                        if reply.Reply? then reply.subscriptionID else "";
      var log1 := st.log + [Sent(who, NO_DEPENDENCY, mp, s, |st.log|, rpc, reply)];
      var raw := if reply.NoReply? then o.status.rpcReply else reply.raw;
      Complete(st, EstablishSubscription, w, env) ==
        if reply.NoReply? || reply.err || reply.errors then
          (Reported(st.(log := log1), key, o, o.status.(status := "failed", rpcReply := raw), Some(false), env),
           if reply.NoReply? || reply.err || !env.statusOk then Requeued else Done)
        else
          (Reported(st.(log := log1 + [Listened(who, s, id, mp.Key(), |st.log|)],
                        dialled := SetListeners(st.dialled, s, ListenersOf(st.dialled, s) + {id})), key, o,
                    o.status.(status := "subscribed", subscriptionID := id), Some(true), env),
           if env.statusOk then Done else Requeued)
  {
    var o, mp, rpc, s := w.base, TargetOf(w), EstablishSubscriptionRpc(w.base.spec.xml), st.sessions[TargetOf(w).Key()];
    var who := Who(key.kind, key.nn, o.uid);
    var st1 := st.(log := st.log + [Sent(who, NO_DEPENDENCY, mp, s, |st.log|, rpc, reply)]);
    var raw := if reply.NoReply? then o.status.rpcReply else reply.raw;
    var status := if reply.Clean() then o.status.(status := "subscribed", subscriptionID := reply.subscriptionID)
                  else o.status.(status := "failed", rpcReply := raw);
    var st2 := if reply.Clean()
               then st1.(log := st1.log + [Listened(who, s, reply.subscriptionID, mp.Key(), |st.log|)],
                         dialled := SetListeners(st.dialled, s, ListenersOf(st.dialled, s) + {reply.subscriptionID}))
               else st1;
    SubscribeSteps(st, key, w, env, st2, status, Some(reply.Clean()), Returned(reply.Err()));
    Ends(st2, key.kind,
         w.(obj := o.(status := status), ran := Some(reply.Clean()), pc := Report(reply.Err()), since := |st.log|),
         env);
  }
}
