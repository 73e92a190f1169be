/** The MountPoint controller: finalizer, connection, clean-up. */
module MountPointReconcilers {
  import opened Api
  import opened Operator
  import opened Atomic
  import opened Cluster
  import opened Validation
  import opened GoSlices

  function SentFor(key: ObjKey, base: Obj, session: nat, since: nat, rpc: Rpc, reply: Outcome): Event {
    SenderFor(key, base, session, since).Entry(rpc, reply)
  }

  /** The log of ending a session: close-session, then kill-session iff the close did not come back clean. */
  function Farewell(log: Log, key: ObjKey, base: Obj, session: nat, env: Env): Log {
    var close := env.peer(log, session, CloseSessionRpc);
    var log1 := log + [SentFor(key, base, session, |log|, CloseSessionRpc, close)];
    if close.Clean() then log1
    else log1 + [SentFor(key, base, session, |log|, KillSessionRpc, env.peer(log1, session, KillSessionRpc))]
  }

  class MountPointReconciler {
    const r: Manager
    const defaults: Slice
    const spare: nat
    ghost var hello: seq<string>

    constructor (r: Manager, defaults: Slice, spare: nat)
      ensures this.r == r && this.defaults == defaults && this.spare == spare
    {
      this.r, this.defaults, this.spare := r, defaults, spare;
    }

    /** Whether the finalizer was there; if not it is now, in memory. */
    method IsInitialized(i: Instance) returns (ok: bool)
      modifies i
      ensures ok <==> MOUNTPOINT_FINALIZER in old(i.finalizers)
      ensures i.finalizers == old(i.finalizers) + {MOUNTPOINT_FINALIZER}
      ensures i.status == old(i.status) && i.ran == old(i.ran)
    {
      if MOUNTPOINT_FINALIZER in i.finalizers { return true; }
      i.finalizers := i.finalizers + {MOUNTPOINT_FINALIZER};
      return false;
    }

    /** Ends the cached session if there is one: close-session first, then kill-session iff the close got no reply,
        an error or rpc-errors. Whatever they return, the session leaves the cache, and an error comes back iff it
        could not be hung up. */
    method ManageCleanUpLogic(i: Instance) returns (err: bool)
      requires i.base.spec.MountPointSpec?
      modifies r
      ensures i.key.nn.Key() !in old(r.sessions) ==> r.St() == old(r.St()) && !err
      ensures i.key.nn.Key() in old(r.sessions) ==>
        var s := old(r.sessions)[i.key.nn.Key()];
        var since, close := |old(r.log)|, r.env.peer(old(r.log), s, CloseSessionRpc);
        var closed := old(r.log) + [Sent(i.WhoIs(), NO_DEPENDENCY, i.key.nn, s, since, CloseSessionRpc, close)];
        var kill := r.env.peer(closed, s, KillSessionRpc);
        && err == !r.env.hangUpOk
        && r.log == closed
                    + (if close.NoReply? || close.err || close.errors
                       then [Sent(i.WhoIs(), NO_DEPENDENCY, i.key.nn, s, since, KillSessionRpc, kill)] else [])
                    + [Forgotten(i.key.nn.Key(), s)]
        && r.sessions == old(r.sessions) - {i.key.nn.Key()}
        && r.dialled == SetListeners(old(r.dialled), s, ListenersOf(old(r.dialled), s) - {STREAM_HANDLER})
        && r.store == old(r.store) && r.nextUid == old(r.nextUid)
    {
      if i.key.nn.Key() in r.sessions {
        var s, since := r.sessions[i.key.nn.Key()], |r.log|;
        var reply := r.SyncRPC(i, s, since, CloseSessionRpc);
        if reply.Err() || reply.errors {
          var _ := r.SyncRPC(i, s, since, KillSessionRpc);
        }
        r.sessions := r.sessions - {i.key.nn.Key()};
        r.log := r.log + [Forgotten(i.key.nn.Key(), s)];
        r.Remove(s, STREAM_HANDLER);
        return !r.env.hangUpOk;
      }
      return false;
    }

    /** Dials, advertises the default and the additional capabilities, and caches the session. A session
        cached before under the same key is overwritten, and one whose hello fails is abandoned; neither
        is closed. */
    method ManageOperatorLogic(i: Instance) returns (err: bool)
      requires i.base.spec.MountPointSpec? && defaults.Valid()
      modifies r, i, this`hello, defaults.backing
      ensures i.finalizers == old(i.finalizers) && defaults.Visible() == old(defaults.Visible())
      ensures r.store == old(r.store) && r.nextUid == old(r.nextUid)
      ensures err == !(r.env.dialOk && r.env.helloOk) && i.ran == Some(!err)
      ensures i.status == if err then old(i.status).(status := "failed")
                          else old(i.status).(status := "connected", capabilities := r.env.capabilities)
      ensures !r.env.dialOk ==> r.St() == old(r.St())
      ensures r.env.dialOk ==>
        && hello == old(defaults.Visible()) + i.base.spec.additionalCapabilities
        && var s := old(|r.dialled|);
           && r.dialled == old(r.dialled) + [Session(i.key.nn, {}, r.env.capabilities)]
           && r.log == old(r.log) + [Dialled(s)] + [if err then HelloFailed(s) else Installed(i.key.nn.Key(), s)]
           && r.sessions == if err then old(r.sessions) else old(r.sessions)[i.key.nn.Key() := s]
    {
      if !r.env.dialOk {
        i.status, i.ran := i.status.(status := "failed"), Some(false);
        return true;
      }
      var s := |r.dialled|;
      r.dialled := r.dialled + [Session(i.key.nn, {}, r.env.capabilities)];
      r.log := r.log + [Dialled(s)];

      var capabilities := Advertise(defaults, i.base.spec.additionalCapabilities, spare);
      hello := capabilities.Visible();
      if !r.env.helloOk {
        r.log := r.log + [HelloFailed(s)];
        i.status, i.ran := i.status.(status := "failed"), Some(false);
        return true;
      }
      i.status, i.ran := i.status.(status := "connected", capabilities := r.dialled[s].capabilities), Some(true);
      r.sessions := r.sessions[i.key.nn.Key() := s];
      r.log := r.log + [Installed(i.key.nn.Key(), s)];
      return false;
    }

    /** One reconcile is the one of the step machine, and leaves the default capabilities as they were, however
        much spare capacity their backing array has. */
    method Reconcile(nn: NsName) returns (e: Ending)
      requires r.Typed(ObjKey(MountPoint, nn)) && defaults.Valid()
      modifies r, this`hello, defaults.backing
      ensures (r.St(), e) == Atomic.Reconcile(old(r.St()), MountPoint, nn, r.env)
      ensures defaults.Visible() == old(defaults.Visible())
    {
      ghost var st, key := r.St(), ObjKey(MountPoint, nn);
      var ok, i := r.Get(ObjKey(MountPoint, nn));
      if !ok { return Requeued; }
      if i == null { return Done; }
      ghost var w := i.At(Initialize, 0, 0, "");
      ok := IsInitialized(i);
      if !ok {
        AddsFinalizer(st, key, w, r.env);
        ok := r.Update(i);
        if !ok {
          e := r.ManageError(i);
          return;
        }
        return Done;
      }
      if i.base.deleting {
        var err := ManageCleanUpLogic(i);
        CleanUpSteps(st, key, w, r.env, r.St(), err);
        ghost var w1 := w.(pc := Release, since := if nn.Key() in st.sessions then |st.log| else 0);
        if err {
          Ends(r.St(), MountPoint, w1.(pc := Report(true)), r.env);
          e := r.ManageError(i);
          return;
        }
        RemovesFinalizer(r.St(), MountPoint, w1, r.env);
        assert i.finalizers == i.base.finalizers;
        i.finalizers := i.finalizers - {MOUNTPOINT_FINALIZER};
        ok := r.Update(i);
        if !ok {
          e := r.ManageError(i);
          return;
        }
        return Done;
      }
      var err := ManageOperatorLogic(i);
      ConnectSteps(st, w, r.env, r.St(), i.status, err);
      Ends(r.St(), MountPoint, i.At(Report(err), 0, 0, ""), r.env);
      if err { e := r.ManageError(i); } else { e := r.ManageSuccess(i); }
    }
  }

  // ----- the same, step by step -----

  lemma SessionEnds(st: State, w: Worker, env: Env)
    requires w.pc.Send? && w.pc.todo == [CloseSessionRpc, KillSessionRpc] && w.obj.spec.MountPointSpec?
    requires w.obj.spec == w.base.spec
    requires w.since == |st.log|
    ensures Complete(st, MountPoint, w, env) ==
      Complete(st.(log := Farewell(st.log, ObjKey(MountPoint, w.nn), w.base, w.pc.session, env)), MountPoint,
               w.(pc := Forget(w.pc.session)), env)
  {
    var s, key, base := w.pc.session, ObjKey(MountPoint, w.nn), w.base;
    var close := env.peer(st.log, s, CloseSessionRpc);
    var st1 := st.(log := st.log + [SentFor(key, base, s, |st.log|, CloseSessionRpc, close)]);
    assert w.pc.todo[1..] == [KillSessionRpc];
    if close.Clean() {
      Onward(st, MountPoint, w, env, st1, w.(pc := Forget(s)));
    } else {
      var w1 := w.(pc := Send(s, [KillSessionRpc]));
      Onward(st, MountPoint, w, env, st1, w1);
      Onward(st1, MountPoint, w1, env, st.(log := Farewell(st.log, key, base, s, env)), w.(pc := Forget(s)));
    }
  }

  predicate CleanedUp(st: State, key: ObjKey, base: Obj, env: Env, st': State, err: bool) {
    if key.nn.Key() !in st.sessions then st' == st && !err
    else
      var s := st.sessions[key.nn.Key()];
      && err == !env.hangUpOk
      && st' == st.(log := Farewell(st.log, key, base, s, env) + [Forgotten(key.nn.Key(), s)],
                    sessions := st.sessions - {key.nn.Key()},
                    dialled := SetListeners(st.dialled, s, ListenersOf(st.dialled, s) - {STREAM_HANDLER}))
  }

  lemma CleanUpSteps(st: State, key: ObjKey, w: Worker, env: Env, st': State, err: bool)
    requires w.pc.Initialize? && w.obj == w.base && w.base.deleting && Finalized(MountPoint, w.base)
    requires w.base.spec.MountPointSpec? && key == ObjKey(MountPoint, w.nn)
    requires CleanedUp(st, key, w.base, env, st', err)
    ensures Complete(st, MountPoint, w, env) ==
      Complete(st', MountPoint, w.(pc := if err then Report(true) else Release,
                                   since := if w.nn.Key() in st.sessions then |st.log| else w.since), env)
  {
    var w1 := w.(pc := Lookup);
    Onward(st, MountPoint, w, env, st, w1);
    if w.nn.Key() in st.sessions {
      var s := st.sessions[w.nn.Key()];
      var w2 := w1.(pc := Send(s, [CloseSessionRpc, KillSessionRpc]), since := |st.log|);
      Onward(st, MountPoint, w1, env, st, w2);
      SessionEnds(st, w2, env);
      var st1 := st.(log := Farewell(st.log, key, w.base, s, env));
      var st2 := st1.(log := st1.log + [Forgotten(w.nn.Key(), s)], sessions := st.sessions - {w.nn.Key()});
      Onward(st1, MountPoint, w2.(pc := Forget(s)), env, st2, w2.(pc := HangUp(s)));
      Onward(st2, MountPoint, w2.(pc := HangUp(s)), env, st', w2.(pc := if err then Report(true) else Release));
    } else {
      Onward(st, MountPoint, w1, env, st, w1.(pc := Release));
    }
  }

  predicate Connects(st: State, nn: NsName, env: Env, st': State, err: bool) {
    && err == !(env.dialOk && env.helloOk)
    && if !env.dialOk then st' == st
       else
         var s := |st.dialled|;
         st' == st.(dialled := st.dialled + [Session(nn, {}, env.capabilities)],
                    log := st.log + [Dialled(s)] + [if err then HelloFailed(s) else Installed(nn.Key(), s)],
                    sessions := if err then st.sessions else st.sessions[nn.Key() := s])
  }

  lemma ConnectSteps(st: State, w: Worker, env: Env, st': State, status: Status, err: bool)
    requires w.pc.Initialize? && w.obj == w.base && !w.base.deleting && Finalized(MountPoint, w.base)
    requires Connects(st, w.nn, env, st', err)
    requires status == if err then w.base.status.(status := "failed")
                       else w.base.status.(status := "connected", capabilities := env.capabilities)
    ensures Complete(st, MountPoint, w, env) ==
      Complete(st', MountPoint, w.(obj := w.base.(status := status), ran := Some(!err), pc := Report(err)), env)
  {
    var w1 := w.(pc := Dial);
    var w' := w.(obj := w.base.(status := status), ran := Some(!err), pc := Report(err));
    Onward(st, MountPoint, w, env, st, w1);
    if !env.dialOk {
      Onward(st, MountPoint, w1, env, st', w');
    } else {
      var s := |st.dialled|;
      var st1 := st.(dialled := st.dialled + [Session(w.nn, {}, env.capabilities)], log := st.log + [Dialled(s)]);
      Onward(st, MountPoint, w1, env, st1, w.(pc := Hello(s)));
      if env.helloOk {
        Onward(st1, MountPoint, w.(pc := Hello(s)), env, st1, w'.(pc := Install(s)));
        Onward(st1, MountPoint, w'.(pc := Install(s)), env, st', w');
      } else {
        Onward(st1, MountPoint, w.(pc := Hello(s)), env, st', w');
      }
    }
  }
}
