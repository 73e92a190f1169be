/** Deletion: the finalizer of a MountPoint marked deleted goes after at most two reconciles whose store
    writes succeed, and exactly when an EstablishSubscription marked deleted can go. */
module Deletion {
  import opened Api
  import opened Operator
  import opened Invariants
  import opened SessionCache
  import opened Safety
  import opened Atomic
  import opened Turns
  import opened Cluster
  import opened Validation
  import opened MountPointReconcilers
  import opened SubscriptionReconcilers

  /** The object `uid` of that name is stored, marked deleted and still finalized. */
  predicate Pending(st: State, key: ObjKey, uid: nat) {
    key in st.store && st.store[key].uid == uid && st.store[key].deleting && Finalized(key.kind, st.store[key])
  }

  /** What is left to do for a MountPoint being deleted: its session, then its finalizer. */
  function Rank(st: State, nn: NsName, uid: nat): nat {
    if !Pending(st, ObjKey(MountPoint, nn), uid) then 0
    else if nn.Key() in st.sessions then 2
    else 1
  }

  /** The stored object without its finalizer; the last finalizer takes the object with it. */
  predicate Unfinalized(st: State, st': State, key: ObjKey)
    requires key in st.store && OwnFinalizer(key.kind).Some?
  {
    var o := st.store[key];
    var left := o.finalizers - {OwnFinalizer(key.kind).value};
    Find(st', key) == if left == {} then None else Some(o.(finalizers := left))
  }

  /** What was added to the log sends nothing. */
  ghost predicate NoRpc(log: Log, log': Log) {
    log <= log' && forall i :: |log| <= i < |log'| ==> !log'[i].Sent?
  }

  /** The finalizer goes iff the write succeeds; otherwise the status is reported as it was. */
  lemma Releases(st: State, kind: Kind, w: Worker, env: Env)
    requires w.pc.Release? && ObjKey(kind, w.nn) in st.store && st.store[ObjKey(kind, w.nn)] == w.base
    requires w.base.deleting && Finalized(kind, w.base) && w.obj.status == w.base.status
    ensures var (st', e) := Complete(st, kind, w, env);
      && !e.Panicked? && st'.sessions == st.sessions && (env.updateOk <==> e.Done?) && NoRpc(st.log, st'.log)
      && if env.updateOk then Unfinalized(st, st', ObjKey(kind, w.nn)) else st'.store == st.store
  {
    RemovesFinalizer(st, kind, w, env);
    assert st.store[ObjKey(kind, w.nn) := w.base] == st.store;
  }

  /** Reporting an unchanged status. */
  lemma Reports(st: State, kind: Kind, w: Worker, env: Env)
    requires w.pc == Report(true) && ObjKey(kind, w.nn) in st.store && st.store[ObjKey(kind, w.nn)] == w.base
    requires w.obj.status == w.base.status
    ensures var (st', e) := Complete(st, kind, w, env);
      e == Requeued && st'.store == st.store && st'.sessions == st.sessions && NoRpc(st.log, st'.log)
  {
    Ends(st, kind, w, env);
    assert st.store[ObjKey(kind, w.nn) := w.base] == st.store;
  }

  // ----- one reconcile of the MountPoint -----

  /** The state once the cached session, if any, was ended. */
  function SessionEnded(st: State, nn: NsName, base: Obj, env: Env): State {
    if nn.Key() !in st.sessions then st
    else
      var s := st.sessions[nn.Key()];
      st.(log := Farewell(st.log, ObjKey(MountPoint, nn), base, s, env) + [Forgotten(nn.Key(), s)],
          sessions := st.sessions - {nn.Key()},
          dialled := SetListeners(st.dialled, s, ListenersOf(st.dialled, s) - {STREAM_HANDLER}))
  }

  /** A reconcile of a MountPoint being deleted never panics, always ends its cached session, and removes
      the finalizer iff the store write succeeds and there was no session or it could be hung up. */
  lemma CleansUp(st: State, nn: NsName, env: Env)
    requires var key := ObjKey(MountPoint, nn);
      key in st.store && st.store[key].spec.MountPointSpec? && Pending(st, key, st.store[key].uid) && env.fetchOk
    ensures var (st', e) := Reconcile(st, MountPoint, nn, env);
      var ok := env.updateOk && (nn.Key() in st.sessions ==> env.hangUpOk);
      && !e.Panicked? && st'.sessions == st.sessions - {nn.Key()} && (ok <==> e.Done?)
      && if ok then Unfinalized(st, st', ObjKey(MountPoint, nn)) else st'.store == st.store
  {
    var key, cached := ObjKey(MountPoint, nn), nn.Key() in st.sessions;
    var w, err := Start(MountPoint, nn, st.store[key]), cached && !env.hangUpOk;
    var st1 := SessionEnded(st, nn, w.base, env);
    CleanUpSteps(st, key, w, env, st1, err);
    var w1 := w.(pc := if err then Report(true) else Release, since := if cached then |st.log| else w.since);
    if err { Reports(st1, MountPoint, w1, env); } else { Releases(st1, MountPoint, w1, env); }
    assert !cached ==> st.sessions - {nn.Key()} == st.sessions;
  }

  // ----- everything else that may happen in between -----

  predicate SameSessionAt(st: State, st': State, key: string) {
    (key in st'.sessions <==> key in st.sessions) && (key in st.sessions ==> st'.sessions[key] == st.sessions[key])
  }

  /** Only the MountPoint controller writes the cache, and only under the key of the object it serves. */
  lemma StepSessionsAt(st: State, kind: Kind, w: Worker, c: Choice, key: string)
    requires kind.MountPoint? ==> w.nn.Key() != key
    requires Fits(kind, w)
    ensures SameSessionAt(st, StepWorker(st, kind, w, c).0, key)
  {
    if kind.MountPoint? {
      match w.pc
      case Initialize =>
      case Release =>
      case Report(_) =>
      case Send(_, _) =>
      case Lookup =>
      case Unlisten(_) =>
      case Listen(_, _) =>
      case Dial =>
      case Hello(_) =>
      case _ =>
    } else {
      StepSessions(st, kind, w, c);
    }
  }

  /** What a reconcile of another object leaves alone. */
  lemma {:induction false} OthersKeep(st: State, kind: Kind, w: Worker, env: Env, nn: NsName)
    requires WorkerOk(st, kind, w) && NoSlash(nn.ns) && (kind.MountPoint? ==> w.nn != nn)
    ensures var st' := Complete(st, kind, w, env).0;
      && Find(st', ObjKey(MountPoint, nn)) == Find(st, ObjKey(MountPoint, nn)) && SameSessionAt(st, st', nn.Key())
      && st'.nextUid == st.nextUid
    decreases Stage(w.pc), Left(w.pc)
  {
    var c := ChoiceAt(st, w, env);
    StepDescends(st, kind, w, c);
    StepTracks(st, kind, w, c);
    if kind.MountPoint? && w.nn.Key() == nn.Key() { KeyInjective(w.nn, nn); }
    StepSessionsAt(st, kind, w, c, nn.Key());
    var (st', p) := StepWorker(st, kind, w, c);
    if p.Go? { OthersKeep(st', kind, p.next, env, nn); }
  }

  lemma {:induction false} OwnAges(st: State, kind: Kind, w: Worker, env: Env)
    requires WorkerOk(st, kind, w)
    ensures var st' := Complete(st, kind, w, env).0;
      Aged(Find(st, ObjKey(kind, w.nn)), Find(st', ObjKey(kind, w.nn)), kind) && st'.nextUid == st.nextUid
    decreases Stage(w.pc), Left(w.pc)
  {
    var c := ChoiceAt(st, w, env);
    StepDescends(st, kind, w, c);
    StepAges(st, kind, w, c);
    var (st', p) := StepWorker(st, kind, w, c);
    if p.Go? { OwnAges(st', kind, p.next, env); }
  }

  // ----- any sequence of turns -----

  /** A turn of this MountPoint in which the object can be read and written. */
  predicate Writes(t: Turn, nn: NsName) {
    t.Serve? && t.kind.MountPoint? && t.nn == nn && t.env.fetchOk && t.env.updateOk
  }

  function Written(turns: seq<Turn>, nn: NsName): nat {
    if turns == [] then 0 else (if Writes(turns[0], nn) then 1 else 0) + Written(turns[1..], nn)
  }

  /** The object was marked deleted; it may be gone by now, even replaced by another of the same name. */
  predicate Doomed(st: State, nn: NsName, uid: nat) {
    var key := ObjKey(MountPoint, nn);
    uid < st.nextUid && (key in st.store && st.store[key].uid == uid ==> st.store[key].deleting)
  }

  lemma RankServe(st: State, kind: Kind, nn: NsName, env: Env, mp: NsName, uid: nat)
    requires Good(Sys(st, map[])) && NoSlash(mp.ns) && Doomed(st, mp, uid)
    ensures var st', t := Settle(Reconcile(st, kind, nn, env)), Serve(kind, nn, env);
      && Doomed(st', mp, uid)
      && Rank(st', mp, uid) <= Rank(st, mp, uid) - (if Writes(t, mp) && Rank(st, mp, uid) > 0 then 1 else 0)
  {
    var key := ObjKey(kind, nn);
    if env.fetchOk && key in st.store {
      assert Shape(Sys(st, map[]));
      var w := Start(kind, nn, st.store[key]);
      if key != ObjKey(MountPoint, mp) {
        OthersKeep(st, kind, w, env, mp);
      } else {
        OwnAges(st, kind, w, env);
        if Rank(st, mp, uid) > 0 { CleansUp(st, mp, env); }
      }
    }
  }

  lemma RankAct(st: State, a: Action, mp: NsName, uid: nat)
    requires Doomed(st, mp, uid)
    ensures var st' := TakeTurn(st, Act(a)); Doomed(st', mp, uid) && Rank(st', mp, uid) <= Rank(st, mp, uid)
  {
    if ByUser(a) {
      UserFrame(Sys(st, map[]), a);
      var st' := TakeTurn(st, Act(a));
      assert ObjKey(MountPoint, mp) in st'.store ==> UserKept(st, st', ObjKey(MountPoint, mp));
    }
  }

  /** Deletion terminates: whatever the sessions reply, whatever else is reconciled, written or restarted in
      between, no turn increases the rank, and as many reconciles of the MountPoint with successful store
      writes as the rank says, at most two, remove its finalizer for good. */
  lemma {:induction false} DeletionTerminates(st: State, turns: seq<Turn>, mp: NsName, uid: nat)
    requires Good(Sys(st, map[])) && NoSlash(mp.ns) && Doomed(st, mp, uid)
    ensures var st' := TakeTurns(st, turns);
      && Doomed(st', mp, uid) && Rank(st, mp, uid) <= 2 && Rank(st', mp, uid) <= Rank(st, mp, uid)
      && (Written(turns, mp) >= Rank(st, mp, uid) ==> !Pending(st', ObjKey(MountPoint, mp), uid))
    decreases |turns|
  {
    if turns != [] {
      var t := turns[0];
      TurnKeepsGood(st, t);
      match t {
        case Serve(kind, nn, env) => RankServe(st, kind, nn, env, mp, uid);
        case Act(a) => RankAct(st, a, mp, uid);
      }
      DeletionTerminates(TakeTurn(st, t), turns[1..], mp, uid);
    }
  }

  // ----- EstablishSubscription -----

  function DeleteSession(st: State, key: ObjKey): nat
    requires key in st.store && st.store[key].spec.MountPointOf(key.nn).Key() in st.sessions
  {
    st.sessions[st.store[key].spec.MountPointOf(key.nn).Key()]
  }

  /** The log once the listener of the stored id has been removed. */
  function UnlistenLog(st: State, key: ObjKey): Log
    requires key in st.store && st.store[key].spec.MountPointOf(key.nn).Key() in st.sessions
  {
    var o := st.store[key];
    var who, mp := Who(key.kind, key.nn, o.uid), o.spec.MountPointOf(key.nn);
    st.log + [Unlistened(who, DeleteSession(st, key), o.status.subscriptionID, mp.Key(), |st.log|)]
  }

  /** The reply to the delete-subscription of the stored id. */
  function DeleteReply(st: State, key: ObjKey, env: Env): Outcome
    requires key in st.store && st.store[key].spec.MountPointOf(key.nn).Key() in st.sessions
  {
    env.peer(UnlistenLog(st, key), DeleteSession(st, key), DeleteSubscriptionRpc(st.store[key].status.subscriptionID))
  }

  /** The log once the delete-subscription was sent. */
  function DeleteLog(st: State, key: ObjKey, env: Env): Log
    requires key in st.store && st.store[key].spec.MountPointOf(key.nn).Key() in st.sessions
  {
    var o := st.store[key];
    var rpc := DeleteSubscriptionRpc(o.status.subscriptionID);
    UnlistenLog(st, key) + [SenderFor(key, o, DeleteSession(st, key), |st.log|).Entry(rpc, DeleteReply(st, key, env))]
  }

  /** What the checks that precede the deletion test ask for. */
  predicate ChecksPass(st: State, key: ObjKey, env: Env)
    requires key in st.store
  {
    var spec := st.store[key].spec;
    && spec.EstablishSubscriptionSpec? && Connected(st, NsName(key.nn.ns, spec.mountPoint), env)
    && env.validXml(spec.xml)
  }

  /** An EstablishSubscription marked deleted loses its finalizer iff everything the checks before the deletion
      test ask for still holds, delete-subscription returns no error, and the store write succeeds. */
  lemma SubscriptionGoes(st: State, nn: NsName, env: Env)
    requires var key := ObjKey(EstablishSubscription, nn);
      key in st.store && st.store[key].spec.EstablishSubscriptionSpec? && env.fetchOk
      && Pending(st, key, st.store[key].uid)
    ensures var (st', e) := Reconcile(st, EstablishSubscription, nn, env);
      var key := ObjKey(EstablishSubscription, nn);
      var ok := ChecksPass(st, key, env) && env.updateOk
                && (st.store[key].status.subscriptionID != "" ==> !DeleteReply(st, key, env).Err());
      && !e.Panicked? && st'.sessions == st.sessions && (ok <==> e.Done?)
      && NoRpc(
           if ChecksPass(st, key, env) && st.store[key].status.subscriptionID != "" then DeleteLog(st, key, env)
           else st.log,
           st'.log)
      && if ok then Unfinalized(st, st', key) else st'.store == st.store
  {
    var key := ObjKey(EstablishSubscription, nn);
    var o := st.store[key];
    ValidSubscription(st, key, env);
    if ChecksPass(st, key, env) {
      var w := Fetched(st, key).(pc := Initialize, seen := |st.log|);
      if o.status.subscriptionID == "" {
        UnsubscribeSteps(st, key, w, env, st, Returned(false));
        Releases(st, key.kind, w.(pc := Release), env);
      } else {
        Unsubscribes(st, key, w, env);
      }
    } else {
      assert st.store[key := o] == st.store;
    }
  }

  /** The clean-up proper: the listener goes first, then delete-subscription; an error stops there. */
  lemma Unsubscribes(st: State, key: ObjKey, w: Worker, env: Env)
    requires key in st.store && At(key, w) && w.base == st.store[key] && w.base.deleting
    requires w.base.status.subscriptionID != "" && TargetOf(w).Key() in st.sessions
    ensures var (st', e) := Complete(st, EstablishSubscription, w, env);
      var ok := env.updateOk && !DeleteReply(st, key, env).Err();
      && !e.Panicked? && st'.sessions == st.sessions && (ok <==> e.Done?) && NoRpc(DeleteLog(st, key, env), st'.log)
      && if ok then Unfinalized(st, st', key) else st'.store == st.store
  {
    var s, id, err := DeleteSession(st, key), w.base.status.subscriptionID, DeleteReply(st, key, env).Err();
    var st1 := st.(dialled := SetListeners(st.dialled, s, ListenersOf(st.dialled, s) - {id}),
                   log := DeleteLog(st, key, env));
    UnsubscribeSteps(st, key, w, env, st1, Returned(err));
    var w1 := w.(pc := if err then Report(true) else Release, since := |st.log|);
    if err { Reports(st1, key.kind, w1, env); } else { Releases(st1, key.kind, w1, env); }
  }

  /** A clean-up leaves an object stored with its id and without the finalizer iff it succeeds and somebody
      else's finalizer holds the object. */
  lemma StoredWithoutFinalizer(st: State, nn: NsName, env: Env)
    requires var key := ObjKey(EstablishSubscription, nn);
      key in st.store && st.store[key].spec.EstablishSubscriptionSpec? && env.fetchOk
      && Pending(st, key, st.store[key].uid) && st.store[key].status.subscriptionID != ""
    ensures var key, st' := ObjKey(EstablishSubscription, nn), Reconcile(st, EstablishSubscription, nn, env).0;
      (key in st'.store && st'.store[key].uid == st.store[key].uid
       && st'.store[key].status.subscriptionID == st.store[key].status.subscriptionID
       && SUBSCRIPTION_FINALIZER !in st'.store[key].finalizers)
      <==> (ChecksPass(st, key, env) && env.updateOk && !DeleteReply(st, key, env).Err()
            && exists f :: f in st.store[key].finalizers && f != SUBSCRIPTION_FINALIZER)
  {
    var key, st' := ObjKey(EstablishSubscription, nn), Reconcile(st, EstablishSubscription, nn, env).0;
    SubscriptionGoes(st, nn, env);
    var left := st.store[key].finalizers - {SUBSCRIPTION_FINALIZER};
    if left != {} {
      var f :| f in left;
      assert f in st.store[key].finalizers && f != SUBSCRIPTION_FINALIZER;
    } else {
      assert forall f :: f in st.store[key].finalizers && f != SUBSCRIPTION_FINALIZER ==> f in left;
    }
  }

  // ----- the subscription on the device -----

  /** The device behind the session issued the id, and has accepted no delete-subscription for it on that session
      since: a subscription can be deleted on the session that established it only (section 2.4.4 of RFC 8639),
      and an rpc-error refuses. */
  predicate LivesOn(log: Log, session: nat, id: string) {
    && log != []
    && var e := log[|log| - 1];
       if e.Sent? && e.session == session && e.reply.Clean()
          && e.rpc.EstablishSubscriptionRpc? && e.reply.subscriptionID == id then true
       else if e.Sent? && e.session == session && e.reply.Clean() && e.rpc == DeleteSubscriptionRpc(id) then false
       else LivesOn(log[..|log| - 1], session, id)
  }

  lemma {:induction false} NoRpcNoChange(log: Log, log': Log, session: nat, id: string)
    requires NoRpc(log, log')
    ensures LivesOn(log', session, id) == LivesOn(log, session, id)
    decreases |log'|
  {
    if |log'| > |log| {
      NoRpcNoChange(log, log'[..|log'| - 1], session, id);
    } else {
      assert log' == log;
    }
  }

  lemma DeleteOnDevice(st: State, key: ObjKey, env: Env, issuer: nat)
    requires key in st.store && st.store[key].spec.MountPointOf(key.nn).Key() in st.sessions
    requires LivesOn(st.log, issuer, st.store[key].status.subscriptionID)
    ensures LivesOn(DeleteLog(st, key, env), issuer, st.store[key].status.subscriptionID) <==>
            !(DeleteReply(st, key, env).Clean() && DeleteSession(st, key) == issuer)
  {
    var log := DeleteLog(st, key, env);
    assert log[..|log| - 1][..|log| - 2] == st.log;
  }

  /** Exactly when an EstablishSubscription goes with its subscription deleted on the session that issued it, and
      exactly when it goes and leaves it there: the reply to delete-subscription has to be without rpc-errors,
      not just without error, and the session cached for the MountPoint named has to be the issuing one. */
  lemma GoesUnsubscribed(st: State, nn: NsName, env: Env, issuer: nat)
    requires var key := ObjKey(EstablishSubscription, nn);
      key in st.store && st.store[key].spec.EstablishSubscriptionSpec? && env.fetchOk
      && Pending(st, key, st.store[key].uid) && st.store[key].status.subscriptionID != ""
      && LivesOn(st.log, issuer, st.store[key].status.subscriptionID)
    ensures var key, st' := ObjKey(EstablishSubscription, nn), Reconcile(st, EstablishSubscription, nn, env).0;
      var o := st.store[key];
      var goes, left := !Pending(st', key, o.uid), LivesOn(st'.log, issuer, o.status.subscriptionID);
      && (goes && !left <==> ChecksPass(st, key, env) && env.updateOk && DeleteReply(st, key, env).Clean()
                             && DeleteSession(st, key) == issuer)
      && (goes && left <==> ChecksPass(st, key, env) && env.updateOk && !DeleteReply(st, key, env).Err()
                            && (DeleteReply(st, key, env).errors || DeleteSession(st, key) != issuer))
  {
    var key, st' := ObjKey(EstablishSubscription, nn), Reconcile(st, EstablishSubscription, nn, env).0;
    var id := st.store[key].status.subscriptionID;
    SubscriptionGoes(st, nn, env);
    if ChecksPass(st, key, env) {
      DeleteOnDevice(st, key, env, issuer);
      NoRpcNoChange(DeleteLog(st, key, env), st'.log, issuer, id);
    }
  }

  /** So a device that refuses delete-subscription with an rpc-error keeps the subscription of an object that is
      gone. */
  lemma RefusedDeleteIsNotNoticed(st: State, nn: NsName, env: Env, issuer: nat, raw: string)
    requires var key := ObjKey(EstablishSubscription, nn);
      key in st.store && st.store[key].spec.EstablishSubscriptionSpec? && env.fetchOk
      && Pending(st, key, st.store[key].uid) && st.store[key].status.subscriptionID != ""
      && LivesOn(st.log, issuer, st.store[key].status.subscriptionID)
      && ChecksPass(st, key, env) && env.updateOk && DeleteReply(st, key, env) == Reply(false, true, "", raw, "")
    ensures var key, st' := ObjKey(EstablishSubscription, nn), Reconcile(st, EstablishSubscription, nn, env).0;
      !Pending(st', key, st.store[key].uid) && LivesOn(st'.log, issuer, st.store[key].status.subscriptionID)
  {
    GoesUnsubscribed(st, nn, env, issuer);
  }
}
