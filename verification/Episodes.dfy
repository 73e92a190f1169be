/** Short stories of one resource in a world where everything goes well, each in one step: a MountPoint is
    created and connected, an EstablishSubscription is created and subscribes. They lead to reachable states. */
module Episodes {
  import opened Api
  import opened Operator
  import opened Atomic
  import opened Turns
  import opened Cluster
  import opened Validation
  import opened MountPointReconcilers
  import opened SubscriptionReconcilers

  const YES := Reply(false, false, "", "", "1")

  /** Every call succeeds, every payload is XML, every device answers cleanly and issues the id "1". */
  const SUNNY := Env((log: Log, session: nat, rpc: Rpc) => YES, (xml: string) => true,
                     true, true, true, true, true, true, true, [])

  lemma {:induction false} OneTurn(st: State, a: Turn)
    ensures TakeTurns(st, [a]) == TakeTurn(st, a)
  {
    assert [a][1..] == [];
    assert TakeTurns(st, [a]) == TakeTurns(TakeTurn(st, a), []);
  }

  lemma {:induction false} TwoTurns(st: State, a: Turn, b: Turn)
    ensures TakeTurns(st, [a, b]) == TakeTurn(TakeTurn(st, a), b)
  {
    assert [a, b][1..] == [b] && [b][1..] == [];
    assert TakeTurns(st, [a, b]) == TakeTurns(TakeTurn(st, a), [b]);
  }

  lemma {:induction false} ThreeTurns(st: State, a: Turn, b: Turn, c: Turn)
    ensures TakeTurns(st, [a, b, c]) == TakeTurn(TakeTurn(TakeTurn(st, a), b), c)
  {
    var st1 := TakeTurn(st, a);
    assert [a, b, c][1..] == [b, c] && [b, c][1..] == [c] && [c][1..] == [];
    assert TakeTurns(st, [a, b, c]) == TakeTurns(st1, [b, c]) == TakeTurns(TakeTurn(st1, b), [c]);
  }

  // ----- a MountPoint -----

  const PLAIN := MountPointSpec("", [])

  function Mounting(mp: NsName): seq<Turn> {
    [Act(Create(ObjKey(MountPoint, mp), PLAIN, {})), Serve(MountPoint, mp, SUNNY), Serve(MountPoint, mp, SUNNY)]
  }

  function MountedObj(uid: nat): Obj {
    Obj(uid, {MOUNTPOINT_FINALIZER}, false, PLAIN, NEW_STATUS.(status := "connected"))
  }

  function Mounted(st: State, mp: NsName): State {
    var s := |st.dialled|;
    State(st.store[ObjKey(MountPoint, mp) := MountedObj(st.nextUid)], st.sessions[mp.Key() := s],
          st.dialled + [Session(mp, {}, [])],
          st.log + [Dialled(s)] + [Installed(mp.Key(), s)]
          + [StatusWritten(Who(MountPoint, mp, st.nextUid), Some(true), "connected")],
          st.nextUid + 1)
  }

  /** A new MountPoint gets its finalizer in one reconcile and its session in the next. */
  lemma Mounts(st: State, mp: NsName)
    requires NoSlash(mp.ns) && ObjKey(MountPoint, mp) !in st.store
    ensures TakeTurns(st, Mounting(mp)) == Mounted(st, mp)
  {
    var key, t := ObjKey(MountPoint, mp), Mounting(mp);
    var o := Obj(st.nextUid, {}, false, PLAIN, NEW_STATUS);
    var st1 := st.(store := st.store[key := o], nextUid := st.nextUid + 1);
    assert TakeTurn(st, t[0]) == st1;
    var o2 := o.(finalizers := {MOUNTPOINT_FINALIZER});
    var st2 := st1.(store := st1.store[key := o2]);
    AddsFinalizer(st1, key, Start(MountPoint, mp, o), SUNNY);
    assert {} + {MOUNTPOINT_FINALIZER} == {MOUNTPOINT_FINALIZER};
    assert TakeTurn(st1, t[1]) == st2;
    Reconnects(st2, mp);
    assert st2.store == st.store[key := o2];
    ThreeTurns(st, t[0], t[1], t[2]);
    assert st2.store[key := MountedObj(st.nextUid)] == st.store[key := MountedObj(st.nextUid)];
  }

  /** A finalized MountPoint is connected by the next reconcile, whatever session was cached before. */
  function Reconnected(st: State, mp: NsName): State
    requires ObjKey(MountPoint, mp) in st.store
  {
    var key, s := ObjKey(MountPoint, mp), |st.dialled|;
    var o := st.store[key];
    st.(store := st.store[key := o.(status := o.status.(status := "connected", capabilities := []))],
        sessions := st.sessions[mp.Key() := s], dialled := st.dialled + [Session(mp, {}, [])],
        log := st.log + [Dialled(s)] + [Installed(mp.Key(), s)]
               + [StatusWritten(Who(MountPoint, mp, o.uid), Some(true), "connected")])
  }

  lemma Reconnects(st: State, mp: NsName)
    requires var key := ObjKey(MountPoint, mp);
      && key in st.store && st.store[key].spec.MountPointSpec? && !st.store[key].deleting
      && Finalized(MountPoint, st.store[key])
    ensures TakeTurn(st, Serve(MountPoint, mp, SUNNY)) == Reconnected(st, mp)
  {
    var key, s := ObjKey(MountPoint, mp), |st.dialled|;
    var o := st.store[key];
    var w := Start(MountPoint, mp, o);
    var status := o.status.(status := "connected", capabilities := []);
    var st1 := st.(dialled := st.dialled + [Session(mp, {}, [])],
                   log := st.log + [Dialled(s)] + [Installed(mp.Key(), s)], sessions := st.sessions[mp.Key() := s]);
    ConnectSteps(st, w, SUNNY, st1, status, false);
    Ends(st1, MountPoint, w.(obj := o.(status := status), ran := Some(true), pc := Report(false)), SUNNY);
  }

  // ----- a subscription -----

  function SubscriptionSpec(mp: NsName): Spec {
    EstablishSubscriptionSpec(mp.name, "<filter/>")
  }

  function Subscribing(nn: NsName, mp: NsName, fs: set<string>): seq<Turn> {
    [Act(Create(ObjKey(EstablishSubscription, nn), SubscriptionSpec(mp), fs)),
     Serve(EstablishSubscription, nn, SUNNY), Serve(EstablishSubscription, nn, SUNNY)]
  }

  function Holder(uid: nat, mp: NsName, fs: set<string>): Obj {
    Obj(uid, fs + {SUBSCRIPTION_FINALIZER}, false, SubscriptionSpec(mp),
        NEW_STATUS.(status := "subscribed", subscriptionID := "1"))
  }

  function AfterSubscribing(st: State, nn: NsName, mp: NsName, fs: set<string>): State
    requires mp.Key() in st.sessions
  {
    var s, who := st.sessions[mp.Key()], Who(EstablishSubscription, nn, st.nextUid);
    State(st.store[ObjKey(EstablishSubscription, nn) := Holder(st.nextUid, mp, fs)], st.sessions,
          SetListeners(st.dialled, s, ListenersOf(st.dialled, s) + {"1"}),
          st.log + [Sent(who, NO_DEPENDENCY, mp, s, |st.log|, EstablishSubscriptionRpc("<filter/>"), YES)]
          + [Listened(who, s, "1", mp.Key(), |st.log|)] + [StatusWritten(who, Some(true), "subscribed")],
          st.nextUid + 1)
  }

  /** A new EstablishSubscription gets its finalizer in one reconcile and its subscription in the next. */
  lemma Subscribes(st: State, nn: NsName, mp: NsName, fs: set<string>)
    requires NoSlash(nn.ns) && mp.ns == nn.ns && ObjKey(EstablishSubscription, nn) !in st.store
    requires (forall f <- fs :: Foreign(f)) && ObjKey(MountPoint, mp) in st.store && mp.Key() in st.sessions
    ensures TakeTurns(st, Subscribing(nn, mp, fs)) == AfterSubscribing(st, nn, mp, fs)
  {
    var key, t := ObjKey(EstablishSubscription, nn), Subscribing(nn, mp, fs);
    var o := Obj(st.nextUid, fs, false, SubscriptionSpec(mp), NEW_STATUS);
    var st1 := st.(store := st.store[key := o], nextUid := st.nextUid + 1);
    assert TakeTurn(st, t[0]) == st1;
    var o2 := o.(finalizers := fs + {SUBSCRIPTION_FINALIZER});
    var st2 := st1.(store := st1.store[key := o2]);
    ValidSubscription(st1, key, SUNNY);
    assert SUBSCRIPTION_FINALIZER !in fs;
    AddsFinalizer(st1, key, Start(EstablishSubscription, nn, o).(pc := Initialize, seen := |st1.log|), SUNNY);
    assert TakeTurn(st1, t[1]) == st2;
    assert st2.store == st.store[key := o2];
    SubscribeEnds(st, st2, nn, mp, fs);
    ThreeTurns(st, t[0], t[1], t[2]);
  }

  lemma SubscribeEnds(st: State, st2: State, nn: NsName, mp: NsName, fs: set<string>)
    requires mp.ns == nn.ns && ObjKey(MountPoint, mp) in st.store && mp.Key() in st.sessions
    requires var key := ObjKey(EstablishSubscription, nn);
      st2 == st.(store := st.store[key := Holder(st.nextUid, mp, fs).(status := NEW_STATUS)], nextUid := st.nextUid + 1)
    ensures Settle(Reconcile(st2, EstablishSubscription, nn, SUNNY)) == AfterSubscribing(st, nn, mp, fs)
  {
    var key, s, who := ObjKey(EstablishSubscription, nn), st.sessions[mp.Key()],
        Who(EstablishSubscription, nn, st.nextUid);
    var o2 := st2.store[key];
    var w := Start(EstablishSubscription, nn, o2).(pc := Initialize, seen := |st2.log|);
    var status := NEW_STATUS.(status := "subscribed", subscriptionID := "1");
    var st3 := st2.(dialled := SetListeners(st.dialled, s, ListenersOf(st.dialled, s) + {"1"}),
                    log := st.log
                           + [Sent(who, NO_DEPENDENCY, mp, s, |st.log|, EstablishSubscriptionRpc("<filter/>"), YES)]
                           + [Listened(who, s, "1", mp.Key(), |st.log|)]);
    ValidSubscription(st2, key, SUNNY);
    SubscribeSteps(st2, key, w, SUNNY, st3, status, Some(true), Returned(false));
    Ends(st3, EstablishSubscription,
         w.(obj := o2.(status := status), ran := Some(true), pc := Report(false), since := |st2.log|), SUNNY);
    assert st.store[key := o2][key := Holder(st.nextUid, mp, fs)] == st.store[key := Holder(st.nextUid, mp, fs)];
  }
}
