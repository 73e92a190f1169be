/** What goes wrong when a clean-up does not start on its resource's own listener: what the stories in which it
    takes away the listener, and the subscription, of somebody else have in common. */
module Strays {
  import opened Api
  import opened Operator
  import opened Turns
  import opened Cluster
  import opened Validation
  import opened SubscriptionReconcilers
  import opened Safety
  import opened Subscriptions
  import opened Listeners
  import opened Placement
  import opened Deletion
  import opened Episodes

  const M1 := NsName("n", "m1")
  const M2 := NsName("n", "m2")
  const A := NsName("n", "a")
  const B := NsName("n", "b")
  const KEY_A := ObjKey(EstablishSubscription, A)
  const KEY_B := ObjKey(EstablishSubscription, B)

  /** An untouched resource registered the id "1" at position `i` of the log, and although no session issued an id
      that was still registered on it, neither its listener nor its subscription is there any more. */
  ghost predicate Harmed(st: State, i: nat) {
    && NoReissue(st.log) && i < |st.log| && st.log[i].Listened? && st.log[i].id == "1"
    && Alive(st, st.log[i].who)
    && "1" !in ListenersOf(st.dialled, st.log[i].session) && !LivesOn(st.log, st.log[i].session, "1")
  }

  /** Then some clean-up started elsewhere. */
  lemma HarmIsUnsettled(actions: seq<Action>, i: nat)
    requires Harmed(Run(INIT, actions).st, i)
    ensures !Settled(INIT, actions)
  {
    if Settled(INIT, actions) {
      SettledSubscriptionsAreRegistered(actions, i);
      assert false;
    }
  }

  // ----- reading the log -----

  lemma {:induction false} ListensFrom(log: Log, session: nat, id: string)
    requires forall k :: 0 <= k < |log| && log[k].Listened? ==> !About(log[k], session, id)
    ensures !Listens(log, session, id)
    decreases |log|
  {
    if log != [] { ListensFrom(log[..|log| - 1], session, id); }
  }

  lemma {:induction false} UnlistenedLast(log: Log, u: nat, session: nat, id: string)
    requires u < |log| && log[u].Unlistened? && About(log[u], session, id)
    requires forall k :: u < k < |log| ==> !About(log[k], session, id)
    ensures !Listens(log, session, id)
    decreases |log|
  {
    if u < |log| - 1 { UnlistenedLast(log[..|log| - 1], u, session, id); }
  }

  lemma LivesSnoc(log: Log, e: Event, session: nat, id: string)
    requires e.Sent?
    ensures LivesOn(log + [e], session, id) ==
      if e.session == session && e.reply.Clean() && e.rpc.EstablishSubscriptionRpc? && e.reply.subscriptionID == id
      then true
      else if e.session == session && e.reply.Clean() && e.rpc == DeleteSubscriptionRpc(id) then false
      else LivesOn(log, session, id)
  {
    assert (log + [e])[..|log|] == log;
  }

  // ----- what the stories are made of -----

  function Connection(mp: NsName, uid: nat, s: nat): Log {
    [Dialled(s), Installed(mp.Key(), s), StatusWritten(Who(MountPoint, mp, uid), Some(true), "connected")]
  }

  function Subscription(nn: NsName, uid: nat, mp: NsName, s: nat, since: nat): Log {
    var who := Who(EstablishSubscription, nn, uid);
    [Sent(who, NO_DEPENDENCY, mp, s, since, EstablishSubscriptionRpc("<filter/>"), YES),
     Listened(who, s, "1", mp.Key(), since), StatusWritten(who, Some(true), "subscribed")]
  }

  function CleanUp(nn: NsName, uid: nat, mp: NsName, s: nat, since: nat): Log {
    var who := Who(EstablishSubscription, nn, uid);
    [Unlistened(who, s, "1", mp.Key(), since), Sent(who, NO_DEPENDENCY, mp, s, since, DeleteSubscriptionRpc("1"), YES)]
  }

  /** A held EstablishSubscription on its way out, and what is left of it after its clean-up. */
  function Leaving(uid: nat, mp: NsName): Obj {
    Holder(uid, mp, {"hold"}).(deleting := true)
  }

  function Remains(uid: nat, mp: NsName): Obj {
    Leaving(uid, mp).(finalizers := {"hold"})
  }

  function AfterCleaning(st: State, nn: NsName, uid: nat, mp: NsName): State
    requires mp.Key() in st.sessions
  {
    var s := st.sessions[mp.Key()];
    st.(store := st.store[ObjKey(EstablishSubscription, nn) := Remains(uid, mp)],
        dialled := SetListeners(st.dialled, s, ListenersOf(st.dialled, s) - {"1"}),
        log := st.log + CleanUp(nn, uid, mp, s, |st.log|))
  }

  /** A held EstablishSubscription that is cleaned up stays, with its id and without the finalizer. */
  lemma Cleans(st: State, nn: NsName, uid: nat, mp: NsName)
    requires var key := ObjKey(EstablishSubscription, nn); key in st.store && st.store[key] == Leaving(uid, mp)
    requires mp.ns == nn.ns && ObjKey(MountPoint, mp) in st.store && mp.Key() in st.sessions
    ensures TakeTurn(st, Serve(EstablishSubscription, nn, SUNNY)) == AfterCleaning(st, nn, uid, mp)
  {
    var key, o := ObjKey(EstablishSubscription, nn), Leaving(uid, mp);
    var st1 := AfterCleaning(st, nn, uid, mp).(store := st.store);
    var w := Start(EstablishSubscription, nn, o).(pc := Initialize, seen := |st.log|);
    var c := CleanUp(nn, uid, mp, st.sessions[mp.Key()], |st.log|);
    assert st1.log == st.log + [c[0]] + [c[1]];
    ValidSubscription(st, key, SUNNY);
    UnsubscribeSteps(st, key, w, SUNNY, st1, Returned(false));
    RemovesFinalizer(st1, EstablishSubscription, w.(pc := Release, since := |st.log|), SUNNY);
    assert "hold" in o.finalizers && o.finalizers - {SUBSCRIPTION_FINALIZER} == {"hold"};
  }

  /** The same when the store refuses the write: all is done but the finalizer stays, and so the object. */
  lemma CleansInVain(st: State, nn: NsName, uid: nat, mp: NsName)
    requires var key := ObjKey(EstablishSubscription, nn); key in st.store && st.store[key] == Leaving(uid, mp)
    requires mp.ns == nn.ns && ObjKey(MountPoint, mp) in st.store && mp.Key() in st.sessions
    ensures TakeTurn(st, Serve(EstablishSubscription, nn, SUNNY.(updateOk := false))) ==
      AfterCleaning(st, nn, uid, mp).(
        store := st.store,
        log := AfterCleaning(st, nn, uid, mp).log
               + [StatusWritten(Who(EstablishSubscription, nn, uid), None, "subscribed")])
  {
    var key, o, env := ObjKey(EstablishSubscription, nn), Leaving(uid, mp), SUNNY.(updateOk := false);
    var st1 := AfterCleaning(st, nn, uid, mp).(store := st.store);
    var w := Start(EstablishSubscription, nn, o).(pc := Initialize, seen := |st.log|);
    var c := CleanUp(nn, uid, mp, st.sessions[mp.Key()], |st.log|);
    assert st1.log == st.log + [c[0]] + [c[1]];
    ValidSubscription(st, key, env);
    UnsubscribeSteps(st, key, w, env, st1, Returned(false));
    RemovesFinalizer(st1, EstablishSubscription, w.(pc := Release, since := |st.log|), env);
    assert st.store[key := o] == st.store;
  }

  // ----- where they all start -----

  function OneMounted(): State {
    State(map[ObjKey(MountPoint, M1) := MountedObj(0)], map[M1.Key() := 0], [Session(M1, {}, [])],
          Connection(M1, 0, 0), 1)
  }

  lemma MountsOne()
    ensures TakeTurns(INIT.st, Mounting(M1)) == OneMounted()
  {
    Mounts(INIT.st, M1);
    assert Mounted(INIT.st, M1).log == Connection(M1, 0, 0);
  }

  function ASubscribed(): State {
    OneMounted().(store := OneMounted().store[KEY_A := Holder(1, M1, {"hold"})],
                  dialled := [Session(M1, {"1"}, [])],
                  log := OneMounted().log + Subscription(A, 1, M1, 0, 3), nextUid := 2)
  }

  lemma ASubscribes()
    ensures TakeTurns(OneMounted(), Subscribing(A, M1, {"hold"})) == ASubscribed()
  {
    var st := OneMounted();
    Subscribes(st, A, M1, {"hold"});
    assert |st.log| == 3 && ListenersOf(st.dialled, 0) + {"1"} == {"1"};
    assert AfterSubscribing(st, A, M1, {"hold"}).log == ASubscribed().log;
    assert AfterSubscribing(st, A, M1, {"hold"}).dialled == ASubscribed().dialled;
  }

  lemma TwoKeys()
    ensures M1.Key() != M2.Key()
  {
    if M1.Key() == M2.Key() { KeyInjective(M1, M2); }
  }

  /** A run made of stretches of turns, each leading from one state to the next. */
  lemma Reached(turns: seq<Turn>, st: State, more: seq<Turn>, st': State)
    requires TakeTurns(INIT.st, turns) == st && TakeTurns(st, more) == st'
    ensures TakeTurns(INIT.st, turns + more) == st'
  {
    TurnsAppend(INIT.st, turns, more);
  }
}
