/** First story: a user moves a resource that holds an id to another MountPoint. */
module StrayMoved {
  import opened Api
  import opened Operator
  import opened Turns
  import opened Safety
  import opened Subscriptions
  import opened Listeners
  import opened Placement
  import opened Deletion
  import opened Episodes
  import opened Strays

  function TwoMounted(): State {
    State(OneMounted().store[ObjKey(MountPoint, M2) := MountedObj(1)], map[M1.Key() := 0, M2.Key() := 1],
          [Session(M1, {}, []), Session(M2, {}, [])], OneMounted().log + Connection(M2, 1, 1), 2)
  }

  function OneSubscribed(): State {
    TwoMounted().(store := TwoMounted().store[KEY_A := Holder(2, M1, {"hold"})],
                  dialled := [Session(M1, {"1"}, []), Session(M2, {}, [])],
                  log := TwoMounted().log + Subscription(A, 2, M1, 0, 6), nextUid := 3)
  }

  function BothSubscribed(): State {
    OneSubscribed().(store := OneSubscribed().store[KEY_B := Holder(3, M2, {})],
                     dialled := [Session(M1, {"1"}, []), Session(M2, {"1"}, [])],
                     log := OneSubscribed().log + Subscription(B, 3, M2, 1, 9), nextUid := 4)
  }

  function Moved(): State {
    BothSubscribed().(store := BothSubscribed().store[KEY_A := Remains(2, M2)],
                      dialled := [Session(M1, {"1"}, []), Session(M2, {}, [])],
                      log := BothSubscribed().log + CleanUp(A, 2, M2, 1, 12))
  }

  function Moving(): seq<Turn> {
    [Act(EditSpec(KEY_A, SubscriptionSpec(M2))), Act(Delete(KEY_A)), Serve(EstablishSubscription, A, SUNNY)]
  }

  lemma MountsAnother()
    ensures TakeTurns(OneMounted(), Mounting(M2)) == TwoMounted()
  {
    TwoKeys();
    Mounts(OneMounted(), M2);
    assert Mounted(OneMounted(), M2).log == TwoMounted().log;
  }

  lemma SubscribesA()
    ensures TakeTurns(TwoMounted(), Subscribing(A, M1, {"hold"})) == OneSubscribed()
  {
    TwoKeys();
    var st := TwoMounted();
    Subscribes(st, A, M1, {"hold"});
    assert |st.log| == 6 && ListenersOf(st.dialled, 0) + {"1"} == {"1"};
    assert AfterSubscribing(st, A, M1, {"hold"}).log == OneSubscribed().log;
    assert AfterSubscribing(st, A, M1, {"hold"}).dialled == OneSubscribed().dialled;
  }

  lemma SubscribesB()
    ensures TakeTurns(OneSubscribed(), Subscribing(B, M2, {})) == BothSubscribed()
  {
    TwoKeys();
    var st := OneSubscribed();
    Subscribes(st, B, M2, {});
    assert |st.log| == 9 && ListenersOf(st.dialled, 1) + {"1"} == {"1"};
    assert AfterSubscribing(st, B, M2, {}).log == BothSubscribed().log;
    assert AfterSubscribing(st, B, M2, {}).dialled == BothSubscribed().dialled;
  }

  lemma Moves()
    ensures TakeTurns(BothSubscribed(), Moving()) == Moved()
  {
    TwoKeys();
    var st, t := BothSubscribed(), Moving();
    var st2 := st.(store := st.store[KEY_A := Leaving(2, M2)]);
    assert st.store[KEY_A] == Holder(2, M1, {"hold"});
    assert st.store[KEY_A := Holder(2, M2, {"hold"})][KEY_A := Leaving(2, M2)] == st2.store;
    assert "hold" in Leaving(2, M2).finalizers;
    assert TakeTurn(TakeTurn(st, t[0]), t[1]) == st2;
    Cleans(st2, A, 2, M2);
    assert st2.store[KEY_A := Remains(2, M2)] == st.store[KEY_A := Remains(2, M2)];
    assert |st.log| == 12 && {"1"} - {"1"} == {};
    assert AfterCleaning(st2, A, 2, M2).dialled == Moved().dialled;
    ThreeTurns(st, t[0], t[1], t[2]);
  }

  lemma MovedIsReached() returns (actions: seq<Action>)
    ensures Run(INIT, actions) == Sys(Moved(), map[])
  {
    MountsOne();
    MountsAnother();
    SubscribesA();
    SubscribesB();
    Moves();
    var t2 := Mounting(M1) + Mounting(M2);
    var t3 := t2 + Subscribing(A, M1, {"hold"});
    var t4 := t3 + Subscribing(B, M2, {});
    Reached(Mounting(M1), OneMounted(), Mounting(M2), TwoMounted());
    Reached(t2, TwoMounted(), Subscribing(A, M1, {"hold"}), OneSubscribed());
    Reached(t3, OneSubscribed(), Subscribing(B, M2, {}), BothSubscribed());
    Reached(t4, BothSubscribed(), Moving(), Moved());
    actions := TurnsAreARun(INIT.st, t4 + Moving());
  }

  lemma MovedLog()
    ensures var log := Moved().log;
      && |log| == 14 && log[7] == Subscription(A, 2, M1, 0, 6)[1] && log[10] == Subscription(B, 3, M2, 1, 9)[1]
      && (forall i :: 0 <= i < 14 ==> (log[i].Listened? <==> i == 7 || i == 10))
      && NoReissue(log)
  {
    var log := Moved().log;
    ListensFrom(log[..7], 0, "1");
    ListensFrom(log[..10], 1, "1");
  }

  lemma MovedOnDevice()
    ensures !LivesOn(Moved().log, 1, "1") && LivesOn(Moved().log, 0, "1")
  {
    var sentA, sentB := Subscription(A, 2, M1, 0, 6)[0], Subscription(B, 3, M2, 1, 9)[0];
    var c, log := CleanUp(A, 2, M2, 1, 12), BothSubscribed().log;
    LivesSnoc(TwoMounted().log, sentA, 0, "1");
    NoRpcNoChange(TwoMounted().log + [sentA], OneSubscribed().log, 0, "1");
    LivesSnoc(OneSubscribed().log, sentB, 0, "1");
    NoRpcNoChange(OneSubscribed().log + [sentB], log, 0, "1");
    NoRpcNoChange(log, log + [c[0]], 0, "1");
    LivesSnoc(log + [c[0]], c[1], 0, "1");
    LivesSnoc(log + [c[0]], c[1], 1, "1");
    assert log + [c[0]] + [c[1]] == Moved().log;
  }

  lemma MovedHarms()
    ensures Harmed(Moved(), 10) && Moved().log[10].who.nn == B
    ensures Moved().store[KEY_A] == Remains(2, M2)
  {
    MovedLog();
    MovedOnDevice();
  }

  /** Reached from `INIT`: A holds the id "1" issued on the session of the first MountPoint, a user moves it to the
      second and deletes it. Its clean-up takes the listener of B, an untouched resource to which the second device
      also issued "1", and deletes B's subscription there, while A's own stays on the first device. A itself, held
      by a foreign finalizer, stays with its id and without the operator's finalizer. */
  lemma MovedResourceHarmsAnother() returns (actions: seq<Action>)
    ensures var s := Run(INIT, actions);
      && Good(s) && Harmed(s.st, 10) && s.st.log[10].who.nn == B && !Settled(INIT, actions)
      && LivesOn(s.st.log, 0, "1")
      && KEY_A in s.st.store && s.st.store[KEY_A].status.subscriptionID == "1"
      && SUBSCRIPTION_FINALIZER !in s.st.store[KEY_A].finalizers
  {
    actions := MovedIsReached();
    Reachable(actions);
    MovedHarms();
    MovedOnDevice();
    HarmIsUnsettled(actions, 10);
  }
}
