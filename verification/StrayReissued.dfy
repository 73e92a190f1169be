/** Third story: a clean-up is repeated because the store refused its write, and meanwhile the device, which had
    deleted the subscription, issued the id again; nobody is moved and no session replaced. */
module StrayReissued {
  import opened Api
  import opened Operator
  import opened Turns
  import opened Safety
  import opened Subscriptions
  import opened Listeners
  import opened Placement
  import opened Deletion
  import opened Episodes
  import opened Strays

  function Refused(): State {
    ASubscribed().(store := ASubscribed().store[KEY_A := Leaving(1, M1)],
                   dialled := [Session(M1, {}, [])],
                   log := ASubscribed().log + CleanUp(A, 1, M1, 0, 6)
                          + [StatusWritten(Who(EstablishSubscription, A, 1), None, "subscribed")])
  }

  function Reissued(): State {
    Refused().(store := Refused().store[KEY_B := Holder(2, M1, {})],
               dialled := [Session(M1, {"1"}, [])],
               log := Refused().log + Subscription(B, 2, M1, 0, 9), nextUid := 3)
  }

  function Repeated(): State {
    Reissued().(store := Reissued().store[KEY_A := Remains(1, M1)],
                dialled := [Session(M1, {}, [])],
                log := Reissued().log + CleanUp(A, 1, M1, 0, 12))
  }

  function Refusing(): seq<Turn> {
    [Act(Delete(KEY_A)), Serve(EstablishSubscription, A, SUNNY.(updateOk := false))]
  }

  function Repeating(): seq<Turn> {
    [Serve(EstablishSubscription, A, SUNNY)]
  }

  lemma Refuses()
    ensures TakeTurns(ASubscribed(), Refusing()) == Refused()
  {
    var st, t := ASubscribed(), Refusing();
    var st1 := st.(store := st.store[KEY_A := Leaving(1, M1)]);
    assert st.store[KEY_A] == Holder(1, M1, {"hold"});
    assert "hold" in Leaving(1, M1).finalizers;
    assert TakeTurn(st, t[0]) == st1;
    CleansInVain(st1, A, 1, M1);
    assert |st.log| == 6 && {"1"} - {"1"} == {};
    assert AfterCleaning(st1, A, 1, M1).dialled == Refused().dialled;
    TwoTurns(st, t[0], t[1]);
  }

  lemma Reissues()
    ensures TakeTurns(Refused(), Subscribing(B, M1, {})) == Reissued()
  {
    var st := Refused();
    Subscribes(st, B, M1, {});
    assert |st.log| == 9 && ListenersOf(st.dialled, 0) + {"1"} == {"1"};
    assert AfterSubscribing(st, B, M1, {}).log == Reissued().log;
    assert AfterSubscribing(st, B, M1, {}).dialled == Reissued().dialled;
  }

  lemma Repeats()
    ensures TakeTurns(Reissued(), Repeating()) == Repeated()
  {
    var st, t := Reissued(), Repeating();
    Cleans(st, A, 1, M1);
    assert |st.log| == 12 && {"1"} - {"1"} == {};
    assert AfterCleaning(st, A, 1, M1).dialled == Repeated().dialled;
    assert t[1..] == [];
  }

  lemma RepeatedIsReached() returns (actions: seq<Action>)
    ensures Run(INIT, actions) == Sys(Repeated(), map[])
  {
    MountsOne();
    ASubscribes();
    Refuses();
    Reissues();
    Repeats();
    var t2 := Mounting(M1) + Subscribing(A, M1, {"hold"});
    var t3 := t2 + Refusing();
    var t4 := t3 + Subscribing(B, M1, {});
    Reached(Mounting(M1), OneMounted(), Subscribing(A, M1, {"hold"}), ASubscribed());
    Reached(t2, ASubscribed(), Refusing(), Refused());
    Reached(t3, Refused(), Subscribing(B, M1, {}), Reissued());
    Reached(t4, Reissued(), Repeating(), Repeated());
    actions := TurnsAreARun(INIT.st, t4 + Repeating());
  }

  lemma RepeatedLog()
    ensures var log := Repeated().log;
      && |log| == 14 && log[4] == Subscription(A, 1, M1, 0, 3)[1] && log[10] == Subscription(B, 2, M1, 0, 9)[1]
      && (forall i :: 0 <= i < 14 ==> (log[i].Listened? <==> i == 4 || i == 10))
      && NoReissue(log)
  {
    var log := Repeated().log;
    ListensFrom(log[..4], 0, "1");
    assert log[6] == CleanUp(A, 1, M1, 0, 6)[0];
    UnlistenedLast(log[..10], 6, 0, "1");
  }

  lemma RepeatedOnDevice()
    ensures !LivesOn(Repeated().log, 0, "1")
  {
    var c, log := CleanUp(A, 1, M1, 0, 12), Reissued().log;
    LivesSnoc(log + [c[0]], c[1], 0, "1");
    assert log + [c[0]] + [c[1]] == Repeated().log;
  }

  lemma RepeatedHarms()
    ensures Harmed(Repeated(), 10) && Repeated().log[10].who.nn == B && Repeated().sessions == map[M1.Key() := 0]
  {
    RepeatedLog();
    RepeatedOnDevice();
  }

  /** Reached from `INIT`: A is deleted and its subscription too, but the store refuses to remove its finalizer. B
      subscribes on the same session and gets the id that is free again. A's clean-up is repeated: it takes B's
      listener and deletes B's subscription. */
  lemma RepeatedCleanUpHarmsAnother() returns (actions: seq<Action>)
    ensures var s := Run(INIT, actions);
      && Good(s) && Harmed(s.st, 10) && s.st.log[10].who.nn == B && !Settled(INIT, actions)
      && s.st.sessions == map[M1.Key() := 0] && |s.st.dialled| == 1
  {
    actions := RepeatedIsReached();
    Reachable(actions);
    RepeatedHarms();
    HarmIsUnsettled(actions, 10);
  }
}
