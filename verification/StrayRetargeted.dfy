/** Second story: a user gives a MountPoint another target, so that another session is cached under its key; no
    EstablishSubscription is touched. */
module StrayRetargeted {
  import opened Api
  import opened Operator
  import opened Turns
  import opened Safety
  import opened Subscriptions
  import opened Listeners
  import opened Placement
  import opened Deletion
  import opened Episodes
  import opened Strays

  const KEY_M := ObjKey(MountPoint, M1)
  const ELSEWHERE := MountPointSpec("elsewhere", [])

  function Retargeted(): State {
    ASubscribed().(store := ASubscribed().store[KEY_M := MountedObj(0).(spec := ELSEWHERE)],
                   sessions := map[M1.Key() := 1],
                   dialled := [Session(M1, {"1"}, []), Session(M1, {}, [])],
                   log := ASubscribed().log + Connection(M1, 0, 1))
  }

  function BothSubscribed(): State {
    Retargeted().(store := Retargeted().store[KEY_B := Holder(2, M1, {})],
                  dialled := [Session(M1, {"1"}, []), Session(M1, {"1"}, [])],
                  log := Retargeted().log + Subscription(B, 2, M1, 1, 9), nextUid := 3)
  }

  function CleanedUp(): State {
    BothSubscribed().(store := BothSubscribed().store[KEY_A := Remains(1, M1)],
                      dialled := [Session(M1, {"1"}, []), Session(M1, {}, [])],
                      log := BothSubscribed().log + CleanUp(A, 1, M1, 1, 12))
  }

  function Retargeting(): seq<Turn> {
    [Act(EditSpec(KEY_M, ELSEWHERE)), Serve(MountPoint, M1, SUNNY)]
  }

  function Deleting(): seq<Turn> {
    [Act(Delete(KEY_A)), Serve(EstablishSubscription, A, SUNNY)]
  }

  lemma Retargets()
    ensures TakeTurns(ASubscribed(), Retargeting()) == Retargeted()
  {
    var st, t := ASubscribed(), Retargeting();
    var o := MountedObj(0).(spec := ELSEWHERE);
    var st1 := st.(store := st.store[KEY_M := o]);
    assert st.store[KEY_M] == MountedObj(0);
    assert TakeTurn(st, t[0]) == st1;
    Reconnects(st1, M1);
    assert st1.store[KEY_M := o] == Retargeted().store;
    assert st.sessions[M1.Key() := 1] == map[M1.Key() := 1];
    assert Reconnected(st1, M1).log == Retargeted().log;
    TwoTurns(st, t[0], t[1]);
  }

  lemma SubscribesB()
    ensures TakeTurns(Retargeted(), Subscribing(B, M1, {})) == BothSubscribed()
  {
    var st := Retargeted();
    Subscribes(st, B, M1, {});
    assert |st.log| == 9 && ListenersOf(st.dialled, 1) + {"1"} == {"1"};
    assert AfterSubscribing(st, B, M1, {}).log == BothSubscribed().log;
    assert AfterSubscribing(st, B, M1, {}).dialled == BothSubscribed().dialled;
  }

  lemma Deletes()
    ensures TakeTurns(BothSubscribed(), Deleting()) == CleanedUp()
  {
    var st, t := BothSubscribed(), Deleting();
    var st1 := st.(store := st.store[KEY_A := Leaving(1, M1)]);
    assert st.store[KEY_A] == Holder(1, M1, {"hold"});
    assert "hold" in Leaving(1, M1).finalizers;
    assert TakeTurn(st, t[0]) == st1;
    Cleans(st1, A, 1, M1);
    assert st1.store[KEY_A := Remains(1, M1)] == st.store[KEY_A := Remains(1, M1)];
    assert |st.log| == 12 && {"1"} - {"1"} == {};
    assert AfterCleaning(st1, A, 1, M1).dialled == CleanedUp().dialled;
    TwoTurns(st, t[0], t[1]);
  }

  lemma CleanedUpIsReached() returns (actions: seq<Action>)
    ensures Run(INIT, actions) == Sys(CleanedUp(), map[])
  {
    MountsOne();
    ASubscribes();
    Retargets();
    SubscribesB();
    Deletes();
    var t2 := Mounting(M1) + Subscribing(A, M1, {"hold"});
    var t3 := t2 + Retargeting();
    var t4 := t3 + Subscribing(B, M1, {});
    Reached(Mounting(M1), OneMounted(), Subscribing(A, M1, {"hold"}), ASubscribed());
    Reached(t2, ASubscribed(), Retargeting(), Retargeted());
    Reached(t3, Retargeted(), Subscribing(B, M1, {}), BothSubscribed());
    Reached(t4, BothSubscribed(), Deleting(), CleanedUp());
    actions := TurnsAreARun(INIT.st, t4 + Deleting());
  }

  lemma CleanedUpLog()
    ensures var log := CleanedUp().log;
      && |log| == 14 && log[4] == Subscription(A, 1, M1, 0, 3)[1] && log[10] == Subscription(B, 2, M1, 1, 9)[1]
      && (forall i :: 0 <= i < 14 ==> (log[i].Listened? <==> i == 4 || i == 10))
      && NoReissue(log)
  {
    var log := CleanedUp().log;
    ListensFrom(log[..4], 0, "1");
    ListensFrom(log[..10], 1, "1");
  }

  lemma CleanedUpOnDevice()
    ensures !LivesOn(CleanedUp().log, 1, "1") && LivesOn(CleanedUp().log, 0, "1")
  {
    var sentA, sentB := Subscription(A, 1, M1, 0, 3)[0], Subscription(B, 2, M1, 1, 9)[0];
    var c, log := CleanUp(A, 1, M1, 1, 12), BothSubscribed().log;
    LivesSnoc(OneMounted().log, sentA, 0, "1");
    NoRpcNoChange(OneMounted().log + [sentA], Retargeted().log, 0, "1");
    LivesSnoc(Retargeted().log, sentB, 0, "1");
    NoRpcNoChange(Retargeted().log + [sentB], log, 0, "1");
    NoRpcNoChange(log, log + [c[0]], 0, "1");
    LivesSnoc(log + [c[0]], c[1], 0, "1");
    LivesSnoc(log + [c[0]], c[1], 1, "1");
    assert log + [c[0]] + [c[1]] == CleanedUp().log;
  }

  lemma CleanedUpHarms()
    ensures Harmed(CleanedUp(), 10) && CleanedUp().log[10].who.nn == B
    ensures CleanedUp().store[KEY_A] == Remains(1, M1) && CleanedUp().sessions == map[M1.Key() := 1]
  {
    CleanedUpLog();
    CleanedUpOnDevice();
  }

  /** Reached from `INIT`: A holds the id "1" of the first session of a MountPoint, which is then given another
      target and reconnected; B subscribes and gets "1" from the new device. A, never moved, is deleted: its clean-up
      starts on the session now cached, takes B's listener and deletes B's subscription, and A's own stays on the
      first device. */
  lemma RetargetedMountPointHarmsAnother() returns (actions: seq<Action>)
    ensures var s := Run(INIT, actions);
      && Good(s) && Harmed(s.st, 10) && s.st.log[10].who.nn == B && !Settled(INIT, actions)
      && LivesOn(s.st.log, 0, "1") && s.st.sessions == map[M1.Key() := 1]
      && KEY_A in s.st.store && s.st.store[KEY_A].spec == SubscriptionSpec(M1)
  {
    actions := CleanedUpIsReached();
    Reachable(actions);
    CleanedUpHarms();
    CleanedUpOnDevice();
    HarmIsUnsettled(actions, 10);
  }
}
