/** A subscription nobody ends: a resource that is reconciled again subscribes again, its stored id is overwritten,
    and the clean-up knows the new id only. */
module Superseded {
  import opened Api
  import opened Operator
  import opened Atomic
  import opened Turns
  import opened Cluster
  import opened Validation
  import opened SubscriptionReconcilers
  import opened Outcomes
  import opened Safety
  import opened Registrations
  import opened Deletion
  import opened Episodes
  import opened Strays

  const SECOND := Reply(false, false, "", "", "2")

  /** As in `SUNNY`, but devices issue the id "2". */
  const LATER := SUNNY.(peer := (log: Log, session: nat, rpc: Rpc) => SECOND)

  const WHO := Who(EstablishSubscription, A, 1)

  function Again(): Log {
    [Sent(WHO, NO_DEPENDENCY, M1, 0, 6, EstablishSubscriptionRpc("<filter/>"), SECOND),
     Listened(WHO, 0, "2", M1.Key(), 6), StatusWritten(WHO, Some(true), "subscribed")]
  }

  function Farewell(): Log {
    [Unlistened(WHO, 0, "2", M1.Key(), 9), Sent(WHO, NO_DEPENDENCY, M1, 0, 9, DeleteSubscriptionRpc("2"), SECOND),
     Gone(WHO, "2")]
  }

  function Once(): State {
    OneMounted().(store := OneMounted().store[KEY_A := Holder(1, M1, {})],
                  dialled := [Session(M1, {"1"}, [])],
                  log := OneMounted().log + Subscription(A, 1, M1, 0, 3), nextUid := 2)
  }

  function HolderOfTwo(): Obj {
    Holder(1, M1, {}).(status := NEW_STATUS.(status := "subscribed", subscriptionID := "2"))
  }

  function Twice(): State {
    Once().(store := Once().store[KEY_A := HolderOfTwo()],
            dialled := [Session(M1, {"1", "2"}, [])],
            log := Once().log + Again())
  }

  function Ended(): State {
    Twice().(store := OneMounted().store,
             dialled := [Session(M1, {"1"}, [])],
             log := Twice().log + Farewell())
  }

  function Ending(): seq<Turn> {
    [Act(Delete(KEY_A)), Serve(EstablishSubscription, A, LATER)]
  }

  lemma SubscribesOnce()
    ensures TakeTurns(OneMounted(), Subscribing(A, M1, {})) == Once()
  {
    var st := OneMounted();
    Subscribes(st, A, M1, {});
    assert |st.log| == 3 && ListenersOf(st.dialled, 0) + {"1"} == {"1"};
    assert AfterSubscribing(st, A, M1, {}).log == Once().log;
    assert AfterSubscribing(st, A, M1, {}).dialled == Once().dialled;
  }

  lemma SubscribesTwice()
    ensures TakeTurns(Once(), [Serve(EstablishSubscription, A, LATER)]) == Twice()
  {
    var st, o, g := Once(), Holder(1, M1, {}), Again();
    var w := Start(EstablishSubscription, A, o).(pc := Initialize, seen := |st.log|);
    var status := HolderOfTwo().status;
    var st1 := st.(dialled := Twice().dialled, log := st.log + [g[0]] + [g[1]]);
    assert |st.log| == 6 && {"1"} + {"2"} == {"1", "2"};
    ValidSubscription(st, KEY_A, LATER);
    SubscribeSteps(st, KEY_A, w, LATER, st1, status, Some(true), Returned(false));
    Ends(st1, EstablishSubscription,
         w.(obj := o.(status := status), ran := Some(true), pc := Report(false), since := |st.log|), LATER);
    assert st1.log + [g[2]] == Twice().log;
    OneTurn(st, Serve(EstablishSubscription, A, LATER));
  }

  function Marked(): State {
    Twice().(store := Twice().store[KEY_A := HolderOfTwo().(deleting := true)])
  }

  lemma CleansTwo()
    ensures TakeTurn(Marked(), Serve(EstablishSubscription, A, LATER)) == Ended()
  {
    var st, g := Marked(), Farewell();
    SubscriptionLeaves(st, A, LATER);
    assert |st.log| == 9 && {"1", "2"} - {"2"} == {"1"};
    assert {} + {SUBSCRIPTION_FINALIZER} == {SUBSCRIPTION_FINALIZER};
    assert st.log + [g[0]] + [g[1]] + [g[2]] == Ended().log && st.store - {KEY_A} == Ended().store;
  }

  lemma Leaves()
    ensures TakeTurns(Twice(), Ending()) == Ended()
  {
    var st, t := Twice(), Ending();
    assert st.store[KEY_A] == HolderOfTwo() && SUBSCRIPTION_FINALIZER in HolderOfTwo().finalizers;
    assert TakeTurn(st, t[0]) == Marked();
    CleansTwo();
    TwoTurns(st, t[0], t[1]);
  }

  lemma ThreeEntries(log: Log, a: Event, b: Event, c: Event, i: nat)
    requires Reg(log, i)
    ensures var log', who := log + [a] + [b] + [c], log[i].who;
      Reg(log', i) && RegOf(log', i) == NextReg(NextReg(NextReg(RegOf(log, i), a, who), b, who), c, who)
  {
    RegSnoc(log, a, i);
    RegSnoc(log + [a], b, i);
    RegSnoc(log + [a] + [b], c, i);
  }

  lemma EndedFate()
    ensures RegIs(Ended().log, 4, Replaced)
  {
    var p, g, f := Subscription(A, 1, M1, 0, 3), Again(), Farewell();
    var l0 := OneMounted().log + [p[0]] + [p[1]];
    var l1 := l0 + [p[2]] + [g[0]] + [g[1]];
    ThreeEntries(l0, p[2], g[0], g[1], 4);
    RegSnoc(l1, g[2], 4);
    ThreeEntries(l1 + [g[2]], f[0], f[1], f[2], 4);
    assert l1 + [g[2]] + [f[0]] + [f[1]] + [f[2]] == Ended().log;
  }

  lemma EndedOnDevice()
    ensures LivesOn(Ended().log, 0, "1")
  {
    var p, g, f := Subscription(A, 1, M1, 0, 3), Again(), Farewell();
    var l0 := OneMounted().log + [p[0]];
    var l1 := l0 + [p[1]] + [p[2]];
    var l2 := l1 + [g[0]] + [g[1]] + [g[2]] + [f[0]];
    LivesSnoc(OneMounted().log, p[0], 0, "1");
    NoRpcNoChange(l0, l1, 0, "1");
    LivesSnoc(l1, g[0], 0, "1");
    NoRpcNoChange(l1 + [g[0]], l2, 0, "1");
    LivesSnoc(l2, f[1], 0, "1");
    NoRpcNoChange(l2 + [f[1]], l2 + [f[1]] + [f[2]], 0, "1");
    assert l2 + [f[1]] + [f[2]] == Ended().log;
  }

  lemma EndedIsReached() returns (actions: seq<Action>)
    ensures Run(INIT, actions) == Sys(Ended(), map[])
  {
    MountsOne();
    SubscribesOnce();
    SubscribesTwice();
    Leaves();
    var t2 := Mounting(M1) + Subscribing(A, M1, {});
    var t3 := t2 + [Serve(EstablishSubscription, A, LATER)];
    Reached(Mounting(M1), OneMounted(), Subscribing(A, M1, {}), Once());
    Reached(t2, Once(), [Serve(EstablishSubscription, A, LATER)], Twice());
    Reached(t3, Twice(), Ending(), Ended());
    actions := TurnsAreARun(INIT.st, t3 + Ending());
  }

  /** Reached from `INIT`: the resource is gone, cleaned up without any error, and its first listener and its first
      subscription are still there, on the session that is cached. */
  lemma SubscriptionOutlivesItsResource() returns (actions: seq<Action>)
    ensures var s := Run(INIT, actions);
      && Good(s) && KEY_A !in s.st.store && s.st.sessions == map[M1.Key() := 0]
      && RegIs(s.st.log, 4, Replaced) && s.st.log[4].who.nn == A && s.st.log[4].id == "1" && s.st.log[4].session == 0
      && "1" in ListenersOf(s.st.dialled, 0) && LivesOn(s.st.log, 0, "1")
  {
    actions := EndedIsReached();
    Reachable(actions);
    EndedFate();
    EndedOnDevice();
  }
}
