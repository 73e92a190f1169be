/** Runs in which every clean-up starts on the session where its resource's own listener is. */
module Placement {
  import opened Api
  import opened Operator
  import opened Invariants
  import opened SessionLife
  import opened Subscriptions
  import opened Lookups
  import opened Listeners

  /** The EstablishSubscription controller is about to look up the session to clean a subscription up on. */
  predicate StartsCleanUp(s: Sys, a: Action) {
    && a.Step? && a.worker.EstablishSubscription? && EstablishSubscription in s.workers
    && var w := s.workers[EstablishSubscription];
       w.pc.Lookup? && w.base.deleting && TargetOf(w).Key() in s.st.sessions
  }

  /** What is registered as the stored id on the session about to be looked up is the resource's own. */
  ghost predicate StartsHome(s: Sys)
    requires EstablishSubscription in s.workers && TargetOf(s.workers[EstablishSubscription]).Key() in s.st.sessions
  {
    var w := s.workers[EstablishSubscription];
    OwnNow(s.st.log, WhoIs(EstablishSubscription, w), w.obj.status.subscriptionID, s.st.sessions[TargetOf(w).Key()])
  }

  ghost predicate Settled(s: Sys, actions: seq<Action>)
    decreases |actions|
  {
    actions == [] ||
    ((StartsCleanUp(s, actions[0]) ==> StartsHome(s)) && Settled(Apply(s, actions[0]), actions[1..]))
  }

  /** The resource got the id on the session. */
  ghost predicate RegisteredOn(log: Log, who: Who, id: string, session: nat) {
    exists i :: 0 <= i < |log| && ListenedAs(log[i], who, id) && log[i].session == session
  }

  /** A clean-up was of the resource's own listener, and a delete-subscription went to the session that issued
      the id. */
  ghost predicate EntryPlaced(log: Log, j: nat)
    requires j < |log|
  {
    var e := log[j];
    && !Stray(log, j)
    && (e.Sent? && e.who.kind.EstablishSubscription? && e.rpc.DeleteSubscriptionRpc? ==>
          RegisteredOn(log[..j], e.who, e.rpc.id, e.session))
  }

  ghost predicate FlightPlaced(log: Log, w: Worker) {
    var who, id := WhoIs(EstablishSubscription, w), w.obj.status.subscriptionID;
    && (w.pc.Unlisten? ==> OwnNow(log, who, id, w.pc.session))
    && (w.pc.Send? && w.base.deleting ==> RegisteredOn(log, who, id, w.pc.session))
  }

  ghost predicate Placed(s: Sys) {
    && (EstablishSubscription in s.workers ==> FlightPlaced(s.st.log, s.workers[EstablishSubscription]))
    && (forall j :: 0 <= j < |s.st.log| ==> EntryPlaced(s.st.log, j))
  }

  // ----- frames -----

  lemma EntryStaysPlaced(log: Log, log': Log, j: nat)
    requires log <= log' && j < |log|
    ensures EntryPlaced(log', j) <==> EntryPlaced(log, j)
  {
    assert log'[..j] == log[..j] && log'[j] == log[j];
  }

  lemma RegisteredStays(log: Log, log': Log, who: Who, id: string, session: nat)
    requires log <= log' && RegisteredOn(log, who, id, session)
    ensures RegisteredOn(log', who, id, session)
  {
    var i :| 0 <= i < |log| && ListenedAs(log[i], who, id) && log[i].session == session;
    assert log'[i] == log[i];
  }

  lemma OwnIsRegistered(log: Log, who: Who, id: string, session: nat)
    requires OwnNow(log, who, id, session)
    ensures RegisteredOn(log, who, id, session)
  {
  }

  /** Entries that are not about listeners leave what is registered as it was. */
  lemma OwnStays(log: Log, log': Log, who: Who, id: string, session: nat)
    requires Extends(log, log') && OwnNow(log, who, id, session)
    requires |log'| > |log| ==> !log'[|log|].Listened? && !log'[|log|].Unlistened?
    ensures OwnNow(log', who, id, session)
  {
    var l: nat :| Current(log, l) && ListenedAs(log[l], who, id) && log[l].session == session;
    if |log'| > |log| {
      assert log' == log + [log'[|log|]];
      CurrentSnoc(log, log'[|log|], l);
    } else {
      assert log' == log;
    }
  }

  lemma FlightStaysPlaced(log: Log, log': Log, w: Worker)
    requires Extends(log, log') && FlightPlaced(log, w)
    requires |log'| > |log| ==> !log'[|log|].Listened? && !log'[|log|].Unlistened?
    ensures FlightPlaced(log', w)
  {
    var who, id := WhoIs(EstablishSubscription, w), w.obj.status.subscriptionID;
    if w.pc.Unlisten? { OwnStays(log, log', who, id, w.pc.session); }
    if w.pc.Send? && w.base.deleting { RegisteredStays(log, log', who, id, w.pc.session); }
  }

  // ----- one step of the EstablishSubscription controller -----

  lemma StepFlightPlaced(s: Sys, c: Choice)
    requires EstablishSubscription in s.workers
    requires var w := s.workers[EstablishSubscription];
      Fits(EstablishSubscription, w) && FlightSub(s.st, EstablishSubscription, w) && FlightPlaced(s.st.log, w)
    requires StartsCleanUp(s, Step(EstablishSubscription, c)) ==> StartsHome(s)
    ensures var (st, p) := StepWorker(s.st, EstablishSubscription, s.workers[EstablishSubscription], c);
      p.Go? ==> FlightPlaced(st.log, p.next)
  {
    var w := s.workers[EstablishSubscription];
    var (st, p) := StepWorker(s.st, EstablishSubscription, w, c);
    match w.pc
    case Unlisten(session) =>
      OwnIsRegistered(s.st.log, WhoIs(EstablishSubscription, w), w.obj.status.subscriptionID, session);
      RegisteredStays(s.st.log, st.log, WhoIs(EstablishSubscription, w), w.obj.status.subscriptionID, session);
    case Lookup =>
    case Send(_, todo) =>
    case Listen(_, _) =>
    case Initialize =>
    case Release =>
    case Report(_) =>
    case _ =>
  }

  lemma StepEntryPlaced(st: State, w: Worker, c: Choice)
    requires Fits(EstablishSubscription, w) && FlightPlaced(st.log, w) && FlightSub(st, EstablishSubscription, w)
    ensures var log' := StepWorker(st, EstablishSubscription, w, c).0.log;
      |log'| > |st.log| ==> EntryPlaced(log', |st.log|)
  {
    var log' := StepWorker(st, EstablishSubscription, w, c).0.log;
    StepExtends(st, EstablishSubscription, w, c);
    if |log'| > |st.log| {
      assert log'[..|st.log|] == st.log;
      if w.pc.Send? {
        SendPlaced(st, w, c);
      } else if !w.pc.Unlisten? {
        StepListensOnly(st, EstablishSubscription, w, c);
      }
    }
  }

  lemma SendPlaced(st: State, w: Worker, c: Choice)
    requires Fits(EstablishSubscription, w) && FlightSub(st, EstablishSubscription, w) && w.pc.Send?
    requires FlightPlaced(st.log, w)
    ensures var log' := StepWorker(st, EstablishSubscription, w, c).0.log;
      |log'| > |st.log| ==>
        log'[|st.log|].Sent?
        && (log'[|st.log|].rpc.DeleteSubscriptionRpc? ==>
              RegisteredOn(st.log, log'[|st.log|].who, log'[|st.log|].rpc.id, log'[|st.log|].session))
  {
  }

  lemma StepListensOnly(st: State, kind: Kind, w: Worker, c: Choice)
    requires !w.pc.Unlisten? && !w.pc.Send?
    ensures var log' := StepWorker(st, kind, w, c).0.log;
      |log'| > |st.log| ==> !log'[|st.log|].Unlistened? && !log'[|st.log|].Sent?
  {
    if !w.pc.Listen? { StepUnrelated(st, kind, w, c); }
  }

  /** The other controllers neither change listeners nor delete subscriptions. */
  lemma OtherEntryPlaced(st: State, kind: Kind, w: Worker, c: Choice)
    requires Fits(kind, w) && !kind.EstablishSubscription?
    ensures var log' := StepWorker(st, kind, w, c).0.log;
      |log'| > |st.log| ==>
        !log'[|st.log|].Listened? && !log'[|st.log|].Unlistened? && EntryPlaced(log', |st.log|)
  {
    StepExtends(st, kind, w, c);
    if !w.pc.Send? { StepUnrelated(st, kind, w, c); }
  }

  // ----- every action -----

  lemma PlacedAfter(s: Sys, kind: Kind, st: State, p: Progress)
    requires Placed(s) && kind in s.workers && Extends(s.st.log, st.log)
    requires |st.log| > |s.st.log| ==> EntryPlaced(st.log, |s.st.log|)
    requires kind.EstablishSubscription? && p.Go? ==> FlightPlaced(st.log, p.next)
    requires !kind.EstablishSubscription? && |st.log| > |s.st.log| ==>
               !st.log[|s.st.log|].Listened? && !st.log[|s.st.log|].Unlistened?
    ensures Placed(After(s, kind, st, p))
  {
    var s' := After(s, kind, st, p);
    forall j | 0 <= j < |s'.st.log|
      ensures EntryPlaced(s'.st.log, j)
    {
      if j < |s.st.log| {
        EntryStaysPlaced(s.st.log, s'.st.log, j);
      } else if j < |st.log| {
        EntryStaysPlaced(st.log, s'.st.log, j);
      }
    }
    if !kind.EstablishSubscription? && EstablishSubscription in s'.workers {
      FlightStaysPlaced(s.st.log, st.log, s.workers[EstablishSubscription]);
    }
  }

  lemma PlacedStep(s: Sys, kind: Kind, c: Choice)
    requires Shape(s) && Subs(s) && Placed(s) && kind in s.workers
    requires StartsCleanUp(s, Step(kind, c)) ==> StartsHome(s)
    ensures Placed(Advance(s, kind, c))
  {
    var w := s.workers[kind];
    assert WorkerOk(s.st, kind, w) && FlightSub(s.st, kind, w);
    var (st, p) := StepWorker(s.st, kind, w, c);
    StepExtends(s.st, kind, w, c);
    if kind.EstablishSubscription? {
      StepEntryPlaced(s.st, w, c);
      StepFlightPlaced(s, c);
    } else {
      OtherEntryPlaced(s.st, kind, w, c);
    }
    PlacedAfter(s, kind, st, p);
  }

  /** A log that grew by an entry about no subscription. */
  lemma PlacedOther(s: Sys, s': Sys)
    requires Placed(s) && Extends(s.st.log, s'.st.log)
    requires |s'.st.log| > |s.st.log| ==> Unrelated(s'.st.log[|s.st.log|])
    requires EstablishSubscription in s'.workers ==>
      var w := s'.workers[EstablishSubscription];
      (EstablishSubscription in s.workers && w == s.workers[EstablishSubscription]) || w.pc.CheckMountPoint?
    ensures Placed(s')
  {
    forall j | 0 <= j < |s'.st.log|
      ensures EntryPlaced(s'.st.log, j)
    {
      if j < |s.st.log| { EntryStaysPlaced(s.st.log, s'.st.log, j); }
    }
    if EstablishSubscription in s'.workers && !s'.workers[EstablishSubscription].pc.CheckMountPoint? {
      FlightStaysPlaced(s.st.log, s'.st.log, s.workers[EstablishSubscription]);
    }
  }

  lemma PlacedKept(s: Sys, a: Action)
    requires Shape(s) && Subs(s) && Placed(s) && (StartsCleanUp(s, a) ==> StartsHome(s))
    ensures Placed(Apply(s, a))
  {
    match a
    case Begin(_, _) => PlacedOther(s, Apply(s, a));
    case Step(kind, c) => if kind in s.workers { PlacedStep(s, kind, c); }
    case Crash => PlacedOther(s, Apply(s, a));
    case _ =>
      UserFrame(s, a);
      PlacedOther(s, Apply(s, a));
  }
}
