/** The life of an EstablishSubscription: the stored subscription id is protected by the finalizer, and the
    object leaves the store only after a delete-subscription for it returned without error. */
module Subscriptions {
  import opened Api
  import opened Operator
  import opened Invariants
  import opened SessionLife

  /** `who` sent delete-subscription for `id` before position `n`, and the call returned no error. */
  ghost predicate Released(log: Log, n: nat, who: Who, id: string) {
    exists i :: 0 <= i < n && i < |log|
      && log[i].Sent? && log[i].who == who && log[i].rpc == DeleteSubscriptionRpc(id) && !log[i].reply.Err()
  }

  predicate ListenedAs(e: Event, who: Who, id: string) {
    e.Listened? && e.who == who && e.id == id
  }

  ghost predicate Registered(log: Log, who: Who, id: string) {
    exists i :: 0 <= i < |log| && ListenedAs(log[i], who, id)
  }

  ghost predicate StoredSub(st: State, key: ObjKey)
    requires key in st.store
  {
    var o := st.store[key];
    var who, id := Who(key.kind, key.nn, o.uid), o.status.subscriptionID;
    key.kind.EstablishSubscription? && id != "" ==>
      && (Finalized(key.kind, o) || (o.deleting && Released(st.log, |st.log|, who, id)))
      && Registered(st.log, who, id)
  }

  ghost predicate GoneOk(log: Log, i: nat)
    requires i < |log|
  {
    log[i].Gone? && log[i].who.kind.EstablishSubscription? && log[i].subscriptionID != "" ==>
      Released(log, i, log[i].who, log[i].subscriptionID)
  }

  ghost predicate FlightSub(st: State, kind: Kind, w: Worker) {
    var id, who := w.obj.status.subscriptionID, WhoIs(kind, w);
    kind.EstablishSubscription? ==>
      && (w.ran != Some(true) ==> id == w.base.status.subscriptionID)
      && (w.ran.Some? ==> w.pc.Report? && Finalized(kind, w.base) && !w.base.deleting)
      && (id != "" ==> Registered(st.log, who, id))
      && (w.pc.Unlisten? ==> id != "")
      && (w.pc.Send? && w.base.deleting ==> w.pc.todo == [DeleteSubscriptionRpc(id)] && id != "")
      && (w.pc.Send? && !w.base.deleting ==> w.pc.todo == w.obj.spec.Script())
      && (w.pc.Release? && id != "" ==> Released(st.log, |st.log|, who, id))
      && (w.pc.Lookup? && w.base.deleting ==> id != "")
  }

  ghost predicate Subs(s: Sys) {
    && (forall key <- s.st.store :: StoredSub(s.st, key))
    && (forall i :: 0 <= i < |s.st.log| ==> GoneOk(s.st.log, i))
    && (forall k <- s.workers :: FlightSub(s.st, k, s.workers[k]))
  }

  // ----- the log only grows -----

  lemma GrowReleased(log: Log, log': Log, n: nat, n': nat, who: Who, id: string)
    requires log <= log' && n <= n'
    ensures Released(log, n, who, id) ==> Released(log', n', who, id)
  {
    if Released(log, n, who, id) {
      var i :| 0 <= i < n && i < |log|
        && log[i].Sent? && log[i].who == who && log[i].rpc == DeleteSubscriptionRpc(id) && !log[i].reply.Err();
      assert log'[i] == log[i];
    }
  }

  lemma GrowRegistered(log: Log, log': Log, who: Who, id: string)
    requires log <= log'
    ensures Registered(log, who, id) ==> Registered(log', who, id)
  {
    if Registered(log, who, id) {
      var i :| 0 <= i < |log| && ListenedAs(log[i], who, id);
      assert log'[i] == log[i];
    }
  }

  lemma GrowStored(st: State, st': State, key: ObjKey)
    requires key in st.store && key in st'.store && StoredSub(st, key) && st.log <= st'.log
    requires st'.store[key].uid == st.store[key].uid && st'.store[key].status == st.store[key].status
    requires st.store[key].deleting ==> st'.store[key].deleting
    requires Finalized(key.kind, st'.store[key]) <==> Finalized(key.kind, st.store[key])
    ensures StoredSub(st', key)
  {
    var who, id := Who(key.kind, key.nn, st.store[key].uid), st.store[key].status.subscriptionID;
    GrowReleased(st.log, st'.log, |st.log|, |st'.log|, who, id);
    GrowRegistered(st.log, st'.log, who, id);
  }

  lemma GrowFlightSub(st: State, st': State, kind: Kind, w: Worker)
    requires FlightSub(st, kind, w) && st.log <= st'.log
    ensures FlightSub(st', kind, w)
  {
    GrowReleased(st.log, st'.log, |st.log|, |st'.log|, WhoIs(kind, w), w.obj.status.subscriptionID);
    GrowRegistered(st.log, st'.log, WhoIs(kind, w), w.obj.status.subscriptionID);
  }

  lemma GrowGone(log: Log, log': Log)
    requires Extends(log, log') && forall i :: 0 <= i < |log| ==> GoneOk(log, i)
    requires |log'| > |log| ==> GoneOk(log', |log|)
    ensures forall i :: 0 <= i < |log'| ==> GoneOk(log', i)
  {
    forall i | 0 <= i < |log'|
      ensures GoneOk(log', i)
    {
      if i < |log| {
        assert GoneOk(log, i) && log'[i] == log[i];
        if log[i].Gone? { GrowReleased(log, log', i, i, log[i].who, log[i].subscriptionID); }
      }
    }
  }

  // ----- one step of a reconcile -----

  lemma SubReply(st: State, kind: Kind, w: Worker, reply: Outcome)
    requires Fits(kind, w) && FlightSub(st, kind, w) && kind.EstablishSubscription? && w.pc.Send? && |w.pc.todo| > 0
    requires |st.log| > 0 && st.log[|st.log| - 1].Sent? && st.log[|st.log| - 1].who == WhoIs(kind, w)
    requires st.log[|st.log| - 1].rpc == w.pc.todo[0] && st.log[|st.log| - 1].reply == reply
    ensures var p := AfterReply(kind, w, w.pc.session, w.pc.todo, reply); p.Go? ==> FlightSub(st, kind, p.next)
  {
  }

  lemma SubCheck(st: State, kind: Kind, w: Worker, c: Choice)
    requires Fits(kind, w) && FlightSub(st, kind, w) && kind.EstablishSubscription?
    requires w.pc.CheckMountPoint? || w.pc.CheckSession? || w.pc.Initialize?
    ensures var (st', p) := StepWorker(st, kind, w, c); p.Go? ==> FlightSub(st', kind, p.next)
  {
  }

  lemma StepFlightSub(st: State, kind: Kind, w: Worker, c: Choice)
    requires Fits(kind, w) && FlightSub(st, kind, w)
    ensures var (st', p) := StepWorker(st, kind, w, c); p.Go? ==> FlightSub(st', kind, p.next)
  {
    var (st', p) := StepWorker(st, kind, w, c);
    StepExtends(st, kind, w, c);
    if kind.EstablishSubscription? {
      match w.pc
      case Lookup =>
      case Unlisten(_) => GrowFlightSub(st, st', kind, w);
      case Listen(_, id) => assert ListenedAs(st'.log[|st.log|], WhoIs(kind, w), id);
      case Send(_, todo) =>
        if |todo| > 0 && todo[0].Buildable(c.xmlOk) {
          GrowFlightSub(st, st', kind, w);
          SubReply(st', kind, w, c.reply);
        }
      case Release =>
      case Report(_) =>
      case _ => SubCheck(st, kind, w, c);
    } else {
      GoFits(st, kind, w, c);
    }
  }

  /** Releasing the finalizer of a subscription that has an id comes after its deletion. */
  lemma StepGone(st: State, kind: Kind, w: Worker, c: Choice)
    requires Fits(kind, w) && FlightSub(st, kind, w)
    ensures var log' := StepWorker(st, kind, w, c).0.log; |log'| > |st.log| ==> GoneOk(log', |st.log|)
  {
    var log' := StepWorker(st, kind, w, c).0.log;
    StepExtends(st, kind, w, c);
    if |log'| > |st.log| {
      match w.pc
      case Release =>
        GrowReleased(st.log, log', |st.log|, |st.log|, WhoIs(kind, w), w.obj.status.subscriptionID);
      case Initialize =>
      case Report(_) =>
      case Send(_, _) =>
      case Lookup =>
      case _ =>
    }
  }

  lemma StepStoredSub(st: State, kind: Kind, w: Worker, c: Choice)
    requires WorkerOk(st, kind, w) && FlightSub(st, kind, w)
    requires forall key <- st.store :: StoredSub(st, key)
    ensures var st' := StepWorker(st, kind, w, c).0; forall key <- st'.store :: StoredSub(st', key)
  {
    var st' := StepWorker(st, kind, w, c).0;
    var own := ObjKey(kind, w.nn);
    StepExtends(st, kind, w, c);
    if w.pc.Initialize? || w.pc.Release? || w.pc.Report? {
      WriteStep(st, kind, w, c);
      if own in st'.store { StepOwnSub(st, kind, w, c); }
    } else {
      ReadStep(st, kind, w, c);
    }
    forall key | key in st'.store
      ensures StoredSub(st', key)
    {
      if key != own || st'.store == st.store {
        assert Find(st', key) == Find(st, key);
        assert StoredSub(st, key);
        GrowStored(st, st', key);
      }
    }
  }

  lemma StepOwnSub(st: State, kind: Kind, w: Worker, c: Choice)
    requires WorkerOk(st, kind, w) && FlightSub(st, kind, w)
    requires w.pc.Initialize? || w.pc.Release? || w.pc.Report?
    requires ObjKey(kind, w.nn) in st.store ==> StoredSub(st, ObjKey(kind, w.nn))
    requires ObjKey(kind, w.nn) in StepWorker(st, kind, w, c).0.store
    ensures StoredSub(StepWorker(st, kind, w, c).0, ObjKey(kind, w.nn))
  {
    var st' := StepWorker(st, kind, w, c).0;
    var who := WhoIs(kind, w);
    StepExtends(st, kind, w, c);
    WriteStep(st, kind, w, c);
    GrowRegistered(st.log, st'.log, who, w.obj.status.subscriptionID);
    GrowReleased(st.log, st'.log, |st.log|, |st'.log|, who, w.obj.status.subscriptionID);
    if st'.store == st.store {
      GrowStored(st, st', ObjKey(kind, w.nn));
    }
  }

  lemma SubsAfter(s: Sys, kind: Kind, st: State, p: Progress)
    requires Subs(s) && kind in s.workers && s.st.log <= st.log
    requires forall key <- st.store :: StoredSub(st, key)
    requires forall i :: 0 <= i < |st.log| ==> GoneOk(st.log, i)
    requires p.Go? ==> FlightSub(st, kind, p.next)
    ensures Subs(After(s, kind, st, p))
  {
    var s' := After(s, kind, st, p);
    if p.Panic? {
      SubsRestart(st);
    } else {
      forall k | k in s'.workers
        ensures FlightSub(st, k, s'.workers[k])
      {
        if k != kind {
          GrowFlightSub(s.st, st, k, s.workers[k]);
        }
      }
    }
  }

  lemma SubsRestart(st: State)
    requires forall key <- st.store :: StoredSub(st, key)
    requires forall i :: 0 <= i < |st.log| ==> GoneOk(st.log, i)
    ensures Subs(Sys(Restart(st), map[]))
  {
    var st' := Restart(st);
    GrowGone(st.log, st'.log);
    forall key | key in st'.store
      ensures StoredSub(st', key)
    {
      GrowStored(st, st', key);
    }
  }

  lemma SubsUser(s: Sys, a: Action)
    requires Subs(s) && ByUser(a)
    ensures Subs(Apply(s, a))
  {
    UserFrame(s, a);
    var st := Apply(s, a).st;
    if |st.log| > |s.st.log| {
      var e := st.log[|s.st.log|];
      assert StoredSub(s.st, ObjKey(e.who.kind, e.who.nn));
      GrowReleased(s.st.log, st.log, |s.st.log|, |s.st.log|, e.who, e.subscriptionID);
    }
    GrowGone(s.st.log, st.log);
    forall key | key in st.store
      ensures StoredSub(st, key)
    {
      assert UserKept(s.st, st, key);
      if key in s.st.store { GrowStored(s.st, st, key); }
    }
    forall k | k in s.workers
      ensures FlightSub(st, k, s.workers[k])
    {
      GrowFlightSub(s.st, st, k, s.workers[k]);
    }
  }

  lemma SubsBegin(s: Sys, kind: Kind, nn: NsName)
    requires Subs(s) && kind !in s.workers && ObjKey(kind, nn) in s.st.store
    ensures Subs(Apply(s, Begin(kind, nn)))
  {
    assert StoredSub(s.st, ObjKey(kind, nn));
  }

  lemma SubsKept(s: Sys, a: Action)
    requires Shape(s) && Subs(s)
    ensures Subs(Apply(s, a))
  {
    match a
    case Begin(kind, nn) => if kind !in s.workers && ObjKey(kind, nn) in s.st.store { SubsBegin(s, kind, nn); }
    case Step(kind, c) =>
      if kind in s.workers {
        var w := s.workers[kind];
        assert WorkerOk(s.st, kind, w) && FlightSub(s.st, kind, w);
        var (st, p) := StepWorker(s.st, kind, w, c);
        StepExtends(s.st, kind, w, c);
        StepGone(s.st, kind, w, c);
        GrowGone(s.st.log, st.log);
        StepStoredSub(s.st, kind, w, c);
        StepFlightSub(s.st, kind, w, c);
        SubsAfter(s, kind, st, p);
      }
    case Crash => SubsRestart(s.st);
    case _ => SubsUser(s, a);
  }
}
