/** Safety over whole runs: what holds after any sequence of user writes, interleaved reconcile steps,
    panics and restarts, whatever the devices reply. */
module Safety {
  import opened Api
  import opened Operator
  import opened Invariants
  import opened SessionCache
  import opened SessionLife
  import opened CheckThenUse
  import opened Causality
  import opened StatusHistory
  import opened Subscriptions
  import opened Lookups
  import opened Listeners
  import opened Placement
  import opened Registrations
  import opened Losses
  import opened Exchanges

  ghost predicate Good(s: Sys) {
    && Shape(s) && Cache(s) && Isolated(s.st) && Fates(s) && Use(s) && Causal(s) && Truthful(s) && Subs(s)
    && Looked(s) && Heard(s.st) && Regs(s) && CleanUps(s.st.log) && Spoken(s)
  }

  lemma GoodKept(s: Sys, a: Action)
    requires Good(s)
    ensures Good(Apply(s, a))
  {
    ShapeKept(s, a);
    CacheKept(s, a);
    IsolatedKept(s, a);
    FatesKept(s, a);
    UseKept(s, a);
    CausalKept(s, a);
    TruthfulKept(s, a);
    SubsKept(s, a);
    LookedKept(s, a);
    HeardKept(s, a);
    RegsKept(s, a);
    CleanUpsKept(s, a);
    SpokenKept(s, a);
  }

  lemma GoodRun(s: Sys, actions: seq<Action>)
    requires Good(s)
    ensures Good(Run(s, actions))
    decreases |actions|
  {
    if actions != [] {
      GoodKept(s, actions[0]);
      GoodRun(Apply(s, actions[0]), actions[1..]);
    }
  }

  /** Every reachable system is good. */
  lemma Reachable(actions: seq<Action>)
    ensures Good(Run(INIT, actions))
  {
    assert FateOf([], 0).Undialled?;
    GoodRun(INIT, actions);
  }

  /** A cached session belongs to a stored MountPoint that carries the finalizer; so once a MountPoint
      object has disappeared, no session is cached under its key. */
  lemma FinalizerGuardsSessions(actions: seq<Action>, nn: NsName)
    requires NoSlash(nn.ns)
    ensures var st := Run(INIT, actions).st;
      nn.Key() in st.sessions ==>
        && ObjKey(MountPoint, nn) in st.store
        && MOUNTPOINT_FINALIZER in st.store[ObjKey(MountPoint, nn)].finalizers
        && st.sessions[nn.Key()] < |st.dialled| && st.dialled[st.sessions[nn.Key()]].owner == nn
  {
    Reachable(actions);
    var st := Run(INIT, actions).st;
    if nn.Key() in st.sessions {
      assert EntryOk(st, nn.Key(), st.sessions[nn.Key()]);
      KeyInjective(nn, st.dialled[st.sessions[nn.Key()]].owner);
    }
  }

  /** Every RPC of a run went to the session that, at the lookup of its reconcile, was cached for the MountPoint
      its resource named in its own namespace, a session dialled for that MountPoint. */
  lemma RpcsStayHome(actions: seq<Action>, i: nat)
    requires i < |Run(INIT, actions).st.log| && Run(INIT, actions).st.log[i].Sent?
    ensures var st := Run(INIT, actions).st;
      var e := st.log[i];
      && SentHome(st, e) && e.since <= i && CachedThen(st.log, e.since, e.session, e.mountPoint.Key())
  {
    Reachable(actions);
    assert EntryLooked(Run(INIT, actions).st.log, i);
  }

  /** Each execution of a run is justified, link by link, back to one that depends on nothing. */
  lemma ExecutionsAreJustified(actions: seq<Action>, i: nat) returns (c: seq<nat>)
    requires var log := Run(INIT, actions).st.log; i < |log| && log[i].Sent? && Executes(log[i].who.kind)
    ensures JustifyingChain(Run(INIT, actions).st.log, c) && c[0] == i
  {
    Reachable(actions);
    c := EveryExecutionIsJustified(Run(INIT, actions).st.log, i);
  }

  /** A stored subscription id means the finalizer is there, or else a delete-subscription for it returned
      without error and only somebody else's finalizer still holds the object. So without foreign finalizers it
      is there; Deletion.StoredWithoutFinalizer says exactly when a clean-up leaves it without. */
  lemma StoredIdIsProtected(actions: seq<Action>, nn: NsName)
    requires ObjKey(EstablishSubscription, nn) in Run(INIT, actions).st.store
    ensures var st := Run(INIT, actions).st;
      var o := st.store[ObjKey(EstablishSubscription, nn)];
      o.status.subscriptionID != "" ==>
        && (SUBSCRIPTION_FINALIZER in o.finalizers
            || (o.deleting
                && Released(st.log, |st.log|, Who(EstablishSubscription, nn, o.uid), o.status.subscriptionID)))
        && ((forall f <- o.finalizers :: f == SUBSCRIPTION_FINALIZER) ==> SUBSCRIPTION_FINALIZER in o.finalizers)
  {
    Reachable(actions);
    var st := Run(INIT, actions).st;
    assert StoredSub(st, ObjKey(EstablishSubscription, nn));
    assert Storable(ObjKey(EstablishSubscription, nn), st.store[ObjKey(EstablishSubscription, nn)], st.nextUid);
  }

  /** An EstablishSubscription that had an id left the store only after it sent a delete-subscription for that
      id, on the session then cached for the MountPoint it named, and got a reply without error. The reply may
      still carry rpc-errors, and the MountPoint may be another one than the one that issued the id:
      Deletion.GoesUnsubscribed says exactly when the device has deleted the subscription. */
  lemma DeletedBeforeGone(actions: seq<Action>, i: nat) returns (j: nat)
    requires var log := Run(INIT, actions).st.log;
      i < |log| && log[i].Gone? && log[i].who.kind.EstablishSubscription? && log[i].subscriptionID != ""
    ensures var st := Run(INIT, actions).st;
      && j < i && st.log[j].Sent? && st.log[j].who == st.log[i].who
      && st.log[j].rpc == DeleteSubscriptionRpc(st.log[i].subscriptionID) && !st.log[j].reply.Err()
      && SentHome(st, st.log[j]) && st.log[j].since <= j
      && CachedThen(st.log, st.log[j].since, st.log[j].session, st.log[j].mountPoint.Key())
  {
    Reachable(actions);
    var st := Run(INIT, actions).st;
    assert GoneOk(st.log, i);
    j :| 0 <= j < i && st.log[j].Sent? && st.log[j].who == st.log[i].who
      && st.log[j].rpc == DeleteSubscriptionRpc(st.log[i].subscriptionID) && !st.log[j].reply.Err();
    assert EntryLooked(st.log, j);
  }

  /** The stored id of an EstablishSubscription is that of a registration of its own that is held or, once it is
      being deleted, was cleaned up. */
  lemma StoredIdWasRegistered(actions: seq<Action>, nn: NsName) returns (i: nat)
    requires var st := Run(INIT, actions).st;
      && ObjKey(EstablishSubscription, nn) in st.store
      && st.store[ObjKey(EstablishSubscription, nn)].status.subscriptionID != ""
    ensures var st := Run(INIT, actions).st;
      var o := st.store[ObjKey(EstablishSubscription, nn)];
      && OfStored(st.log, i, Who(EstablishSubscription, nn, o.uid), o.status.subscriptionID)
      && (!o.deleting ==> RegOf(st.log, i).Held?)
  {
    Reachable(actions);
    var st := Run(INIT, actions).st;
    var o := st.store[ObjKey(EstablishSubscription, nn)];
    assert ObjKept(st, ObjKey(EstablishSubscription, nn));
    i :| OfStored(st.log, i, Who(EstablishSubscription, nn, o.uid), o.status.subscriptionID);
    assert RegKept(st, i);
    if RegOf(st.log, i).Removed? {
      var u :| i < u < |st.log| && st.log[u].Unlistened? && st.log[u].who == st.log[i].who;
      assert EntryHeard(st, u);
    }
  }

  lemma LostRun(s: Sys, actions: seq<Action>, i: nat)
    requires Good(s) && Reg(Run(s, actions).st.log, i)
    ensures IsLost(Run(s, actions), i) <==> (Reg(s.st.log, i) && IsLost(s, i)) || LosesOn(s, actions, i)
    decreases |actions|
  {
    if actions != [] {
      var s1 := Apply(s, actions[0]);
      GoodKept(s, actions[0]);
      LostRun(s1, actions[1..], i);
      if Reg(s.st.log, i) {
        LosesIff(s, actions[0], i);
      } else if Reg(s1.st.log, i) {
        NewIsNotLost(s, actions[0], i);
      }
    }
  }

  /** Conservation of registrations: every id ever registered is in the hands of the reconcile that registered it,
      stored in its finalized object, superseded by a later one that was stored, cleaned up, empty and left behind,
      or lost; it is lost iff an action of the run ended its reconcile without the status being written; and a
      resource holds one at most. */
  lemma RegistrationsAreConserved(actions: seq<Action>, i: nat)
    requires Reg(Run(INIT, actions).st.log, i)
    ensures var s := Run(INIT, actions);
      && Accounted(s, i)
      && (IsLost(s, i) <==> LosesOn(INIT, actions, i))
      && (RegIs(s.st.log, i, Held) ==>
            forall j: nat | RegIs(s.st.log, j, Held) && s.st.log[j].who == s.st.log[i].who :: i == j)
  {
    Reachable([]);
    Reachable(actions);
    var s := Run(INIT, actions);
    AllAccounted(s, i);
    LostRun(INIT, actions, i);
    forall j: nat | RegIs(s.st.log, i, Held) && RegIs(s.st.log, j, Held) && s.st.log[j].who == s.st.log[i].who
      ensures i == j
    {
      OneHeld(s.st.log, i, j);
    }
  }

  /** What was superseded is never cleaned up: a later clean-up by its resource is of another registration. */
  lemma SupersededIsNotCleanedUp(actions: seq<Action>, i: nat, u: nat) returns (l: nat)
    requires var log := Run(INIT, actions).st.log;
      u < |log| && RegIs(log[..u], i, Replaced) && log[u].Unlistened? && log[u].who == log[i].who
    ensures var log := Run(INIT, actions).st.log; l != i && OfStored(log[..u], l, log[i].who, log[u].id)
  {
    Reachable(actions);
    var log := Run(INIT, actions).st.log;
    assert CleanUpOk(log, u);
    l :| OfStored(log[..u], l, log[u].who, log[u].id);
  }

  /** The object that sent or registered is stored and not being deleted. */
  predicate Alive(st: State, who: Who) {
    var key := ObjKey(who.kind, who.nn);
    key in st.store && st.store[key].uid == who.uid && !st.store[key].deleting
  }

  /** The session of a registration was the one cached, at its lookup, for the MountPoint named, and it is the one
      cached now iff the entry was not touched since. */
  ghost predicate OnItsSession(st: State, e: Event)
    requires e.Listened?
  {
    && CachedThen(st.log, e.since, e.session, e.key)
    && (CacheIs(st, e.key, e.session) <==> !TouchedSince(st.log, e.since, e.key))
  }

  lemma SessionOfRegistration(s: Sys, i: nat)
    requires Good(s) && i < |s.st.log| && s.st.log[i].Listened?
    ensures OnItsSession(s.st, s.st.log[i])
  {
    var e := s.st.log[i];
    assert ListenedOk(s.st, e) && EntryLooked(s.st.log, i);
    if CacheIs(s.st, e.key, e.session) {
      assert FateOf(s.st.log, s.st.sessions[e.key]) == Cached(e.key);
      CachedUntouched(s.st.log, e.since, e.session, e.key);
    }
  }

  /** While no session issues an id that is still registered on it, the listener registered by an
      EstablishSubscription that is not being deleted is there, its own, iff no clean-up took it away since; and
      any that did was a stray one, of another resource cleaning up a listener not, or no longer, its own. */
  lemma SubscriptionsAreOwned(actions: seq<Action>, i: nat)
    requires var st := Run(INIT, actions).st;
      NoReissue(st.log) && i < |st.log| && st.log[i].Listened? && Alive(st, st.log[i].who)
    ensures var st := Run(INIT, actions).st;
      && OnItsSession(st, st.log[i])
      && (Current(st.log, i) <==> forall j :: i < j < |st.log| ==> !Hits(st.log, i, j))
      && (Current(st.log, i) ==> st.log[i].id in ListenersOf(st.dialled, st.log[i].session))
      && (forall j :: i < j < |st.log| && Hits(st.log, i, j) ==> Stray(st.log, j) && st.log[j].who != st.log[i].who)
  {
    Reachable(actions);
    var st := Run(INIT, actions).st;
    SessionOfRegistration(Run(INIT, actions), i);
    RegisteredIff(st, i);
    forall j | i < j < |st.log| && Hits(st.log, i, j)
      ensures Stray(st.log, j) && st.log[j].who != st.log[i].who
    {
      OnlyStraysHit(st, i, j);
    }
  }

  /** A clean-up starts where its resource's own listener is iff the resource still names the MountPoint it
      registered under, the cache entry of that MountPoint was not touched since, and what it registered was not
      taken away: not moved, not reconnected, not cleaned up before. */
  lemma StartsHomeIff(s: Sys)
    requires Good(s) && EstablishSubscription in s.workers
    requires TargetOf(s.workers[EstablishSubscription]).Key() in s.st.sessions
    ensures var w, log := s.workers[EstablishSubscription], s.st.log;
      StartsHome(s) <==>
      exists l: nat :: Current(log, l)
                       && ListenedAs(log[l], WhoIs(EstablishSubscription, w), w.obj.status.subscriptionID)
                       && log[l].key == TargetOf(w).Key() && !TouchedSince(log, log[l].since, log[l].key)
  {
    var w, log := s.workers[EstablishSubscription], s.st.log;
    var who, id, key := WhoIs(EstablishSubscription, w), w.obj.status.subscriptionID, TargetOf(w).Key();
    assert EntryOk(s.st, key, s.st.sessions[key]);
    if StartsHome(s) {
      var l: nat :| Current(log, l) && ListenedAs(log[l], who, id) && log[l].session == s.st.sessions[key];
      assert EntryHeard(s.st, l);
      SessionOfRegistration(s, l);
    }
    if l: nat :| Current(log, l) && ListenedAs(log[l], who, id)
                 && log[l].key == key && !TouchedSince(log, log[l].since, log[l].key) {
      SessionOfRegistration(s, l);
    }
  }

  lemma PlacedRun(s: Sys, actions: seq<Action>)
    requires Good(s) && Placed(s) && Settled(s, actions)
    ensures Placed(Run(s, actions))
    decreases |actions|
  {
    if actions != [] {
      GoodKept(s, actions[0]);
      PlacedKept(s, actions[0]);
      PlacedRun(Apply(s, actions[0]), actions[1..]);
    }
  }

  lemma PlacedIsRegistered(s: Sys, i: nat)
    requires Good(s) && Placed(s) && NoReissue(s.st.log)
    requires i < |s.st.log| && s.st.log[i].Listened? && Alive(s.st, s.st.log[i].who)
    ensures Current(s.st.log, i) && s.st.log[i].id in ListenersOf(s.st.dialled, s.st.log[i].session)
  {
    RegisteredIff(s.st, i);
    forall j | i < j < |s.st.log|
      ensures !Hits(s.st.log, i, j)
    {
      assert EntryPlaced(s.st.log, j);
      if Hits(s.st.log, i, j) { OnlyStraysHit(s.st, i, j); }
    }
  }

  /** In any run in which every clean-up starts where its resource's own listener is, while no session issues an id
      that is still registered on it, every listener registered by an EstablishSubscription that is not being
      deleted is there, its own, on the session cached now iff that cache entry was not touched since. */
  lemma SettledSubscriptionsAreRegistered(actions: seq<Action>, i: nat)
    requires Settled(INIT, actions)
    requires var st := Run(INIT, actions).st;
      NoReissue(st.log) && i < |st.log| && st.log[i].Listened? && Alive(st, st.log[i].who)
    ensures var st := Run(INIT, actions).st;
      && Current(st.log, i) && st.log[i].id in ListenersOf(st.dialled, st.log[i].session)
      && OnItsSession(st, st.log[i])
  {
    Reachable([]);
    PlacedRun(INIT, actions);
    Reachable(actions);
    PlacedIsRegistered(Run(INIT, actions), i);
    SessionOfRegistration(Run(INIT, actions), i);
  }

  /** And in such a run the delete-subscription sent before a resource went was sent on the session that had issued
      the id to it. */
  lemma SettledDeletesReachTheIssuer(actions: seq<Action>, i: nat) returns (j: nat, l: nat)
    requires Settled(INIT, actions)
    requires var log := Run(INIT, actions).st.log;
      i < |log| && log[i].Gone? && log[i].who.kind.EstablishSubscription? && log[i].subscriptionID != ""
    ensures var log := Run(INIT, actions).st.log;
      && l < j < i && log[j].Sent? && log[j].who == log[i].who
      && log[j].rpc == DeleteSubscriptionRpc(log[i].subscriptionID) && !log[j].reply.Err()
      && ListenedAs(log[l], log[i].who, log[i].subscriptionID) && log[l].session == log[j].session
  {
    Reachable([]);
    PlacedRun(INIT, actions);
    j := DeletedBeforeGone(actions, i);
    var log := Run(INIT, actions).st.log;
    assert EntryPlaced(log, j);
    l :| 0 <= l < j && ListenedAs(log[..j][l], log[i].who, log[i].subscriptionID)
         && log[..j][l].session == log[j].session;
  }

  /** Conservation: every session ever dialled is cached, in the hands of the connecting reconcile, superseded,
      handed to a clean-up, abandoned on a failed hello, or lost with a process that ended; and without a
      restart none is lost. */
  lemma SessionsAreConserved(actions: seq<Action>)
    ensures var s := Run(INIT, actions);
      var n, log := |s.st.dialled|, s.st.log;
      && n == |s.st.sessions| + Count(log, n, Superseded) + Count(log, n, CleanedUp) + Count(log, n, Abandoned)
              + Count(log, n, Lost)
              + (if MountPoint in s.workers && (s.workers[MountPoint].pc.Hello? || s.workers[MountPoint].pc.Install?)
                 then 1 else 0)
      && (forall a, b :: a in s.st.sessions && b in s.st.sessions && s.st.sessions[a] == s.st.sessions[b] ==> a == b)
      && ((forall i :: 0 <= i < |log| ==> !log[i].Restarted?) ==> Count(log, n, Lost) == 0)
  {
    Reachable(actions);
    var s := Run(INIT, actions);
    SessionConservation(s);
    forall a, b | a in s.st.sessions && b in s.st.sessions && s.st.sessions[a] == s.st.sessions[b]
      ensures a == b
    {
      OneKeyPerSession(s.st, a, b);
    }
    if forall i :: 0 <= i < |s.st.log| ==> !s.st.log[i].Restarted? {
      forall t: nat | t < |s.st.dialled|
        ensures !SameSort(FateOf(s.st.log, t), Lost)
      {
        NotLost(s.st.log, t);
      }
      CountNone(s.st.log, |s.st.dialled|, Lost);
    }
  }

  /** Before a session left the cache its MountPoint closed it, and killed it, once, iff the close got no reply, an
      error or rpc-errors; in between it said nothing else. */
  lemma SessionsAreClosed(actions: seq<Action>, i: nat) returns (who: Who, j: nat)
    requires var log := Run(INIT, actions).st.log; i < |log| && log[i].Forgotten?
    ensures var log := Run(INIT, actions).st.log;
      && who.kind == MountPoint && who.nn.Key() == log[i].key
      && j < i && log[j].Sent? && log[j].who == who && log[j].session == log[i].session
      && log[j].rpc == CloseSessionRpc
      && var close := log[j].reply;
         if close.Reply? && !close.err && !close.errors then forall m :: j < m < i && log[m].Sent? ==> log[m].who != who
         else
           exists k :: j < k < i && log[k].Sent? && log[k].who == who && log[k].session == log[i].session
                       && log[k].rpc == KillSessionRpc
                       && forall m :: j < m < i && m != k && log[m].Sent? ==> log[m].who != who
  {
    Reachable(actions);
    var log := Run(INIT, actions).st.log;
    assert EntrySaid(log, i);
    var before, session := log[..i], log[i].session;
    who, j :| Owns(who, log[i].key) && ClosedAt(before, j, who, session);
    if !AnsweredWell(before[j]) {
      var k: nat :| j < k < i && Said(before[k], who, session, KillSessionRpc)
                    && SilentSince(before[..k], j, who) && SilentSince(before, k, who);
      forall m | j < m < i && m != k && log[m].Sent?
        ensures log[m].who != who
      {
        if m < k { assert before[..k][m] == log[m]; } else { assert before[m] == log[m]; }
      }
      assert log[k] == before[k];
    } else {
      assert forall m :: j < m < i ==> before[m] == log[m];
    }
  }

  /** A listener is registered only for the id in a reply, with neither an error nor rpc-errors, to the
      establish-subscription its resource sent last, on that session. */
  lemma ListenersWereGranted(actions: seq<Action>, i: nat) returns (j: nat)
    requires var log := Run(INIT, actions).st.log; i < |log| && log[i].Listened?
    ensures var log := Run(INIT, actions).st.log;
      && j < i && log[j].Sent? && log[j].who == log[i].who && log[j].session == log[i].session
      && log[j].rpc.EstablishSubscriptionRpc?
      && log[j].reply.Reply? && !log[j].reply.err && !log[j].reply.errors && log[j].reply.subscriptionID == log[i].id
      && forall m :: j < m < i && log[m].Sent? ==> log[m].who != log[i].who
  {
    Reachable(actions);
    var log := Run(INIT, actions).st.log;
    assert EntrySaid(log, i);
    j :| SubscribedAt(log[..i], j, log[i].who, log[i].session, log[i].id);
    assert forall m :: j < m < i ==> log[..i][m] == log[m];
  }

  /** A subscription is deleted only after its resource removed the listener of that id from that session. */
  lemma DeletedAfterUnlistening(actions: seq<Action>, i: nat) returns (j: nat)
    requires var log := Run(INIT, actions).st.log; i < |log| && log[i].Sent? && log[i].rpc.DeleteSubscriptionRpc?
    ensures var log := Run(INIT, actions).st.log;
      && j < i && log[j].Unlistened? && log[j].who == log[i].who && log[j].session == log[i].session
      && log[j].id == log[i].rpc.id && log[i].who.kind == EstablishSubscription
      && forall m :: j < m < i && log[m].Sent? ==> log[m].who != log[i].who
  {
    Reachable(actions);
    var log := Run(INIT, actions).st.log;
    assert EntrySaid(log, i);
    j :| UnlistenedAt(log[..i], j, log[i].who, log[i].session, log[i].rpc.id);
    assert forall m :: j < m < i ==> log[..i][m] == log[m];
  }

  /** In any run, a reconcile that passed its session check finds no session at its lookup only if a clean-up
      of that very MountPoint ran in between. */
  lemma NilLookupsRaced(actions: seq<Action>, kind: Kind, c: Choice)
    requires var s := Run(INIT, actions);
      && kind in s.workers && s.workers[kind].pc.Lookup?
      && StepWorker(s.st, kind, s.workers[kind], c).1 == Panic(NilSession)
    ensures var s := Run(INIT, actions);
      CleanedSince(s.st.log, s.workers[kind].seen, TargetOf(s.workers[kind]).Key())
  {
    Reachable(actions);
    NilLookupNeedsCleanUp(Run(INIT, actions), kind, c);
  }

  /** In any run, what a Lock, Commit, Unlock or EstablishSubscription stores as its status is what the reply to its
      latest persisted execution was: `success`, or `subscribed`, iff it had neither an error nor rpc-errors, and
      empty iff there was none. An EditConfig is never `failed`, and `success` only after some reply to its last
      RPC. */
  lemma StoredStatusIsHonest(actions: seq<Action>, key: ObjKey) returns (i: nat)
    requires key in Run(INIT, actions).st.store && !key.kind.MountPoint?
    ensures var st := Run(INIT, actions).st;
      var who, status := Who(key.kind, key.nn, st.store[key].uid), st.store[key].status.status;
      var done := if key.kind.EstablishSubscription? then "subscribed" else "success";
      && (status == "" || status == done || (status == "failed" && !key.kind.EditConfig?))
      && (status == "" <==> LastRan(st.log, who).None?)
      && (status != "" ==>
            && i < |st.log| && st.log[i].StatusWritten? && st.log[i].who == who && st.log[i].ran.Some?
            && (forall j :: i < j < |st.log| && st.log[j].StatusWritten? && st.log[j].who == who ==>
                              st.log[j].ran.None?)
            && LastReply(st.log[..i], who).Some?
            && var reply := LastReply(st.log[..i], who).value;
               if key.kind.EditConfig? then reply.Reply?
               else status == done <==> reply.Reply? && !reply.err && !reply.errors)
  {
    Reachable(actions);
    i := StoredStatusIsTrue(Run(INIT, actions), key);
  }
}
