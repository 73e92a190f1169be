/** Deletion over whole runs of the step machine: clean-ups end under any interleaving, and without a session
    an EstablishSubscription never goes. */
module DeletionRuns {
  import opened Api
  import opened Operator
  import opened Invariants
  import opened SessionCache
  import opened Safety
  import opened Deletion

  // ----- MountPoints -----

  /** A connection on its way to the cache, or a session that left it and is not hung up yet. */
  predicate Busy(s: Sys, nn: NsName) {
    && MountPoint in s.workers && s.workers[MountPoint].nn == nn
    && var w := s.workers[MountPoint];
       w.pc.Dial? || w.pc.Hello? || w.pc.Install? || w.pc.HangUp? || (w.pc.Initialize? && !w.base.deleting)
  }

  /** What is left to do for a MountPoint being deleted: a session cached, coming or going, then the finalizer. */
  function RunRank(s: Sys, nn: NsName, uid: nat): nat {
    if !Pending(s.st, ObjKey(MountPoint, nn), uid) then 0
    else if nn.Key() in s.st.sessions || Busy(s, nn) then 2
    else 1
  }

  /** A clean-up comes to its end without a store write failing: the session could not be hung up, or the
      finalizer was removed. */
  predicate Concludes(s: Sys, a: Action, nn: NsName, uid: nat) {
    && a.Step? && a.worker.MountPoint? && MountPoint in s.workers
    && var w := s.workers[MountPoint];
       w.nn == nn && w.base.uid == uid
       && ((w.pc.HangUp? && !a.choice.ok) || (w.pc.Release? && Writable(s.st, MountPoint, w, a.choice)))
  }

  function Concluded(s: Sys, actions: seq<Action>, nn: NsName, uid: nat): nat
    decreases |actions|
  {
    if actions == [] then 0
    else (if Concludes(s, actions[0], nn, uid) then 1 else 0) + Concluded(Apply(s, actions[0]), actions[1..], nn, uid)
  }

  lemma CleanUpGoesOn(st: State, w: Worker, c: Choice)
    requires Fits(MountPoint, w) && MountPointOk(st, w)
    requires w.base.deleting && Finalized(MountPoint, w.base) && !w.pc.Report?
    ensures var p := StepWorker(st, MountPoint, w, c).1;
      || (p.Go? && !p.next.pc.Report?)
      || (w.pc.HangUp? && !c.ok)
      || w.pc.Release?
  {
    match w.pc
    case Initialize =>
    case Lookup =>
    case Send(_, _) =>
    case Forget(_) =>
    case HangUp(_) =>
    case Release =>
  }

  /** In any run, unless a store write fails, a clean-up goes on until it concludes. */
  lemma CleanUpConcludes(s: Sys, c: Choice)
    requires Good(s) && MountPoint in s.workers
    requires var w := s.workers[MountPoint]; w.base.deleting && Finalized(MountPoint, w.base) && !w.pc.Report?
    ensures var w := s.workers[MountPoint];
      var p := StepWorker(s.st, MountPoint, w, c).1;
      || (p.Go? && !p.next.pc.Report?)
      || Concludes(s, Step(MountPoint, c), w.nn, w.base.uid)
      || (w.pc.Release? && !Writable(s.st, MountPoint, w, c))
  {
    var w := s.workers[MountPoint];
    assert WorkerOk(s.st, MountPoint, w) && HandOk(s.st, MountPoint, w);
    CleanUpGoesOn(s.st, w, c);
  }

  /** A step of the MountPoint controller on that very name. */
  lemma RankOwnStep(s: Sys, c: Choice, nn: NsName, uid: nat)
    requires Shape(s) && Cache(s) && MountPoint in s.workers && s.workers[MountPoint].nn == nn
    requires Doomed(s.st, nn, uid)
    ensures var s', a := Advance(s, MountPoint, c), Step(MountPoint, c);
      && Doomed(s'.st, nn, uid)
      && RunRank(s', nn, uid) <= RunRank(s, nn, uid) - (if Concludes(s, a, nn, uid) then 1 else 0)
  {
    var w := s.workers[MountPoint];
    assert WorkerOk(s.st, MountPoint, w) && HandOk(s.st, MountPoint, w);
    var key := ObjKey(MountPoint, nn);
    var (st, p) := StepWorker(s.st, MountPoint, w, c);
    StepAges(s.st, MountPoint, w, c);
    OwnOutcome(s.st, w, c);
    if Pending(st, key, uid) {
      assert Aged(Find(s.st, key), Find(st, key), MountPoint);
      assert Pending(s.st, key, uid);
    }
  }

  /** What a step does to the session under the reconcile's own key and to its being busy. */
  lemma OwnOutcome(st: State, w: Worker, c: Choice)
    requires WorkerOk(st, MountPoint, w) && HandOk(st, MountPoint, w)
    ensures var (st', p) := StepWorker(st, MountPoint, w, c);
      && (p.Go? && (p.next.pc.Dial? || p.next.pc.Hello? || p.next.pc.Install? || p.next.pc.HangUp?) ==>
            w.pc.Dial? || w.pc.Hello? || (w.pc.Initialize? && !w.base.deleting) || w.pc.Forget?)
      && (p.Go? ==> !p.next.pc.Initialize? && p.next.nn == w.nn)
      && (w.nn.Key() in st'.sessions ==> w.nn.Key() in st.sessions || w.pc.Install?)
      && (w.pc.HangUp? || w.pc.Release? ==> w.nn.Key() !in st.sessions && st'.sessions == st.sessions)
      && (w.pc.Forget? ==> w.nn.Key() in st.sessions)
      && (w.pc.HangUp? || w.pc.Release? ==> Pending(st, ObjKey(MountPoint, w.nn), w.base.uid))
      && (w.pc.Release? && Writable(st, MountPoint, w, c) ==> !Pending(st', ObjKey(MountPoint, w.nn), w.base.uid))
  {
    match w.pc
    case Initialize =>
    case Release =>
    case Report(_) =>
    case Send(_, todo) =>
    case Dial =>
    case Hello(_) =>
    case Install(_) =>
    case Forget(_) =>
    case HangUp(_) =>
    case Lookup =>
    case _ =>
  }

  /** A step of another controller, or of the same one on another name. */
  lemma RankOtherStep(s: Sys, kind: Kind, c: Choice, nn: NsName, uid: nat)
    requires Shape(s) && kind in s.workers && NoSlash(nn.ns) && (kind.MountPoint? ==> s.workers[kind].nn != nn)
    requires Doomed(s.st, nn, uid)
    ensures var s' := Advance(s, kind, c); Doomed(s'.st, nn, uid) && RunRank(s', nn, uid) <= RunRank(s, nn, uid)
  {
    var w := s.workers[kind];
    assert WorkerOk(s.st, kind, w);
    StepTracks(s.st, kind, w, c);
    if kind.MountPoint? && w.nn.Key() == nn.Key() { KeyInjective(w.nn, nn); }
    StepSessionsAt(s.st, kind, w, c, nn.Key());
    var (st, p) := StepWorker(s.st, kind, w, c);
    assert Find(st, ObjKey(MountPoint, nn)) == Find(s.st, ObjKey(MountPoint, nn));
    GoFits(s.st, kind, w, c);
  }

  lemma RankUser(s: Sys, a: Action, nn: NsName, uid: nat)
    requires ByUser(a) && Doomed(s.st, nn, uid)
    ensures var s' := Apply(s, a); Doomed(s'.st, nn, uid) && RunRank(s', nn, uid) <= RunRank(s, nn, uid)
  {
    UserFrame(s, a);
    var s' := Apply(s, a);
    assert ObjKey(MountPoint, nn) in s'.st.store ==> UserKept(s.st, s'.st, ObjKey(MountPoint, nn));
  }

  lemma RankKept(s: Sys, a: Action, nn: NsName, uid: nat)
    requires Good(s) && NoSlash(nn.ns) && Doomed(s.st, nn, uid)
    ensures var s' := Apply(s, a);
      && Doomed(s'.st, nn, uid)
      && RunRank(s', nn, uid) <= RunRank(s, nn, uid) - (if Concludes(s, a, nn, uid) then 1 else 0)
  {
    match a
    case Begin(kind, name) =>
    case Step(kind, c) =>
      if kind in s.workers {
        if kind.MountPoint? && s.workers[kind].nn == nn {
          RankOwnStep(s, c, nn, uid);
        } else {
          RankOtherStep(s, kind, c, nn, uid);
        }
      }
    case Crash =>
    case _ => RankUser(s, a, nn, uid);
  }

  /** Deletion terminates under any interleaving: from any good system, with a connection possibly in flight,
      no action of anybody increases the rank of a MountPoint marked deleted, and each of its clean-ups that
      comes to its end without a failed store write lowers it. So at most two of them do, and after as many as
      the rank says the finalizer is gone for good. */
  lemma {:induction false} DeletionEnds(s: Sys, actions: seq<Action>, nn: NsName, uid: nat)
    requires Good(s) && NoSlash(nn.ns) && Doomed(s.st, nn, uid)
    ensures var s' := Run(s, actions);
      && Doomed(s'.st, nn, uid) && RunRank(s, nn, uid) <= 2
      && RunRank(s', nn, uid) + Concluded(s, actions, nn, uid) <= RunRank(s, nn, uid)
      && (Concluded(s, actions, nn, uid) == RunRank(s, nn, uid) ==> !Pending(s'.st, ObjKey(MountPoint, nn), uid))
    decreases |actions|
  {
    if actions != [] {
      GoodKept(s, actions[0]);
      RankKept(s, actions[0], nn, uid);
      DeletionEnds(Apply(s, actions[0]), actions[1..], nn, uid);
    }
  }

  // ----- EstablishSubscriptions -----

  /** The object is stored and finalized and names `mp`, and no reconcile of it is past the session check. */
  predicate Waits(s: Sys, nn: NsName, uid: nat, mp: NsName) {
    var key := ObjKey(EstablishSubscription, nn);
    && key in s.st.store && s.st.store[key].uid == uid && Finalized(EstablishSubscription, s.st.store[key])
    && s.st.store[key].spec.MountPointOf(nn) == mp
    && (EstablishSubscription in s.workers && s.workers[EstablishSubscription].nn == nn
        && s.workers[EstablishSubscription].base.uid == uid ==>
          var w := s.workers[EstablishSubscription];
          TargetOf(w) == mp && (w.pc.CheckMountPoint? || w.pc.CheckSession? || w.pc.Report?))
  }

  predicate KeepsMountPoint(a: Action, nn: NsName, mp: NsName) {
    a.EditSpec? && a.key == ObjKey(EstablishSubscription, nn) && a.spec.EstablishSubscriptionSpec? ==>
      a.spec.MountPointOf(nn) == mp
  }

  /** All along the run no session is cached for `mp`, and the object `nn` keeps naming it. */
  predicate Disconnected(s: Sys, actions: seq<Action>, nn: NsName, mp: NsName)
    decreases |actions|
  {
    && mp.Key() !in s.st.sessions
    && (actions == [] ||
        (KeepsMountPoint(actions[0], nn, mp) && Disconnected(Apply(s, actions[0]), actions[1..], nn, mp)))
  }

  lemma WaitsStep(s: Sys, kind: Kind, c: Choice, nn: NsName, uid: nat, mp: NsName)
    requires Shape(s) && kind in s.workers && Waits(s, nn, uid, mp) && mp.Key() !in s.st.sessions
    ensures Waits(Advance(s, kind, c), nn, uid, mp)
  {
    var w, key := s.workers[kind], ObjKey(EstablishSubscription, nn);
    assert WorkerOk(s.st, kind, w);
    StepTracks(s.st, kind, w, c);
    GoFits(s.st, kind, w, c);
    var (st, p) := StepWorker(s.st, kind, w, c);
    if ObjKey(kind, w.nn) != key {
      assert Find(st, key) == Find(s.st, key);
      WaitsOther(s, kind, st, p, nn, uid, mp);
    } else {
      WaitsOwn(s.st, w, c, uid, mp);
    }
  }

  lemma WaitsOther(s: Sys, kind: Kind, st: State, p: Progress, nn: NsName, uid: nat, mp: NsName)
    requires Waits(s, nn, uid, mp) && kind in s.workers
    requires var key := ObjKey(EstablishSubscription, nn);
      ObjKey(kind, s.workers[kind].nn) != key && Find(st, key) == Find(s.st, key)
    requires p.Go? ==> p.next.nn == s.workers[kind].nn
    ensures Waits(After(s, kind, st, p), nn, uid, mp)
  {
  }

  lemma WaitsOwn(st: State, w: Worker, c: Choice, uid: nat, mp: NsName)
    requires WorkerOk(st, EstablishSubscription, w) && mp.Key() !in st.sessions
    requires var key := ObjKey(EstablishSubscription, w.nn);
      && key in st.store && st.store[key].uid == uid && Finalized(EstablishSubscription, st.store[key])
      && st.store[key].spec.MountPointOf(w.nn) == mp
    requires w.base.uid == uid ==> TargetOf(w) == mp && (w.pc.CheckMountPoint? || w.pc.CheckSession? || w.pc.Report?)
    ensures var (st', p), key := StepWorker(st, EstablishSubscription, w, c), ObjKey(EstablishSubscription, w.nn);
      && key in st'.store && st'.store[key].uid == uid && Finalized(EstablishSubscription, st'.store[key])
      && st'.store[key].spec.MountPointOf(w.nn) == mp
      && (p.Go? && w.base.uid == uid ==> TargetOf(p.next) == mp && (p.next.pc.CheckSession? || p.next.pc.Report?))
  {
    if w.pc.Initialize? || w.pc.Release? || w.pc.Report? {
      WriteStep(st, EstablishSubscription, w, c);
    } else {
      ReadStep(st, EstablishSubscription, w, c);
    }
  }

  lemma WaitsUser(s: Sys, a: Action, nn: NsName, uid: nat, mp: NsName)
    requires ByUser(a) && Waits(s, nn, uid, mp) && StoreOk(s.st) && KeepsMountPoint(a, nn, mp)
    ensures Waits(Apply(s, a), nn, uid, mp)
  {
    var key := ObjKey(EstablishSubscription, nn);
    assert Storable(key, s.st.store[key], s.st.nextUid);
    match a
    case Create(_, _, _) =>
    case EditSpec(_, _) =>
    case Delete(_) =>
    case Hold(_, _) =>
    case Unhold(_, _) =>
  }

  lemma WaitsKept(s: Sys, a: Action, nn: NsName, uid: nat, mp: NsName)
    requires Shape(s) && Waits(s, nn, uid, mp) && mp.Key() !in s.st.sessions && KeepsMountPoint(a, nn, mp)
    ensures Waits(Apply(s, a), nn, uid, mp)
  {
    match a
    case Begin(_, _) =>
    case Step(kind, c) => if kind in s.workers { WaitsStep(s, kind, c, nn, uid, mp); }
    case Crash =>
    case _ => WaitsUser(s, a, nn, uid, mp);
  }

  /** Without a session for its MountPoint, deleted, failed to connect or never there, an EstablishSubscription
      keeps its finalizer for as long as that lasts, whatever else happens: it cannot be deleted. */
  lemma {:induction false} DisconnectedKeepsFinalizer(s: Sys, actions: seq<Action>, nn: NsName, uid: nat, mp: NsName)
    requires Good(s) && Waits(s, nn, uid, mp) && Disconnected(s, actions, nn, mp)
    ensures var key, st := ObjKey(EstablishSubscription, nn), Run(s, actions).st;
      key in st.store && st.store[key].uid == uid && Finalized(EstablishSubscription, st.store[key])
    decreases |actions|
  {
    if actions != [] {
      GoodKept(s, actions[0]);
      WaitsKept(s, actions[0], nn, uid, mp);
      DisconnectedKeepsFinalizer(Apply(s, actions[0]), actions[1..], nn, uid, mp);
    }
  }

  /** All along the run `mp` is not stored, and the object `nn` keeps naming it. */
  predicate Absent(s: Sys, actions: seq<Action>, nn: NsName, mp: NsName)
    decreases |actions|
  {
    && ObjKey(MountPoint, mp) !in s.st.store
    && (actions == [] ||
        (KeepsMountPoint(actions[0], nn, mp) && Absent(Apply(s, actions[0]), actions[1..], nn, mp)))
  }

  /** A MountPoint that is not stored has no session. */
  lemma {:induction false} AbsentIsDisconnected(s: Sys, actions: seq<Action>, nn: NsName, mp: NsName)
    requires Good(s) && NoSlash(mp.ns) && Absent(s, actions, nn, mp)
    ensures Disconnected(s, actions, nn, mp)
    decreases |actions|
  {
    if mp.Key() in s.st.sessions {
      assert EntryOk(s.st, mp.Key(), s.st.sessions[mp.Key()]);
      KeyInjective(mp, s.st.dialled[s.st.sessions[mp.Key()]].owner);
    }
    if actions != [] {
      GoodKept(s, actions[0]);
      AbsentIsDisconnected(Apply(s, actions[0]), actions[1..], nn, mp);
    }
  }

  /** So an EstablishSubscription whose MountPoint is gone keeps its finalizer for as long as it stays gone. */
  lemma AbsentKeepsFinalizer(s: Sys, actions: seq<Action>, nn: NsName, uid: nat, mp: NsName)
    requires Good(s) && Waits(s, nn, uid, mp) && NoSlash(mp.ns) && Absent(s, actions, nn, mp)
    ensures var key, st := ObjKey(EstablishSubscription, nn), Run(s, actions).st;
      key in st.store && st.store[key].uid == uid && Finalized(EstablishSubscription, st.store[key])
  {
    AbsentIsDisconnected(s, actions, nn, mp);
    DisconnectedKeepsFinalizer(s, actions, nn, uid, mp);
  }
}
