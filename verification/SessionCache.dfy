/** The session cache under interleaving: every cached session belongs to a stored MountPoint that
    carries its finalizer, and every RPC goes to a session dialled for the MountPoint its resource names. */
module SessionCache {
  import opened Api
  import opened Operator
  import opened Invariants

  predicate Guarded(st: State, owner: NsName) {
    ObjKey(MountPoint, owner) in st.store && Finalized(MountPoint, st.store[ObjKey(MountPoint, owner)])
  }

  predicate EntryOk(st: State, key: string, session: nat) {
    && session < |st.dialled|
    && var owner := st.dialled[session].owner;
       owner.Key() == key && NoSlash(owner.ns) && Guarded(st, owner)
  }

  ghost predicate CacheOk(st: State) {
    forall key <- st.sessions :: EntryOk(st, key, st.sessions[key])
  }

  /** The session a reconcile has in hand. */
  function Held(w: Worker): Option<nat> {
    match w.pc
    case Unlisten(s) => Some(s)
    case Send(s, _) => Some(s)
    case Listen(s, _) => Some(s)
    case Hello(s) => Some(s)
    case Install(s) => Some(s)
    case Forget(s) => Some(s)
    case HangUp(s) => Some(s)
    case _ => None
  }

  predicate HoldsOwn(st: State, w: Worker) {
    Held(w).Some? ==> Held(w).value < |st.dialled| && st.dialled[Held(w).value].owner == TargetOf(w)
  }

  /** The MountPoint controller is the only writer of the cache, so it knows the entry it works on; and what it
      still has to send is close-session and kill-session, or just the latter. */
  predicate MountPointOk(st: State, w: Worker) {
    && (w.pc.Send? ==> w.pc.todo == [CloseSessionRpc, KillSessionRpc] || w.pc.todo == [KillSessionRpc])
    && (w.pc.Send? || w.pc.Forget? ==> w.nn.Key() in st.sessions && Held(w) == Some(st.sessions[w.nn.Key()]))
    && (w.pc.HangUp? || w.pc.Release? ==> w.nn.Key() !in st.sessions)
  }

  predicate HandOk(st: State, kind: Kind, w: Worker) {
    HoldsOwn(st, w) && (kind.MountPoint? ==> MountPointOk(st, w))
  }

  ghost predicate Cache(s: Sys) {
    CacheOk(s.st) && forall k <- s.workers :: HandOk(s.st, k, s.workers[k])
  }

  // ----- frames -----

  predicate Grows(d: seq<Session>, d': seq<Session>) {
    |d| <= |d'| && forall i :: 0 <= i < |d| ==> d'[i].owner == d[i].owner
  }

  lemma SameDialled(st: State, kind: Kind, w: Worker, c: Choice)
    requires !w.pc.Unlisten? && !w.pc.Listen? && !w.pc.Dial? && !w.pc.HangUp?
    ensures StepWorker(st, kind, w, c).0.dialled == st.dialled
  {
    match w.pc
    case Initialize =>
    case Release =>
    case Report(_) =>
    case Send(_, _) =>
    case Hello(_) =>
    case Install(_) =>
    case Forget(_) =>
    case _ => LookStep(st, kind, w, c);
  }

  lemma SetListenersGrows(dialled: seq<Session>, s: nat, listeners: set<string>)
    ensures Grows(dialled, SetListeners(dialled, s, listeners))
  {
  }

  lemma StepGrows(st: State, kind: Kind, w: Worker, c: Choice)
    ensures Grows(st.dialled, StepWorker(st, kind, w, c).0.dialled)
  {
    match w.pc
    case Unlisten(s) => SetListenersGrows(st.dialled, s, ListenersOf(st.dialled, s) - {w.obj.status.subscriptionID});
    case Listen(s, id) => SetListenersGrows(st.dialled, s, ListenersOf(st.dialled, s) + {id});
    case HangUp(s) => SetListenersGrows(st.dialled, s, ListenersOf(st.dialled, s) - {STREAM_HANDLER});
    case Dial => DialGrows(st, kind, w, c);
    case _ => SameDialled(st, kind, w, c);
  }

  lemma DialGrows(st: State, kind: Kind, w: Worker, c: Choice)
    requires w.pc.Dial?
    ensures Grows(st.dialled, StepWorker(st, kind, w, c).0.dialled)
  {
  }

  lemma StepSessions(st: State, kind: Kind, w: Worker, c: Choice)
    requires Fits(kind, w)
    ensures !kind.MountPoint? ==> StepWorker(st, kind, w, c).0.sessions == st.sessions
  {
  }

  lemma EntryKept(st: State, st': State, key: string, session: nat)
    requires EntryOk(st, key, session) && Grows(st.dialled, st'.dialled)
    requires Guarded(st', st.dialled[session].owner)
    ensures EntryOk(st', key, session)
  {
  }

  lemma GuardKept(s: Sys, kind: Kind, c: Choice, owner: NsName)
    requires Shape(s) && Cache(s) && kind in s.workers && Guarded(s.st, owner)
    requires owner.Key() in s.st.sessions
    ensures Guarded(StepWorker(s.st, kind, s.workers[kind], c).0, owner)
  {
    var w := s.workers[kind];
    var st' := StepWorker(s.st, kind, w, c).0;
    var key := ObjKey(MountPoint, owner);
    assert Find(s.st, key).Some?;
    if w.pc.Initialize? || w.pc.Release? || w.pc.Report? {
      WriteStep(s.st, kind, w, c);
      if ObjKey(kind, w.nn) != key {
        assert Find(st', key) == Find(s.st, key);
      }
    } else {
      ReadStep(s.st, kind, w, c);
    }
  }

  /** Looking a session up: the key is the one of the MountPoint named, so the owner is that MountPoint. */
  lemma LookupOwner(st: State, w: Worker)
    requires CacheOk(st) && NoSlash(w.nn.ns) && TargetOf(w).Key() in st.sessions
    ensures var session := st.sessions[TargetOf(w).Key()];
      session < |st.dialled| && st.dialled[session].owner == TargetOf(w)
  {
    var key := TargetOf(w).Key();
    assert EntryOk(st, key, st.sessions[key]);
    KeyInjective(TargetOf(w), st.dialled[st.sessions[key]].owner);
  }

  lemma HandReply(st: State, kind: Kind, w: Worker, reply: Outcome)
    requires Fits(kind, w) && HandOk(st, kind, w) && w.pc.Send? && |w.pc.todo| > 0
    ensures var p := AfterReply(kind, w, w.pc.session, w.pc.todo, reply);
      p.Go? ==> HandOk(st, kind, p.next)
  {
    match kind
    case EditConfig =>
    case MountPoint =>
    case EstablishSubscription =>
    case _ =>
  }

  lemma HandCheck(st: State, kind: Kind, w: Worker, c: Choice)
    requires Fits(kind, w) && HandOk(st, kind, w)
    requires w.pc.CheckMountPoint? || w.pc.CheckSession? || w.pc.CheckDependency? || w.pc.Gate? || w.pc.Initialize?
    ensures var (st', p) := StepWorker(st, kind, w, c);
      p.Go? ==> HandOk(st', kind, p.next)
  {
  }

  lemma HandMountPoint(st: State, kind: Kind, w: Worker, c: Choice)
    requires Fits(kind, w) && HandOk(st, kind, w)
    requires w.pc.Dial? || w.pc.Hello? || w.pc.Install? || w.pc.Forget? || w.pc.HangUp? || w.pc.Release? || w.pc.Report?
    ensures var (st', p) := StepWorker(st, kind, w, c);
      p.Go? ==> HandOk(st', kind, p.next)
  {
    match w.pc
    case Dial =>
    case Hello(_) =>
    case Install(_) =>
    case Forget(_) =>
    case HangUp(_) =>
    case _ =>
  }

  lemma HandStep(st: State, kind: Kind, w: Worker, c: Choice)
    requires WorkerOk(st, kind, w) && CacheOk(st) && HandOk(st, kind, w)
    ensures var (st', p) := StepWorker(st, kind, w, c);
      p.Go? ==> HandOk(st', kind, p.next)
  {
    match w.pc
    case Lookup => if TargetOf(w).Key() in st.sessions { LookupOwner(st, w); }
    case Send(s, todo) => if |todo| > 0 { HandReply(st, kind, w, c.reply); }
    case Unlisten(_) =>
    case Listen(_, _) =>
    case Dial => HandMountPoint(st, kind, w, c);
    case Hello(_) => HandMountPoint(st, kind, w, c);
    case Install(_) => HandMountPoint(st, kind, w, c);
    case Forget(_) => HandMountPoint(st, kind, w, c);
    case HangUp(_) => HandMountPoint(st, kind, w, c);
    case Release => HandMountPoint(st, kind, w, c);
    case Report(_) => HandMountPoint(st, kind, w, c);
    case _ => HandCheck(st, kind, w, c);
  }

  /** How a step can change the cache. */
  lemma StepEntries(st: State, kind: Kind, w: Worker, c: Choice)
    requires Fits(kind, w)
    ensures var st' := StepWorker(st, kind, w, c).0;
      && (!w.pc.Install? ==>
            st'.sessions.Keys <= st.sessions.Keys && forall k <- st'.sessions :: st'.sessions[k] == st.sessions[k])
      && (w.pc.Install? ==> st'.sessions == st.sessions[w.nn.Key() := w.pc.session] && st'.store == st.store)
  {
    match w.pc
    case Install(_) =>
    case Forget(_) =>
    case Initialize =>
    case Release =>
    case Send(_, _) =>
    case Lookup =>
    case _ =>
  }

  lemma CacheOkStep(s: Sys, kind: Kind, c: Choice)
    requires Shape(s) && Cache(s) && kind in s.workers
    ensures CacheOk(StepWorker(s.st, kind, s.workers[kind], c).0)
  {
    var w := s.workers[kind];
    assert WorkerOk(s.st, kind, w) && HandOk(s.st, kind, w);
    StepGrows(s.st, kind, w, c);
    StepEntries(s.st, kind, w, c);
    var st := StepWorker(s.st, kind, w, c).0;
    forall key | key in st.sessions
      ensures EntryOk(st, key, st.sessions[key])
    {
      if w.pc.Install? && key == w.nn.Key() {
      } else {
        assert EntryOk(s.st, key, s.st.sessions[key]);
        GuardKept(s, kind, c, s.st.dialled[s.st.sessions[key]].owner);
        EntryKept(s.st, st, key, st.sessions[key]);
      }
    }
  }

  lemma CacheAfter(s: Sys, kind: Kind, st: State, p: Progress)
    requires Cache(s) && CacheOk(st)
    requires Grows(s.st.dialled, st.dialled) && (!kind.MountPoint? ==> st.sessions == s.st.sessions)
    requires p.Go? ==> HandOk(st, kind, p.next)
    ensures Cache(After(s, kind, st, p))
  {
    if !p.Panic? {
      forall k | k in After(s, kind, st, p).workers
        ensures HandOk(st, k, After(s, kind, st, p).workers[k])
      {
        if k != kind { assert HandOk(s.st, k, s.workers[k]); }
      }
    }
  }

  lemma CacheStep(s: Sys, kind: Kind, c: Choice)
    requires Shape(s) && Cache(s) && kind in s.workers
    ensures Cache(Advance(s, kind, c))
  {
    var w := s.workers[kind];
    assert WorkerOk(s.st, kind, w) && HandOk(s.st, kind, w);
    var (st, p) := StepWorker(s.st, kind, w, c);
    StepGrows(s.st, kind, w, c);
    StepSessions(s.st, kind, w, c);
    HandStep(s.st, kind, w, c);
    CacheOkStep(s, kind, c);
    CacheAfter(s, kind, st, p);
  }

  /** A store write by a user. */
  lemma CacheUser(s: Sys, st: State, key: ObjKey)
    requires Cache(s)
    requires OnlyAt(s.st, st, key) && st.dialled == s.st.dialled && st.sessions == s.st.sessions
    requires key.kind.MountPoint? && Guarded(s.st, key.nn) ==> Guarded(st, key.nn)
    ensures Cache(Sys(st, s.workers))
  {
    forall k | k in st.sessions
      ensures EntryOk(st, k, st.sessions[k])
    {
      assert EntryOk(s.st, k, s.st.sessions[k]);
      var owner := s.st.dialled[s.st.sessions[k]].owner;
      assert Find(s.st, ObjKey(MountPoint, owner)).Some?;
      assert ObjKey(MountPoint, owner) != key ==>
          Find(st, ObjKey(MountPoint, owner)) == Find(s.st, ObjKey(MountPoint, owner));
    }
    forall k | k in s.workers
      ensures HandOk(st, k, s.workers[k])
    {
      assert HandOk(s.st, k, s.workers[k]);
    }
  }

  lemma CacheKept(s: Sys, a: Action)
    requires Shape(s) && Cache(s)
    ensures Cache(Apply(s, a))
  {
    var s' := Apply(s, a);
    match a
    case Begin(kind, nn) =>
    case Step(kind, c) => if kind in s.workers { CacheStep(s, kind, c); }
    case Create(key, spec, fs) => if s' != s { CacheUser(s, s'.st, key); }
    case EditSpec(key, spec) => if s' != s { CacheUser(s, s'.st, key); }
    case Delete(key) =>
      if key in s.st.store {
        PutFrame(s.st, key, s.st.store[key].(deleting := true));
        CacheUser(s, s'.st, key);
      }
    case Hold(key, f) =>
      if s' != s {
        PutFrame(s.st, key, s.st.store[key].(finalizers := s.st.store[key].finalizers + {f}));
        CacheUser(s, s'.st, key);
      }
    case Unhold(key, f) =>
      if s' != s {
        var obj := s.st.store[key].(finalizers := s.st.store[key].finalizers - {f});
        PutFrame(s.st, key, obj);
        assert Finalized(MountPoint, s.st.store[key]) ==> MOUNTPOINT_FINALIZER in obj.finalizers;
        CacheUser(s, s'.st, key);
      }
    case Crash =>
  }

  // ----- where RPCs go -----

  /** An RPC went out on a session dialled for the MountPoint its resource names, in its own namespace. */
  predicate SentHome(st: State, e: Event) {
    e.Sent? ==>
      e.session < |st.dialled| && st.dialled[e.session].owner == e.mountPoint && e.mountPoint.ns == e.who.nn.ns
  }

  ghost predicate Isolated(st: State) {
    forall i :: 0 <= i < |st.log| ==> SentHome(st, st.log[i])
  }

  lemma SentEntry(st: State, kind: Kind, w: Worker, c: Choice)
    requires Fits(kind, w) && HandOk(st, kind, w)
    ensures var st' := StepWorker(st, kind, w, c).0;
      Extends(st.log, st'.log) && (|st'.log| > |st.log| ==> SentHome(st', st'.log[|st.log|]))
  {
    StepExtends(st, kind, w, c);
    if !w.pc.Send? && !w.pc.Listen? && !w.pc.Unlisten? { StepUnrelated(st, kind, w, c); }
  }

  lemma IsolatedGrow(st: State, st': State)
    requires Isolated(st) && Grows(st.dialled, st'.dialled)
    requires Extends(st.log, st'.log) && (|st'.log| > |st.log| ==> SentHome(st', st'.log[|st.log|]))
    ensures Isolated(st')
  {
    forall i | 0 <= i < |st'.log|
      ensures SentHome(st', st'.log[i])
    {
      if i < |st.log| {
        assert SentHome(st, st.log[i]);
      }
    }
  }

  lemma IsolatedKept(s: Sys, a: Action)
    requires Shape(s) && Cache(s) && Isolated(s.st)
    ensures Isolated(Apply(s, a).st)
  {
    match a
    case Begin(kind, nn) =>
    case Step(kind, c) =>
      if kind in s.workers {
        var w := s.workers[kind];
        assert WorkerOk(s.st, kind, w) && HandOk(s.st, kind, w);
        var (st, p) := StepWorker(s.st, kind, w, c);
        SentEntry(s.st, kind, w, c);
        StepGrows(s.st, kind, w, c);
        IsolatedGrow(s.st, st);
        if p.Panic? { IsolatedGrow(st, Restart(st)); }
      }
    case Crash => IsolatedGrow(s.st, Restart(s.st));
    case _ =>
      UserFrame(s, a);
      IsolatedGrow(s.st, Apply(s, a).st);
  }
}
