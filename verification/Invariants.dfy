/** What every step of the system keeps: the shape of the store and of reconciles in flight, and the
    guard that ties the session cache to stored, finalized MountPoints. */
module Invariants {
  import opened Api
  import opened Operator

  /** What the API server guarantees of a stored object; one being deleted stays only for its finalizers. */
  predicate Storable(key: ObjKey, obj: Obj, nextUid: nat) {
    && obj.spec.Kind() == key.kind && NoSlash(key.nn.ns) && obj.uid < nextUid
    && (obj.deleting ==> obj.finalizers != {})
  }

  ghost predicate StoreOk(st: State) {
    forall key <- st.store :: Storable(key, st.store[key], st.nextUid)
  }

  predicate PcFits(kind: Kind, w: Worker) {
    match w.pc
    case CheckMountPoint => !kind.MountPoint?
    case CheckSession => !kind.MountPoint?
    case CheckDependency => kind.Commit?
    case Initialize => kind.MountPoint? || kind.EstablishSubscription?
    case Gate => (kind.EditConfig? || kind.Unlock?) && !w.obj.deleting
    case Lookup => (Finalized(kind, w.obj) && (kind.MountPoint? ==> w.obj.deleting))
                   || (OwnFinalizer(kind).None? && !w.obj.deleting)
    case Unlisten(_) => kind.EstablishSubscription? && Finalized(kind, w.obj) && w.obj.deleting
    case Send(_, todo) => (OwnFinalizer(kind).Some? ==> Finalized(kind, w.obj)) && (kind.MountPoint? ==> w.obj.deleting)
    case Listen(_, _) => kind.EstablishSubscription? && Finalized(kind, w.obj) && !w.obj.deleting
    case Dial => kind.MountPoint? && Finalized(kind, w.obj) && !w.obj.deleting
    case Hello(_) => kind.MountPoint? && Finalized(kind, w.obj) && !w.obj.deleting
    case Install(_) => kind.MountPoint? && Finalized(kind, w.obj) && !w.obj.deleting
    case Forget(_) => kind.MountPoint? && Finalized(kind, w.obj) && w.obj.deleting
    case HangUp(_) => kind.MountPoint? && Finalized(kind, w.obj) && w.obj.deleting
    case Release => Finalized(kind, w.obj) && w.obj.deleting
    case Report(_) => true
  }

  /** The in-memory copy differs from the object read in its status only, and the reconcile stands
      where its kind can stand. */
  predicate Fits(kind: Kind, w: Worker) {
    w.obj.(status := w.base.status) == w.base && w.base.spec.Kind() == kind && PcFits(kind, w)
  }

  function Find(st: State, key: ObjKey): Option<Obj> {
    if key in st.store then Some(st.store[key]) else None
  }

  /** The stored object a reconcile read is still there. */
  predicate SameObject(found: Option<Obj>, w: Worker) {
    found.Some? && found.value.uid == w.base.uid
  }

  /** A reconcile is the only writer of the status and of its kind's finalizer, deletion marks never go,
      and an object read with its finalizer cannot disappear under the reconcile. */
  predicate Tracks(found: Option<Obj>, kind: Kind, w: Worker) {
    && (Finalized(kind, w.base) ==> SameObject(found, w))
    && (SameObject(found, w) ==>
          found.value.status == w.base.status && (w.base.deleting ==> found.value.deleting)
          && (Finalized(kind, found.value) <==> Finalized(kind, w.base)))
  }

  predicate WorkerOk(st: State, kind: Kind, w: Worker) {
    && Fits(kind, w)
    && NoSlash(w.nn.ns) && w.base.uid < st.nextUid
    && Tracks(Find(st, ObjKey(kind, w.nn)), kind, w)
  }

  ghost predicate Shape(s: Sys) {
    StoreOk(s.st) && forall k <- s.workers :: WorkerOk(s.st, k, s.workers[k])
  }

  // ----- frames -----

  /** Only the object under `key` may differ. */
  ghost predicate OnlyAt(st: State, st': State, key: ObjKey) {
    forall k :: k != key ==> Find(st', k) == Find(st, k)
  }

  lemma PutFrame(st: State, key: ObjKey, obj: Obj)
    ensures var st' := Put(st, key, obj);
      OnlyAt(st, st', key) && st'.nextUid == st.nextUid && st'.sessions == st.sessions && st'.dialled == st.dialled
      && Find(st', key) == if obj.deleting && obj.finalizers == {} then None else Some(obj)
  {
  }

  lemma StoreOkAt(st: State, st': State, key: ObjKey)
    requires StoreOk(st) && OnlyAt(st, st', key) && st.nextUid <= st'.nextUid
    requires Find(st', key).Some? ==> Storable(key, Find(st', key).value, st'.nextUid)
    ensures StoreOk(st')
  {
    forall k | k in st'.store
      ensures Storable(k, st'.store[k], st'.nextUid)
    {
      assert Find(st', k) == Some(st'.store[k]);
      if k != key { assert Find(st, k) == Find(st', k); }
    }
  }

  /** The steps that change no shared state at all. */
  lemma LookStep(st: State, kind: Kind, w: Worker, c: Choice)
    requires w.pc.CheckMountPoint? || w.pc.CheckSession? || w.pc.CheckDependency? || w.pc.Gate? || w.pc.Lookup?
    ensures StepWorker(st, kind, w, c).0 == st
  {
  }

  /** The steps that do not write the store. */
  lemma ReadStep(st: State, kind: Kind, w: Worker, c: Choice)
    requires !w.pc.Initialize? && !w.pc.Release? && !w.pc.Report?
    ensures var (st', p) := StepWorker(st, kind, w, c); st'.store == st.store && st'.nextUid == st.nextUid
  {
  }

  /** The steps that may write the store touch only the reconcile's own object. */
  lemma WriteStep(st: State, kind: Kind, w: Worker, c: Choice)
    requires w.pc.Initialize? || w.pc.Release? || w.pc.Report?
    ensures var (st', p) := StepWorker(st, kind, w, c);
      && OnlyAt(st, st', ObjKey(kind, w.nn)) && st'.nextUid == st.nextUid
      && st'.sessions == st.sessions && st'.dialled == st.dialled
      && (st'.store != st.store ==> p.Finish? && Writable(st, kind, w, c))
  {
  }

  // ----- the log only grows, by at most one entry a step -----

  predicate Extends(log: Log, log': Log) {
    log <= log' && |log'| <= |log| + 1
  }

  lemma StepExtends(st: State, kind: Kind, w: Worker, c: Choice)
    ensures Extends(st.log, StepWorker(st, kind, w, c).0.log)
  {
    match w.pc
    case Initialize =>
    case Release =>
    case Report(_) =>
    case Send(_, _) =>
    case Unlisten(_) =>
    case Listen(_, _) =>
    case Dial =>
    case Hello(_) =>
    case Install(_) =>
    case Forget(_) =>
    case HangUp(_) =>
    case _ => LookStep(st, kind, w, c);
  }

  /** Entries that use no session looked up. */
  predicate Unrelated(e: Event) {
    !e.Sent? && !e.Listened? && !e.Unlistened?
  }

  lemma StepUnrelated(st: State, kind: Kind, w: Worker, c: Choice)
    requires !w.pc.Send? && !w.pc.Listen? && !w.pc.Unlisten?
    ensures var log' := StepWorker(st, kind, w, c).0.log; |log'| > |st.log| ==> Unrelated(log'[|st.log|])
  {
    match w.pc
    case Initialize =>
    case Release =>
    case Report(_) =>
    case Dial =>
    case Hello(_) =>
    case Install(_) =>
    case Forget(_) =>
    case HangUp(_) =>
    case _ => LookStep(st, kind, w, c);
  }

  // ----- what the reconcile becomes -----

  predicate Follows(kind: Kind, w: Worker, p: Progress) {
    p.Go? ==> p.next.nn == w.nn && p.next.base == w.base && Fits(kind, p.next)
  }

  lemma CheckFits(st: State, kind: Kind, w: Worker, c: Choice)
    requires Fits(kind, w)
    requires w.pc.CheckMountPoint? || w.pc.CheckSession? || w.pc.CheckDependency? || w.pc.Gate? || w.pc.Initialize?
    ensures Follows(kind, w, StepWorker(st, kind, w, c).1)
  {
  }

  lemma ReplyFits(kind: Kind, w: Worker, session: nat, todo: seq<Rpc>, reply: Outcome)
    requires Fits(kind, w) && w.pc == Send(session, todo) && |todo| > 0
    ensures Follows(kind, w, AfterReply(kind, w, session, todo, reply))
  {
    match kind
    case EditConfig =>
    case MountPoint =>
    case EstablishSubscription =>
    case _ =>
  }

  /** What a step leaves the reconcile with fits its kind. */
  lemma GoFits(st: State, kind: Kind, w: Worker, c: Choice)
    requires Fits(kind, w)
    ensures Follows(kind, w, StepWorker(st, kind, w, c).1)
  {
    match w.pc
    case Send(s, todo) => if |todo| > 0 { ReplyFits(kind, w, s, todo, c.reply); }
    case Lookup =>
    case Listen(_, _) =>
    case Dial =>
    case Hello(_) =>
    case Report(_) =>
    case Release =>
    case Unlisten(_) =>
    case Install(_) =>
    case Forget(_) =>
    case HangUp(_) =>
    case _ => CheckFits(st, kind, w, c);
  }

  lemma StepStoreOk(st: State, kind: Kind, w: Worker, c: Choice)
    requires StoreOk(st) && WorkerOk(st, kind, w)
    ensures StoreOk(StepWorker(st, kind, w, c).0)
  {
    if w.pc.Initialize? || w.pc.Release? || w.pc.Report? {
      WriteStep(st, kind, w, c);
      StoreOkAt(st, StepWorker(st, kind, w, c).0, ObjKey(kind, w.nn));
    } else {
      ReadStep(st, kind, w, c);
    }
  }

  /** The reconcile that moves stays in step with the store. */
  lemma StepTracks(st: State, kind: Kind, w: Worker, c: Choice)
    requires WorkerOk(st, kind, w)
    ensures var (st', p) := StepWorker(st, kind, w, c);
      && OnlyAt(st, st', ObjKey(kind, w.nn)) && st'.nextUid == st.nextUid
      && (p.Go? ==> WorkerOk(st', kind, p.next))
  {
    GoFits(st, kind, w, c);
    if w.pc.Initialize? || w.pc.Release? || w.pc.Report? {
      WriteStep(st, kind, w, c);
    } else {
      ReadStep(st, kind, w, c);
    }
  }

  /** The object under a key is the one that was there, still marked deleted if it was, and an object being
      deleted never gets its finalizer back. */
  predicate Aged(before: Option<Obj>, after: Option<Obj>, kind: Kind) {
    after.Some? ==>
      && before.Some? && after.value.uid == before.value.uid && (before.value.deleting ==> after.value.deleting)
      && (before.value.deleting && Finalized(kind, after.value) ==> Finalized(kind, before.value))
  }

  lemma StepAges(st: State, kind: Kind, w: Worker, c: Choice)
    requires WorkerOk(st, kind, w)
    ensures var key, (st', p) := ObjKey(kind, w.nn), StepWorker(st, kind, w, c);
      && Aged(Find(st, key), Find(st', key), kind) && st'.nextUid == st.nextUid
      && (p.Go? ==> WorkerOk(st', kind, p.next) && p.next.nn == w.nn)
  {
    StepTracks(st, kind, w, c);
    GoFits(st, kind, w, c);
    if w.pc.Initialize? || w.pc.Release? || w.pc.Report? {
      WriteStep(st, kind, w, c);
    } else {
      ReadStep(st, kind, w, c);
    }
  }

  lemma ShapeAfter(s: Sys, kind: Kind, st: State, p: Progress)
    requires Shape(s) && StoreOk(st) && kind in s.workers
    requires OnlyAt(s.st, st, ObjKey(kind, s.workers[kind].nn)) && st.nextUid == s.st.nextUid
    requires p.Go? ==> WorkerOk(st, kind, p.next)
    ensures Shape(After(s, kind, st, p))
  {
    if !p.Panic? {
      forall k | k in After(s, kind, st, p).workers
        ensures WorkerOk(st, k, After(s, kind, st, p).workers[k])
      {
        if k != kind {
          assert WorkerOk(s.st, k, s.workers[k]);
        }
      }
    }
  }

  lemma ShapeStep(s: Sys, kind: Kind, c: Choice)
    requires Shape(s) && kind in s.workers
    ensures Shape(Advance(s, kind, c))
  {
    var w := s.workers[kind];
    StepStoreOk(s.st, kind, w, c);
    StepTracks(s.st, kind, w, c);
    var (st, p) := StepWorker(s.st, kind, w, c);
    ShapeAfter(s, kind, st, p);
  }

  /** A user's write keeps the reconcile in flight on that object in step with the store. */
  lemma ShapeUser(s: Sys, st: State, key: ObjKey)
    requires Shape(s) && StoreOk(st)
    requires OnlyAt(s.st, st, key) && s.st.nextUid <= st.nextUid
    requires forall k <- s.workers :: Tracks(Find(s.st, key), k, s.workers[k]) && ObjKey(k, s.workers[k].nn) == key
                                      ==> Tracks(Find(st, key), k, s.workers[k])
    ensures Shape(Sys(st, s.workers))
  {
    forall k | k in s.workers
      ensures WorkerOk(st, k, s.workers[k])
    {
      assert WorkerOk(s.st, k, s.workers[k]);
    }
  }

  lemma ShapePut(s: Sys, key: ObjKey, obj: Obj)
    requires Shape(s) && key in s.st.store
    requires var o := s.st.store[key];
      obj.uid == o.uid && obj.status == o.status && (o.deleting ==> obj.deleting) && obj.spec.Kind() == key.kind
      && (Finalized(key.kind, obj) <==> Finalized(key.kind, o))
    ensures Shape(Sys(Put(s.st, key, obj), s.workers))
  {
    PutFrame(s.st, key, obj);
    StoreOkAt(s.st, Put(s.st, key, obj), key);
    ShapeUser(s, Put(s.st, key, obj), key);
  }

  lemma ShapeKept(s: Sys, a: Action)
    requires Shape(s)
    ensures Shape(Apply(s, a))
  {
    match a
    case Begin(kind, nn) =>
    case Step(kind, c) => if kind in s.workers { ShapeStep(s, kind, c); }
    case Create(key, spec, fs) =>
      var s' := Apply(s, a);
      if s' != s {
        StoreOkAt(s.st, s'.st, key);
        ShapeUser(s, s'.st, key);
      }
    case EditSpec(key, spec) =>
      var s' := Apply(s, a);
      if s' != s {
        StoreOkAt(s.st, s'.st, key);
        ShapeUser(s, s'.st, key);
      }
    case Delete(key) => if key in s.st.store { ShapePut(s, key, s.st.store[key].(deleting := true)); }
    case Hold(key, f) =>
      if Apply(s, a) != s { ShapePut(s, key, s.st.store[key].(finalizers := s.st.store[key].finalizers + {f})); }
    case Unhold(key, f) =>
      if Apply(s, a) != s { ShapePut(s, key, s.st.store[key].(finalizers := s.st.store[key].finalizers - {f})); }
    case Crash =>
  }

  // ----- what users can do -----

  predicate ByUser(a: Action) {
    a.Create? || a.EditSpec? || a.Delete? || a.Hold? || a.Unhold?
  }

  /** An object a user's write leaves: the same one with its status, own finalizer and deletion mark, or a new one. */
  predicate UserKept(st: State, st': State, key: ObjKey)
    requires key in st'.store
  {
    var o' := st'.store[key];
    || (key in st.store && o'.uid == st.store[key].uid && o'.status == st.store[key].status
        && (st.store[key].deleting ==> o'.deleting)
        && (Finalized(key.kind, o') <==> Finalized(key.kind, st.store[key])))
    || (key !in st.store && o'.uid == st.nextUid && o'.status == NEW_STATUS && !o'.deleting && st'.log == st.log)
  }

  /** The entry a user's write adds: an object without finalizers disappeared. */
  predicate UserEntry(st: State, e: Event) {
    && e.Gone?
    && var key := ObjKey(e.who.kind, e.who.nn);
       key in st.store && st.store[key].uid == e.who.uid && st.store[key].status.subscriptionID == e.subscriptionID
       && !Finalized(key.kind, st.store[key])
  }

  lemma PutKept(st: State, key: ObjKey, obj: Obj)
    requires key in st.store
    requires var o := st.store[key];
      obj.uid == o.uid && obj.status == o.status && (o.deleting ==> obj.deleting)
      && (Finalized(key.kind, obj) <==> Finalized(key.kind, o))
    ensures var st' := Put(st, key, obj);
      && (forall k <- st'.store :: UserKept(st, st', k))
      && st.log <= st'.log && |st'.log| <= |st.log| + 1
      && (|st'.log| > |st.log| ==> UserEntry(st, st'.log[|st.log|]))
  {
  }

  lemma UserFrame(s: Sys, a: Action)
    requires ByUser(a)
    ensures var s' := Apply(s, a);
      && s'.workers == s.workers && s'.st.sessions == s.st.sessions && s'.st.dialled == s.st.dialled
      && s.st.nextUid <= s'.st.nextUid
      && s.st.log <= s'.st.log && |s'.st.log| <= |s.st.log| + 1
      && (|s'.st.log| > |s.st.log| ==> UserEntry(s.st, s'.st.log[|s.st.log|]))
      && (forall key <- s'.st.store :: UserKept(s.st, s'.st, key))
  {
    match a
    case Create(key, spec, fs) =>
    case EditSpec(key, spec) =>
    case Delete(key) => if key in s.st.store { PutKept(s.st, key, s.st.store[key].(deleting := true)); }
    case Hold(key, f) =>
      if Apply(s, a) != s { PutKept(s.st, key, s.st.store[key].(finalizers := s.st.store[key].finalizers + {f})); }
    case Unhold(key, f) =>
      if Apply(s, a) != s { PutKept(s.st, key, s.st.store[key].(finalizers := s.st.store[key].finalizers - {f})); }
  }
}
