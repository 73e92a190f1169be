/** Check-then-use of sessions: what a reconcile may rely on between validating that a session is
    cached, looking it up, and using it. */
module CheckThenUse {
  import opened Api
  import opened Operator
  import opened Invariants
  import opened SessionCache
  import opened SessionLife

  /** A MountPoint clean-up of `key` happened at or after position `n` of the log. */
  ghost predicate CleanedSince(log: Log, n: nat, key: string) {
    exists i :: n <= i < |log| && log[i].Forgotten? && log[i].key == key
  }

  /** The cache entry of `key` was written or removed, or the process restarted, at or after `n`. */
  ghost predicate TouchedSince(log: Log, n: nat, key: string) {
    exists i :: n <= i < |log| &&
      (((log[i].Forgotten? || log[i].Installed?) && log[i].key == key) || log[i].Restarted?)
  }

  predicate CacheIs(st: State, key: string, session: nat) {
    key in st.sessions && st.sessions[key] == session
  }

  /** Between the check and the lookup the session is cached, unless it was cleaned up meanwhile. */
  ghost predicate CheckedOk(st: State, kind: Kind, w: Worker) {
    w.seen <= |st.log| && w.since <= |st.log| &&
    (!kind.MountPoint? && (w.pc.CheckDependency? || w.pc.Initialize? || w.pc.Gate? || w.pc.Lookup?) ==>
       TargetOf(w).Key() in st.sessions || CleanedSince(st.log, w.seen, TargetOf(w).Key()))
  }

  /** After the lookup the session in hand is the cached one, unless the entry changed meanwhile. */
  ghost predicate LookedUpOk(st: State, kind: Kind, w: Worker) {
    !kind.MountPoint? && Held(w).Some? ==>
      CacheIs(st, TargetOf(w).Key(), Held(w).value) || TouchedSince(st.log, w.since, TargetOf(w).Key())
  }

  ghost predicate UseOk(st: State, kind: Kind, w: Worker) {
    CheckedOk(st, kind, w) && LookedUpOk(st, kind, w)
  }

  /** A listener was registered on the session cached for its MountPoint, unless the entry changed. */
  ghost predicate ListenedOk(st: State, e: Event) {
    e.Listened? ==> e.since <= |st.log| && (CacheIs(st, e.key, e.session) || TouchedSince(st.log, e.since, e.key))
  }

  ghost predicate Use(s: Sys) {
    && (forall k <- s.workers :: UseOk(s.st, k, s.workers[k]))
    && (forall i :: 0 <= i < |s.st.log| ==> ListenedOk(s.st, s.st.log[i]))
  }

  // ----- frames -----

  /** The log grew, and every change to the cache is recorded in what was added. */
  ghost predicate Recorded(st: State, st': State) {
    && st.log <= st'.log
    && (forall key :: key in st.sessions && key !in st'.sessions ==> CleanedSince(st'.log, |st.log|, key)
                                                                     || TouchedSince(st'.log, |st.log|, key))
    && (forall key, v :: CacheIs(st, key, v) && !CacheIs(st', key, v) ==> TouchedSince(st'.log, |st.log|, key))
  }

  ghost predicate CleanRecorded(st: State, st': State) {
    forall key :: key in st.sessions && key !in st'.sessions ==> CleanedSince(st'.log, |st.log|, key)
  }

  lemma SincePrefix(log: Log, log': Log, n: nat, key: string)
    requires log <= log'
    ensures CleanedSince(log, n, key) ==> CleanedSince(log', n, key)
    ensures TouchedSince(log, n, key) ==> TouchedSince(log', n, key)
    ensures n <= |log| && CleanedSince(log', |log|, key) ==> CleanedSince(log', n, key)
    ensures n <= |log| && TouchedSince(log', |log|, key) ==> TouchedSince(log', n, key)
  {
    if CleanedSince(log, n, key) {
      var i :| n <= i < |log| && log[i].Forgotten? && log[i].key == key;
      assert log'[i] == log[i];
    }
    if TouchedSince(log, n, key) {
      var i :| n <= i < |log| &&
        (((log[i].Forgotten? || log[i].Installed?) && log[i].key == key) || log[i].Restarted?);
      assert log'[i] == log[i];
    }
  }

  lemma UseFrame(st: State, st': State, kind: Kind, w: Worker)
    requires UseOk(st, kind, w) && Recorded(st, st') && CleanRecorded(st, st')
    ensures UseOk(st', kind, w)
  {
    var key := TargetOf(w).Key();
    SincePrefix(st.log, st'.log, w.seen, key);
    SincePrefix(st.log, st'.log, w.since, key);
  }

  lemma ListenedFrame(st: State, st': State, e: Event)
    requires ListenedOk(st, e) && Recorded(st, st')
    ensures ListenedOk(st', e)
  {
    if e.Listened? { SincePrefix(st.log, st'.log, e.since, e.key); }
  }

  lemma StepRecorded(st: State, kind: Kind, w: Worker, c: Choice)
    requires Fits(kind, w)
    ensures var st' := StepWorker(st, kind, w, c).0; Recorded(st, st') && CleanRecorded(st, st')
  {
    var st' := StepWorker(st, kind, w, c).0;
    StepExtends(st, kind, w, c);
    match w.pc
    case Install(_) => assert st'.log[|st.log|] == Installed(w.nn.Key(), w.pc.session);
    case Forget(_) => assert st'.log[|st.log|] == Forgotten(w.nn.Key(), w.pc.session);
    case Dial =>
    case Hello(_) =>
    case _ => PlainStep(st, kind, w, c);
  }

  // ----- the reconcile that moves -----

  lemma UseReply(st: State, st': State, kind: Kind, w: Worker, reply: Outcome)
    requires Fits(kind, w) && UseOk(st, kind, w) && w.pc.Send? && |w.pc.todo| > 0
    requires st.log <= st'.log && st'.sessions == st.sessions
    ensures var p := AfterReply(kind, w, w.pc.session, w.pc.todo, reply); p.Go? ==> UseOk(st', kind, p.next)
  {
    assert Recorded(st, st') && CleanRecorded(st, st');
    UseFrame(st, st', kind, w);
    match kind
    case EditConfig =>
    case MountPoint =>
    case EstablishSubscription =>
    case _ =>
  }

  lemma UseCheck(st: State, kind: Kind, w: Worker, c: Choice)
    requires Fits(kind, w) && UseOk(st, kind, w)
    requires w.pc.CheckMountPoint? || w.pc.CheckSession? || w.pc.CheckDependency? || w.pc.Gate?
    ensures var (st', p) := StepWorker(st, kind, w, c); p.Go? ==> UseOk(st', kind, p.next)
  {
  }

  lemma UseInitialize(st: State, kind: Kind, w: Worker, c: Choice)
    requires Fits(kind, w) && UseOk(st, kind, w) && w.pc.Initialize?
    ensures var (st', p) := StepWorker(st, kind, w, c); p.Go? ==> UseOk(st', kind, p.next)
  {
  }

  lemma UseMountPoint(st: State, kind: Kind, w: Worker, c: Choice)
    requires Fits(kind, w) && UseOk(st, kind, w)
    requires w.pc.Dial? || w.pc.Hello? || w.pc.Install? || w.pc.Forget? || w.pc.HangUp? || w.pc.Release? || w.pc.Report?
    ensures var (st', p) := StepWorker(st, kind, w, c); p.Go? ==> UseOk(st', kind, p.next)
  {
    StepExtends(st, kind, w, c);
    match w.pc
    case Dial =>
    case Hello(_) =>
    case Install(_) =>
    case Forget(_) =>
    case HangUp(_) =>
    case _ =>
  }

  lemma UseUnlisten(st: State, kind: Kind, w: Worker, c: Choice)
    requires Fits(kind, w) && UseOk(st, kind, w) && w.pc.Unlisten?
    ensures var (st', p) := StepWorker(st, kind, w, c); p.Go? ==> UseOk(st', kind, p.next)
  {
    StepRecorded(st, kind, w, c);
    UseFrame(st, StepWorker(st, kind, w, c).0, kind, w);
  }

  lemma UseStep(st: State, kind: Kind, w: Worker, c: Choice)
    requires Fits(kind, w) && UseOk(st, kind, w)
    ensures var (st', p) := StepWorker(st, kind, w, c); p.Go? ==> UseOk(st', kind, p.next)
  {
    match w.pc
    case Send(s, todo) => if |todo| > 0 { UseReply(st, StepWorker(st, kind, w, c).0, kind, w, c.reply); }
    case Lookup =>
    case Unlisten(_) => UseUnlisten(st, kind, w, c);
    case Listen(_, _) => StepExtends(st, kind, w, c);
    case CheckMountPoint => UseCheck(st, kind, w, c);
    case CheckSession => UseCheck(st, kind, w, c);
    case CheckDependency => UseCheck(st, kind, w, c);
    case Gate => UseCheck(st, kind, w, c);
    case Initialize => UseInitialize(st, kind, w, c);
    case _ => UseMountPoint(st, kind, w, c);
  }

  lemma UseLog(s: Sys, kind: Kind, c: Choice)
    requires Shape(s) && Use(s) && kind in s.workers
    ensures var st := StepWorker(s.st, kind, s.workers[kind], c).0;
      forall i :: 0 <= i < |st.log| ==> ListenedOk(st, st.log[i])
  {
    var w := s.workers[kind];
    assert WorkerOk(s.st, kind, w) && UseOk(s.st, kind, w);
    var st := StepWorker(s.st, kind, w, c).0;
    StepExtends(s.st, kind, w, c);
    StepRecorded(s.st, kind, w, c);
    forall i | 0 <= i < |st.log|
      ensures ListenedOk(st, st.log[i])
    {
      if i < |s.st.log| {
        assert ListenedOk(s.st, s.st.log[i]);
        ListenedFrame(s.st, st, s.st.log[i]);
      } else if w.pc.Listen? {
        SincePrefix(s.st.log, st.log, w.since, TargetOf(w).Key());
      } else {
        NotListened(s.st, kind, w, c);
      }
    }
  }

  lemma NotListened(st: State, kind: Kind, w: Worker, c: Choice)
    requires !w.pc.Listen?
    ensures var st' := StepWorker(st, kind, w, c).0; |st'.log| > |st.log| ==> !st'.log[|st.log|].Listened?
  {
    match w.pc
    case Initialize =>
    case Release =>
    case Report(_) =>
    case Send(_, _) =>
    case Lookup =>
    case _ =>
  }

  lemma UseAfter(s: Sys, kind: Kind, st: State, p: Progress)
    requires Use(s) && kind in s.workers
    requires Recorded(s.st, st) && CleanRecorded(s.st, st)
    requires forall i :: 0 <= i < |st.log| ==> ListenedOk(st, st.log[i])
    requires p.Go? ==> UseOk(st, kind, p.next)
    ensures Use(After(s, kind, st, p))
  {
    var s' := After(s, kind, st, p);
    if p.Panic? {
      UseRestart(st);
    } else {
      forall k | k in s'.workers
        ensures UseOk(s'.st, k, s'.workers[k])
      {
        if k != kind {
          UseFrame(s.st, st, k, s.workers[k]);
        }
      }
    }
  }

  lemma UseRestart(st: State)
    requires forall i :: 0 <= i < |st.log| ==> ListenedOk(st, st.log[i])
    ensures Use(Sys(Restart(st), map[]))
  {
    var st' := Restart(st);
    assert st'.log[|st.log|].Restarted?;
    assert forall key :: TouchedSince(st'.log, |st.log|, key);
    forall i | 0 <= i < |st'.log|
      ensures ListenedOk(st', st'.log[i])
    {
      if i < |st.log| {
        assert ListenedOk(st, st.log[i]);
        ListenedFrame(st, st', st.log[i]);
      }
    }
  }

  lemma UseByController(s: Sys, kind: Kind, c: Choice)
    requires Shape(s) && Use(s) && kind in s.workers
    ensures Use(Advance(s, kind, c))
  {
    var w := s.workers[kind];
    assert WorkerOk(s.st, kind, w);
    var (st, p) := StepWorker(s.st, kind, w, c);
    StepRecorded(s.st, kind, w, c);
    UseStep(s.st, kind, w, c);
    UseLog(s, kind, c);
    UseAfter(s, kind, st, p);
  }

  lemma UseByUser(s: Sys, a: Action)
    requires Use(s) && ByUser(a)
    ensures Use(Apply(s, a))
  {
    var s' := Apply(s, a);
    UserFrame(s, a);
    assert Recorded(s.st, s'.st) && CleanRecorded(s.st, s'.st);
    forall k | k in s'.workers
      ensures UseOk(s'.st, k, s'.workers[k])
    {
      UseFrame(s.st, s'.st, k, s.workers[k]);
    }
    forall i | 0 <= i < |s'.st.log|
      ensures ListenedOk(s'.st, s'.st.log[i])
    {
      if i < |s.st.log| {
        assert ListenedOk(s.st, s.st.log[i]);
        ListenedFrame(s.st, s'.st, s.st.log[i]);
      }
    }
  }

  lemma UseKept(s: Sys, a: Action)
    requires Shape(s) && Use(s)
    ensures Use(Apply(s, a))
  {
    match a
    case Begin(_, _) =>
    case Step(kind, c) => if kind in s.workers { UseByController(s, kind, c); }
    case Crash => UseRestart(s.st);
    case _ => UseByUser(s, a);
  }

  /** A reconcile whose lookup finds no session raced with a clean-up of that very MountPoint. */
  lemma NilLookupNeedsCleanUp(s: Sys, kind: Kind, c: Choice)
    requires Use(s) && kind in s.workers && s.workers[kind].pc.Lookup?
    requires StepWorker(s.st, kind, s.workers[kind], c).1 == Panic(NilSession)
    ensures CleanedSince(s.st.log, s.workers[kind].seen, TargetOf(s.workers[kind]).Key())
  {
    assert UseOk(s.st, kind, s.workers[kind]);
  }

  // ----- a session still cached was never out of the cache -----

  lemma FatePrefix(log: Log, n: nat, m: nat, t: nat)
    requires n <= m <= |log|
    ensures FateOf(log[..m][..n], t) == FateOf(log[..n], t)
  {
    assert log[..m][..n] == log[..n];
  }

  lemma FairPrefix(log: Log, m: nat)
    requires FairLife(log) && m <= |log|
    ensures FairLife(log[..m])
  {
    forall i, t: nat | 0 <= i < m
      ensures FairMove(FateOf(log[..m][..i], t), log[..m][i], t)
    {
      FatePrefix(log, i, m, t);
      assert FairMove(FateOf(log[..i], t), log[i], t);
    }
  }

  /** What was cached once is never connecting again. */
  lemma {:induction false} NeverBack(log: Log, n: nat, t: nat)
    requires FairLife(log) && n <= |log| && FateOf(log[..n], t).Cached?
    ensures !FateOf(log, t).Undialled? && !FateOf(log, t).InFlight?
    decreases |log|
  {
    if n == |log| {
      assert log[..n] == log;
    } else {
      var m := |log| - 1;
      FairPrefix(log, m);
      FatePrefix(log, n, m, t);
      NeverBack(log[..m], n, t);
      assert FairMove(FateOf(log[..m], t), log[m], t);
    }
  }

  lemma {:induction false} OneCached(log: Log, t: nat, u: nat, key: string)
    requires FateOf(log, t) == Cached(key) && FateOf(log, u) == Cached(key)
    ensures t == u
    decreases |log|
  {
    var m := |log| - 1;
    if FateOf(log[..m], t) == Cached(key) && FateOf(log[..m], u) == Cached(key) { OneCached(log[..m], t, u, key); }
  }

  /** A session cached under a key at two times was so all the time in between. */
  lemma {:induction false} CachedUntouched(log: Log, n: nat, t: nat, key: string)
    requires FairLife(log) && n <= |log| && FateOf(log[..n], t) == Cached(key) && FateOf(log, t) == Cached(key)
    ensures !TouchedSince(log, n, key)
    decreases |log|
  {
    if n < |log| {
      var m := |log| - 1;
      var e := log[m];
      FairPrefix(log, m);
      FatePrefix(log, n, m, t);
      NeverBack(log[..m], n, t);
      assert FairMove(FateOf(log[..m], t), e, t);
      if e.Forgotten? && e.key == key {
        assert FairMove(FateOf(log[..m], e.session), e, e.session);
        OneCached(log[..m], t, e.session, key);
      }
      CachedUntouched(log[..m], n, t, key);
      assert forall i :: n <= i < m ==> log[..m][i] == log[i];
    }
  }
}
