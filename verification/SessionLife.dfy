/** What becomes of the sessions the operator dials, and when a session that was checked is still
    there to be used. */
module SessionLife {
  import opened Api
  import opened Operator
  import opened Invariants
  import opened SessionCache

  // ----- the fate of every dialled session -----

  datatype Fate = Undialled | InFlight | Cached(key: string) | Superseded | CleanedUp | Abandoned | Lost

  /** A session is abandoned when its hello fails, superseded when another one is installed under its key,
      handed to the clean-up, or lost with the process. */
  function NextFate(f: Fate, e: Event, s: nat): Fate {
    match e
    case Dialled(t) => if t == s then InFlight else f
    case HelloFailed(t) => if t == s then Abandoned else f
    case Installed(key, t) => if t == s then Cached(key) else if f == Cached(key) then Superseded else f
    case Forgotten(_, t) => if t == s then CleanedUp else f
    case Restarted => if f.InFlight? || f.Cached? then Lost else f
    case _ => f
  }

  function FateOf(log: Log, s: nat): Fate {
    if log == [] then Undialled else NextFate(FateOf(log[..|log| - 1], s), log[|log| - 1], s)
  }

  /** Each step in a session's life starts from the fate it should. */
  predicate FairMove(f: Fate, e: Event, s: nat) {
    match e
    case Dialled(t) => t == s ==> f.Undialled?
    case HelloFailed(t) => t == s ==> f.InFlight?
    case Installed(_, t) => t == s ==> f.InFlight?
    case Forgotten(key, t) => t == s ==> f == Cached(key)
    case _ => true
  }

  ghost predicate FairLife(log: Log) {
    forall i, s: nat :: 0 <= i < |log| ==> FairMove(FateOf(log[..i], s), log[i], s)
  }

  /** The sessions a MountPoint reconcile has dialled and not yet installed or given up. */
  predicate Connecting(workers: map<Kind, Worker>, s: nat) {
    MountPoint in workers && (workers[MountPoint].pc == Hello(s) || workers[MountPoint].pc == Install(s))
  }

  predicate FateMatches(s: Sys, session: nat) {
    var f := FateOf(s.st.log, session);
    && (f.Undialled? <==> session >= |s.st.dialled|)
    && (f.InFlight? <==> Connecting(s.workers, session))
    && (f.Cached? ==> f.key in s.st.sessions && s.st.sessions[f.key] == session)
  }

  ghost predicate Fates(s: Sys) {
    && (forall session: nat :: FateMatches(s, session))
    && (forall key <- s.st.sessions :: FateOf(s.st.log, s.st.sessions[key]) == Cached(key))
    && FairLife(s.st.log)
  }

  lemma FateAppend(log: Log, e: Event, s: nat)
    ensures FateOf(log + [e], s) == NextFate(FateOf(log, s), e, s)
  {
    assert (log + [e])[..|log|] == log;
  }

  lemma FairAppend(log: Log, e: Event)
    requires FairLife(log) && forall s: nat :: FairMove(FateOf(log, s), e, s)
    ensures FairLife(log + [e])
  {
    forall i, s: nat | 0 <= i < |log + [e]|
      ensures FairMove(FateOf((log + [e])[..i], s), (log + [e])[i], s)
    {
      if i < |log| {
        assert (log + [e])[..i] == log[..i];
        assert FairMove(FateOf(log[..i], s), log[i], s);
      } else {
        assert (log + [e])[..i] == log;
      }
    }
  }

  /** Entries that do not concern sessions' lives. */
  predicate Neutral(e: Event) {
    !e.Dialled? && !e.HelloFailed? && !e.Installed? && !e.Forgotten? && !e.Restarted?
  }

  predicate Quiet(log: Log, log': Log) {
    Extends(log, log') && (|log'| > |log| ==> Neutral(log'[|log|]))
  }

  /** A step that adds nothing or a neutral entry, and leaves sessions and connecting alone. */
  lemma FatesNeutral(s: Sys, s': Sys)
    requires Fates(s)
    requires s'.st.sessions == s.st.sessions && |s'.st.dialled| == |s.st.dialled|
    requires forall t: nat :: Connecting(s'.workers, t) <==> Connecting(s.workers, t)
    requires Quiet(s.st.log, s'.st.log)
    ensures Fates(s')
  {
    if |s'.st.log| > |s.st.log| {
      var e := s'.st.log[|s.st.log|];
      assert s'.st.log == s.st.log + [e];
      forall t: nat
        ensures FateOf(s'.st.log, t) == FateOf(s.st.log, t)
      {
        FateAppend(s.st.log, e, t);
      }
      FairAppend(s.st.log, e);
    } else {
      assert s'.st.log == s.st.log;
    }
    forall t: nat
      ensures FateMatches(s', t)
    {
      assert FateMatches(s, t);
    }
  }

  /** A session event: it must be a fair move, and the new fates must match the new state. */
  lemma FatesEvent(s: Sys, s': Sys, e: Event)
    requires Fates(s) && s'.st.log == s.st.log + [e]
    requires forall t: nat :: FairMove(FateOf(s.st.log, t), e, t)
    requires forall t: nat :: FateMatches(s, t) ==>
      var f := NextFate(FateOf(s.st.log, t), e, t);
      && (f.Undialled? <==> t >= |s'.st.dialled|)
      && (f.InFlight? <==> Connecting(s'.workers, t))
      && (f.Cached? ==> f.key in s'.st.sessions && s'.st.sessions[f.key] == t)
    requires forall key <- s'.st.sessions ::
      NextFate(FateOf(s.st.log, s'.st.sessions[key]), e, s'.st.sessions[key]) == Cached(key)
    ensures Fates(s')
  {
    FairAppend(s.st.log, e);
    forall t: nat
      ensures FateMatches(s', t)
    {
      assert FateMatches(s, t);
      FateAppend(s.st.log, e, t);
    }
    forall key | key in s'.st.sessions
      ensures FateOf(s'.st.log, s'.st.sessions[key]) == Cached(key)
    {
      FateAppend(s.st.log, e, s'.st.sessions[key]);
    }
  }

  lemma FatesDial(s: Sys, c: Choice)
    requires Fates(s) && MountPoint in s.workers && s.workers[MountPoint].pc.Dial?
    ensures Fates(Advance(s, MountPoint, c))
  {
    var s' := Advance(s, MountPoint, c);
    assert FateMatches(s, |s.st.dialled|);
    if c.ok {
      FatesEvent(s, s', Dialled(|s.st.dialled|));
    } else {
      FatesNeutral(s, s');
    }
  }

  lemma FatesHello(s: Sys, c: Choice)
    requires Fates(s) && MountPoint in s.workers && s.workers[MountPoint].pc.Hello?
    ensures Fates(Advance(s, MountPoint, c))
  {
    var s' := Advance(s, MountPoint, c);
    var session := s.workers[MountPoint].pc.session;
    assert FateMatches(s, session);
    if c.ok {
      FatesNeutral(s, s');
    } else {
      FatesEvent(s, s', HelloFailed(session));
    }
  }

  lemma FatesInstall(s: Sys, c: Choice)
    requires Fates(s) && MountPoint in s.workers && s.workers[MountPoint].pc.Install?
    ensures Fates(Advance(s, MountPoint, c))
  {
    var w := s.workers[MountPoint];
    var s' := Advance(s, MountPoint, c);
    assert FateMatches(s, w.pc.session);
    FatesEvent(s, s', Installed(w.nn.Key(), w.pc.session));
  }

  lemma FatesForget(s: Sys, c: Choice)
    requires Fates(s) && Cache(s) && MountPoint in s.workers && s.workers[MountPoint].pc.Forget?
    ensures Fates(Advance(s, MountPoint, c))
  {
    var w := s.workers[MountPoint];
    var s' := Advance(s, MountPoint, c);
    assert HandOk(s.st, MountPoint, w);
    assert FateOf(s.st.log, s.st.sessions[w.nn.Key()]) == Cached(w.nn.Key());
    FatesEvent(s, s', Forgotten(w.nn.Key(), w.pc.session));
  }

  lemma FatesRestart(s: Sys, st: State)
    requires Fates(s) && st.sessions == s.st.sessions && |st.dialled| == |s.st.dialled|
    requires Quiet(s.st.log, st.log)
    ensures Fates(Sys(Restart(st), map[]))
  {
    var s1 := Sys(st, s.workers);
    FatesNeutral(s, s1);
    FatesEvent(s1, Sys(Restart(st), map[]), Restarted);
  }

  /** The other steps add at most a neutral entry. */
  lemma PlainStep(st: State, kind: Kind, w: Worker, c: Choice)
    requires Fits(kind, w)
    requires !w.pc.Dial? && !w.pc.Hello? && !w.pc.Install? && !w.pc.Forget?
    ensures var (st', p) := StepWorker(st, kind, w, c);
      && st'.sessions == st.sessions && |st'.dialled| == |st.dialled|
      && Quiet(st.log, st'.log)
  {
    match w.pc
    case Initialize =>
    case Release =>
    case Report(_) =>
    case Unlisten(_) =>
    case Listen(_, _) =>
    case Send(_, _) =>
    case Lookup =>
    case _ =>
  }

  lemma PlainNext(st: State, kind: Kind, w: Worker, c: Choice)
    requires Fits(kind, w)
    requires !w.pc.Dial? && !w.pc.Hello? && !w.pc.Install? && !w.pc.Forget?
    ensures var (st', p) := StepWorker(st, kind, w, c);
      p.Go? ==> !p.next.pc.Hello? && !p.next.pc.Install?
  {
    match w.pc
    case Send(s, todo) =>
    case Lookup =>
    case Unlisten(_) =>
    case Listen(_, _) =>
    case Initialize =>
    case HangUp(_) =>
    case _ =>
  }

  lemma FatesStep(s: Sys, kind: Kind, c: Choice)
    requires Shape(s) && Cache(s) && Fates(s) && kind in s.workers
    ensures Fates(Advance(s, kind, c))
  {
    var w := s.workers[kind];
    assert WorkerOk(s.st, kind, w);
    match w.pc
    case Dial => FatesDial(s, c);
    case Hello(_) => FatesHello(s, c);
    case Install(_) => FatesInstall(s, c);
    case Forget(_) => FatesForget(s, c);
    case _ =>
      var (st, p) := StepWorker(s.st, kind, w, c);
      PlainStep(s.st, kind, w, c);
      PlainNext(s.st, kind, w, c);
      FatesPlain(s, kind, st, p);
  }

  lemma FatesPlain(s: Sys, kind: Kind, st: State, p: Progress)
    requires Fates(s) && kind in s.workers && !s.workers[kind].pc.Hello? && !s.workers[kind].pc.Install?
    requires st.sessions == s.st.sessions && |st.dialled| == |s.st.dialled|
    requires Quiet(s.st.log, st.log)
    requires p.Go? ==> !p.next.pc.Hello? && !p.next.pc.Install?
    ensures Fates(After(s, kind, st, p))
  {
    if p.Panic? {
      FatesRestart(s, st);
    } else {
      FatesNeutral(s, After(s, kind, st, p));
    }
  }

  lemma FatesKept(s: Sys, a: Action)
    requires Shape(s) && Cache(s) && Fates(s)
    ensures Fates(Apply(s, a))
  {
    var s' := Apply(s, a);
    match a
    case Step(kind, c) => if kind in s.workers { FatesStep(s, kind, c); }
    case Crash => FatesRestart(s, s.st);
    case Begin(_, _) => FatesNeutral(s, s');
    case _ =>
      UserFrame(s, a);
      FatesNeutral(s, s');
  }

  // ----- conservation -----

  predicate SameSort(f: Fate, g: Fate) {
    (f.Cached? && g.Cached?) || f == g
  }

  /** How many of the first `n` sessions met a fate of the sort of `f`. */
  function Count(log: Log, n: nat, f: Fate): nat {
    if n == 0 then 0 else Count(log, n - 1, f) + if SameSort(FateOf(log, n - 1), f) then 1 else 0
  }

  function CachedIn(log: Log, n: nat): set<nat> {
    set t: nat | t < n && FateOf(log, t).Cached?
  }

  lemma {:induction false} CountCached(log: Log, n: nat)
    ensures Count(log, n, Cached("")) == |CachedIn(log, n)|
  {
    if n > 0 {
      CountCached(log, n - 1);
      var rest := CachedIn(log, n - 1);
      assert CachedIn(log, n) == if FateOf(log, n - 1).Cached? then rest + {n - 1} else rest;
    }
  }

  /** An injective map has as many keys as values. */
  lemma {:induction false} InjectiveSize(m: map<string, nat>, values: set<nat>)
    requires forall k, k' :: k in m && k' in m && m[k] == m[k'] ==> k == k'
    requires forall v :: v in values <==> exists k :: k in m && m[k] == v
    ensures |m| == |values|
    decreases m.Keys
  {
    if m.Keys == {} {
      assert forall v :: v !in values;
      assert |m.Keys| == 0;
    } else {
      var k :| k in m;
      var m' := m - {k};
      assert m'.Keys == m.Keys - {k};
      forall v
        ensures v in values - {m[k]} <==> exists j :: j in m' && m'[j] == v
      {
        if v in values - {m[k]} {
          var j :| j in m && m[j] == v;
          assert j in m' && m'[j] == v;
        }
      }
      InjectiveSize(m', values - {m[k]});
      assert m[k] in values;
      assert |m.Keys| == |m'.Keys| + 1;
    }
  }

  /** No session is cached under two keys. */
  lemma OneKeyPerSession(st: State, a: string, b: string)
    requires CacheOk(st) && a in st.sessions && b in st.sessions && st.sessions[a] == st.sessions[b]
    ensures a == b
  {
    assert EntryOk(st, a, st.sessions[a]) && EntryOk(st, b, st.sessions[b]);
  }

  lemma {:induction false} CountFates(log: Log, n: nat)
    ensures n == Count(log, n, Undialled) + Count(log, n, InFlight)
                 + Count(log, n, Cached("")) + Count(log, n, Superseded)
                 + Count(log, n, CleanedUp) + Count(log, n, Abandoned)
                 + Count(log, n, Lost)
  {
    if n > 0 { CountFates(log, n - 1); }
  }

  lemma {:induction false} CountNone(log: Log, n: nat, f: Fate)
    requires forall t: nat :: t < n ==> !SameSort(FateOf(log, t), f)
    ensures Count(log, n, f) == 0
  {
    if n > 0 { CountNone(log, n - 1, f); }
  }

  lemma {:induction false} CountOne(log: Log, n: nat, t: nat, f: Fate)
    requires forall u: nat :: u < n ==> (SameSort(FateOf(log, u), f) <==> u == t)
    ensures Count(log, n, f) == if t < n then 1 else 0
  {
    if n > 0 {
      if t == n - 1 { CountNone(log, n - 1, f); } else { CountOne(log, n - 1, t, f); }
    }
  }

  lemma {:induction false} CacheIsCounted(s: Sys)
    requires Cache(s) && Fates(s)
    ensures |s.st.sessions| == |CachedIn(s.st.log, |s.st.dialled|)|
  {
    forall a, b | a in s.st.sessions && b in s.st.sessions && s.st.sessions[a] == s.st.sessions[b]
      ensures a == b
    {
      OneKeyPerSession(s.st, a, b);
    }
    var cached := CachedIn(s.st.log, |s.st.dialled|);
    forall v
      ensures v in cached <==> exists k :: k in s.st.sessions && s.st.sessions[k] == v
    {
      if v in cached {
        assert FateMatches(s, v);
      } else if k :| k in s.st.sessions && s.st.sessions[k] == v {
        assert FateMatches(s, v);
      }
    }
    InjectiveSize(s.st.sessions, cached);
  }

  /** Every session ever dialled is cached now, in the hands of the MountPoint reconcile, or ended in
      exactly one way; the cache holds precisely the sessions whose fate is to be cached. */
  lemma SessionConservation(s: Sys)
    requires Cache(s) && Fates(s)
    ensures var n, log := |s.st.dialled|, s.st.log;
      n == |s.st.sessions| + Count(log, n, Superseded) + Count(log, n, CleanedUp)
           + Count(log, n, Abandoned) + Count(log, n, Lost)
           + (if MountPoint in s.workers && (s.workers[MountPoint].pc.Hello? || s.workers[MountPoint].pc.Install?)
              then 1 else 0)
  {
    var n, log := |s.st.dialled|, s.st.log;
    CountFates(log, n);
    forall t: nat | t < n
      ensures !FateOf(log, t).Undialled? && (FateOf(log, t).InFlight? <==> Connecting(s.workers, t))
    {
      assert FateMatches(s, t);
    }
    CountCached(log, n);
    CacheIsCounted(s);
    CountNone(log, n, Undialled);
    if MountPoint in s.workers && (s.workers[MountPoint].pc.Hello? || s.workers[MountPoint].pc.Install?) {
      CountOne(log, n, s.workers[MountPoint].pc.session, InFlight);
    } else {
      CountNone(log, n, InFlight);
    }
  }

  /** No session is lost unless the process restarted. */
  lemma {:induction false} NotLost(log: Log, t: nat)
    requires forall i :: 0 <= i < |log| ==> !log[i].Restarted?
    ensures !FateOf(log, t).Lost?
    decreases |log|
  {
    if log != [] { NotLost(log[..|log| - 1], t); }
  }
}
