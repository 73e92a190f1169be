/** Every RPC and every change of listeners uses the session that was cached, at the lookup of its reconcile,
    for the MountPoint the resource named. */
module Lookups {
  import opened Api
  import opened Operator
  import opened Invariants
  import opened SessionLife

  /** When the log had `since` entries, `session` was the one cached under `key`. */
  predicate CachedThen(log: Log, since: nat, session: nat, key: string) {
    since <= |log| && FateOf(log[..since], session) == Cached(key)
  }

  predicate EntryLooked(log: Log, i: nat)
    requires i < |log|
  {
    match log[i]
    case Sent(_, _, mp, s, since, _, _) => since <= i && CachedThen(log, since, s, mp.Key())
    case Listened(_, s, _, key, since) => since <= i && CachedThen(log, since, s, key)
    case Unlistened(_, s, _, key, since) => since <= i && CachedThen(log, since, s, key)
    case _ => true
  }

  predicate FlightLooked(log: Log, w: Worker) {
    w.pc.Unlisten? || w.pc.Send? || w.pc.Listen? ==> CachedThen(log, w.since, w.pc.session, TargetOf(w).Key())
  }

  ghost predicate Looked(s: Sys) {
    && (forall i :: 0 <= i < |s.st.log| ==> EntryLooked(s.st.log, i))
    && (forall k <- s.workers :: FlightLooked(s.st.log, s.workers[k]))
  }

  lemma CachedStays(log: Log, log': Log, since: nat, session: nat, key: string)
    requires log <= log' && since <= |log|
    ensures CachedThen(log', since, session, key) <==> CachedThen(log, since, session, key)
  {
    assert log'[..since] == log[..since];
  }

  lemma EntryStays(log: Log, log': Log, i: nat)
    requires log <= log' && i < |log| && EntryLooked(log, i)
    ensures EntryLooked(log', i)
  {
    assert log'[i] == log[i];
    match log[i]
    case Sent(_, _, mp, s, since, _, _) => CachedStays(log, log', since, s, mp.Key());
    case Listened(_, s, _, key, since) => CachedStays(log, log', since, s, key);
    case Unlistened(_, s, _, key, since) => CachedStays(log, log', since, s, key);
    case _ =>
  }

  lemma FlightStays(log: Log, log': Log, w: Worker)
    requires log <= log' && FlightLooked(log, w)
    ensures FlightLooked(log', w)
  {
    if w.pc.Unlisten? || w.pc.Send? || w.pc.Listen? {
      CachedStays(log, log', w.since, w.pc.session, TargetOf(w).Key());
    }
  }

  /** What a step records was looked up as recorded. */
  lemma StepEntryLooked(st: State, kind: Kind, w: Worker, c: Choice)
    requires FlightLooked(st.log, w)
    ensures var log' := StepWorker(st, kind, w, c).0.log; |log'| > |st.log| ==> EntryLooked(log', |st.log|)
  {
    var log' := StepWorker(st, kind, w, c).0.log;
    StepExtends(st, kind, w, c);
    if w.pc.Send? || w.pc.Listen? || w.pc.Unlisten? {
      CachedStays(st.log, log', w.since, w.pc.session, TargetOf(w).Key());
    } else {
      StepUnrelated(st, kind, w, c);
    }
  }

  predicate SameHand(w: Worker, p: Progress) {
    p.Go? && (p.next.pc.Unlisten? || p.next.pc.Send? || p.next.pc.Listen?) ==>
      (w.pc.Unlisten? || w.pc.Send? || w.pc.Listen?) && p.next.pc.session == w.pc.session
      && p.next.since == w.since && TargetOf(p.next) == TargetOf(w)
  }

  lemma ReplySameHand(kind: Kind, w: Worker, reply: Outcome)
    requires w.pc.Send? && |w.pc.todo| > 0
    ensures SameHand(w, AfterReply(kind, w, w.pc.session, w.pc.todo, reply))
  {
    match kind
    case EditConfig =>
    case MountPoint =>
    case EstablishSubscription =>
    case _ =>
  }

  /** Only the lookup takes a session in hand to send or listen on. */
  lemma StepSameHand(st: State, kind: Kind, w: Worker, c: Choice)
    requires !w.pc.Lookup?
    ensures SameHand(w, StepWorker(st, kind, w, c).1)
  {
    match w.pc
    case Send(_, todo) => if |todo| > 0 { ReplySameHand(kind, w, c.reply); }
    case Unlisten(_) =>
    case Listen(_, _) =>
    case Initialize =>
    case Release =>
    case Report(_) =>
    case Dial =>
    case Hello(_) =>
    case CheckSession =>
    case _ =>
  }

  lemma StepFlightLooked(s: Sys, kind: Kind, c: Choice)
    requires Fates(s) && kind in s.workers && FlightLooked(s.st.log, s.workers[kind])
    ensures var (st, p) := StepWorker(s.st, kind, s.workers[kind], c); p.Go? ==> FlightLooked(st.log, p.next)
  {
    var w := s.workers[kind];
    var (st, p) := StepWorker(s.st, kind, w, c);
    StepExtends(s.st, kind, w, c);
    if w.pc.Lookup? {
      var key := TargetOf(w).Key();
      if key in s.st.sessions {
        assert FateOf(s.st.log, s.st.sessions[key]) == Cached(key);
        assert s.st.log[..|s.st.log|] == s.st.log;
      }
    } else {
      StepSameHand(s.st, kind, w, c);
      FlightStays(s.st.log, st.log, w);
    }
  }

  lemma LookedAfter(s: Sys, kind: Kind, st: State, p: Progress)
    requires Looked(s) && kind in s.workers && Extends(s.st.log, st.log)
    requires |st.log| > |s.st.log| ==> EntryLooked(st.log, |s.st.log|)
    requires p.Go? ==> FlightLooked(st.log, p.next)
    ensures Looked(After(s, kind, st, p))
  {
    var s' := After(s, kind, st, p);
    forall i | 0 <= i < |s'.st.log|
      ensures EntryLooked(s'.st.log, i)
    {
      if i < |s.st.log| {
        EntryStays(s.st.log, s'.st.log, i);
      } else if i < |st.log| {
        EntryStays(st.log, s'.st.log, i);
      }
    }
    forall k | k in s'.workers
      ensures FlightLooked(s'.st.log, s'.workers[k])
    {
      if k != kind { FlightStays(s.st.log, s'.st.log, s.workers[k]); }
    }
  }

  lemma LookedOther(s: Sys, s': Sys)
    requires Looked(s) && s.st.log <= s'.st.log
    requires forall i :: |s.st.log| <= i < |s'.st.log| ==> Unrelated(s'.st.log[i])
    requires forall k <- s'.workers :: (k in s.workers && s'.workers[k] == s.workers[k])
                                       || s'.workers[k].pc.CheckMountPoint? || s'.workers[k].pc.Initialize?
    ensures Looked(s')
  {
    forall i | 0 <= i < |s'.st.log|
      ensures EntryLooked(s'.st.log, i)
    {
      if i < |s.st.log| { EntryStays(s.st.log, s'.st.log, i); }
    }
    forall k | k in s'.workers
      ensures FlightLooked(s'.st.log, s'.workers[k])
    {
      if k in s.workers && s'.workers[k] == s.workers[k] { FlightStays(s.st.log, s'.st.log, s.workers[k]); }
    }
  }

  lemma LookedKept(s: Sys, a: Action)
    requires Fates(s) && Looked(s)
    ensures Looked(Apply(s, a))
  {
    match a
    case Begin(_, _) => LookedOther(s, Apply(s, a));
    case Step(kind, c) =>
      if kind in s.workers {
        var w := s.workers[kind];
        var (st, p) := StepWorker(s.st, kind, w, c);
        StepExtends(s.st, kind, w, c);
        StepEntryLooked(s.st, kind, w, c);
        StepFlightLooked(s, kind, c);
        LookedAfter(s, kind, st, p);
      }
    case Crash => LookedOther(s, Apply(s, a));
    case _ =>
      UserFrame(s, a);
      LookedOther(s, Apply(s, a));
  }
}
