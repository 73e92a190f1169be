/** What a resource said to the device before what the log records of it: a session is forgotten after it was closed,
    and killed iff the close was not clean; a listener is registered on a clean reply to establish-subscription; a
    subscription is deleted after its listener went. */
module Exchanges {
  import opened Api
  import opened Operator
  import opened Invariants
  import opened SessionCache
  import opened SessionLife
  import opened Subscriptions

  predicate Said(e: Event, who: Who, session: nat, rpc: Rpc) {
    e.Sent? && e.who == who && e.session == session && e.rpc == rpc
  }

  predicate AnsweredWell(e: Event) {
    e.Sent? && e.reply.Reply? && !e.reply.err && !e.reply.errors
  }

  /** Nothing was sent by `who` after position `j`. */
  ghost predicate SilentSince(log: Log, j: nat, who: Who) {
    forall m :: j < m < |log| && log[m].Sent? ==> log[m].who != who
  }

  /** The close was not clean, and nothing was sent since. */
  ghost predicate ToKill(log: Log, j: nat, who: Who, session: nat) {
    j < |log| && Said(log[j], who, session, CloseSessionRpc) && !AnsweredWell(log[j]) && SilentSince(log, j, who)
  }

  /** Closed at `j`: cleanly, or else killed next, and nothing was sent since. */
  ghost predicate ClosedAt(log: Log, j: nat, who: Who, session: nat) {
    && j < |log| && Said(log[j], who, session, CloseSessionRpc)
    && (AnsweredWell(log[j]) ==> SilentSince(log, j, who))
    && (!AnsweredWell(log[j]) ==>
          exists k: nat :: j < k < |log| && Said(log[k], who, session, KillSessionRpc)
                           && SilentSince(log[..k], j, who) && SilentSince(log, k, who))
  }

  /** Subscribed at `j` with that id, and nothing was sent since. */
  ghost predicate SubscribedAt(log: Log, j: nat, who: Who, session: nat, id: string) {
    && j < |log| && log[j].Sent? && log[j].who == who && log[j].session == session
    && log[j].rpc.EstablishSubscriptionRpc? && AnsweredWell(log[j]) && log[j].reply.subscriptionID == id
    && SilentSince(log, j, who)
  }

  /** The listener was removed at `j`, and nothing was sent since. */
  ghost predicate UnlistenedAt(log: Log, j: nat, who: Who, session: nat, id: string) {
    && j < |log| && log[j].Unlistened? && log[j].who == who && log[j].session == session && log[j].id == id
    && SilentSince(log, j, who)
  }

  /** The resource of a forgotten session. */
  predicate Owns(who: Who, key: string) {
    who.kind.MountPoint? && who.nn.Key() == key
  }

  /** The RPCs of each kind. */
  predicate Speaks(kind: Kind, rpc: Rpc) {
    match kind
    case MountPoint => rpc.CloseSessionRpc? || rpc.KillSessionRpc?
    case Lock => rpc.LockRpc?
    case EditConfig => rpc.LockRpc? || rpc.EditConfigRpc? || rpc.CommitRpc? || rpc.UnlockRpc?
    case Commit => rpc.CommitRpc?
    case Unlock => rpc.UnlockRpc?
    case EstablishSubscription => rpc.EstablishSubscriptionRpc? || rpc.DeleteSubscriptionRpc?
  }

  ghost predicate EntrySaid(log: Log, i: nat)
    requires i < |log|
  {
    var e := log[i];
    && (e.Sent? ==> Speaks(e.who.kind, e.rpc))
    && (e.Forgotten? ==> exists who: Who, j: nat :: Owns(who, e.key) && ClosedAt(log[..i], j, who, e.session))
    && (e.Listened? ==> exists j: nat :: SubscribedAt(log[..i], j, e.who, e.session, e.id))
    && (e.Sent? && e.rpc.DeleteSubscriptionRpc? ==>
          exists j: nat :: UnlistenedAt(log[..i], j, e.who, e.session, e.rpc.id))
  }

  ghost predicate FlightSaid(log: Log, kind: Kind, w: Worker) {
    var who := WhoIs(kind, w);
    && (w.pc.Send? ==> forall rpc <- w.pc.todo :: Speaks(kind, rpc))
    && (kind.MountPoint? && w.pc.Send? && w.pc.todo == [KillSessionRpc] ==>
          exists j: nat :: ToKill(log, j, who, w.pc.session))
    && (kind.MountPoint? && w.pc.Forget? ==> exists j: nat :: ClosedAt(log, j, who, w.pc.session))
    && (kind.EstablishSubscription? && w.pc.Listen? ==>
          exists j: nat :: SubscribedAt(log, j, who, w.pc.session, w.pc.id))
    && (kind.EstablishSubscription? && w.pc.Send? && w.base.deleting ==>
          exists j: nat :: UnlistenedAt(log, j, who, w.pc.session, w.obj.status.subscriptionID))
  }

  ghost predicate Spoken(s: Sys) {
    && (forall i :: 0 <= i < |s.st.log| ==> EntrySaid(s.st.log, i))
    && (forall k <- s.workers :: FlightSaid(s.st.log, k, s.workers[k]))
  }

  // ----- frames -----

  lemma SilentSnoc(log: Log, e: Event, j: nat, who: Who)
    requires SilentSince(log, j, who) && (e.Sent? ==> e.who != who)
    ensures SilentSince(log + [e], j, who)
  {
  }

  /** An entry by which `who` sends nothing leaves all that as it is. */
  lemma FlightStaysSaid(log: Log, log': Log, kind: Kind, w: Worker)
    requires FlightSaid(log, kind, w) && Extends(log, log')
    requires |log'| > |log| && log'[|log|].Sent? ==> log'[|log|].who != WhoIs(kind, w)
    ensures FlightSaid(log', kind, w)
  {
    var who := WhoIs(kind, w);
    if |log'| == |log| {
      assert log' == log;
    } else {
      var e := log'[|log|];
      assert log' == log + [e];
      if kind.MountPoint? && w.pc.Send? && w.pc.todo == [KillSessionRpc] {
        var j: nat :| ToKill(log, j, who, w.pc.session);
        SilentSnoc(log, e, j, who);
        assert ToKill(log', j, who, w.pc.session);
      }
      if kind.MountPoint? && w.pc.Forget? {
        var j: nat :| ClosedAt(log, j, who, w.pc.session);
        ClosedStays(log, e, j, who, w.pc.session);
      }
      if kind.EstablishSubscription? && w.pc.Listen? {
        var j: nat :| SubscribedAt(log, j, who, w.pc.session, w.pc.id);
        SilentSnoc(log, e, j, who);
        assert SubscribedAt(log', j, who, w.pc.session, w.pc.id);
      }
      if kind.EstablishSubscription? && w.pc.Send? && w.base.deleting {
        var j: nat :| UnlistenedAt(log, j, who, w.pc.session, w.obj.status.subscriptionID);
        SilentSnoc(log, e, j, who);
        assert UnlistenedAt(log', j, who, w.pc.session, w.obj.status.subscriptionID);
      }
    }
  }

  lemma ClosedStays(log: Log, e: Event, j: nat, who: Who, session: nat)
    requires ClosedAt(log, j, who, session) && (e.Sent? ==> e.who != who)
    ensures ClosedAt(log + [e], j, who, session)
  {
    if AnsweredWell(log[j]) {
      SilentSnoc(log, e, j, who);
    } else {
      var k: nat :| j < k < |log| && Said(log[k], who, session, KillSessionRpc)
                    && SilentSince(log[..k], j, who) && SilentSince(log, k, who);
      SilentSnoc(log, e, k, who);
      assert (log + [e])[..k] == log[..k];
    }
  }

  lemma EntriesStaySaid(log: Log, log': Log)
    requires (forall i :: 0 <= i < |log| ==> EntrySaid(log, i)) && Extends(log, log')
    requires |log'| > |log| ==> EntrySaid(log', |log|)
    ensures forall i :: 0 <= i < |log'| ==> EntrySaid(log', i)
  {
    forall i | 0 <= i < |log'|
      ensures EntrySaid(log', i)
    {
      if i < |log| {
        assert EntrySaid(log, i) && log'[i] == log[i] && log'[..i] == log[..i];
      }
    }
  }

  // ----- one step -----

  lemma Kills(log: Log, e: Event, j: nat, who: Who, session: nat)
    requires ToKill(log, j, who, session) && Said(e, who, session, KillSessionRpc)
    ensures ClosedAt(log + [e], j, who, session)
  {
    var log' := log + [e];
    assert log'[..|log|] == log;
    assert Said(log'[|log|], who, session, KillSessionRpc) && SilentSince(log', |log|, who);
  }

  /** What sending leaves the MountPoint controller with. */
  lemma MountPointSays(st: State, w: Worker, c: Choice)
    requires w.pc.Send? && MountPointOk(st, w) && FlightSaid(st.log, MountPoint, w)
    ensures var (st', p) := StepWorker(st, MountPoint, w, c);
      && |st'.log| == |st.log| + 1 && st'.log[|st.log|].Sent? && !st'.log[|st.log|].rpc.DeleteSubscriptionRpc?
      && p.Go? && FlightSaid(st'.log, MountPoint, p.next)
  {
    var (st', p) := StepWorker(st, MountPoint, w, c);
    var who, n, e := WhoIs(MountPoint, w), |st.log|, st'.log[|st.log|];
    assert st'.log == st.log + [e];
    if w.pc.todo == [KillSessionRpc] {
      var j: nat :| ToKill(st.log, j, who, w.pc.session);
      Kills(st.log, e, j, who, w.pc.session);
      assert ClosedAt(st'.log, j, WhoIs(MountPoint, p.next), p.next.pc.session);
    } else {
      assert w.pc.todo[1..] == [KillSessionRpc];
      assert Said(e, who, w.pc.session, CloseSessionRpc) && SilentSince(st'.log, n, who);
      if AnsweredWell(e) {
        assert ClosedAt(st'.log, n, WhoIs(MountPoint, p.next), p.next.pc.session);
      } else {
        assert ToKill(st'.log, n, WhoIs(MountPoint, p.next), p.next.pc.session);
      }
    }
  }

  /** What sending leaves the EstablishSubscription controller with. */
  lemma SubscriptionSays(st: State, w: Worker, c: Choice)
    requires w.pc.Send? && FlightSub(st, EstablishSubscription, w) && Fits(EstablishSubscription, w)
    requires FlightSaid(st.log, EstablishSubscription, w)
    ensures var (st', p) := StepWorker(st, EstablishSubscription, w, c);
      && (|st'.log| > |st.log| ==> EntrySaid(st'.log, |st.log|))
      && (p.Go? ==> FlightSaid(st'.log, EstablishSubscription, p.next))
  {
    var (st', p) := StepWorker(st, EstablishSubscription, w, c);
    StepExtends(st, EstablishSubscription, w, c);
    if |st'.log| > |st.log| {
      assert st'.log[..|st.log|] == st.log;
      if p.Go? && p.next.pc.Listen? {
        assert SubscribedAt(st'.log, |st.log|, WhoIs(EstablishSubscription, p.next), p.next.pc.session, p.next.pc.id);
      }
    }
  }

  lemma LookupSays(st: State, kind: Kind, w: Worker, c: Choice)
    requires w.pc.Lookup? && Fits(kind, w)
    ensures var (st', p) := StepWorker(st, kind, w, c); st' == st && (p.Go? ==> FlightSaid(st'.log, kind, p.next))
  {
  }

  lemma UnlistenSays(st: State, kind: Kind, w: Worker, c: Choice)
    requires w.pc.Unlisten? && Fits(kind, w)
    ensures var (st', p) := StepWorker(st, kind, w, c);
      |st'.log| == |st.log| + 1 && st'.log[|st.log|].Unlistened? && p.Go? && FlightSaid(st'.log, kind, p.next)
  {
    var (st', p) := StepWorker(st, kind, w, c);
    assert UnlistenedAt(st'.log, |st.log|, WhoIs(kind, p.next), p.next.pc.session, p.next.obj.status.subscriptionID);
  }

  lemma ForgetSays(st: State, kind: Kind, w: Worker, c: Choice)
    requires w.pc.Forget? && Fits(kind, w) && FlightSaid(st.log, kind, w)
    ensures var (st', p) := StepWorker(st, kind, w, c);
      && |st'.log| == |st.log| + 1 && EntrySaid(st'.log, |st.log|) && !st'.log[|st.log|].Sent?
      && (p.Go? ==> FlightSaid(st'.log, kind, p.next))
  {
    var st' := StepWorker(st, kind, w, c).0;
    assert st'.log[..|st.log|] == st.log;
    var j: nat :| ClosedAt(st.log, j, WhoIs(kind, w), w.pc.session);
    assert Owns(WhoIs(kind, w), w.nn.Key());
  }

  lemma ListenSays(st: State, kind: Kind, w: Worker, c: Choice)
    requires w.pc.Listen? && Fits(kind, w) && FlightSaid(st.log, kind, w)
    ensures var (st', p) := StepWorker(st, kind, w, c);
      && |st'.log| == |st.log| + 1 && EntrySaid(st'.log, |st.log|) && !st'.log[|st.log|].Sent?
      && (p.Go? ==> FlightSaid(st'.log, kind, p.next))
  {
    assert StepWorker(st, kind, w, c).0.log[..|st.log|] == st.log;
  }

  /** The steps that send nothing. */
  lemma QuietStep(st: State, kind: Kind, w: Worker, c: Choice)
    requires !w.pc.Send? && Fits(kind, w) && FlightSaid(st.log, kind, w)
    ensures var (st', p) := StepWorker(st, kind, w, c);
      && (|st'.log| > |st.log| ==> EntrySaid(st'.log, |st.log|) && !st'.log[|st.log|].Sent?)
      && (p.Go? ==> FlightSaid(st'.log, kind, p.next))
  {
    match w.pc
    case Unlisten(_) => UnlistenSays(st, kind, w, c);
    case Listen(_, _) => ListenSays(st, kind, w, c);
    case Forget(_) => ForgetSays(st, kind, w, c);
    case Lookup => LookupSays(st, kind, w, c);
    case _ => RestSays(st, kind, w, c);
  }

  lemma RestSays(st: State, kind: Kind, w: Worker, c: Choice)
    requires !w.pc.Send? && !w.pc.Unlisten? && !w.pc.Listen? && !w.pc.Forget? && !w.pc.Lookup?
    ensures var (st', p) := StepWorker(st, kind, w, c);
      && (|st'.log| > |st.log| ==> EntrySaid(st'.log, |st.log|) && !st'.log[|st.log|].Sent?)
      && (p.Go? ==> !p.next.pc.Send? && !p.next.pc.Listen? && !p.next.pc.Forget?)
  {
    match w.pc
    case Initialize =>
    case Release =>
    case Report(_) =>
    case Dial =>
    case Hello(_) =>
    case Install(_) =>
    case HangUp(_) =>
    case _ => CheckSays(st, kind, w, c);
  }

  lemma CheckSays(st: State, kind: Kind, w: Worker, c: Choice)
    requires w.pc.CheckMountPoint? || w.pc.CheckSession? || w.pc.CheckDependency? || w.pc.Gate?
    ensures var (st', p) := StepWorker(st, kind, w, c);
      st' == st && (p.Go? ==> !p.next.pc.Send? && !p.next.pc.Listen? && !p.next.pc.Forget?)
  {
  }

  /** What sending leaves the other controllers with. */
  lemma OtherSays(st: State, kind: Kind, w: Worker, c: Choice)
    requires w.pc.Send? && !kind.MountPoint? && !kind.EstablishSubscription? && FlightSaid(st.log, kind, w)
    ensures var (st', p) := StepWorker(st, kind, w, c);
      && (|st'.log| > |st.log| ==> EntrySaid(st'.log, |st.log|))
      && (p.Go? ==> FlightSaid(st'.log, kind, p.next))
  {
    if w.pc.todo != [] {
      assert Speaks(kind, w.pc.todo[0]);
      assert forall rpc <- w.pc.todo[1..] :: rpc in w.pc.todo;
    }
  }

  lemma StepSaid(st: State, kind: Kind, w: Worker, c: Choice)
    requires Fits(kind, w) && FlightSub(st, kind, w) && HandOk(st, kind, w) && FlightSaid(st.log, kind, w)
    ensures var (st', p) := StepWorker(st, kind, w, c);
      && (|st'.log| > |st.log| ==>
            EntrySaid(st'.log, |st.log|) && (st'.log[|st.log|].Sent? ==> st'.log[|st.log|].who == WhoIs(kind, w)))
      && (p.Go? ==> FlightSaid(st'.log, kind, p.next))
  {
    if !w.pc.Send? {
      QuietStep(st, kind, w, c);
    } else if kind.MountPoint? {
      MountPointSays(st, w, c);
    } else if kind.EstablishSubscription? {
      SubscriptionSays(st, w, c);
    } else {
      OtherSays(st, kind, w, c);
    }
  }

  // ----- every action -----

  lemma SpokenAfter(s: Sys, kind: Kind, st: State, p: Progress)
    requires Spoken(s) && kind in s.workers && Extends(s.st.log, st.log)
    requires |st.log| > |s.st.log| ==> EntrySaid(st.log, |s.st.log|)
    requires |st.log| > |s.st.log| && st.log[|s.st.log|].Sent? ==> st.log[|s.st.log|].who.kind == kind
    requires p.Go? ==> FlightSaid(st.log, kind, p.next)
    ensures Spoken(After(s, kind, st, p))
  {
    var s' := After(s, kind, st, p);
    EntriesStaySaid(s.st.log, st.log);
    if p.Panic? {
      EntriesStaySaid(st.log, Restart(st).log);
    } else {
      forall k | k in s'.workers
        ensures FlightSaid(st.log, k, s'.workers[k])
      {
        if k != kind { FlightStaysSaid(s.st.log, st.log, k, s.workers[k]); }
      }
    }
  }

  lemma SpokenOther(s: Sys, s': Sys)
    requires Spoken(s) && Extends(s.st.log, s'.st.log)
    requires |s'.st.log| > |s.st.log| ==> Unrelated(s'.st.log[|s.st.log|]) && !s'.st.log[|s.st.log|].Forgotten?
    requires forall k <- s'.workers :: (k in s.workers && s'.workers[k] == s.workers[k])
                                       || s'.workers[k].pc.CheckMountPoint? || s'.workers[k].pc.Initialize?
    ensures Spoken(s')
  {
    EntriesStaySaid(s.st.log, s'.st.log);
    forall k | k in s'.workers
      ensures FlightSaid(s'.st.log, k, s'.workers[k])
    {
      if k in s.workers && s'.workers[k] == s.workers[k] { FlightStaysSaid(s.st.log, s'.st.log, k, s.workers[k]); }
    }
  }

  lemma SpokenKept(s: Sys, a: Action)
    requires Shape(s) && Cache(s) && Subs(s) && Spoken(s)
    ensures Spoken(Apply(s, a))
  {
    match a
    case Begin(_, _) => SpokenOther(s, Apply(s, a));
    case Step(kind, c) =>
      if kind in s.workers {
        var w := s.workers[kind];
        assert WorkerOk(s.st, kind, w) && HandOk(s.st, kind, w) && FlightSub(s.st, kind, w);
        var (st, p) := StepWorker(s.st, kind, w, c);
        StepExtends(s.st, kind, w, c);
        StepSaid(s.st, kind, w, c);
        SpokenAfter(s, kind, st, p);
      }
    case Crash => SpokenOther(s, Apply(s, a));
    case _ =>
      UserFrame(s, a);
      SpokenOther(s, Apply(s, a));
  }
}
