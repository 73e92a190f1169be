/** Who owns which listener. Listeners belong to a session, and so do the ids: another session, even one of the
    same MountPoint, may be with another device. */
module Listeners {
  import opened Api
  import opened Operator
  import opened Invariants
  import opened SessionCache
  import opened SessionLife
  import opened Lookups
  import opened Subscriptions

  // ----- the listeners of a session are what the log says -----

  /** The entry registers or removes the id on the session. */
  predicate About(e: Event, session: nat, id: string) {
    (e.Listened? || e.Unlistened?) && e.session == session && e.id == id
  }

  /** The last thing that happened to the id on the session was its registration. */
  predicate Listens(log: Log, session: nat, id: string) {
    && log != []
    && var e := log[|log| - 1];
       if About(e, session, id) then e.Listened? else Listens(log[..|log| - 1], session, id)
  }

  predicate SameListeners(st: State, session: nat, id: string) {
    id != STREAM_HANDLER ==> (id in ListenersOf(st.dialled, session) <==> Listens(st.log, session, id))
  }

  predicate Home(st: State, session: nat, key: string) {
    session < |st.dialled| && st.dialled[session].owner.Key() == key
  }

  /** Listeners change on sessions dialled for the MountPoint named; only the id of an object being deleted is
      taken away, and only one it had registered. */
  ghost predicate EntryHeard(st: State, j: nat)
    requires j < |st.log|
  {
    var e := st.log[j];
    && (e.Listened? ==> Home(st, e.session, e.key))
    && (e.Unlistened? ==>
          && Home(st, e.session, e.key) && Registered(st.log[..j], e.who, e.id) && e.who.uid < st.nextUid
          && var key := ObjKey(e.who.kind, e.who.nn);
             key in st.store && st.store[key].uid == e.who.uid ==> st.store[key].deleting)
  }

  ghost predicate Heard(st: State) {
    && (forall t: nat, id :: SameListeners(st, t, id))
    && (forall j :: 0 <= j < |st.log| ==> EntryHeard(st, j))
  }

  lemma ListensAppend(log: Log, e: Event, session: nat, id: string)
    ensures Listens(log + [e], session, id) <==>
      if About(e, session, id) then e.Listened? else Listens(log, session, id)
  {
    assert (log + [e])[..|log|] == log;
  }

  // ----- frames -----

  predicate Continues(before: Option<Obj>, after: Option<Obj>, nextUid: nat) {
    after.Some? ==>
      || (before.Some? && after.value.uid == before.value.uid && (before.value.deleting ==> after.value.deleting))
      || after.value.uid >= nextUid
  }

  /** Objects keep their uid and their deletion mark; new ones have new uids. */
  ghost predicate StoreContinues(st: State, st': State) {
    st.nextUid <= st'.nextUid && forall key :: Continues(Find(st, key), Find(st', key), st.nextUid)
  }

  lemma StepContinues(st: State, kind: Kind, w: Worker, c: Choice)
    requires WorkerOk(st, kind, w)
    ensures StoreContinues(st, StepWorker(st, kind, w, c).0)
  {
    StepTracks(st, kind, w, c);
    StepAges(st, kind, w, c);
    var st' := StepWorker(st, kind, w, c).0;
    forall key
      ensures Continues(Find(st, key), Find(st', key), st.nextUid)
    {
      if key != ObjKey(kind, w.nn) { assert Find(st', key) == Find(st, key); }
    }
  }

  lemma UserContinues(s: Sys, a: Action)
    requires ByUser(a)
    ensures StoreContinues(s.st, Apply(s, a).st)
  {
    UserFrame(s, a);
    var st' := Apply(s, a).st;
    forall key
      ensures Continues(Find(s.st, key), Find(st', key), s.st.nextUid)
    {
      if key in st'.store { assert UserKept(s.st, st', key); }
    }
  }

  lemma EntryStaysHeard(st: State, st': State, j: nat)
    requires j < |st.log| && EntryHeard(st, j)
    requires st.log <= st'.log && Grows(st.dialled, st'.dialled) && StoreContinues(st, st')
    ensures EntryHeard(st', j)
  {
    assert st'.log[j] == st.log[j] && st'.log[..j] == st.log[..j];
    var e := st.log[j];
    if e.Unlistened? {
      var key := ObjKey(e.who.kind, e.who.nn);
      assert Continues(Find(st, key), Find(st', key), st.nextUid);
    }
  }

  // ----- one step -----

  /** Registering or removing one id on one session. */
  lemma ListenersMove(st: State, st': State, session: nat, id: string, e: Event)
    requires (forall t: nat, x :: SameListeners(st, t, x)) && session < |st.dialled|
    requires st'.log == st.log + [e] && (e.Listened? || e.Unlistened?) && e.session == session && e.id == id
    requires var there := ListenersOf(st.dialled, session);
      st'.dialled == SetListeners(st.dialled, session, if e.Listened? then there + {id} else there - {id})
    ensures forall t: nat, x :: SameListeners(st', t, x)
  {
    forall t: nat, x
      ensures SameListeners(st', t, x)
    {
      assert SameListeners(st, t, x);
      ListensAppend(st.log, e, t, x);
    }
  }

  /** The log grew by at most an entry that is not about listeners, and no session lost one. */
  lemma ListenersRest(st: State, st': State)
    requires forall t: nat, x :: SameListeners(st, t, x)
    requires Extends(st.log, st'.log)
    requires |st'.log| > |st.log| ==> !st'.log[|st.log|].Listened? && !st'.log[|st.log|].Unlistened?
    requires forall t: nat, x :: x != STREAM_HANDLER ==>
               (x in ListenersOf(st'.dialled, t) <==> x in ListenersOf(st.dialled, t))
    ensures forall t: nat, x :: SameListeners(st', t, x)
  {
    forall t: nat, x
      ensures SameListeners(st', t, x)
    {
      assert SameListeners(st, t, x);
      if |st'.log| > |st.log| {
        ListensAppend(st.log, st'.log[|st.log|], t, x);
        assert st'.log == st.log + [st'.log[|st.log|]];
      } else {
        assert st'.log == st.log;
      }
    }
  }

  lemma DialledRest(st: State, kind: Kind, w: Worker, c: Choice)
    requires !w.pc.Listen? && !w.pc.Unlisten?
    ensures var st' := StepWorker(st, kind, w, c).0;
      forall t: nat, x :: x != STREAM_HANDLER ==>
        (x in ListenersOf(st'.dialled, t) <==> x in ListenersOf(st.dialled, t))
  {
    match w.pc
    case Dial =>
    case HangUp(_) =>
    case _ => SameDialled(st, kind, w, c);
  }

  lemma StepListeners(st: State, kind: Kind, w: Worker, c: Choice)
    requires (forall t: nat, x :: SameListeners(st, t, x)) && HandOk(st, kind, w)
    ensures forall t: nat, x :: SameListeners(StepWorker(st, kind, w, c).0, t, x)
  {
    var st' := StepWorker(st, kind, w, c).0;
    StepExtends(st, kind, w, c);
    if w.pc.Listen? {
      ListenersMove(st, st', w.pc.session, w.pc.id, st'.log[|st.log|]);
    } else if w.pc.Unlisten? {
      ListenersMove(st, st', w.pc.session, w.obj.status.subscriptionID, st'.log[|st.log|]);
    } else {
      StepUnheard(st, kind, w, c);
      DialledRest(st, kind, w, c);
      ListenersRest(st, st');
    }
  }

  lemma StepUnheard(st: State, kind: Kind, w: Worker, c: Choice)
    requires !w.pc.Listen? && !w.pc.Unlisten?
    ensures var log' := StepWorker(st, kind, w, c).0.log;
      |log'| > |st.log| ==> !log'[|st.log|].Listened? && !log'[|st.log|].Unlistened?
  {
    if w.pc.Send? {
    } else {
      StepUnrelated(st, kind, w, c);
    }
  }

  lemma StepEntryHeard(st: State, kind: Kind, w: Worker, c: Choice)
    requires WorkerOk(st, kind, w) && HandOk(st, kind, w) && FlightSub(st, kind, w)
    ensures var st' := StepWorker(st, kind, w, c).0; |st'.log| > |st.log| ==> EntryHeard(st', |st.log|)
  {
    var st' := StepWorker(st, kind, w, c).0;
    StepExtends(st, kind, w, c);
    if w.pc.Unlisten? {
      assert st'.log[..|st.log|] == st.log;
    } else if !w.pc.Listen? {
      StepUnheard(st, kind, w, c);
    }
  }

  lemma HeardStep(s: Sys, kind: Kind, c: Choice)
    requires Shape(s) && Cache(s) && Subs(s) && Heard(s.st) && kind in s.workers
    ensures Heard(StepWorker(s.st, kind, s.workers[kind], c).0)
  {
    var w := s.workers[kind];
    assert WorkerOk(s.st, kind, w) && HandOk(s.st, kind, w) && FlightSub(s.st, kind, w);
    var st' := StepWorker(s.st, kind, w, c).0;
    StepExtends(s.st, kind, w, c);
    StepGrows(s.st, kind, w, c);
    StepContinues(s.st, kind, w, c);
    StepListeners(s.st, kind, w, c);
    StepEntryHeard(s.st, kind, w, c);
    forall j | 0 <= j < |st'.log|
      ensures EntryHeard(st', j)
    {
      if j < |s.st.log| { EntryStaysHeard(s.st, st', j); }
    }
  }

  lemma HeardOther(st: State, st': State)
    requires Heard(st) && Extends(st.log, st'.log) && st'.dialled == st.dialled && StoreContinues(st, st')
    requires |st'.log| > |st.log| ==> !st'.log[|st.log|].Listened? && !st'.log[|st.log|].Unlistened?
    ensures Heard(st')
  {
    ListenersRest(st, st');
    forall j | 0 <= j < |st'.log|
      ensures EntryHeard(st', j)
    {
      if j < |st.log| { EntryStaysHeard(st, st', j); }
    }
  }

  lemma HeardKept(s: Sys, a: Action)
    requires Shape(s) && Cache(s) && Subs(s) && Heard(s.st)
    ensures Heard(Apply(s, a).st)
  {
    match a
    case Begin(_, _) =>
    case Step(kind, c) =>
      if kind in s.workers {
        HeardStep(s, kind, c);
        var (st, p) := StepWorker(s.st, kind, s.workers[kind], c);
        HeardOther(st, Restart(st));
      }
    case Crash => HeardOther(s.st, Restart(s.st));
    case _ =>
      UserFrame(s, a);
      UserContinues(s, a);
      HeardOther(s.st, Apply(s, a).st);
  }

  // ----- ownership -----

  /** The registration at `i` is the last thing that happened to its id on its session. */
  ghost predicate Current(log: Log, i: nat) {
    && i < |log| && log[i].Listened?
    && forall k :: i < k < |log| ==> !About(log[k], log[i].session, log[i].id)
  }

  /** On no session is an id issued that is still registered there, and none is the name of the stream handler.
      Different sessions may issue the same id, and so may one session once the listener is gone. */
  ghost predicate NoReissue(log: Log) {
    forall j :: 0 <= j < |log| && log[j].Listened? ==>
      log[j].id != STREAM_HANDLER && !Listens(log[..j], log[j].session, log[j].id)
  }

  /** The clean-up at `j` took away the listener registered at `i`. */
  ghost predicate Hits(log: Log, i: nat, j: nat) {
    i < j < |log| && Current(log[..j], i) && log[j].Unlistened? && About(log[j], log[i].session, log[i].id)
  }

  /** The resource itself registered what is now registered as `id` on the session. */
  ghost predicate OwnNow(log: Log, who: Who, id: string, session: nat) {
    exists l: nat :: Current(log, l) && ListenedAs(log[l], who, id) && log[l].session == session
  }

  /** A clean-up of a listener that is not, or no longer, its resource's own. */
  ghost predicate Stray(log: Log, j: nat) {
    j < |log| && log[j].Unlistened? && !OwnNow(log[..j], log[j].who, log[j].id, log[j].session)
  }

  lemma CurrentSnoc(log: Log, e: Event, i: nat)
    requires i < |log|
    ensures Current(log + [e], i) <==> Current(log, i) && !About(e, log[i].session, log[i].id)
  {
    var log' := log + [e];
    assert log'[i] == log[i] && log'[|log|] == e;
    if Current(log', i) {
      forall k | i < k < |log|
        ensures !About(log[k], log[i].session, log[i].id)
      {
        assert log'[k] == log[k];
      }
    }
  }

  lemma {:induction false} CurrentListens(log: Log, i: nat)
    requires Current(log, i)
    ensures Listens(log, log[i].session, log[i].id)
    decreases |log|
  {
    var n := |log| - 1;
    if i < n {
      assert log == log[..n] + [log[n]];
      CurrentSnoc(log[..n], log[n], i);
      CurrentListens(log[..n], i);
    }
  }

  lemma NoReissuePrefix(log: Log, n: nat)
    requires NoReissue(log) && n <= |log|
    ensures NoReissue(log[..n])
  {
    forall j | 0 <= j < n && log[..n][j].Listened?
      ensures log[..n][j].id != STREAM_HANDLER && !Listens(log[..n][..j], log[..n][j].session, log[..n][j].id)
    {
      assert log[..n][..j] == log[..j];
    }
  }

  /** A registration is current iff no clean-up took its listener away. */
  lemma {:induction false} CurrentIff(log: Log, i: nat)
    requires NoReissue(log) && i < |log| && log[i].Listened?
    ensures Current(log, i) <==> forall j :: i < j < |log| ==> !Hits(log, i, j)
    decreases |log|
  {
    var n := |log| - 1;
    if i < n {
      var rest := log[..n];
      assert log == rest + [log[n]];
      NoReissuePrefix(log, n);
      CurrentIff(rest, i);
      CurrentSnoc(rest, log[n], i);
      forall j | i < j < n
        ensures Hits(log, i, j) <==> Hits(rest, i, j)
      {
        assert rest[..j] == log[..j];
      }
      assert log[..n] == rest && log[i] == rest[i];
      if Current(rest, i) {
        CurrentListens(rest, i);
        assert About(log[n], log[i].session, log[i].id) <==> Hits(log, i, n);
      } else {
        var j :| i < j < n && Hits(rest, i, j);
        assert Hits(log, i, j);
      }
    }
  }

  /** So a registered listener is there, its resource's own, iff no clean-up took it away. */
  lemma RegisteredIff(st: State, i: nat)
    requires Heard(st) && NoReissue(st.log) && i < |st.log| && st.log[i].Listened?
    ensures Current(st.log, i) <==> forall j :: i < j < |st.log| ==> !Hits(st.log, i, j)
    ensures Current(st.log, i) ==> st.log[i].id in ListenersOf(st.dialled, st.log[i].session)
  {
    CurrentIff(st.log, i);
    if Current(st.log, i) {
      CurrentListens(st.log, i);
      assert SameListeners(st, st.log[i].session, st.log[i].id);
    }
  }

  lemma OneCurrent(log: Log, i: nat, l: nat)
    requires Current(log, i) && Current(log, l) && log[i].session == log[l].session && log[i].id == log[l].id
    ensures i == l
  {
    assert i < l || l < i || i == l;
  }

  /** While its object is not being deleted, a listener is taken away by stray clean-ups of others only. */
  lemma OnlyStraysHit(st: State, i: nat, j: nat)
    requires Heard(st) && Hits(st.log, i, j)
    requires var key := ObjKey(st.log[i].who.kind, st.log[i].who.nn);
      key in st.store && st.store[key].uid == st.log[i].who.uid && !st.store[key].deleting
    ensures Stray(st.log, j) && st.log[j].who != st.log[i].who
  {
    assert EntryHeard(st, j);
    var before := st.log[..j];
    forall l: nat | Current(before, l) && before[l].session == st.log[j].session && before[l].id == st.log[j].id
      ensures l == i
    {
      OneCurrent(before, i, l);
    }
  }

  /** How a clean-up comes to be stray: the resource never got the id on that session, or what it got there was
      already cleaned up. */
  lemma WhyStray(log: Log, j: nat, l: nat) returns (u: nat)
    requires NoReissue(log) && Stray(log, j) && l < j
    requires ListenedAs(log[l], log[j].who, log[j].id) && log[l].session == log[j].session
    ensures u < j && Hits(log, l, u)
  {
    var before := log[..j];
    NoReissuePrefix(log, j);
    assert before[l] == log[l];
    CurrentIff(before, l);
    assert !Current(before, l);
    u :| l < u < |before| && Hits(before, l, u);
    assert before[..u] == log[..u];
  }

  /** One clean-up step leaves somebody else's listener current iff it is not that id on that session that it
      removes; in particular it does whenever what is registered there is the resource's own. */
  lemma CleanUpSparesOthers(st: State, w: Worker, c: Choice, i: nat)
    requires w.pc.Unlisten? && Current(st.log, i) && st.log[i].who != WhoIs(EstablishSubscription, w)
    ensures var own, st' := w.obj.status.subscriptionID, StepWorker(st, EstablishSubscription, w, c).0;
      && (Current(st'.log, i) <==> !(w.pc.session == st.log[i].session && own == st.log[i].id))
      && (OwnNow(st.log, WhoIs(EstablishSubscription, w), own, w.pc.session) ==> Current(st'.log, i))
  {
    var who, own := WhoIs(EstablishSubscription, w), w.obj.status.subscriptionID;
    var st' := StepWorker(st, EstablishSubscription, w, c).0;
    CurrentSnoc(st.log, st'.log[|st.log|], i);
    if OwnNow(st.log, who, own, w.pc.session) && w.pc.session == st.log[i].session && own == st.log[i].id {
      var l: nat :| Current(st.log, l) && ListenedAs(st.log[l], who, own) && st.log[l].session == w.pc.session;
      OneCurrent(st.log, i, l);
      assert false;
    }
  }
}
