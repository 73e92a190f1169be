/** The stored status tells the truth about the past: it is decided by the latest execution whose status was
    persisted for that very object, and for the kinds that look at the reply to their one RPC by how clean it was. */
module StatusHistory {
  import opened Api
  import opened Operator
  import opened Invariants
  import opened SessionLife

  /** The kinds that send one RPC and look at all of its reply. */
  predicate SingleRpc(kind: Kind) {
    kind.Lock? || kind.Commit? || kind.Unlock? || kind.EstablishSubscription?
  }

  /** How the latest persisted execution of `who` ended. */
  function LastRan(log: Log, who: Who): Option<bool> {
    if log == [] then None
    else
      var e := log[|log| - 1];
      if e.StatusWritten? && e.who == who && e.ran.Some? then e.ran else LastRan(log[..|log| - 1], who)
  }

  /** The latest reply `who` received. */
  function LastReply(log: Log, who: Who): Option<Outcome> {
    if log == [] then None
    else
      var e := log[|log| - 1];
      if e.Sent? && e.who == who then Some(e.reply) else LastReply(log[..|log| - 1], who)
  }

  function StatusAfter(kind: Kind, ran: Option<bool>): string {
    if ran.None? then "" else StatusName(kind, ran.value)
  }

  /** An execution that ended with `ok` got the reply it says; that of an EditConfig got some reply and is `ok`. */
  predicate CleanlyRan(log: Log, who: Who, ok: bool) {
    var reply := LastReply(log, who);
    && (SingleRpc(who.kind) ==>
          reply.Some? && (ok <==> reply.value.Reply? && !reply.value.err && !reply.value.errors))
    && (who.kind.EditConfig? ==> ok && reply.Some? && reply.value.Reply?)
  }

  function Subject(e: Event): Option<Who> {
    if e.Sent? || e.StatusWritten? then Some(e.who) else None
  }

  ghost predicate EntryTrue(log: Log, i: nat, nextUid: nat)
    requires i < |log|
  {
    && (Subject(log[i]).Some? ==> Subject(log[i]).value.uid < nextUid)
    && (log[i].StatusWritten? && log[i].ran.Some? ==> CleanlyRan(log[..i], log[i].who, log[i].ran.value))
  }

  ghost predicate LogTrue(st: State) {
    forall i :: 0 <= i < |st.log| ==> EntryTrue(st.log, i, st.nextUid)
  }

  ghost predicate StatusTrue(st: State, key: ObjKey)
    requires key in st.store
  {
    st.store[key].status.status == StatusAfter(key.kind, LastRan(st.log, Who(key.kind, key.nn, st.store[key].uid)))
  }

  ghost predicate FlightTrue(st: State, kind: Kind, w: Worker) {
    && (w.ran.None? ==> w.obj.status.status == w.base.status.status)
    && (w.pc.Listen? ==> CleanlyRan(st.log, WhoIs(kind, w), true))
    && (w.ran.Some? ==> w.obj.status.status == StatusName(kind, w.ran.value))
    && (w.ran.Some? ==> (w.pc.Install? || w.pc.Report?) && CleanlyRan(st.log, WhoIs(kind, w), w.ran.value))
  }

  ghost predicate Truthful(s: Sys) {
    && LogTrue(s.st)
    && (forall key <- s.st.store :: StatusTrue(s.st, key))
    && (forall k <- s.workers :: FlightTrue(s.st, k, s.workers[k]))
  }

  // ----- entries about others -----

  lemma AppendOther(log: Log, e: Event, who: Who)
    requires Subject(e) != Some(who)
    ensures LastRan(log + [e], who) == LastRan(log, who) && LastReply(log + [e], who) == LastReply(log, who)
  {
    assert (log + [e])[..|log|] == log;
  }

  lemma ExtendOther(log: Log, log': Log, who: Who)
    requires Extends(log, log') && (|log'| > |log| ==> Subject(log'[|log|]) != Some(who))
    ensures LastRan(log', who) == LastRan(log, who) && LastReply(log', who) == LastReply(log, who)
  {
    if |log'| > |log| {
      assert log' == log + [log'[|log|]];
      AppendOther(log, log'[|log|], who);
    } else {
      assert log' == log;
    }
  }

  lemma GrowTrue(st: State, st': State)
    requires LogTrue(st) && Extends(st.log, st'.log) && st.nextUid <= st'.nextUid
    requires |st'.log| > |st.log| ==> EntryTrue(st'.log, |st.log|, st'.nextUid)
    ensures LogTrue(st')
  {
    forall i | 0 <= i < |st'.log|
      ensures EntryTrue(st'.log, i, st'.nextUid)
    {
      if i < |st.log| {
        assert EntryTrue(st.log, i, st.nextUid);
        assert st'.log[..i] == st.log[..i];
      }
    }
  }

  /** A fresh uid has no history. */
  lemma NoHistory(log: Log, who: Who, nextUid: nat)
    requires who.uid >= nextUid
    requires forall i :: 0 <= i < |log| ==> Subject(log[i]).Some? ==> Subject(log[i]).value.uid < nextUid
    ensures LastRan(log, who) == None
  {
    if log != [] {
      var rest := log[..|log| - 1];
      assert forall i :: 0 <= i < |rest| ==> rest[i] == log[i];
      NoHistory(rest, who, nextUid);
      assert Subject(log[|log| - 1]).Some? ==> Subject(log[|log| - 1]).value.uid < nextUid;
    }
  }

  // ----- one step of a reconcile -----

  /** What a step may add is about its own object, and about a reply only when it sends. */
  lemma StepSubject(st: State, kind: Kind, w: Worker, c: Choice)
    ensures var log' := StepWorker(st, kind, w, c).0.log;
      |log'| > |st.log| ==>
        && (Subject(log'[|st.log|]).Some? ==>
              (w.pc.Send? || w.pc.Report?) && Subject(log'[|st.log|]) == Some(WhoIs(kind, w)))
        && (w.pc.Report? ==> log'[|st.log|] == StatusWritten(WhoIs(kind, w), w.ran, w.obj.status.status))
        && (w.pc.Send? ==> log'[|st.log|].Sent?)
  {
    match w.pc
    case Report(_) =>
    case Send(_, _) =>
    case _ => NoSubject(st, kind, w, c);
  }

  lemma NoSubject(st: State, kind: Kind, w: Worker, c: Choice)
    requires !w.pc.Send? && !w.pc.Report?
    ensures var log' := StepWorker(st, kind, w, c).0.log; |log'| > |st.log| ==> Subject(log'[|st.log|]).None?
  {
    match w.pc
    case Initialize =>
    case Release =>
    case Unlisten(_) =>
    case Listen(_, _) =>
    case Dial =>
    case Hello(_) =>
    case Install(_) =>
    case Forget(_) =>
    case HangUp(_) =>
    case _ => LookStep(st, kind, w, c);
  }

  lemma StepLogTrue(st: State, kind: Kind, w: Worker, c: Choice)
    requires LogTrue(st) && WorkerOk(st, kind, w) && FlightTrue(st, kind, w)
    ensures LogTrue(StepWorker(st, kind, w, c).0)
  {
    var st' := StepWorker(st, kind, w, c).0;
    StepExtends(st, kind, w, c);
    StepSubject(st, kind, w, c);
    StepTracks(st, kind, w, c);
    if |st'.log| > |st.log| {
      assert st'.log[..|st.log|] == st.log;
    }
    GrowTrue(st, st');
  }

  /** An object other than the one the reconcile works on keeps its history. */
  lemma StepOther(st: State, kind: Kind, w: Worker, c: Choice, who: Who)
    requires who != WhoIs(kind, w)
    ensures var log' := StepWorker(st, kind, w, c).0.log;
      LastRan(log', who) == LastRan(st.log, who) && LastReply(log', who) == LastReply(st.log, who)
  {
    StepExtends(st, kind, w, c);
    StepSubject(st, kind, w, c);
    ExtendOther(st.log, StepWorker(st, kind, w, c).0.log, who);
  }

  lemma ReportRan(log: Log, e: Event)
    requires e.StatusWritten?
    ensures LastRan(log + [e], e.who) == if e.ran.Some? then e.ran else LastRan(log, e.who)
  {
    assert (log + [e])[..|log|] == log;
  }

  lemma SentRan(log: Log, e: Event)
    requires e.Sent?
    ensures LastRan(log + [e], e.who) == LastRan(log, e.who) && LastReply(log + [e], e.who) == Some(e.reply)
  {
    assert (log + [e])[..|log|] == log;
  }

  lemma StepOwnStatus(st: State, kind: Kind, w: Worker, c: Choice)
    requires WorkerOk(st, kind, w) && FlightTrue(st, kind, w)
    requires ObjKey(kind, w.nn) in st.store ==> StatusTrue(st, ObjKey(kind, w.nn))
    ensures var st' := StepWorker(st, kind, w, c).0;
      ObjKey(kind, w.nn) in st'.store ==> StatusTrue(st', ObjKey(kind, w.nn))
  {
    var st' := StepWorker(st, kind, w, c).0;
    var key := ObjKey(kind, w.nn);
    if key in st'.store {
      StepExtends(st, kind, w, c);
      StepSubject(st, kind, w, c);
      if w.pc.Initialize? || w.pc.Release? || w.pc.Report? {
        WriteStep(st, kind, w, c);
      } else {
        ReadStep(st, kind, w, c);
      }
      var who := Who(kind, w.nn, st'.store[key].uid);
      if who != WhoIs(kind, w) {
        StepOther(st, kind, w, c, who);
      } else if |st'.log| > |st.log| {
        var e := st'.log[|st.log|];
        assert st'.log == st.log + [e];
        if w.pc.Report? {
          ReportRan(st.log, e);
        } else if w.pc.Send? {
          SentRan(st.log, e);
        } else {
          ExtendOther(st.log, st'.log, who);
        }
      } else {
        assert st'.log == st.log;
      }
    }
  }

  lemma StepStatus(s: Sys, kind: Kind, c: Choice)
    requires Shape(s) && Truthful(s) && kind in s.workers
    ensures var st := StepWorker(s.st, kind, s.workers[kind], c).0; forall key <- st.store :: StatusTrue(st, key)
  {
    var w := s.workers[kind];
    var st := StepWorker(s.st, kind, w, c).0;
    assert WorkerOk(s.st, kind, w) && FlightTrue(s.st, kind, w);
    StepTracks(s.st, kind, w, c);
    forall key | key in st.store
      ensures StatusTrue(st, key)
    {
      if key == ObjKey(kind, w.nn) {
        StepOwnStatus(s.st, kind, w, c);
      } else {
        assert Find(st, key) == Find(s.st, key);
        assert StatusTrue(s.st, key);
        StepOther(s.st, kind, w, c, Who(key.kind, key.nn, st.store[key].uid));
      }
    }
  }

  lemma TrueReply(st: State, kind: Kind, w: Worker, reply: Outcome)
    requires Fits(kind, w) && FlightTrue(st, kind, w) && w.pc.Send? && |w.pc.todo| > 0
    requires LastReply(st.log, WhoIs(kind, w)) == Some(reply)
    ensures var p := AfterReply(kind, w, w.pc.session, w.pc.todo, reply); p.Go? ==> FlightTrue(st, kind, p.next)
  {
    match kind
    case EditConfig =>
    case MountPoint =>
    case EstablishSubscription =>
    case _ =>
  }

  lemma TrueCheck(st: State, kind: Kind, w: Worker, c: Choice)
    requires Fits(kind, w) && FlightTrue(st, kind, w)
    requires w.pc.CheckMountPoint? || w.pc.CheckSession? || w.pc.CheckDependency? || w.pc.Gate?
    ensures var (st', p) := StepWorker(st, kind, w, c); p.Go? ==> FlightTrue(st', kind, p.next)
  {
  }

  lemma TrueElse(st: State, kind: Kind, w: Worker, c: Choice)
    requires Fits(kind, w) && FlightTrue(st, kind, w)
    requires !w.pc.CheckMountPoint? && !w.pc.CheckSession? && !w.pc.CheckDependency? && !w.pc.Gate? && !w.pc.Send?
    ensures var (st', p) := StepWorker(st, kind, w, c); p.Go? ==> FlightTrue(st', kind, p.next)
  {
    match w.pc
    case Lookup =>
    case Unlisten(_) =>
    case Listen(_, _) =>
    case Dial =>
    case Hello(_) =>
    case Install(_) =>
    case Forget(_) =>
    case HangUp(_) =>
    case Initialize =>
    case _ =>
  }

  lemma TrueStep(st: State, kind: Kind, w: Worker, c: Choice)
    requires Fits(kind, w) && FlightTrue(st, kind, w)
    ensures var (st', p) := StepWorker(st, kind, w, c); p.Go? ==> FlightTrue(st', kind, p.next)
  {
    match w.pc
    case CheckMountPoint => TrueCheck(st, kind, w, c);
    case CheckSession => TrueCheck(st, kind, w, c);
    case CheckDependency => TrueCheck(st, kind, w, c);
    case Gate => TrueCheck(st, kind, w, c);
    case Send(s, todo) =>
      if |todo| > 0 && todo[0].Buildable(c.xmlOk) {
        var st' := StepWorker(st, kind, w, c).0;
        SentRan(st.log, st'.log[|st.log|]);
        TrueReply(st', kind, w, c.reply);
      }
    case _ => TrueElse(st, kind, w, c);
  }

  lemma TrueAfter(s: Sys, kind: Kind, st: State, p: Progress)
    requires Truthful(s) && kind in s.workers && Extends(s.st.log, st.log) && LogTrue(st)
    requires |st.log| > |s.st.log| && Subject(st.log[|s.st.log|]).Some? ==>
        Subject(st.log[|s.st.log|]).value.kind == kind
    requires forall key <- st.store :: StatusTrue(st, key)
    requires p.Go? ==> FlightTrue(st, kind, p.next)
    ensures Truthful(After(s, kind, st, p))
  {
    var s' := After(s, kind, st, p);
    if p.Panic? {
      TrueRestart(st);
    } else {
      forall k | k in s'.workers
        ensures FlightTrue(st, k, s'.workers[k])
      {
        if k != kind {
          assert FlightTrue(s.st, k, s.workers[k]);
          ExtendOther(s.st.log, st.log, WhoIs(k, s.workers[k]));
        }
      }
    }
  }

  lemma TrueRestart(st: State)
    requires LogTrue(st) && forall key <- st.store :: StatusTrue(st, key)
    ensures Truthful(Sys(Restart(st), map[]))
  {
    var st' := Restart(st);
    GrowTrue(st, st');
    forall key | key in st'.store
      ensures StatusTrue(st', key)
    {
      assert StatusTrue(st, key);
      ExtendOther(st.log, st'.log, Who(key.kind, key.nn, st.store[key].uid));
    }
  }

  lemma TrueUser(s: Sys, a: Action)
    requires Truthful(s) && ByUser(a)
    ensures Truthful(Apply(s, a))
  {
    UserFrame(s, a);
    var st := Apply(s, a).st;
    GrowTrue(s.st, st);
    forall key | key in st.store
      ensures StatusTrue(st, key)
    {
      assert UserKept(s.st, st, key);
      var who := Who(key.kind, key.nn, st.store[key].uid);
      if key in s.st.store {
        assert StatusTrue(s.st, key);
        ExtendOther(s.st.log, st.log, who);
      } else {
        forall i | 0 <= i < |s.st.log| && Subject(s.st.log[i]).Some?
          ensures Subject(s.st.log[i]).value.uid < s.st.nextUid
        {
          assert EntryTrue(s.st.log, i, s.st.nextUid);
        }
        NoHistory(s.st.log, who, s.st.nextUid);
      }
    }
    forall k | k in s.workers
      ensures FlightTrue(st, k, s.workers[k])
    {
      assert FlightTrue(s.st, k, s.workers[k]);
      ExtendOther(s.st.log, st.log, WhoIs(k, s.workers[k]));
    }
  }

  lemma TruthfulKept(s: Sys, a: Action)
    requires Shape(s) && Truthful(s)
    ensures Truthful(Apply(s, a))
  {
    match a
    case Begin(kind, nn) =>
    case Step(kind, c) =>
      if kind in s.workers {
        var w := s.workers[kind];
        assert WorkerOk(s.st, kind, w) && FlightTrue(s.st, kind, w);
        var (st, p) := StepWorker(s.st, kind, w, c);
        StepExtends(s.st, kind, w, c);
        StepSubject(s.st, kind, w, c);
        StepLogTrue(s.st, kind, w, c);
        StepStatus(s, kind, c);
        TrueStep(s.st, kind, w, c);
        TrueAfter(s, kind, st, p);
      }
    case Crash => TrueRestart(s.st);
    case _ => TrueUser(s, a);
  }

  /** The entry that recorded the latest execution of `who`, and nothing recorded since. */
  lemma LatestRun(log: Log, who: Who) returns (i: nat)
    requires LastRan(log, who).Some?
    ensures i < |log| && log[i].StatusWritten? && log[i].who == who && log[i].ran == LastRan(log, who)
    ensures forall j :: i < j < |log| && log[j].StatusWritten? && log[j].who == who ==> log[j].ran.None?
  {
    var e := log[|log| - 1];
    if e.StatusWritten? && e.who == who && e.ran.Some? {
      i := |log| - 1;
    } else {
      var rest := log[..|log| - 1];
      i := LatestRun(rest, who);
      assert forall j :: 0 <= j < |rest| ==> rest[j] == log[j];
    }
  }

  /** A Lock, Commit or Unlock stored as `success`, or an EstablishSubscription stored as `subscribed`, had, in the
      latest execution whose status was persisted for it, a reply with neither an error nor rpc-errors; stored as
      `failed`, it had one that was not clean; with no status it never completed an execution. An EditConfig is never
      stored as `failed`. */
  lemma StoredStatusIsTrue(s: Sys, key: ObjKey) returns (i: nat)
    requires Truthful(s) && key in s.st.store && !key.kind.MountPoint?
    ensures var who, status := Who(key.kind, key.nn, s.st.store[key].uid), s.st.store[key].status.status;
      var done := if key.kind.EstablishSubscription? then "subscribed" else "success";
      && (status == "" || status == done || (status == "failed" && !key.kind.EditConfig?))
      && (status == "" <==> LastRan(s.st.log, who).None?)
      && (status != "" ==>
            && i < |s.st.log| && s.st.log[i].StatusWritten? && s.st.log[i].who == who && s.st.log[i].ran.Some?
            && (forall j :: i < j < |s.st.log| && s.st.log[j].StatusWritten? && s.st.log[j].who == who ==>
                              s.st.log[j].ran.None?)
            && LastReply(s.st.log[..i], who).Some?
            && var reply := LastReply(s.st.log[..i], who).value;
               if key.kind.EditConfig? then reply.Reply?
               else status == done <==> reply.Reply? && !reply.err && !reply.errors)
  {
    var who := Who(key.kind, key.nn, s.st.store[key].uid);
    assert StatusTrue(s.st, key);
    i := 0;
    if LastRan(s.st.log, who).Some? {
      i := LatestRun(s.st.log, who);
      assert EntryTrue(s.st.log, i, s.st.nextUid);
    }
  }
}
