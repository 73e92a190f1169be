/** Every registration accounted for: exactly when one is lost, because the reconcile that made it ended without
    writing its status, and that a superseded one is not cleaned up. */
module Losses {
  import opened Api
  import opened Operator
  import opened Invariants
  import opened Subscriptions
  import opened Registrations

  /** The reconcile that registered for `who` has yet to write its status. */
  predicate Handing(s: Sys, who: Who) {
    ES in s.workers && s.workers[ES].ran == Some(true) && WhoIs(ES, s.workers[ES]) == who
  }

  /** Neither written nor to be written any more. */
  predicate IsLost(s: Sys, i: nat)
    requires Reg(s.st.log, i)
  {
    var f := RegOf(s.st.log, i);
    f.Dropped? || (f.InHand? && !Handing(s, s.st.log[i].who))
  }

  /** The action ends a reconcile that registered, and its status was not written: the write failed, or the process
      ended. */
  predicate Loses(s: Sys, a: Action) {
    && ES in s.workers && s.workers[ES].ran == Some(true)
    && ES !in Apply(s, a).workers
    && !(a.Step? && a.worker == ES && Writable(s.st, ES, s.workers[ES], a.choice))
  }

  /** The run loses the registration at `i`. */
  ghost predicate LosesOn(s: Sys, actions: seq<Action>, i: nat)
    decreases |actions|
  {
    && actions != []
    && ((RegIs(s.st.log, i, InHand) && Loses(s, actions[0])) || LosesOn(Apply(s, actions[0]), actions[1..], i))
  }

  // ----- one step -----

  lemma RegSame(log: Log, log': Log, i: nat)
    requires Extends(log, log') && Reg(log, i)
    ensures Reg(log', i) && log'[i] == log[i]
    ensures RegOf(log', i) ==
            if |log'| > |log| then NextReg(RegOf(log, i), log'[|log|], log[i].who) else RegOf(log, i)
  {
    if |log'| > |log| {
      assert log' == log + [log'[|log|]];
      RegSnoc(log, log'[|log|], i);
    } else {
      assert log' == log;
    }
  }

  /** A restart loses what is in hand and nothing else. */
  lemma RestartLoses(st: State, i: nat)
    requires Reg(st.log, i)
    ensures Reg(Restart(st).log, i)
    ensures IsLost(Sys(Restart(st), map[]), i) <==> RegOf(st.log, i).InHand? || RegOf(st.log, i).Dropped?
  {
    RegSnoc(st.log, Restarted, i);
  }

  /** What a step of another controller, or a user's write, leaves. */
  lemma ElsewhereLoses(s: Sys, s': Sys, i: nat)
    requires Reg(s.st.log, i) && s.st.log[i].who.kind.EstablishSubscription?
    requires Extends(s.st.log, s'.st.log) && Silent(s.st.log, s'.st.log)
    requires Handing(s', s.st.log[i].who) <==> Handing(s, s.st.log[i].who)
    requires GoesNow(s.st.log, s'.st.log, s.st.log[i].who) ==> !Handing(s, s.st.log[i].who)
    ensures Reg(s'.st.log, i) && (IsLost(s', i) <==> IsLost(s, i))
  {
    RegSame(s.st.log, s'.st.log, i);
  }

  /** The report of a reconcile that registered is what decides; any other report loses nothing. */
  lemma ReportLoses(s: Sys, c: Choice, i: nat)
    requires ES in s.workers && s.workers[ES].pc.Report? && Reg(s.st.log, i)
    ensures var s' := Advance(s, ES, c);
      Reg(s'.st.log, i) && (IsLost(s', i) <==> IsLost(s, i) || (RegIs(s.st.log, i, InHand) && Loses(s, Step(ES, c))))
  {
    var s' := Advance(s, ES, c);
    StepExtends(s.st, ES, s.workers[ES], c);
    RegSame(s.st.log, s'.st.log, i);
  }

  /** Before it registers, a reconcile has nothing to lose. */
  lemma EarlierLoses(s: Sys, i: nat, st: State, p: Progress)
    requires Reg(s.st.log, i) && ES in s.workers && s.workers[ES].ran != Some(true)
    requires Extends(s.st.log, st.log)
    requires |st.log| > |s.st.log| ==> !st.log[|s.st.log|].StatusWritten?
    requires p.Go? && p.next.ran == Some(true) ==>
               |st.log| > |s.st.log| && st.log[|s.st.log|].Listened? && st.log[|s.st.log|].who == WhoIs(ES, p.next)
    ensures var s' := After(s, ES, st, p); Reg(s'.st.log, i) && (IsLost(s', i) <==> IsLost(s, i))
  {
    RegSame(s.st.log, st.log, i);
    if p.Panic? { RestartLoses(st, i); }
  }

  lemma EarlierStep(st: State, w: Worker, c: Choice)
    requires Fits(ES, w) && FlightSub(st, ES, w) && !w.pc.Report?
    ensures var (st', p) := StepWorker(st, ES, w, c);
      && w.ran != Some(true)
      && (|st'.log| > |st.log| ==> !st'.log[|st.log|].StatusWritten?)
      && (p.Go? && p.next.ran == Some(true) ==>
            |st'.log| > |st.log| && st'.log[|st.log|].Listened? && st'.log[|st.log|].who == WhoIs(ES, p.next))
  {
    match w.pc
    case Listen(_, _) =>
    case Unlisten(_) =>
    case _ =>
      PlainEntry(st, w, c);
      PlainNext(st, w, c);
  }

  lemma OwnLoses(s: Sys, c: Choice, i: nat)
    requires Shape(s) && Subs(s) && ES in s.workers && Reg(s.st.log, i)
    ensures var s' := Advance(s, ES, c);
      Reg(s'.st.log, i) && (IsLost(s', i) <==> IsLost(s, i) || (RegIs(s.st.log, i, InHand) && Loses(s, Step(ES, c))))
  {
    var w := s.workers[ES];
    assert WorkerOk(s.st, ES, w) && FlightSub(s.st, ES, w);
    if w.pc.Report? {
      ReportLoses(s, c, i);
    } else {
      var (st, p) := StepWorker(s.st, ES, w, c);
      StepExtends(s.st, ES, w, c);
      EarlierStep(s.st, w, c);
      EarlierLoses(s, i, st, p);
    }
  }

  lemma OtherLoses(s: Sys, kind: Kind, c: Choice, i: nat)
    requires Shape(s) && kind in s.workers && !kind.EstablishSubscription?
    requires Reg(s.st.log, i) && s.st.log[i].who.kind.EstablishSubscription?
    ensures var s' := Advance(s, kind, c);
      Reg(s'.st.log, i) && (IsLost(s', i) <==> IsLost(s, i) || (RegIs(s.st.log, i, InHand) && Loses(s, Step(kind, c))))
  {
    var w := s.workers[kind];
    assert WorkerOk(s.st, kind, w);
    var (st, p) := StepWorker(s.st, kind, w, c);
    StepExtends(s.st, kind, w, c);
    OtherEntry(s.st, kind, w, c);
    OtherAfterLoses(s, kind, st, p, i);
  }

  lemma OtherAfterLoses(s: Sys, kind: Kind, st: State, p: Progress, i: nat)
    requires kind in s.workers && !kind.EstablishSubscription?
    requires Reg(s.st.log, i) && s.st.log[i].who.kind.EstablishSubscription?
    requires Extends(s.st.log, st.log) && Silent(s.st.log, st.log)
    requires !GoesNow(s.st.log, st.log, s.st.log[i].who)
    ensures var s' := After(s, kind, st, p);
      && Reg(s'.st.log, i)
      && (IsLost(s', i) <==> IsLost(s, i) || (RegIs(s.st.log, i, InHand) && p.Panic? && Handing(s, s.st.log[i].who)))
  {
    var s1 := Sys(st, if p.Go? then s.workers[kind := p.next] else s.workers - {kind});
    ElsewhereLoses(s, s1, i);
    RegSame(s.st.log, st.log, i);
    if p.Panic? { RestartLoses(st, i); }
  }

  lemma BeginLoses(s: Sys, a: Action, i: nat)
    requires a.Begin? && Reg(s.st.log, i) && s.st.log[i].who.kind.EstablishSubscription?
    ensures var s' := Apply(s, a); Reg(s'.st.log, i) && (IsLost(s', i) <==> IsLost(s, i)) && !Loses(s, a)
  {
    ElsewhereLoses(s, Apply(s, a), i);
  }

  lemma UserLoses(s: Sys, a: Action, i: nat)
    requires ByUser(a) && Shape(s) && Subs(s) && Reg(s.st.log, i) && s.st.log[i].who.kind.EstablishSubscription?
    ensures var s' := Apply(s, a); Reg(s'.st.log, i) && (IsLost(s', i) <==> IsLost(s, i)) && !Loses(s, a)
  {
    UserFrame(s, a);
    if ES in s.workers {
      assert WorkerOk(s.st, ES, s.workers[ES]) && FlightSub(s.st, ES, s.workers[ES]);
    }
    ElsewhereLoses(s, Apply(s, a), i);
  }

  /** What the one action loses: the registration in hand, exactly when it ends its reconcile without a write. */
  lemma LosesIff(s: Sys, a: Action, i: nat)
    requires Shape(s) && Subs(s) && Regs(s) && Reg(s.st.log, i)
    ensures var s' := Apply(s, a);
      Reg(s'.st.log, i) && (IsLost(s', i) <==> IsLost(s, i) || (RegIs(s.st.log, i, InHand) && Loses(s, a)))
  {
    assert RegKept(s.st, i);
    match a
    case Begin(_, _) => BeginLoses(s, a, i);
    case Step(kind, c) =>
      if kind in s.workers {
        if kind.EstablishSubscription? { OwnLoses(s, c, i); } else { OtherLoses(s, kind, c, i); }
      }
    case Crash => RestartLoses(s.st, i);
    case _ => UserLoses(s, a, i);
  }

  lemma StepRegisters(st: State, kind: Kind, w: Worker, c: Choice)
    requires Fits(kind, w)
    ensures var (st', p) := StepWorker(st, kind, w, c);
      && Extends(st.log, st'.log)
      && (|st'.log| > |st.log| && st'.log[|st.log|].Listened? ==>
            kind == ES && p.Go? && p.next.ran == Some(true) && st'.log[|st.log|].who == WhoIs(ES, p.next))
  {
    StepExtends(st, kind, w, c);
    if !w.pc.Listen? && !w.pc.Unlisten? && !w.pc.Send? { StepUnrelated(st, kind, w, c); }
  }

  lemma NewAfter(s: Sys, kind: Kind, st: State, p: Progress, i: nat)
    requires Extends(s.st.log, st.log) && Reg(After(s, kind, st, p).st.log, i) && !Reg(s.st.log, i)
    requires |st.log| > |s.st.log| && st.log[|s.st.log|].Listened? ==>
               kind == ES && p.Go? && p.next.ran == Some(true) && st.log[|s.st.log|].who == WhoIs(ES, p.next)
    ensures !IsLost(After(s, kind, st, p), i)
  {
    assert i == |s.st.log| && Reg(st.log, i);
  }

  /** A registration just made is not lost. */
  lemma NewIsNotLost(s: Sys, a: Action, i: nat)
    requires Shape(s) && Reg(Apply(s, a).st.log, i) && !Reg(s.st.log, i)
    ensures !IsLost(Apply(s, a), i)
  {
    match a
    case Begin(_, _) =>
    case Crash =>
    case Step(kind, c) =>
      assert WorkerOk(s.st, kind, s.workers[kind]);
      StepRegisters(s.st, kind, s.workers[kind], c);
      var (st, p) := StepWorker(s.st, kind, s.workers[kind], c);
      NewAfter(s, kind, st, p, i);
    case _ => UserFrame(s, a);
  }

  // ----- the account -----

  /** Where a registration is found, by its fate. */
  ghost predicate Accounted(s: Sys, i: nat)
    requires Reg(s.st.log, i)
  {
    var e, store := s.st.log[i], s.st.store;
    var key := ObjKey(ES, e.who.nn);
    match RegOf(s.st.log, i)
    case InHand => IsLost(s, i) || s.workers[ES].obj.status.subscriptionID == e.id
    case Held =>
      && key in store && store[key].uid == e.who.uid && store[key].status.subscriptionID == e.id
      && (e.id != "" ==> Finalized(ES, store[key]))
    case Replaced => exists j :: ReplacedBy(s.st.log, i, j)
    case Removed =>
      exists u :: i < u < |s.st.log| && s.st.log[u].Unlistened? && s.st.log[u].who == e.who && s.st.log[u].id == e.id
    case Left => e.id == ""
    case Dropped => IsLost(s, i)
  }

  lemma AllAccounted(s: Sys, i: nat)
    requires Regs(s) && Reg(s.st.log, i)
    ensures Accounted(s, i)
  {
    var log := s.st.log;
    assert RegKept(s.st, i);
    if RegOf(log, i).InHand? && !IsLost(s, i) {
      var w := s.workers[ES];
      var k: nat :| RegIs(log, k, InHand) && ListenedAs(log[k], WhoIs(ES, w), w.obj.status.subscriptionID);
      if k < i { InHandIsLast(log, k, i); } else if i < k { InHandIsLast(log, i, k); }
    }
  }

  // ----- what clean-ups are of -----

  ghost predicate CleanUpOk(log: Log, u: nat)
    requires u < |log|
  {
    log[u].Unlistened? ==> exists l: nat :: OfStored(log[..u], l, log[u].who, log[u].id)
  }

  ghost predicate CleanUps(log: Log) {
    forall u :: 0 <= u < |log| ==> CleanUpOk(log, u)
  }

  lemma CleanUpsAppend(log: Log, log': Log)
    requires CleanUps(log) && Extends(log, log') && (|log'| > |log| ==> CleanUpOk(log', |log|))
    ensures CleanUps(log')
  {
    forall u | 0 <= u < |log'|
      ensures CleanUpOk(log', u)
    {
      if u < |log| {
        assert CleanUpOk(log, u) && log'[u] == log[u] && log'[..u] == log[..u];
      }
    }
  }

  lemma UnlistenIsOfStored(s: Sys, c: Choice)
    requires Shape(s) && Subs(s) && Regs(s) && ES in s.workers && s.workers[ES].pc.Unlisten?
    ensures var log' := StepWorker(s.st, ES, s.workers[ES], c).0.log; |log'| > |s.st.log| && CleanUpOk(log', |s.st.log|)
  {
    var w := s.workers[ES];
    assert WorkerOk(s.st, ES, w) && FlightSub(s.st, ES, w);
    var log' := StepWorker(s.st, ES, w, c).0.log;
    assert ObjKept(s.st, ObjKey(ES, w.nn));
    var l: nat :| OfStored(s.st.log, l, WhoIs(ES, w), w.obj.status.subscriptionID);
    assert log'[..|s.st.log|] == s.st.log;
  }

  lemma CleanUpsStep(s: Sys, kind: Kind, c: Choice)
    requires Shape(s) && Subs(s) && Regs(s) && CleanUps(s.st.log) && kind in s.workers
    ensures CleanUps(Advance(s, kind, c).st.log)
  {
    var w := s.workers[kind];
    assert WorkerOk(s.st, kind, w);
    var (st, p) := StepWorker(s.st, kind, w, c);
    StepExtends(s.st, kind, w, c);
    if w.pc.Unlisten? {
      UnlistenIsOfStored(s, c);
    } else if !w.pc.Listen? && !w.pc.Send? {
      StepUnrelated(s.st, kind, w, c);
    }
    CleanUpsAppend(s.st.log, st.log);
    if p.Panic? { CleanUpsAppend(st.log, Restart(st).log); }
  }

  lemma CleanUpsKept(s: Sys, a: Action)
    requires Shape(s) && Subs(s) && Regs(s) && CleanUps(s.st.log)
    ensures CleanUps(Apply(s, a).st.log)
  {
    match a
    case Begin(_, _) =>
    case Step(kind, c) => if kind in s.workers { CleanUpsStep(s, kind, c); }
    case Crash => CleanUpsAppend(s.st.log, Restart(s.st).log);
    case _ =>
      UserFrame(s, a);
      CleanUpsAppend(s.st.log, Apply(s, a).st.log);
  }
}
