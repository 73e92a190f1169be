/** A reconcile run to its end without interference. */
module Atomic {
  import opened Api
  import opened Operator
  import opened Invariants
  import opened Safety

  /** The reply to an RPC sent on a session, given everything that happened before. */
  type Peer = (Log, nat, Rpc) -> Outcome

  /** The outside world during one reconcile: what devices reply, which payloads are XML, and whether
      fetching the object, the reads of its checks, the writes and the session calls succeed. */
  datatype Env = Env(peer: Peer, validXml: string -> bool, fetchOk: bool, readOk: bool, updateOk: bool, statusOk: bool,
                     dialOk: bool, helloOk: bool, hangUpOk: bool, capabilities: seq<string>)
  {
    predicate Reads() {
      fetchOk && readOk
    }
  }

  datatype Ending = Done | Requeued | Panicked(cause: Cause)

  function Payload(spec: Spec): string {
    if spec.EditConfigSpec? || spec.EstablishSubscriptionSpec? then spec.xml else ""
  }

  function ChoiceAt(st: State, w: Worker, env: Env): Choice {
    Choice(
      match w.pc
      case CheckMountPoint => env.readOk
      case CheckDependency => env.readOk
      case Gate => env.readOk
      case Initialize => env.updateOk
      case Release => env.updateOk
      case Report(_) => env.statusOk
      case Dial => env.dialOk
      case Hello(_) => env.helloOk
      case HangUp(_) => env.hangUpOk
      case _ => true,
      env.validXml(Payload(w.obj.spec)),
      if w.pc.Send? && |w.pc.todo| > 0 then env.peer(st.log, w.pc.session, w.pc.todo[0]) else NoReply,
      env.capabilities)
  }

  /** Reconciles only move forward. */
  function Stage(pc: Pc): nat {
    match pc
    case CheckMountPoint => 15
    case CheckSession => 14
    case CheckDependency => 13
    case Initialize => 12
    case Gate => 11
    case Lookup => 10
    case Unlisten(_) => 9
    case Send(_, _) => 8
    case Listen(_, _) => 7
    case Dial => 10
    case Hello(_) => 9
    case Install(_) => 8
    case Forget(_) => 6
    case HangUp(_) => 5
    case Release => 4
    case Report(_) => 3
  }

  function Left(pc: Pc): nat {
    if pc.Send? then |pc.todo| else 0
  }

  predicate Descends(w: Worker, p: Progress) {
    p.Go? ==> Stage(p.next.pc) < Stage(w.pc) || (Stage(p.next.pc) == Stage(w.pc) && Left(p.next.pc) < Left(w.pc))
  }

  lemma CheckDescends(st: State, kind: Kind, w: Worker, c: Choice)
    requires w.pc.CheckMountPoint? || w.pc.CheckSession? || w.pc.CheckDependency? || w.pc.Gate?
    ensures Descends(w, StepWorker(st, kind, w, c).1)
  {
  }

  lemma ConnectDescends(st: State, kind: Kind, w: Worker, c: Choice)
    requires w.pc.Dial? || w.pc.Hello? || w.pc.Install? || w.pc.Initialize?
    ensures Descends(w, StepWorker(st, kind, w, c).1)
  {
  }

  lemma EndDescends(st: State, kind: Kind, w: Worker, c: Choice)
    requires w.pc.Forget? || w.pc.HangUp? || w.pc.Release? || w.pc.Report?
    ensures Descends(w, StepWorker(st, kind, w, c).1)
  {
  }

  lemma StepDescends(st: State, kind: Kind, w: Worker, c: Choice)
    ensures Descends(w, StepWorker(st, kind, w, c).1)
  {
    match w.pc
    case Send(s, todo) => if |todo| > 0 { ReplyDescends(kind, w, s, todo, c.reply); }
    case Lookup =>
    case Unlisten(_) =>
    case Listen(_, _) =>
    case Forget(_) => EndDescends(st, kind, w, c);
    case HangUp(_) => EndDescends(st, kind, w, c);
    case Release => EndDescends(st, kind, w, c);
    case Report(_) => EndDescends(st, kind, w, c);
    case Dial => ConnectDescends(st, kind, w, c);
    case Hello(_) => ConnectDescends(st, kind, w, c);
    case Install(_) => ConnectDescends(st, kind, w, c);
    case Initialize => ConnectDescends(st, kind, w, c);
    case _ => CheckDescends(st, kind, w, c);
  }

  lemma ReplyDescends(kind: Kind, w: Worker, session: nat, todo: seq<Rpc>, reply: Outcome)
    requires |todo| > 0
    ensures var p := AfterReply(kind, w, session, todo, reply);
      p.Go? ==> Stage(p.next.pc) < 8 || (Stage(p.next.pc) == 8 && Left(p.next.pc) < |todo|)
  {
    match kind
    case EditConfig =>
    case MountPoint =>
    case EstablishSubscription =>
    case _ =>
  }

  /** The rest of a reconcile. */
  function Complete(st: State, kind: Kind, w: Worker, env: Env): (State, Ending)
    decreases Stage(w.pc), Left(w.pc)
  {
    StepDescends(st, kind, w, ChoiceAt(st, w, env));
    var (st', p) := StepWorker(st, kind, w, ChoiceAt(st, w, env));
    match p
    case Go(w') => Complete(st', kind, w', env)
    case Finish(requeue) => (st', if requeue then Requeued else Done)
    case Panic(cause) => (st', Panicked(cause))
  }

  /** One whole reconcile of the named object; a panic is not yet followed by the restart. */
  function Reconcile(st: State, kind: Kind, nn: NsName, env: Env): (State, Ending) {
    var key := ObjKey(kind, nn);
    if !env.fetchOk then (st, Requeued)
    else if key in st.store then Complete(st, kind, Start(kind, nn, st.store[key]), env)
    else (st, Done)
  }

  function Settle(r: (State, Ending)): State {
    if r.1.Panicked? then Restart(r.0) else r.0
  }

  // ----- an uninterrupted reconcile is a run of the step machine -----

  lemma RunAppend(s: Sys, a: seq<Action>, b: seq<Action>)
    ensures Run(s, a + b) == Run(Run(s, a), b)
    decreases |a|
  {
    if a == [] {
      assert a + b == b;
    } else {
      assert (a + b)[1..] == a[1..] + b;
      RunAppend(Apply(s, a[0]), a[1..], b);
    }
  }

  lemma CompleteIsARun(st: State, kind: Kind, w: Worker, env: Env) returns (actions: seq<Action>)
    ensures Run(Sys(st, map[kind := w]), actions) == Sys(Settle(Complete(st, kind, w, env)), map[])
    ensures forall a <- actions :: a.Step? && a.worker == kind
    decreases Stage(w.pc), Left(w.pc)
  {
    var c := ChoiceAt(st, w, env);
    StepDescends(st, kind, w, c);
    var (st', p) := StepWorker(st, kind, w, c);
    var s := Sys(st, map[kind := w]);
    match p
    case Go(w') =>
      var rest := CompleteIsARun(st', kind, w', env);
      actions := [Step(kind, c)] + rest;
      assert s.workers[kind := w'] == map[kind := w'];
      assert Apply(s, actions[0]) == Sys(st', map[kind := w']);
      assert actions[1..] == rest;
    case Finish(_) =>
      actions := [Step(kind, c)];
      assert s.workers - {kind} == map[];
      assert Apply(s, actions[0]) == Sys(st', map[]);
      assert actions[1..] == [];
    case Panic(_) =>
      actions := [Step(kind, c)];
      assert Apply(s, actions[0]) == Sys(Restart(st'), map[]);
      assert actions[1..] == [];
  }

  /** So everything proved of all runs holds of atomic reconciles. */
  lemma ReconcileIsARun(st: State, kind: Kind, nn: NsName, env: Env) returns (actions: seq<Action>)
    ensures Run(Sys(st, map[]), actions) == Sys(Settle(Reconcile(st, kind, nn, env)), map[])
    ensures forall a <- actions :: (a.Begin? && a.kind == kind && a.nn == nn) || (a.Step? && a.worker == kind)
  {
    var key := ObjKey(kind, nn);
    if env.fetchOk && key in st.store {
      var rest := CompleteIsARun(st, kind, Start(kind, nn, st.store[key]), env);
      actions := [Begin(kind, nn)] + rest;
      assert actions[1..] == rest;
      assert Apply(Sys(st, map[]), actions[0]) == Sys(st, map[kind := Start(kind, nn, st.store[key])]);
    } else {
      actions := [];
    }
  }

  lemma ReconcileKeepsGood(st: State, kind: Kind, nn: NsName, env: Env)
    requires Good(Sys(st, map[]))
    ensures Good(Sys(Settle(Reconcile(st, kind, nn, env)), map[]))
  {
    var actions := ReconcileIsARun(st, kind, nn, env);
    GoodRun(Sys(st, map[]), actions);
  }

  // ----- no interference, no missing session -----

  predicate SessionChecked(st: State, kind: Kind, w: Worker) {
    !kind.MountPoint? && (w.pc.CheckDependency? || w.pc.Initialize? || w.pc.Gate? || w.pc.Lookup?) ==>
      TargetOf(w).Key() in st.sessions
  }

  lemma StepChecked(st: State, kind: Kind, w: Worker, c: Choice)
    requires Fits(kind, w) && SessionChecked(st, kind, w)
    ensures var (st', p) := StepWorker(st, kind, w, c);
      && (p.Go? ==> SessionChecked(st', kind, p.next) && Fits(kind, p.next))
      && p != Panic(NilSession)
  {
    GoFits(st, kind, w, c);
    match w.pc
    case Send(s, todo) => if |todo| > 0 { ReplyDescends(kind, w, s, todo, c.reply); }
    case CheckMountPoint =>
    case CheckSession =>
    case CheckDependency =>
    case Gate =>
    case Initialize =>
    case Lookup =>
    case Unlisten(_) =>
    case Listen(_, _) =>
    case Dial =>
    case Hello(_) =>
    case Install(_) =>
    case _ =>
  }

  lemma CompleteFindsSession(st: State, kind: Kind, w: Worker, env: Env)
    requires Fits(kind, w) && SessionChecked(st, kind, w)
    ensures Complete(st, kind, w, env).1 != Panicked(NilSession)
    decreases Stage(w.pc), Left(w.pc)
  {
    var c := ChoiceAt(st, w, env);
    StepDescends(st, kind, w, c);
    StepChecked(st, kind, w, c);
    var (st', p) := StepWorker(st, kind, w, c);
    if p.Go? { CompleteFindsSession(st', kind, p.next, env); }
  }

  /** In an uninterrupted reconcile, subscription clean-up included, the session looked up is never nil. */
  lemma ReconcileFindsSession(st: State, kind: Kind, nn: NsName, env: Env)
    requires ObjKey(kind, nn) in st.store ==> st.store[ObjKey(kind, nn)].spec.Kind() == kind
    ensures Reconcile(st, kind, nn, env).1 != Panicked(NilSession)
  {
    if env.fetchOk && ObjKey(kind, nn) in st.store {
      CompleteFindsSession(st, kind, Start(kind, nn, st.store[ObjKey(kind, nn)]), env);
    }
  }
}
