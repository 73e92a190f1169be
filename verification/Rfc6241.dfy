/** A device with a candidate and a running datastore, after sections 7.2, 7.5, 7.6, 7.8 and 8.3.4.1 of
    RFC 6241, and what sequences of EditConfig transactions make of its configuration. */
module Rfc6241 {
  import opened Api
  import opened Operator
  import opened Invariants
  import opened WellFounded
  import opened Atomic
  import opened Script
  import opened Execution
  import opened Batch
  import opened Device

  /** Who holds each lock, and the two configurations. */
  datatype Netconf<C> = Netconf(candidateLock: Option<nat>, runningLock: Option<nat>, candidate: C, running: C) {
    ghost predicate Idle() {
      candidateLock == None && runningLock == None && candidate == running
    }
  }

  /** How a default operation and a payload change a configuration, or that they cannot. */
  type Edit<!C> = (C, string, string) -> Option<C>

  const OK := Reply(false, false, "<ok/>", "<ok/>", "")
  const DENIED := Reply(false, true, "<rpc-error/>", "<rpc-error/>", "")

  predicate LockedByOther(lock: Option<nat>, session: nat) {
    lock.Some? && lock.value != session
  }

  function OnLock<C(==)>(d: Netconf<C>, session: nat, ds: string): (Netconf<C>, Outcome) {
    if ds == "candidate" then
      if d.candidateLock.Some? || d.candidate != d.running then (d, DENIED)
      else (d.(candidateLock := Some(session)), OK)
    else if d.runningLock.Some? then (d, DENIED) else (d.(runningLock := Some(session)), OK)
  }

  function OnEdit<C>(edit: Edit<C>, d: Netconf<C>, session: nat, ds: string, op: string, xml: string)
    : (Netconf<C>, Outcome)
  {
    if LockedByOther(if ds == "candidate" then d.candidateLock else d.runningLock, session) then (d, DENIED)
    else match edit(if ds == "candidate" then d.candidate else d.running, op, xml)
      case None => (d, DENIED)
      case Some(c) => (if ds == "candidate" then d.(candidate := c) else d.(running := c), OK)
  }

  function OnCommit<C>(d: Netconf<C>, session: nat): (Netconf<C>, Outcome) {
    if LockedByOther(d.candidateLock, session) || LockedByOther(d.runningLock, session) then (d, DENIED)
    else (d.(running := d.candidate), OK)
  }

  function OnUnlock<C>(d: Netconf<C>, session: nat, ds: string): (Netconf<C>, Outcome) {
    if ds == "candidate" then
      if d.candidateLock == Some(session) then (d.(candidateLock := None), OK) else (d, DENIED)
    else if d.runningLock == Some(session) then (d.(runningLock := None), OK) else (d, DENIED)
  }

  /** Ending a session releases its locks, and discards the candidate it had locked. */
  function OnClose<C>(d: Netconf<C>, session: nat): (Netconf<C>, Outcome) {
    var d1 := if d.candidateLock == Some(session) then d.(candidateLock := None, candidate := d.running) else d;
    (if d1.runningLock == Some(session) then d1.(runningLock := None) else d1, OK)
  }

  function Serves<C(==)>(edit: Edit<C>, d: Netconf<C>, session: nat, rpc: Rpc): (Netconf<C>, Outcome) {
    match rpc
    case LockRpc(ds) => OnLock(d, session, ds)
    case EditConfigRpc(ds, op, xml) => OnEdit(edit, d, session, ds, op, xml)
    case CommitRpc => OnCommit(d, session)
    case UnlockRpc(ds) => OnUnlock(d, session, ds)
    case CloseSessionRpc => OnClose(d, session)
    case _ => (d, OK)
  }

  function Server<C(==)>(edit: Edit<C>): Machine<Netconf<C>> {
    (d: Netconf<C>, session: nat, rpc: Rpc) => Serves(edit, d, session, rpc)
  }

  /** The configuration after an edit, accepted or refused. */
  function Edited<C>(edit: Edit<C>, c: C, spec: Spec): C {
    if !spec.EditConfigSpec? then c
    else match edit(c, spec.operation, spec.xml)
      case None => c
      case Some(c') => c'
  }

  /** An EditConfig that locks, edits, commits and unlocks the candidate, and can be sent. */
  predicate Transactional(spec: Spec, validXml: string -> bool) {
    && spec.EditConfigSpec? && spec.datastore == "candidate" && spec.lock && spec.commit && spec.unlock
    && (spec.operation == "merge" || spec.operation == "replace" || spec.operation == "none")
    && validXml(spec.xml)
  }

  // ----- one transaction on the device -----

  lemma {:induction false} FourSteps<S>(dev: Machine<S>, start: S, trace: Trace, session: nat, script: seq<Rpc>)
    requires |script| == 4
    ensures var d0 := StateOn(dev, start, trace);
      var d1 := dev(d0, session, script[0]).0;
      var d2 := dev(d1, session, script[1]).0;
      var d3 := dev(d2, session, script[2]).0;
      StateOn(dev, start, trace + OnSession(session, script)) == dev(d3, session, script[3]).0
  {
    var t1 := trace + [(session, script[0])];
    var t2 := t1 + [(session, script[1])];
    var t3 := t2 + [(session, script[2])];
    AfterOne(dev, start, trace, session, script[0]);
    AfterOne(dev, start, t1, session, script[1]);
    AfterOne(dev, start, t2, session, script[2]);
    AfterOne(dev, start, t3, session, script[3]);
    assert trace + OnSession(session, script) == t3 + [(session, script[3])];
  }

  /** From an idle device a transaction ends idle, with the edit applied if it was accepted; on a device
      whose candidate another session has locked it changes nothing. */
  lemma {:induction false} TransactionOnDevice<C>(edit: Edit<C>, start: Netconf<C>, trace: Trace, session: nat,
                                                  spec: Spec, env: Env)
    requires Transactional(spec, env.validXml)
    ensures var d := StateOn(Server(edit), start, trace);
      var d' := StateOn(Server(edit), start, trace + OnSession(session, spec.Script()));
      && (d.Idle() ==> d'.Idle() && d'.running == Edited(edit, d.running, spec))
      && (LockedByOther(d.candidateLock, session) ==> d' == d)
  {
    var script := spec.Script();
    assert script == [LockRpc("candidate"), EditConfigRpc("candidate", spec.operation, spec.xml), CommitRpc,
        UnlockRpc("candidate")];
    FourSteps(Server(edit), start, trace, session, script);
    var d := StateOn(Server(edit), start, trace);
    var d1 := Serves(edit, d, session, script[0]).0;
    var d2 := Serves(edit, d1, session, script[1]).0;
    var d3 := Serves(edit, d2, session, script[2]).0;
    assert StateOn(Server(edit), start, trace + OnSession(session, script)) == Serves(edit, d3, session, script[3]).0;
  }

  // ----- the same through the operator -----

  lemma {:induction false} AlwaysAnswers<C>(edit: Edit<C>, d: Netconf<C>, session: nat, rpc: Rpc)
    ensures Serves(edit, d, session, rpc).1.Reply?
  {
    match rpc
    case EditConfigRpc(ds, op, xml) =>
    case _ =>
  }

  /** A device that always answers lets every script that can be built play to its end. */
  lemma {:induction false} AnsweredPlays<C>(edit: Edit<C>, start: Netconf<C>, log: Log, from: Sender, todo: seq<Rpc>,
                                                data: string, env: Env, xmlOk: bool)
    requires env.peer == Replies(Server(edit), start) && forall rpc <- todo :: rpc.Buildable(xmlOk)
    ensures Play(log, from, todo, data, env, xmlOk).stop.None?
    decreases |todo|
  {
    if todo != [] {
      var reply := env.peer(log, from.session, todo[0]);
      assert todo[0] in todo;
      assert reply == Serves(edit, StateOn(Server(edit), start, TraceOf(log)), from.session, todo[0]).1;
      AlwaysAnswers(edit, StateOn(Server(edit), start, TraceOf(log)), from.session, todo[0]);
      AnsweredPlays(edit, start, log + [from.Entry(todo[0], reply)], from, todo[1..],
                    if todo[0].EditConfigRpc? then reply.data else data, env, xmlOk);
    }
  }

  predicate Runs(st: State, key: ObjKey, env: Env) {
    env.Reads() && Live(st, key) && OpenAt(st, key)
  }

  /** A reconcile that does not get past its checks sends nothing and does not panic. */
  lemma {:induction false} StopsAtChecks(st: State, key: ObjKey, env: Env)
    requires key.kind.EditConfig? && (key in st.store ==> st.store[key].spec.Kind() == EditConfig)
    requires !Runs(st, key, env)
    ensures var (st', ending) := Reconcile(st, EditConfig, key.nn, env);
      !ending.Panicked? && TraceOf(st'.log) == TraceOf(st.log)
  {
    if env.fetchOk && key in st.store {
      var w := StartAt(st, key);
      var w1 := w.(pc := CheckSession);
      var w2 := w1.(pc := Gate, seen := |st.log|);
      var fail := w.(pc := Report(true));
      assert StepWorker(st, EditConfig, w, ChoiceAt(st, w, env)).1 ==
             Go(if env.readOk && MountPointStored(st.store, TargetOf(w)) then w1 else fail);
      if env.readOk && MountPointStored(st.store, TargetOf(w)) {
        assert Reconcile(st, EditConfig, key.nn, env) == Complete(st, EditConfig, w1, env);
        if TargetOf(w).Key() !in st.sessions {
          assert StepWorker(st, EditConfig, w1, ChoiceAt(st, w1, env)) == (st, Go(fail));
          ReportSendsNothing(st, fail, env);
        } else if !st.store[key].deleting {
          Gated(st, key, env);
          ReportSendsNothing(st, AtClosed(st, key), env);
        } else {
          assert StepWorker(st, EditConfig, w1, ChoiceAt(st, w1, env)) == (st, Finish(false));
        }
      } else {
        ReportSendsNothing(st, fail, env);
      }
    }
  }

  lemma {:induction false} ReportSendsNothing(st: State, w: Worker, env: Env)
    requires w.pc.Report?
    ensures var (st', ending) := Complete(st, EditConfig, w, env);
      !ending.Panicked? && TraceOf(st'.log) == TraceOf(st.log)
  {
    var e := StatusWritten(WhoIs(EditConfig, w), w.ran, w.obj.status.status);
    TraceAppend(st.log, [e]);
    TraceOne(e);
  }

  /** A reconcile that gets past them sends its whole script. */
  lemma {:induction false} RunsToTheEnd(st: State, key: ObjKey, env: Env)
    requires key.kind.EditConfig? && Runs(st, key, env) && PlayAt(st, key, env).stop.None?
    ensures var (st', ending) := Reconcile(st, EditConfig, key.nn, env);
      && !ending.Panicked?
      && TraceOf(st'.log) == TraceOf(st.log) + OnSession(SenderAt(st, key).session, st.store[key].spec.Script())
  {
    var t, w := PlayAt(st, key, env), AtSend(st, key);
    OpenGate(st, key, env);
    EditConfigPlays(st, w, env);
    PlayTrace(st, key, env);
    TraceAppend(st.log, t.sent);
    ReportSendsNothing(st.(log := st.log + t.sent), Conclude(EditConfig, w.(data := t.data), true, t.data, false), env);
  }

  ghost predicate AllTransactional(st: State, validXml: string -> bool) {
    forall key <- st.store :: key.kind.EditConfig? ==> Transactional(st.store[key].spec, validXml)
  }

  lemma {:induction false} CompleteKeepsSpecs(st: State, w: Worker, env: Env)
    requires Fits(EditConfig, w)
    ensures var st' := Complete(st, EditConfig, w, env).0;
      forall key <- st'.store :: key in st.store && st'.store[key].spec == st.store[key].spec
    decreases Stage(w.pc), Left(w.pc)
  {
    var c := ChoiceAt(st, w, env);
    StepDescends(st, EditConfig, w, c);
    StepSpec(st, EditConfig, w, c);
    GoFits(st, EditConfig, w, c);
    var (st', p) := StepWorker(st, EditConfig, w, c);
    if p.Go? { CompleteKeepsSpecs(st', p.next, env); }
  }

  /** One reconcile of a transactional EditConfig against the device: idle before, idle after, with running
      changed by its edit if the reconcile got past its checks. */
  lemma {:induction false} ReconcileTransaction<C>(edit: Edit<C>, start: Netconf<C>, st: State, nn: NsName, env: Env)
    requires AllTransactional(st, env.validXml) && env.peer == Replies(Server(edit), start)
    requires StateOn(Server(edit), start, TraceOf(st.log)).Idle()
    ensures var key, st' := ObjKey(EditConfig, nn), Settle(Reconcile(st, EditConfig, nn, env));
      var d, d' := StateOn(Server(edit), start, TraceOf(st.log)), StateOn(Server(edit), start, TraceOf(st'.log));
      && AllTransactional(st', env.validXml) && d'.Idle()
      && d'.running == if Runs(st, key, env) then Edited(edit, d.running, st.store[key].spec) else d.running
  {
    var key := ObjKey(EditConfig, nn);
    if env.fetchOk && key in st.store { CompleteKeepsSpecs(st, StartAt(st, key), env); }
    if Runs(st, key, env) {
      var spec := st.store[key].spec;
      assert forall rpc <- spec.Script() :: rpc.Buildable(env.validXml(spec.xml));
      AnsweredPlays(edit, start, st.log, SenderAt(st, key), spec.Script(), "", env, env.validXml(spec.xml));
      RunsToTheEnd(st, key, env);
      TransactionOnDevice(edit, start, TraceOf(st.log), SenderAt(st, key).session, spec, env);
    } else {
      StopsAtChecks(st, key, env);
    }
  }

  /** The state after a sequence of EditConfig reconciles, each in its own environment, and the specs of those
      that ran. */
  function ReconcileEach(st: State, turns: seq<(NsName, Env)>): (State, seq<Spec>)
    decreases |turns|
  {
    if turns == [] then (st, [])
    else
      var (nn, env) := turns[0];
      var key := ObjKey(EditConfig, nn);
      var (st', ran) := ReconcileEach(Settle(Reconcile(st, EditConfig, nn, env)), turns[1..]);
      (st', (if Runs(st, key, env) then [st.store[key].spec] else []) + ran)
  }

  function Fold<C>(edit: Edit<C>, c: C, specs: seq<Spec>): C
    decreases |specs|
  {
    if specs == [] then c else Fold(edit, Edited(edit, c, specs[0]), specs[1..])
  }

  /** Every environment has the device, and agrees on what is XML; each read and write may fail or not. */
  ghost predicate OnDevice<C>(edit: Edit<C>, start: Netconf<C>, validXml: string -> bool, turns: seq<(NsName, Env)>) {
    forall i :: 0 <= i < |turns| ==> turns[i].1.peer == Replies(Server(edit), start) && turns[i].1.validXml == validXml
  }

  /** Configuration as a fold: any sequence of reconciles of transactional EditConfigs, whichever of their reads
      and writes fail, from an idle device, leaves it idle with candidate and running equal to the fold of the
      accepted edits. */
  lemma {:induction false} ConfigurationIsAFold<C>(edit: Edit<C>, start: Netconf<C>, st: State,
      validXml: string -> bool,
                                                   turns: seq<(NsName, Env)>)
    requires AllTransactional(st, validXml) && OnDevice(edit, start, validXml, turns)
    requires StateOn(Server(edit), start, TraceOf(st.log)).Idle()
    ensures var (st', ran) := ReconcileEach(st, turns);
      var d, d' := StateOn(Server(edit), start, TraceOf(st.log)), StateOn(Server(edit), start, TraceOf(st'.log));
      d'.Idle() && d'.running == d'.candidate == Fold(edit, d.running, ran)
    decreases |turns|
  {
    if turns != [] {
      var (nn, env) := turns[0];
      ReconcileTransaction(edit, start, st, nn, env);
      var st1 := Settle(Reconcile(st, EditConfig, nn, env));
      var ran := ReconcileEach(st1, turns[1..]).1;
      ConfigurationIsAFold(edit, start, st1, validXml, turns[1..]);
      if Runs(st, ObjKey(EditConfig, nn), env) {
        assert ([st.store[ObjKey(EditConfig, nn)].spec] + ran)[1..] == ran;
      } else {
        assert [] + ran == ran;
      }
    }
  }

  /** While another session holds the candidate lock a transaction changes nothing on the device; since
      rpc-errors are not looked at, the EditConfig is recorded as a success all the same. */
  lemma {:induction false} LockedOutChangesNothing<C>(edit: Edit<C>, start: Netconf<C>, st: State, nn: NsName, env: Env)
    requires var key := ObjKey(EditConfig, nn);
      AllTransactional(st, env.validXml) && env.peer == Replies(Server(edit), start)
      && Runs(st, key, env) && env.statusOk
      && LockedByOther(StateOn(Server(edit), start, TraceOf(st.log)).candidateLock, SenderAt(st, key).session)
    ensures var (st', ending) := Reconcile(st, EditConfig, nn, env);
      && StateOn(Server(edit), start, TraceOf(st'.log)) == StateOn(Server(edit), start, TraceOf(st.log))
      && ending == Done && ObjKey(EditConfig, nn) in st'.store
      && st'.store[ObjKey(EditConfig, nn)].status.status == "success"
  {
    var key := ObjKey(EditConfig, nn);
    var spec := st.store[key].spec;
    assert forall rpc <- spec.Script() :: rpc.Buildable(env.validXml(spec.xml));
    AnsweredPlays(edit, start, st.log, SenderAt(st, key), spec.Script(), "", env, env.validXml(spec.xml));
    RunsToTheEnd(st, key, env);
    TransactionOnDevice(edit, start, TraceOf(st.log), SenderAt(st, key).session, spec, env);
    Fires(st, key, env);
  }

  /** An idle device whose edit function takes the payload accepts the four RPCs of the change, so on it
      the one-shot form and the chain agree. */
  lemma {:induction false} IdleAcceptsTransaction<C>(edit: Edit<C>, start: Netconf<C>, trace: Trace, session: nat,
      ch: Change)
    requires var d := StateOn(Server(edit), start, trace); d.Idle() && edit(d.candidate, ch.operation, ch.xml).Some?
    requires ch.datastore == "candidate"
    ensures Accepts(Server(edit), start, trace, session, Transaction(ch))
  {
    var dev, script := Server(edit), Transaction(ch);
    var t1 := trace + [(session, script[0])];
    var t2 := t1 + [(session, script[1])];
    var t3 := t2 + [(session, script[2])];
    var t4 := t3 + [(session, script[3])];
    AfterOne(dev, start, trace, session, script[0]);
    AfterOne(dev, start, t1, session, script[1]);
    AfterOne(dev, start, t2, session, script[2]);
    var d := StateOn(dev, start, trace);
    var d1 := Serves(edit, d, session, script[0]).0;
    var d2 := Serves(edit, d1, session, script[1]).0;
    var d3 := Serves(edit, d2, session, script[2]).0;
    assert StateOn(dev, start, t1) == d1 && StateOn(dev, start, t2) == d2 && StateOn(dev, start, t3) == d3;
    assert script[1..][1..][1..][1..] == [];
    assert Accepts(dev, start, t4, session, script[1..][1..][1..][1..]);
    assert Accepts(dev, start, t3, session, script[1..][1..][1..]);
    assert Accepts(dev, start, t2, session, script[1..][1..]);
    assert Accepts(dev, start, t1, session, script[1..]);
  }
}
