/** One atomic reconcile of a Lock, EditConfig, Commit or Unlock, in one step. */
module Execution {
  import opened Api
  import opened Operator
  import opened Causality
  import opened Atomic
  import opened Script

  /** The resource exists and is not being deleted, and its MountPoint is stored with a session cached. */
  predicate Live(st: State, key: ObjKey) {
    && key in st.store && Executes(key.kind) && st.store[key].spec.Kind() == key.kind && !st.store[key].deleting
    && MountPointStored(st.store, st.store[key].spec.MountPointOf(key.nn))
    && st.store[key].spec.MountPointOf(key.nn).Key() in st.sessions
  }

  function WhoAt(st: State, key: ObjKey): Who
    requires key in st.store
  {
    Who(key.kind, key.nn, st.store[key].uid)
  }

  function SenderAt(st: State, key: ObjKey): Sender
    requires Live(st, key)
  {
    var spec := st.store[key].spec;
    var mp := spec.MountPointOf(key.nn);
    Sender(WhoAt(st, key), spec.Dependency(), mp, st.sessions[mp.Key()], |st.log|)
  }

  /** The script of the resource played against the device as it stands. */
  function PlayAt(st: State, key: ObjKey, env: Env): Transcript
    requires Live(st, key)
  {
    var spec := st.store[key].spec;
    Play(st.log, SenderAt(st, key), spec.Script(), "", env, env.validXml(Payload(spec)))
  }

  predicate OpenAt(st: State, key: ObjKey)
    requires key in st.store
  {
    GateOpen(st.store, key.nn.ns, st.store[key].spec.Dependency())
  }

  ghost predicate AllClean(sent: seq<Event>) {
    forall i :: 0 <= i < |sent| ==> sent[i].Sent? && sent[i].reply.Clean()
  }

  /** `st'` is `st` after the resource sent `sent` and was recorded as a success. */
  predicate Succeeds(st: State, st': State, key: ObjKey, sent: seq<Event>)
    requires key in st.store
  {
    && key in st'.store && st'.store == st.store[key := st'.store[key]]
    && st'.store[key].(status := st.store[key].status) == st.store[key]
    && st'.store[key].status.status == "success"
    && st'.log == st.log + sent + [StatusWritten(WhoAt(st, key), Some(true), "success")]
    && st'.sessions == st.sessions && st'.dialled == st.dialled && st'.nextUid == st.nextUid
  }

  // ----- up to the gate -----

  function StartAt(st: State, key: ObjKey): Worker
    requires key in st.store
  {
    Start(key.kind, key.nn, st.store[key])
  }

  function AtLookup(st: State, key: ObjKey): Worker
    requires key in st.store
  {
    StartAt(st, key).(pc := Lookup, seen := |st.log|)
  }

  function AtClosed(st: State, key: ObjKey): Worker
    requires key in st.store
  {
    StartAt(st, key).(pc := Report(true), seen := |st.log|)
  }

  lemma Checked(st: State, key: ObjKey, env: Env)
    requires Live(st, key) && env.Reads()
    ensures Reconcile(st, key.kind, key.nn, env) ==
      Complete(st, key.kind, StartAt(st, key).(pc := CheckSession), env)
  {
    assert StepWorker(st, key.kind, StartAt(st, key), ChoiceAt(st, StartAt(st, key), env)) ==
           (st, Go(StartAt(st, key).(pc := CheckSession)));
  }

  /** Commit tests its dependency while validating, EditConfig and Unlock in their logic; either way a
      closed gate ends the reconcile with an error and an open one leads to the lookup. */
  lemma Gated(st: State, key: ObjKey, env: Env)
    requires Live(st, key) && env.Reads()
    ensures Reconcile(st, key.kind, key.nn, env) ==
      Complete(st, key.kind, if OpenAt(st, key) then AtLookup(st, key) else AtClosed(st, key), env)
  {
    Checked(st, key, env);
    var w := StartAt(st, key).(pc := CheckSession);
    var w1 := w.(seen := |st.log|);
    var dep := st.store[key].spec.Dependency();
    assert StepWorker(st, key.kind, w, ChoiceAt(st, w, env)) == (st,
        AfterSessionCheck(key.kind, w1, env.validXml(Payload(w.obj.spec))));
    if dep.IsNil() || key.kind.Lock? {
      assert AfterSessionCheck(key.kind, w1, env.validXml(Payload(w.obj.spec))) == Go(AtLookup(st, key));
      assert Reconcile(st, key.kind, key.nn, env) == Complete(st, key.kind, AtLookup(st, key), env);
    } else {
      var w2 := w1.(pc := if key.kind.Commit? then CheckDependency else Gate);
      assert Reconcile(st, key.kind, key.nn, env) == Complete(st, key.kind, w2, env);
      if OpenAt(st, key) {
        assert StepWorker(st, key.kind, w2, ChoiceAt(st, w2, env)) == (st, Go(AtLookup(st, key)));
        assert Complete(st, key.kind, w2, env) == Complete(st, key.kind, AtLookup(st, key), env);
      } else {
        assert StepWorker(st, key.kind, w2, ChoiceAt(st, w2, env)) == (st, Go(AtClosed(st, key)));
      }
    }
  }

  /** A closed gate: nothing is sent, the status keeps its value, and the resource is queued again. */
  lemma ClosedGate(st: State, key: ObjKey, env: Env)
    requires Live(st, key) && env.Reads() && env.statusOk && !OpenAt(st, key)
    ensures Reconcile(st, key.kind, key.nn, env) ==
      (st.(log := st.log + [StatusWritten(WhoAt(st, key), None, st.store[key].status.status)]), Requeued)
  {
    Gated(st, key, env);
    assert st.store[key := st.store[key]] == st.store;
  }

  // ----- past the gate -----

  function AtSend(st: State, key: ObjKey): Worker
    requires Live(st, key)
  {
    AtLookup(st, key).(pc := Send(SenderAt(st, key).session, st.store[key].spec.Script()), since := |st.log|)
  }

  lemma OpenGate(st: State, key: ObjKey, env: Env)
    requires Live(st, key) && env.Reads() && OpenAt(st, key)
    ensures Reconcile(st, key.kind, key.nn, env) == Complete(st, key.kind, AtSend(st, key), env)
  {
    Gated(st, key, env);
    var w := AtLookup(st, key);
    assert StepWorker(st, key.kind, w, ChoiceAt(st, w, env)) == (st, Go(AtSend(st, key)));
    assert Complete(st, key.kind, w, env) == Complete(st, key.kind, AtSend(st, key), env);
  }

  /** Writing a success back. */
  lemma ReportsSuccess(st: State, key: ObjKey, w: Worker, sent: seq<Event>, env: Env)
    requires Live(st, key) && env.statusOk
    requires w.nn == key.nn && w.base == st.store[key] && w.pc == Report(false) && w.ran == Some(true)
    requires w.obj.status.status == "success"
    ensures var (st', e) := Complete(st.(log := st.log + sent), key.kind, w, env);
      e == Done && Succeeds(st, st', key, sent)
  {
    var st1 := st.(log := st.log + sent);
    assert StepWorker(st1, key.kind, w, ChoiceAt(st1, w, env)).1 == Finish(false);
  }

  /** Lock, Commit and Unlock send one RPC. */
  lemma SingleSends(st: State, key: ObjKey, env: Env)
    requires Live(st, key) && !key.kind.EditConfig? && env.statusOk
    requires var t := PlayAt(st, key, env); t.stop.None? && AllClean(t.sent)
    ensures var (st', e) := Complete(st, key.kind, AtSend(st, key), env);
      e == Done && Succeeds(st, st', key, PlayAt(st, key, env).sent)
  {
    var t, w := PlayAt(st, key, env), AtSend(st, key);
    var rpc := st.store[key].spec.Script()[0];
    var reply := env.peer(st.log, w.pc.session, rpc);
    var e := SenderAt(st, key).Entry(rpc, reply);
    assert st.store[key].spec.Script() == [rpc] && w.pc.todo[1..] == [];
    assert rpc.Buildable(env.validXml(Payload(st.store[key].spec)));
    assert Play(st.log + [e], SenderAt(st, key), st.store[key].spec.Script()[1..], "", env,
                env.validXml(Payload(st.store[key].spec))).sent == [];
    assert t.sent == [e];
    assert t.sent[0].reply == reply;
    var st1 := st.(log := st.log + t.sent);
    var w1 := Conclude(key.kind, w, true, reply.data, false);
    assert StepWorker(st, key.kind, w, ChoiceAt(st, w, env)) == (st1, Go(w1));
    ReportsSuccess(st, key, w1, t.sent, env);
  }

  /** An open gate, a script that completes and clean replies: the resource succeeds. */
  lemma Fires(st: State, key: ObjKey, env: Env)
    requires Live(st, key) && env.Reads() && env.statusOk && OpenAt(st, key)
    requires var t := PlayAt(st, key, env); t.stop.None? && (key.kind.EditConfig? || AllClean(t.sent))
    ensures var (st', e) := Reconcile(st, key.kind, key.nn, env);
      e == Done && Succeeds(st, st', key, PlayAt(st, key, env).sent)
  {
    OpenGate(st, key, env);
    if key.kind.EditConfig? {
      var t, w := PlayAt(st, key, env), AtSend(st, key);
      assert st.store[key].spec.EditConfigSpec?;
      EditConfigPlays(st, w, env);
      ReportsSuccess(st, key, Conclude(EditConfig, w.(data := t.data), true, t.data, false), t.sent, env);
    } else {
      SingleSends(st, key, env);
    }
  }

  /** The first `n` RPCs of an EditConfig: a lock iff asked for, one edit, a commit iff asked for, an unlock iff asked
      for, in that order. */
  lemma ScriptByFlags(spec: Spec, n: nat)
    requires spec.EditConfigSpec? && n <= |spec.Script()|
    ensures var l, c, u := if spec.lock then 1 else 0, if spec.commit then 1 else 0, if spec.unlock then 1 else 0;
      var rpcs := spec.Script()[..n];
      && |spec.Script()| == l + 1 + c + u
      && (spec.lock && n > 0 ==> rpcs[0] == LockRpc(spec.datastore))
      && (n > l ==> rpcs[l] == EditConfigRpc(spec.datastore, spec.operation, spec.xml))
      && (spec.commit && n > l + 1 ==> rpcs[l + 1] == CommitRpc)
      && (spec.unlock && n > l + 1 + c ==> rpcs[l + 1 + c] == UnlockRpc(spec.datastore))
      && (forall k :: 0 <= k < |spec.Script()| && k != l ==> !spec.Script()[k].EditConfigRpc?)
  {
  }

  /** The first message of the script that cannot be built shows at the first RPC for the datastore and at the edit
      for the operation and the payload. */
  lemma FirstUnbuildable(spec: Spec, n: nat, xmlOk: bool)
    requires spec.EditConfigSpec? && n < |spec.Script()|
    requires forall k :: 0 <= k < n ==> spec.Script()[k].Buildable(xmlOk)
    ensures var l := if spec.lock then 1 else 0;
      !spec.Script()[n].Buildable(xmlOk) <==>
        || (n == 0 && spec.datastore != "running" && spec.datastore != "candidate")
        || (n == l && !xmlOk)
        || (n == l && spec.operation != "merge" && spec.operation != "replace" && spec.operation != "none")
  {
    var l := if spec.lock then 1 else 0;
    if n > l { assert spec.Script()[l].Buildable(xmlOk); }
    if n > 0 { assert spec.Script()[0].Buildable(xmlOk); }
  }

  /** What a script sent, as RPCs and replies. */
  lemma {:induction false} PlaysPairs(log: Log, from: Sender, todo: seq<Rpc>, env: Env, xmlOk: bool, t: Transcript)
    returns (replies: seq<Outcome>)
    requires t == Play(log, from, todo, "", env, xmlOk)
    ensures |replies| == |t.sent| <= |todo|
    ensures forall k :: 0 <= k < |replies| ==>
      && todo[k].Buildable(xmlOk)
      && t.sent[k] == from.Entry(todo[k], replies[k])
      && replies[k] == env.peer(log + t.sent[..k], from.session, todo[k])
    ensures forall k :: 0 <= k < |replies| - 1 ==> replies[k].Reply?
  {
    PlaysInOrder(log, from, todo, "", env, xmlOk);
    PlaysPrefix(log, from, todo, "", env, xmlOk);
    var n := |t.sent|;
    replies := seq(n, k requires 0 <= k < n => env.peer(log + t.sent[..k], from.session, todo[k]));
    forall k | 0 <= k < n
      ensures todo[k].Buildable(xmlOk) && t.sent[k] == from.Entry(todo[k], replies[k])
      ensures k < n - 1 ==> replies[k].Reply?
    {
      assert EntryAt(log, from, todo, t.sent, env, xmlOk, k);
      if k < n - 1 { assert Replied(t.sent[..n - 1][k]); }
    }
  }

  /** Why it stopped, in those terms. */
  lemma {:induction false} PlaysStop(log: Log, from: Sender, spec: Spec, env: Env, t: Transcript, replies: seq<Outcome>)
    requires spec.EditConfigSpec? && t == Play(log, from, spec.Script(), "", env, env.validXml(spec.xml))
    requires |replies| == |t.sent| <= |spec.Script()|
    requires forall k :: 0 <= k < |replies| ==>
      spec.Script()[k].Buildable(env.validXml(spec.xml)) && t.sent[k] == from.Entry(spec.Script()[k], replies[k])
    requires forall k :: 0 <= k < |replies| - 1 ==> replies[k].Reply?
    ensures var n, l := |replies|, if spec.lock then 1 else 0;
      && (t.stop == Some(NilReply) <==> n > 0 && replies[n - 1].NoReply?)
      && (t.stop == Some(BadMessage) <==>
            (n > 0 ==> replies[n - 1].Reply?)
            && ((n == 0 && spec.datastore != "running" && spec.datastore != "candidate")
                || (n == l && ((spec.operation != "merge" && spec.operation != "replace" && spec.operation != "none")
                               || !env.validXml(spec.xml)))))
      && (t.stop == None <==> n == |spec.Script()| && replies[n - 1].Reply?)
      && (t.stop == None ==> n > l && replies[l].Reply? && t.data == replies[l].data)
      && (t.stop == None || t.stop == Some(NilReply) || t.stop == Some(BadMessage))
  {
    var xmlOk, todo, n := env.validXml(spec.xml), spec.Script(), |replies|;
    PlaysPrefix(log, from, todo, "", env, xmlOk);
    ScriptByFlags(spec, n);
    PlayKeepsEditReply(log, from, todo, "", env, xmlOk, if spec.lock then 1 else 0);
    assert AllReplied(t.sent) <==> n == 0 || replies[n - 1].Reply?;
    if n < |todo| { FirstUnbuildable(spec, n, xmlOk); }
    if t.stop.Some? { assert t.stop.value.NilReply? || t.stop.value.BadMessage?; }
  }

  /** How the reconcile ends, in terms of how its script does. */
  lemma TransactionEnds(st: State, key: ObjKey, env: Env, t: Transcript)
    requires Live(st, key) && key.kind.EditConfig? && env.Reads() && OpenAt(st, key) && t == PlayAt(st, key, env)
    ensures var (st', ending) := Reconcile(st, EditConfig, key.nn, env);
      && (t.stop.Some? ==> ending == Panicked(t.stop.value) && st' == st.(log := st.log + t.sent))
      && (t.stop.None? && !env.statusOk ==> ending == Requeued && st' == st.(log := st.log + t.sent))
      && (t.stop.None? && env.statusOk ==>
            ending == Done && Succeeds(st, st', key, t.sent) && st'.store[key].status.rpcReply == t.data)
  {
    var w := AtSend(st, key);
    OpenGate(st, key, env);
    EditConfigPlays(st, w, env);
    if t.stop.None? {
      var w1, st1 := Conclude(EditConfig, w.(data := t.data), true, t.data, false), st.(log := st.log + t.sent);
      if env.statusOk { ReportsSuccess(st, key, w1, t.sent, env); }
      assert StepWorker(st1, EditConfig, w1, ChoiceAt(st1, w1, env)).1 == Finish(!env.statusOk);
    }
  }

  /** The transaction of an EditConfig past its gate, for all eight flag combinations and whatever the device
      replies: a lock is sent iff asked for, then exactly one edit, then a commit iff asked for, then an unlock iff
      asked for, each with the datastore, operation and payload of the spec, on the session cached for its
      MountPoint. It completes, with status `success` and the payload of the edit-config reply if the status can be
      written, iff all of them got some reply, rpc-error or not; otherwise the process panics after the first missing
      reply, or before the first message that cannot be built, and the stored status is untouched. */
  lemma EditConfigTransaction(st: State, key: ObjKey, env: Env)
    returns (sent: seq<Event>, rpcs: seq<Rpc>, replies: seq<Outcome>)
    requires Live(st, key) && key.kind.EditConfig? && env.Reads() && OpenAt(st, key)
    ensures var spec := st.store[key].spec;
      var l, c, u := if spec.lock then 1 else 0, if spec.commit then 1 else 0, if spec.unlock then 1 else 0;
      var n := |rpcs|;
      && n <= l + 1 + c + u
      && (spec.lock && n > 0 ==> rpcs[0] == LockRpc(spec.datastore))
      && (n > l ==> rpcs[l] == EditConfigRpc(spec.datastore, spec.operation, spec.xml))
      && (spec.commit && n > l + 1 ==> rpcs[l + 1] == CommitRpc)
      && (spec.unlock && n > l + 1 + c ==> rpcs[l + 1 + c] == UnlockRpc(spec.datastore))
    ensures var o := st.store[key];
      var mp := NsName(key.nn.ns, o.spec.mountPoint);
      var s := st.sessions[mp.Key()];
      && |sent| == |replies| == |rpcs|
      && (forall k :: 0 <= k < |rpcs| ==>
            && replies[k] == env.peer(st.log + sent[..k], s, rpcs[k])
            && sent[k] == Sent(Who(EditConfig, key.nn, o.uid), o.spec.dependsOn, mp, s, |st.log|, rpcs[k], replies[k]))
      && (forall k :: 0 <= k < |rpcs| - 1 ==> replies[k].Reply?)
    ensures var spec := st.store[key].spec;
      var l, c, u := if spec.lock then 1 else 0, if spec.commit then 1 else 0, if spec.unlock then 1 else 0;
      var n, ending := |rpcs|, Reconcile(st, EditConfig, key.nn, env).1;
      && (!ending.Panicked? <==> n == l + 1 + c + u && replies[n - 1].Reply?)
      && (ending == Panicked(NilReply) <==> n > 0 && replies[n - 1].NoReply?)
      && (ending == Panicked(BadMessage) <==>
            (n > 0 ==> replies[n - 1].Reply?)
            && ((n == 0 && spec.datastore != "running" && spec.datastore != "candidate")
                || (n == l && ((spec.operation != "merge" && spec.operation != "replace" && spec.operation != "none")
                               || !env.validXml(spec.xml)))))
      && (ending == Panicked(NilReply) || ending == Panicked(BadMessage)
          || ending == if env.statusOk then Done else Requeued)
    ensures var (st', ending), l := Reconcile(st, EditConfig, key.nn, env), if st.store[key].spec.lock then 1 else 0;
      && (ending != Done ==> st' == st.(log := st.log + sent))
      && (ending == Done ==>
            && Succeeds(st, st', key, sent)
            && l < |replies| && replies[l].Reply? && st'.store[key].status.rpcReply == replies[l].data)
  {
    var t, from, spec := PlayAt(st, key, env), SenderAt(st, key), st.store[key].spec;
    sent, rpcs := t.sent, [];
    TransactionEnds(st, key, env, t);
    replies := PlaysPairs(st.log, from, spec.Script(), env, env.validXml(spec.xml), t);
    rpcs := spec.Script()[..|replies|];
    ScriptByFlags(spec, |replies|);
    PlaysStop(st.log, from, spec, env, t, replies);
  }
}
