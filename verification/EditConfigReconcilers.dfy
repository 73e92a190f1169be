/** The EditConfig controller: the transaction script, sent RPC by RPC with early exits. */
module EditConfigReconcilers {
  import opened Api
  import opened Operator
  import opened Atomic
  import opened Script
  import opened Execution
  import opened Cluster
  import opened Validation

  /** What is left of the script from the unlock on, from the commit on, from the edit on. */
  function FromUnlock(spec: Spec): seq<Rpc>
    requires spec.EditConfigSpec?
  {
    if spec.unlock then [UnlockRpc(spec.datastore)] + [] else []
  }

  function FromCommit(spec: Spec): seq<Rpc>
    requires spec.EditConfigSpec?
  {
    if spec.commit then [CommitRpc] + FromUnlock(spec) else FromUnlock(spec)
  }

  function FromEdit(spec: Spec): seq<Rpc>
    requires spec.EditConfigSpec?
  {
    [EditConfigRpc(spec.datastore, spec.operation, spec.xml)] + FromCommit(spec)
  }

  lemma ScriptParts(spec: Spec)
    requires spec.EditConfigSpec?
    ensures spec.Script() == if spec.lock then [LockRpc(spec.datastore)] + FromEdit(spec) else FromEdit(spec)
  {
  }

  /** The script `full` has been played up to the RPCs `rest`, after sending `sent`. */
  predicate Underway(full: Transcript, log: Log, sent: Log, from: Sender, rest: seq<Rpc>, data: string, env: Env,
      xmlOk: bool) {
    var p := Play(log + sent, from, rest, data, env, xmlOk);
    full == Transcript(sent + p.sent, p.data, p.stop)
  }

  lemma PlaysOn(full: Transcript, log: Log, sent: Log, from: Sender, rest: seq<Rpc>, data: string, env: Env,
      xmlOk: bool)
    requires rest != [] && Underway(full, log, sent, from, rest, data, env, xmlOk)
    ensures var reply := env.peer(log + sent, from.session, rest[0]);
      var sent' := sent + [from.Entry(rest[0], reply)];
      if !rest[0].Buildable(xmlOk) then full == Transcript(sent, data, Some(BadMessage))
      else if reply.NoReply? then full == Transcript(sent', data, Some(NilReply))
      else Underway(full, log, sent', from, rest[1..], if rest[0].EditConfigRpc? then reply.data else data, env, xmlOk)
  {
    var reply := env.peer(log + sent, from.session, rest[0]);
    var e := from.Entry(rest[0], reply);
    if !rest[0].Buildable(xmlOk) {
      assert sent + [] == sent;
    } else if reply.Reply? {
      var data' := if rest[0].EditConfigRpc? then reply.data else data;
      assert log + (sent + [e]) == log + sent + [e];
      var p := Play(log + (sent + [e]), from, rest[1..], data', env, xmlOk);
      assert sent + ([e] + p.sent) == sent + [e] + p.sent;
    }
  }

  lemma Starts(full: Transcript, log: Log, from: Sender, rest: seq<Rpc>, data: string, env: Env, xmlOk: bool)
    requires full == Play(log, from, rest, data, env, xmlOk)
    ensures log == log + [] && Underway(full, log, [], from, rest, data, env, xmlOk)
  {
    assert log == log + [];
    assert [] + full.sent == full.sent;
  }

  lemma Stops(full: Transcript, log: Log, sent: Log, from: Sender, rest: seq<Rpc>, data: string, env: Env, xmlOk: bool)
    requires rest == [] && Underway(full, log, sent, from, rest, data, env, xmlOk)
    ensures full == Transcript(sent, data, None)
  {
    assert sent + [] == sent;
  }

  /** A lock iff asked for, one edit, a commit iff asked for, an unlock iff asked for, in that order. */
  ghost predicate ByFlags(spec: Spec, sent: Log)
    requires spec.EditConfigSpec?
  {
    var l, c, u := if spec.lock then 1 else 0, if spec.commit then 1 else 0, if spec.unlock then 1 else 0;
    && |sent| == l + 1 + c + u && (forall k :: 0 <= k < |sent| ==> sent[k].Sent?)
    && (spec.lock ==> sent[0].rpc == LockRpc(spec.datastore))
    && sent[l].rpc == EditConfigRpc(spec.datastore, spec.operation, spec.xml)
    && (spec.commit ==> sent[l + 1].rpc == CommitRpc)
    && (spec.unlock ==> sent[l + 1 + c].rpc == UnlockRpc(spec.datastore))
  }

  /** So a script that went through sent what the flags ask for. */
  lemma SentByFlags(log: Log, from: Sender, spec: Spec, env: Env, full: Transcript)
    requires spec.EditConfigSpec? && full == Play(log, from, spec.Script(), "", env, env.validXml(spec.xml))
    ensures full.stop.None? ==> ByFlags(spec, full.sent) && (log + full.sent)[|log|..] == full.sent
  {
    var todo := spec.Script();
    var replies := PlaysPairs(log, from, todo, env, env.validXml(spec.xml), full);
    PlaysPrefix(log, from, todo, "", env, env.validXml(spec.xml));
    ScriptByFlags(spec, |todo|);
    assert todo[..|todo|] == todo;
  }

  class EditConfigReconciler {
    const r: Manager

    constructor (r: Manager)
      ensures this.r == r
    {
      this.r := r;
    }

    method IsValid(i: Instance) returns (ok: bool)
      requires i.base.spec.EditConfigSpec?
      ensures var mp := NsName(i.key.nn.ns, i.base.spec.mountPoint);
        ok <==> r.env.readOk && ObjKey(MountPoint, mp) in r.store && mp.Key() in r.sessions
    {
      ok := r.CheckMountPointExists(i.MountPointName());
    }

    /** Builds and sends the next RPC of the script. */
    method SendNext(i: Instance, s: nat, since: nat, rpc: Rpc, xmlOk: bool,
                    ghost full: Transcript, ghost log: Log, ghost sent: Log, ghost rest: seq<Rpc>, ghost data: string)
      returns (stop: Option<Cause>, reply: Outcome, ghost sent': Log)
      requires r.log == log + sent
      requires Underway(full, log, sent, SenderFor(i.key, i.base, s, since), [rpc] + rest, data, r.env, xmlOk)
      modifies r`log
      ensures stop.Some? ==> full.stop == stop && r.log == log + full.sent
      ensures stop.None? ==>
        && reply.Reply? && r.log == log + sent'
        && Underway(full, log, sent', SenderFor(i.key, i.base, s, since), rest,
            if rpc.EditConfigRpc? then reply.data else data, r.env, xmlOk)
    {
      PlaysOn(full, log, sent, SenderFor(i.key, i.base, s, since), [rpc] + rest, data, r.env, xmlOk);
      assert ([rpc] + rest)[1..] == rest;
      sent' := sent;
      if !rpc.Buildable(xmlOk) { return Some(BadMessage), NoReply, sent; }
      reply := r.SyncRPC(i, s, since, rpc);
      sent' := sent + [SenderFor(i.key, i.base, s, since).Entry(rpc, reply)];
      stop := if reply.NoReply? then Some(NilReply) else None;
    }

    /** What is sent is the script played against the device up to its first missing reply. The status is
        `success`, with the payload of the edit-config reply, iff nothing stopped the script; the replies to the
        other RPCs are not looked at, errors included. */
    method SendScript(i: Instance, s: nat) returns (result: Result)
      requires i.base.spec.EditConfigSpec? && i.ran == None
      modifies r`log, i
      ensures i.finalizers == old(i.finalizers)
      ensures var t := Play(old(r.log), SenderFor(i.key, i.base, s, |old(r.log)|), i.base.spec.Script(), "", r.env,
                            r.env.validXml(i.base.spec.xml));
        && r.log == old(r.log) + t.sent
        && (t.stop.Some? ==> result == Aborted(t.stop.value))
        && (t.stop.None? ==> result == Returned(false) && i.ran == Some(true)
                             && i.status == old(i.status).(status := "success", rpcReply := t.data))
    {
      var since, spec, xmlOk := |r.log|, i.base.spec, r.env.validXml(i.base.spec.xml);
      ghost var log, sent := r.log, [];
      ghost var full := Play(log, SenderFor(i.key, i.base, s, since), spec.Script(), "", r.env, xmlOk);
      Starts(full, log, SenderFor(i.key, i.base, s, since), spec.Script(), "", r.env, xmlOk);
      ScriptParts(spec);
      var stop: Option<Cause>, reply: Outcome;

      if spec.lock {
        stop, reply, sent := SendNext(i, s, since, LockRpc(spec.datastore), xmlOk, full, log, sent, FromEdit(spec), "");
        if stop.Some? {
          i.status := i.status.(status := "failed");
          return Aborted(stop.value);
        }
      }

      stop, reply, sent := SendNext(i, s, since, EditConfigRpc(spec.datastore, spec.operation, spec.xml), xmlOk,
                                    full, log, sent, FromCommit(spec), "");
      if stop.Some? {
        i.status := i.status.(status := "failed");
        return Aborted(stop.value);
      }

      if spec.commit {
        var stop, commitReply, sent' := SendNext(i, s, since, CommitRpc, xmlOk, full, log, sent, FromUnlock(spec),
            reply.data);
        if stop.Some? {
          i.status := i.status.(status := "failed");
          return Aborted(stop.value);
        }
        sent := sent';
      }

      if spec.unlock {
        var stop, unlockReply, sent' := SendNext(i, s, since, UnlockRpc(spec.datastore), xmlOk, full, log, sent, [],
            reply.data);
        if stop.Some? {
          i.status := i.status.(status := "failed");
          return Aborted(stop.value);
        }
        sent := sent';
      }

      Stops(full, log, sent, SenderFor(i.key, i.base, s, since), [], reply.data, r.env, xmlOk);
      i.status, i.ran := i.status.(status := "success", rpcReply := reply.data), Some(true);
      return Returned(false);
    }

    method ManageOperatorLogic(i: Instance) returns (result: Result)
      requires i.base.spec.EditConfigSpec? && i.key.kind.EditConfig? && i.ran == None
      modifies r`log, i
      ensures i.finalizers == old(i.finalizers) && old(r.log) <= r.log
      ensures var dep := i.base.spec.dependsOn;
        dep.kind != "" && dep.name != "" && !(r.env.readOk && ValidDependency(r.store, i.key.nn.ns, dep)) ==>
          result == Returned(true) && r.log == old(r.log) && i.status == old(i.status) && i.ran == None
      ensures result == Returned(false) ==> ByFlags(i.base.spec, r.log[|old(r.log)|..])
      ensures LogicGate(r.St(), i, r.env) && i.MountPointName().Key() !in r.sessions ==>
        result == Aborted(NilSession) && r.log == old(r.log)
      ensures LogicGate(r.St(), i, r.env) && i.MountPointName().Key() in r.sessions ==>
        var t := Play(old(r.log), SenderFor(i.key, i.base, r.sessions[i.MountPointName().Key()], |old(r.log)|),
                      i.base.spec.Script(), "", r.env, r.env.validXml(i.base.spec.xml));
        && r.log == old(r.log) + t.sent
        && (t.stop.Some? ==> result == Aborted(t.stop.value))
        && (t.stop.None? ==> result == Returned(false) && i.ran == Some(true)
                             && i.status == old(i.status).(status := "success", rpcReply := t.data))
    {
      if !i.base.spec.dependsOn.IsNil() {
        var ok := r.ValidateDependency(i.key.nn.ns, i.base.spec.dependsOn);
        if !ok { return Returned(true); }
      }
      if i.MountPointName().Key() !in r.sessions { return Aborted(NilSession); }
      ghost var log := r.log;
      var s := r.sessions[i.MountPointName().Key()];
      result := SendScript(i, s);
      ghost var full := Play(log, SenderFor(i.key, i.base, s, |log|), i.base.spec.Script(), "", r.env,
                             r.env.validXml(i.base.spec.xml));
      SentByFlags(log, SenderFor(i.key, i.base, s, |log|), i.base.spec, r.env, full);
    }

    method Reconcile(nn: NsName) returns (e: Ending)
      requires r.Typed(ObjKey(EditConfig, nn))
      modifies r
      ensures (r.St(), e) == Atomic.Reconcile(old(r.St()), EditConfig, nn, r.env)
    {
      ghost var st, key := r.St(), ObjKey(EditConfig, nn);
      var ok, i := r.Get(ObjKey(EditConfig, nn));
      if !ok { return Requeued; }
      if i == null { return Done; }
      ok := IsValid(i);
      if !ok {
        Invalid(st, key, r.env);
        e := r.ManageError(i);
        return;
      }
      Valid(st, key, r.env);
      if i.base.deleting { return Done; }
      GatesLogic(st, key, r.env);
      ghost var w := i.At(Lookup, |st.log|, 0, "");
      var result := ManageOperatorLogic(i);
      if LogicGate(st, i, r.env) { LogicEnds(st, key, w, r.env); }
      if result.Aborted? { return Panicked(result.cause); }
      if result.err { e := r.ManageError(i); } else { e := r.ManageSuccess(i); }
    }
  }

  /** From the lookup to the end, in terms of the script. */
  lemma LogicEnds(st: State, key: ObjKey, w: Worker, env: Env)
    requires key.kind.EditConfig? && key in st.store && st.store[key].spec.EditConfigSpec?
    requires w == Fetched(st, key).(pc := Lookup, seen := w.seen) && TargetOf(w).Key() in st.sessions
    ensures var s := st.sessions[TargetOf(w).Key()];
      var t := Play(st.log, SenderOf(EditConfig, w.(since := |st.log|), s), st.store[key].spec.Script(), "", env,
                    env.validXml(st.store[key].spec.xml));
      Complete(st, EditConfig, w, env) ==
        Conclusion(st.(log := st.log + t.sent), key, w.base, w.obj.status.(status := "success", rpcReply := t.data),
            Some(true),
                   if t.stop.Some? then Aborted(t.stop.value) else Returned(false), env)
  {
    var s := st.sessions[TargetOf(w).Key()];
    var w1 := w.(pc := Send(s, st.store[key].spec.Script()), since := |st.log|);
    LooksUp(st, key, w, env);
    EditConfigPlays(st, w1, env);
    var t := Play(st.log, SenderOf(EditConfig, w.(since := |st.log|), s), st.store[key].spec.Script(), "", env,
                  env.validXml(st.store[key].spec.xml));
    if t.stop.None? {
      Ends(st.(log := st.log + t.sent), EditConfig, Conclude(EditConfig, w1.(data := t.data), true, t.data, false),
          env);
    }
  }
}
