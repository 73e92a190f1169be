/** The RPC scripts: what an atomic reconcile of an executing kind sends, and what it leaves behind. */
module Script {
  import opened Api
  import opened Operator
  import opened Atomic

  /** Who sends, for which dependency, to which MountPoint, on which session, looked up since when. */
  datatype Sender = Sender(who: Who, dependsOn: DependsOn, mountPoint: NsName, session: nat, since: nat) {
    function Entry(rpc: Rpc, reply: Outcome): Event {
      Sent(who, dependsOn, mountPoint, session, since, rpc, reply)
    }
  }

  function SenderOf(kind: Kind, w: Worker, session: nat): Sender {
    Sender(WhoIs(kind, w), w.obj.spec.Dependency(), TargetOf(w), session, w.since)
  }

  /** How a transaction script ends: what was sent, the payload of the edit-config reply, and why it stopped. */
  datatype Transcript = Transcript(sent: seq<Event>, data: string, stop: Option<Cause>)

  /** The transaction script as a reference: send in order, stop at the first message that cannot be
      built and after the first missing reply. */
  function Play(log: Log, from: Sender, todo: seq<Rpc>, data: string, env: Env, xmlOk: bool): Transcript
    decreases |todo|
  {
    if todo == [] then Transcript([], data, None)
    else if !todo[0].Buildable(xmlOk) then Transcript([], data, Some(BadMessage))
    else
      var reply := env.peer(log, from.session, todo[0]);
      var e := from.Entry(todo[0], reply);
      if reply.NoReply? then Transcript([e], data, Some(NilReply))
      else
        var rest := Play(log + [e], from, todo[1..], if todo[0].EditConfigRpc? then reply.data else data, env, xmlOk);
        rest.(sent := [e] + rest.sent)
  }

  predicate Replied(e: Event) {
    e.Sent? && e.reply.Reply?
  }

  ghost predicate AllReplied(sent: seq<Event>) {
    forall i :: 0 <= i < |sent| ==> Replied(sent[i])
  }

  predicate EntryAt(log: Log, from: Sender, todo: seq<Rpc>, sent: seq<Event>, env: Env, xmlOk: bool, i: nat)
    requires i < |sent| <= |todo|
  {
    todo[i].Buildable(xmlOk) && sent[i] == from.Entry(todo[i], env.peer(log + sent[..i], from.session, todo[i]))
  }

  /** What is sent is a prefix of the script, in order, each RPC answered by the device as it then stands. */
  ghost predicate InOrder(log: Log, from: Sender, todo: seq<Rpc>, sent: seq<Event>, env: Env, xmlOk: bool) {
    |sent| <= |todo| && forall i :: 0 <= i < |sent| ==> EntryAt(log, from, todo, sent, env, xmlOk, i)
  }

  lemma ConsInOrder(log: Log, from: Sender, todo: seq<Rpc>, e: Event, rest: seq<Event>, env: Env, xmlOk: bool)
    requires todo != [] && todo[0].Buildable(xmlOk) && e == from.Entry(todo[0], env.peer(log, from.session, todo[0]))
    requires InOrder(log + [e], from, todo[1..], rest, env, xmlOk)
    ensures InOrder(log, from, todo, [e] + rest, env, xmlOk)
  {
    var sent := [e] + rest;
    forall i | 0 <= i < |sent|
      ensures EntryAt(log, from, todo, sent, env, xmlOk, i)
    {
      if i == 0 {
        assert log + sent[..0] == log;
      } else {
        assert EntryAt(log + [e], from, todo[1..], rest, env, xmlOk, i - 1);
        assert log + sent[..i] == (log + [e]) + rest[..i - 1];
      }
    }
  }

  lemma {:induction false} PlaysInOrder(log: Log, from: Sender, todo: seq<Rpc>, data: string, env: Env, xmlOk: bool)
    ensures InOrder(log, from, todo, Play(log, from, todo, data, env, xmlOk).sent, env, xmlOk)
    decreases |todo|
  {
    if todo != [] && todo[0].Buildable(xmlOk) {
      var reply := env.peer(log, from.session, todo[0]);
      var e := from.Entry(todo[0], reply);
      if reply.Reply? {
        var data' := if todo[0].EditConfigRpc? then reply.data else data;
        PlaysInOrder(log + [e], from, todo[1..], data', env, xmlOk);
        ConsInOrder(log, from, todo, e, Play(log + [e], from, todo[1..], data', env, xmlOk).sent, env, xmlOk);
      } else {
        ConsInOrder(log, from, todo, e, [], env, xmlOk);
        assert [e] + [] == [e];
      }
    }
  }

  lemma ConsReplied(e: Event, rest: seq<Event>)
    requires Replied(e)
    ensures AllReplied([e] + rest) <==> AllReplied(rest)
    ensures |rest| > 0 ==> (AllReplied(([e] + rest)[..|rest|]) <==> AllReplied(rest[..|rest| - 1]))
  {
    var sent := [e] + rest;
    assert forall i :: 0 <= i < |rest| ==> rest[i] == sent[i + 1];
    if |rest| > 0 { assert sent[..|rest|] == [e] + rest[..|rest| - 1]; }
  }

  /** What was sent is the longest prefix of the script up to and including the first missing reply (or up to
      the first message that cannot be built); the script completes iff nothing stopped it. */
  ghost predicate LongestPrefix(t: Transcript, todo: seq<Rpc>, xmlOk: bool) {
    var n := |t.sent|;
    && n <= |todo| && (n > 0 ==> AllReplied(t.sent[..n - 1])) && t.stop != Some(NilSession)
    && (t.stop == None <==> n == |todo| && AllReplied(t.sent))
    && (t.stop == Some(NilReply) <==> n > 0 && !Replied(t.sent[n - 1]))
    && (t.stop == Some(BadMessage) <==> n < |todo| && !todo[n].Buildable(xmlOk) && AllReplied(t.sent))
  }

  lemma ConsPrefix(e: Event, rest: Transcript, todo: seq<Rpc>, xmlOk: bool)
    requires todo != [] && Replied(e) && LongestPrefix(rest, todo[1..], xmlOk)
    ensures LongestPrefix(rest.(sent := [e] + rest.sent), todo, xmlOk)
  {
    ConsReplied(e, rest.sent);
    assert |rest.sent| < |todo[1..]| ==> todo[1..][|rest.sent|] == todo[|rest.sent| + 1];
    assert |rest.sent| > 0 ==> ([e] + rest.sent)[|rest.sent|] == rest.sent[|rest.sent| - 1];
  }

  lemma {:induction false} PlaysPrefix(log: Log, from: Sender, todo: seq<Rpc>, data: string, env: Env, xmlOk: bool)
    ensures LongestPrefix(Play(log, from, todo, data, env, xmlOk), todo, xmlOk)
    decreases |todo|
  {
    if todo != [] && todo[0].Buildable(xmlOk) {
      var reply := env.peer(log, from.session, todo[0]);
      var e := from.Entry(todo[0], reply);
      if reply.Reply? {
        var data' := if todo[0].EditConfigRpc? then reply.data else data;
        PlaysPrefix(log + [e], from, todo[1..], data', env, xmlOk);
        ConsPrefix(e, Play(log + [e], from, todo[1..], data', env, xmlOk), todo, xmlOk);
      } else {
        assert !Replied([e][0]);
      }
    }
  }

  /** The data kept is the one of the edit-config reply, whatever the replies around it. */
  lemma {:induction false} PlayKeepsEditReply(log: Log, from: Sender, todo: seq<Rpc>, data: string, env: Env,
                                              xmlOk: bool, k: nat)
    requires k < |todo| && todo[k].EditConfigRpc? && forall i :: 0 <= i < |todo| && i != k ==> !todo[i].EditConfigRpc?
    ensures var t := Play(log, from, todo, data, env, xmlOk);
      k < |t.sent| && Replied(t.sent[k]) ==> t.data == t.sent[k].reply.data
    decreases |todo|
  {
    if todo[0].Buildable(xmlOk) {
      var reply := env.peer(log, from.session, todo[0]);
      var log' := log + [from.Entry(todo[0], reply)];
      if reply.Reply? {
        if k > 0 {
          assert todo[1..][k - 1] == todo[k];
          PlayKeepsEditReply(log', from, todo[1..], data, env, xmlOk, k - 1);
        } else {
          NoEditKeepsData(log', from, todo[1..], reply.data, env, xmlOk);
        }
      }
    }
  }

  lemma {:induction false} NoEditKeepsData(log: Log, from: Sender, todo: seq<Rpc>, data: string, env: Env, xmlOk: bool)
    requires forall i :: 0 <= i < |todo| ==> !todo[i].EditConfigRpc?
    ensures Play(log, from, todo, data, env, xmlOk).data == data
    decreases |todo|
  {
    if todo != [] && todo[0].Buildable(xmlOk) {
      var reply := env.peer(log, from.session, todo[0]);
      if reply.Reply? {
        NoEditKeepsData(log + [from.Entry(todo[0], reply)], from, todo[1..], data, env, xmlOk);
      }
    }
  }

  /** One RPC of the transaction script. */
  lemma EditConfigSends(st: State, w: Worker, env: Env)
    requires w.pc.Send? && |w.pc.todo| > 0
    ensures var s, todo, from := w.pc.session, w.pc.todo, SenderOf(EditConfig, w, w.pc.session);
      var reply := env.peer(st.log, s, todo[0]);
      var st1 := st.(log := st.log + [from.Entry(todo[0], reply)]);
      var w1 := if todo[0].EditConfigRpc? && reply.Reply? then w.(data := reply.data) else w;
      Complete(st, EditConfig, w, env) ==
        if !todo[0].Buildable(env.validXml(Payload(w.obj.spec))) then (st, Panicked(BadMessage))
        else if reply.NoReply? then (st1, Panicked(NilReply))
        else Complete(st1, EditConfig, if |todo| > 1 then w1.(pc := Send(s, todo[1..]))
                                       else Conclude(EditConfig, w1, true, w1.data, false), env)
  {
  }

  /** A reconcile of an EditConfig in the middle of its script does what the reference says. */
  lemma {:induction false} EditConfigPlays(st: State, w: Worker, env: Env)
    requires w.pc.Send? && |w.pc.todo| > 0
    ensures var t := Play(st.log, SenderOf(EditConfig, w, w.pc.session), w.pc.todo, w.data, env,
                          env.validXml(Payload(w.obj.spec)));
      var st' := st.(log := st.log + t.sent);
      Complete(st, EditConfig, w, env) ==
        if t.stop.Some? then (st', Panicked(t.stop.value))
        else Complete(st', EditConfig, Conclude(EditConfig, w.(data := t.data), true, t.data, false), env)
    decreases |w.pc.todo|
  {
    var s, todo := w.pc.session, w.pc.todo;
    var xmlOk := env.validXml(Payload(w.obj.spec));
    var from := SenderOf(EditConfig, w, s);
    EditConfigSends(st, w, env);
    assert st.log + [] == st.log;
    if todo[0].Buildable(xmlOk) {
      var reply := env.peer(st.log, s, todo[0]);
      var e := from.Entry(todo[0], reply);
      var st1 := st.(log := st.log + [e]);
      var w1 := if todo[0].EditConfigRpc? && reply.Reply? then w.(data := reply.data) else w;
      if reply.Reply? {
        var rest := Play(st1.log, from, todo[1..], w1.data, env, xmlOk);
        assert st.log + ([e] + rest.sent) == st1.log + rest.sent;
        if |todo| > 1 {
          EditConfigPlays(st1, w1.(pc := Send(s, todo[1..])), env);
        } else {
          assert st.log + ([e] + []) == st1.log;
          assert todo[1..] == [] && rest == Transcript([], w1.data, None) && w.(data := w1.data) == w1;
        }
      }
    }
  }
}
