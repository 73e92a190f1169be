/** NETCONF devices as deterministic machines, and the two ways to run one configuration change: a single
    EditConfig with lock, commit and unlock, or the chain Lock, EditConfig, Commit, Unlock. */
module Device {
  import opened Api
  import opened Operator
  import opened WellFounded
  import opened Atomic
  import opened Script
  import opened Execution
  import opened Sequencing
  import opened Batch

  /** A device: from its state, the session an RPC arrives on and the RPC, its next state and its reply. */
  type Machine<!S> = (S, nat, Rpc) -> (S, Outcome)

  /** The state a device is in after the RPCs of a trace. */
  function StateOn<S>(dev: Machine<S>, start: S, trace: Trace): S {
    if trace == [] then start
    else
      var (session, rpc) := trace[|trace| - 1];
      dev(StateOn(dev, start, trace[..|trace| - 1]), session, rpc).0
  }

  /** The replies of a device that was in state `start` before the first RPC of the log. */
  function Replies<S>(dev: Machine<S>, start: S): Peer {
    (log: Log, session: nat, rpc: Rpc) => dev(StateOn(dev, start, TraceOf(log)), session, rpc).1
  }

  lemma {:induction false} AfterOne<S>(dev: Machine<S>, start: S, trace: Trace, session: nat, rpc: Rpc)
    ensures StateOn(dev, start, trace + [(session, rpc)]) == dev(StateOn(dev, start, trace), session, rpc).0
  {
    assert (trace + [(session, rpc)])[..|trace|] == trace;
  }

  /** The device replies cleanly to each RPC of the script in turn. */
  ghost predicate Accepts<S>(dev: Machine<S>, start: S, trace: Trace, session: nat, script: seq<Rpc>)
    decreases |script|
  {
    script == [] ||
    (dev(StateOn(dev, start, trace), session, script[0]).1.Clean()
     && Accepts(dev, start, trace + [(session, script[0])], session, script[1..]))
  }

  lemma {:induction false} OnSessionCons(session: nat, script: seq<Rpc>)
    requires script != []
    ensures OnSession(session, script) == [(session, script[0])] + OnSession(session, script[1..])
  {
  }

  /** Accepting a script is accepting its parts one after the other. */
  lemma {:induction false} AcceptsSplit<S>(dev: Machine<S>, start: S, trace: Trace, session: nat, a: seq<Rpc>,
      b: seq<Rpc>)
    requires Accepts(dev, start, trace, session, a + b)
    ensures Accepts(dev, start, trace, session, a)
    ensures Accepts(dev, start, trace + OnSession(session, a), session, b)
    decreases |a|
  {
    if a == [] {
      assert a + b == b && trace + OnSession(session, a) == trace;
    } else {
      assert (a + b)[1..] == a[1..] + b;
      AcceptsSplit(dev, start, trace + [(session, a[0])], session, a[1..], b);
      OnSessionCons(session, a);
      assert trace + OnSession(session, a) == trace + [(session, a[0])] + OnSession(session, a[1..]);
    }
  }

  lemma {:induction false} ConsClean(e: Event, rest: Log)
    requires e.Sent? && e.reply.Clean() && AllClean(rest)
    ensures AllClean([e] + rest)
  {
  }

  /** Accepting a script: a clean reply to its first RPC, after which the rest is accepted. */
  lemma {:induction false} AcceptsFirst<S>(dev: Machine<S>, start: S, log: Log, from: Sender, todo: seq<Rpc>, env: Env)
    requires todo != [] && env.peer == Replies(dev, start)
    requires Accepts(dev, start, TraceOf(log), from.session, todo)
    ensures var reply := env.peer(log, from.session, todo[0]);
      reply.Clean() && Accepts(dev, start, TraceOf(log + [from.Entry(todo[0], reply)]), from.session, todo[1..])
  {
    var reply := env.peer(log, from.session, todo[0]);
    assert reply == dev(StateOn(dev, start, TraceOf(log)), from.session, todo[0]).1;
    TraceAppend(log, [from.Entry(todo[0], reply)]);
    TraceOne(from.Entry(todo[0], reply));
  }

  /** A script the device accepts plays to its end with clean replies. */
  lemma {:induction false} AcceptedPlays<S>(dev: Machine<S>, start: S, log: Log, from: Sender, todo: seq<Rpc>,
                                            data: string, env: Env, xmlOk: bool)
    requires env.peer == Replies(dev, start)
    requires Accepts(dev, start, TraceOf(log), from.session, todo) && forall rpc <- todo :: rpc.Buildable(xmlOk)
    ensures var t := Play(log, from, todo, data, env, xmlOk); t.stop.None? && AllClean(t.sent)
    decreases |todo|
  {
    if todo != [] {
      AcceptsFirst(dev, start, log, from, todo, env);
      var reply := env.peer(log, from.session, todo[0]);
      var e := from.Entry(todo[0], reply);
      var data' := if todo[0].EditConfigRpc? then reply.data else data;
      assert todo[0] in todo;
      AcceptedPlays(dev, start, log + [e], from, todo[1..], data', env, xmlOk);
      ConsClean(e, Play(log + [e], from, todo[1..], data', env, xmlOk).sent);
    }
  }

  // ----- the chain -----

  /** Every resource of the chain works on the same session. */
  ghost predicate SameSession(st: State, specs: Specs, c: seq<ObjKey>, session: nat) {
    forall key <- c :: key in specs && specs[key].MountPointOf(key.nn).Key() in st.sessions
                       && st.sessions[specs[key].MountPointOf(key.nn).Key()] == session
  }

  /** The scripts of some resources, joined. */
  function Joined(specs: Specs, order: seq<ObjKey>): seq<Rpc> {
    if order == [] then []
    else (if order[0] in specs then specs[order[0]].Script() else []) + Joined(specs, order[1..])
  }

  lemma {:induction false} OnSessionAppend(session: nat, a: seq<Rpc>, b: seq<Rpc>)
    ensures OnSession(session, a + b) == OnSession(session, a) + OnSession(session, b)
  {
  }

  lemma {:induction false} ScriptsJoined(st: State, specs: Specs, c: seq<ObjKey>, session: nat)
    requires SameSession(st, specs, c, session)
    ensures Scripts(st.sessions, specs, c) == OnSession(session, Joined(specs, c))
    decreases |c|
  {
    if c != [] {
      assert c[0] in c && forall key <- c[1..] :: key in c;
      ScriptsJoined(st, specs, c[1..], session);
      OnSessionAppend(session, specs[c[0]].Script(), Joined(specs, c[1..]));
    }
  }

  ghost predicate AllBuildable(specs: Specs, env: Env) {
    forall key <- specs :: forall rpc <- specs[key].Script() :: rpc.Buildable(env.validXml(Payload(specs[key])))
  }

  /** The first `n` resources of the chain have fired and the device accepts the scripts of the others. */
  ghost predicate ChainAt<S>(b: Batch, specs: Specs, c: seq<ObjKey>, n: nat, dev: Machine<S>, start: S, session: nat) {
    && Ready(b, specs) && IsChain(specs, c) && n <= |c| && Fired(b.st, specs) == Set(c[..n])
    && SameSession(b.st, specs, c, session) && Accepts(dev, start, TraceOf(b.st.log), session, Joined(specs, c[n..]))
  }

  lemma {:induction false} ChainNextAccepted<S>(b: Batch, specs: Specs, c: seq<ObjKey>, n: nat,
                                                dev: Machine<S>, start: S, session: nat)
    requires ChainAt(b, specs, c, n, dev, start, session) && n < |c|
    ensures c[n] in specs && Live(b.st, c[n]) && b.st.store[c[n]].spec == specs[c[n]]
            && SenderAt(b.st, c[n]).session == session
    ensures Accepts(dev, start, TraceOf(b.st.log), session, specs[c[n]].Script())
    ensures Accepts(dev, start, TraceOf(b.st.log) + OnSession(session, specs[c[n]].Script()), session,
        Joined(specs, c[n + 1..]))
  {
    assert c[n] in c;
    assert Live(b.st, c[n]);
    assert c[n..][0] == c[n] && c[n..][1..] == c[n + 1..];
    AcceptsSplit(dev, start, TraceOf(b.st.log), session, specs[c[n]].Script(), Joined(specs, c[n + 1..]));
  }

  lemma {:induction false} ChainTurnClean<S>(b: Batch, specs: Specs, c: seq<ObjKey>, n: nat, key: ObjKey,
                                             dev: Machine<S>, start: S, session: nat, env: Env)
    requires ChainAt(b, specs, c, n, dev, start, session) && env.peer == Replies(dev, start) && AllBuildable(specs, env)
    ensures TurnClean(b, key, env)
  {
    if key in b.queue && Live(b.st, key) && OpenAt(b.st, key) {
      OpenMatches(b, specs, key);
      OnlyNextFires(specs, c, n, key);
      ChainNextAccepted(b, specs, c, n, dev, start, session);
      AcceptedPlays(dev, start, b.st.log, SenderAt(b.st, key), specs[key].Script(), "", env,
          env.validXml(Payload(specs[key])));
    }
  }

  lemma {:induction false} JoinedAppend(specs: Specs, a: seq<ObjKey>, b: seq<ObjKey>)
    ensures Joined(specs, a + b) == Joined(specs, a) + Joined(specs, b)
    decreases |a|
  {
    if a == [] {
      assert a + b == b;
    } else {
      assert (a + b)[1..] == a[1..] + b;
      JoinedAppend(specs, a[1..], b);
    }
  }

  lemma {:induction false} SetSplit(c: seq<ObjKey>, n: nat, m: nat)
    requires n <= m <= |c|
    ensures Set(c[..m]) == Set(c[..n]) + Set(c[n..m])
  {
    assert c[..m] == c[..n] + c[n..m];
  }

  lemma {:induction false} StretchAccepted<S>(dev: Machine<S>, start: S, trace: Trace, session: nat, specs: Specs,
                                              c: seq<ObjKey>, n: nat, m: nat)
    requires n <= m <= |c| && Accepts(dev, start, trace, session, Joined(specs, c[n..]))
    ensures Accepts(dev, start, trace + OnSession(session, Joined(specs, c[n..m])), session, Joined(specs, c[m..]))
  {
    assert c[n..] == c[n..m] + c[m..];
    JoinedAppend(specs, c[n..m], c[m..]);
    AcceptsSplit(dev, start, trace, session, Joined(specs, c[n..m]), Joined(specs, c[m..]));
  }

  lemma {:induction false} StretchTrace(b: Batch, b': Batch, specs: Specs, c: seq<ObjKey>, n: nat, m: nat, session: nat)
    requires n <= m <= |c| && SameSession(b.st, specs, c, session) && Refines(b, b', specs, c[n..m])
    ensures TraceOf(b'.st.log) == TraceOf(b.st.log) + OnSession(session, Joined(specs, c[n..m]))
    ensures SameSession(b'.st, specs, c, session)
  {
    assert forall key <- c[n..m] :: key in c;
    ScriptsJoined(b.st, specs, c[n..m], session);
  }

  lemma {:induction false} ChainArrives<S>(b: Batch, specs: Specs, c: seq<ObjKey>, n: nat, dev: Machine<S>, start: S,
                                           session: nat, trace: Trace)
    requires Ready(b, specs) && IsChain(specs, c) && n <= |c| && Fired(b.st, specs) == Set(c[..n])
    requires SameSession(b.st, specs, c, session)
    requires TraceOf(b.st.log) == trace && Accepts(dev, start, trace, session, Joined(specs, c[n..]))
    ensures ChainAt(b, specs, c, n, dev, start, session)
  {
  }

  /** When the next stretch of the chain fires, the device is ready for what is left. */
  lemma {:induction false} ChainMoves<S>(b: Batch, b': Batch, specs: Specs, c: seq<ObjKey>, n: nat, m: nat,
                                         dev: Machine<S>, start: S, session: nat)
    requires ChainAt(b, specs, c, n, dev, start, session) && n <= m <= |c| && Refines(b, b', specs, c[n..m])
    ensures ChainAt(b', specs, c, m, dev, start, session)
  {
    var trace := TraceOf(b.st.log);
    StretchAccepted(dev, start, trace, session, specs, c, n, m);
    StretchTrace(b, b', specs, c, n, m, session);
    SetSplit(c, n, m);
    ChainArrives(b', specs, c, m, dev, start, session, trace + OnSession(session, Joined(specs, c[n..m])));
  }

  lemma {:induction false} ChainNow<S>(b: Batch, specs: Specs, c: seq<ObjKey>, n: nat, key: ObjKey,
                                       dev: Machine<S>, start: S, session: nat) returns (m: nat)
    requires ChainAt(b, specs, c, n, dev, start, session)
    ensures n <= m <= |c| && FiresNow(specs, Fired(b.st, specs), key) == c[n..m]
  {
    m := n;
    if Firing(specs, Set(c[..n]), key) {
      OnlyNextFires(specs, c, n, key);
      m := n + 1;
    }
  }

  /** A turn leaves the chain where it was or one resource further. */
  lemma {:induction false} ChainServe<S>(b: Batch, specs: Specs, c: seq<ObjKey>, n: nat, key: ObjKey,
                                         dev: Machine<S>, start: S, session: nat, env: Env) returns (n': nat)
    requires ChainAt(b, specs, c, n, dev, start, session) && env.peer == Replies(dev, start) && AllBuildable(specs, env)
    requires Calm(env)
    ensures ChainAt(Serve(b, key, env), specs, c, n', dev, start, session)
  {
    ChainTurnClean(b, specs, c, n, key, dev, start, session, env);
    ServeRefines(b, specs, key, env);
    n' := ChainNow(b, specs, c, n, key, dev, start, session);
    ChainMoves(b, Serve(b, key, env), specs, c, n, n', dev, start, session);
  }

  /** A device that accepts the joined scripts of what is left of a chain answers every turn cleanly. */
  lemma {:induction false} ChainRunsClean<S>(b: Batch, specs: Specs, c: seq<ObjKey>, n: nat, sched: seq<ObjKey>,
                                             dev: Machine<S>, start: S, session: nat, env: Env)
    requires ChainAt(b, specs, c, n, dev, start, session) && env.peer == Replies(dev, start) && AllBuildable(specs, env)
    requires Calm(env)
    ensures RunClean(b, sched, env)
    decreases |sched|
  {
    if sched != [] {
      ChainTurnClean(b, specs, c, n, sched[0], dev, start, session, env);
      var n' := ChainServe(b, specs, c, n, sched[0], dev, start, session, env);
      ChainRunsClean(Serve(b, sched[0], env), specs, c, n', sched[1..], dev, start, session, env);
    }
  }

  /** A single chain on a device that accepts it: every fair schedule leaves the same RPC trace, the joined
      scripts in chain order, and every resource succeeds. */
  lemma {:induction false} ChainTrace<S>(b: Batch, specs: Specs, c: seq<ObjKey>, sched: seq<ObjKey>,
                                         dev: Machine<S>, start: S, session: nat, env: Env)
    requires Ready(b, specs) && Fired(b.st, specs) == {} && Calm(env) && env.peer == Replies(dev, start)
    requires AllBuildable(specs, env) && IsChain(specs, c) && SameSession(b.st, specs, c, session) && Fair(specs, sched)
    requires Accepts(dev, start, TraceOf(b.st.log), session, Joined(specs, c))
    ensures var b' := ServeAll(b, sched, env);
      && TraceOf(b'.st.log) == TraceOf(b.st.log) + OnSession(session, Joined(specs, c))
      && Fired(b'.st, specs) == specs.Keys && b'.queue == {}
  {
    ChainStarts(b, specs, c, dev, start, session);
    ChainRunsClean(b, specs, c, 0, sched, dev, start, session, env);
    BatchRefines(b, specs, sched, env);
    FairChainOrder(specs, c, sched);
    ChainEnded(b, ServeAll(b, sched, env), specs, c, session);
  }

  lemma {:induction false} ChainStarts<S>(b: Batch, specs: Specs, c: seq<ObjKey>, dev: Machine<S>, start: S,
      session: nat)
    requires Ready(b, specs) && Fired(b.st, specs) == {} && IsChain(specs, c) && SameSession(b.st, specs, c, session)
    requires Accepts(dev, start, TraceOf(b.st.log), session, Joined(specs, c))
    ensures ChainAt(b, specs, c, 0, dev, start, session)
  {
    assert c[..0] == [] && c[0..] == c && Set(c[..0]) == {};
  }

  lemma {:induction false} ChainEnded(b: Batch, b': Batch, specs: Specs, c: seq<ObjKey>, session: nat)
    requires Refines(b, b', specs, c) && IsChain(specs, c) && SameSession(b.st, specs, c, session)
    requires Fired(b.st, specs) == {}
    ensures TraceOf(b'.st.log) == TraceOf(b.st.log) + OnSession(session, Joined(specs, c))
    ensures Fired(b'.st, specs) == specs.Keys && b'.queue == {}
  {
    ScriptsJoined(b.st, specs, c, session);
    assert Set(c) == specs.Keys;
  }

  // ----- one EditConfig, or the chain of four -----

  /** The change: which datastore, which operation, which payload, on which MountPoint. */
  datatype Change = Change(ns: string, mountPoint: string, datastore: string, operation: string, xml: string)

  /** The four names of a chain. */
  datatype Names = Names(lock: string, edit: string, commit: string, unlock: string)

  function OneShot(ch: Change): Spec {
    EditConfigSpec(ch.mountPoint, ch.datastore, ch.operation, ch.xml, NO_DEPENDENCY, true, true, true)
  }

  function ChainKeys(ch: Change, names: Names): seq<ObjKey> {
    [ObjKey(Lock, NsName(ch.ns, names.lock)), ObjKey(EditConfig, NsName(ch.ns, names.edit)),
     ObjKey(Commit, NsName(ch.ns, names.commit)), ObjKey(Unlock, NsName(ch.ns, names.unlock))]
  }

  function ChainSpecs(ch: Change, names: Names): Specs {
    map[
      ObjKey(Lock, NsName(ch.ns, names.lock)) := LockSpec(ch.mountPoint, ch.datastore),
      ObjKey(EditConfig, NsName(ch.ns, names.edit)) :=
        EditConfigSpec(ch.mountPoint, ch.datastore, ch.operation, ch.xml, DependsOn("Lock", names.lock), false,
            false, false),
      ObjKey(Commit, NsName(ch.ns, names.commit)) := CommitSpec(ch.mountPoint, DependsOn("EditConfig", names.edit)),
      ObjKey(Unlock, NsName(ch.ns, names.unlock)) :=
        UnlockSpec(ch.mountPoint, ch.datastore, DependsOn("Commit", names.commit))
    ]
  }

  /** The four RPCs of the change. */
  function Transaction(ch: Change): seq<Rpc> {
    [LockRpc(ch.datastore), EditConfigRpc(ch.datastore, ch.operation, ch.xml), CommitRpc, UnlockRpc(ch.datastore)]
  }

  lemma {:induction false} ChainIsChain(ch: Change, names: Names)
    requires names.lock != "" && names.edit != "" && names.commit != ""
    ensures IsChain(ChainSpecs(ch, names), ChainKeys(ch, names))
  {
    var specs, c := ChainSpecs(ch, names), ChainKeys(ch, names);
    assert LinkedAt(specs, c, 0) && LinkedAt(specs, c, 1) && LinkedAt(specs, c, 2) && LinkedAt(specs, c, 3);
  }

  lemma {:induction false} ChainJoins(ch: Change, names: Names)
    ensures Joined(ChainSpecs(ch, names), ChainKeys(ch, names)) == Transaction(ch)
  {
    var specs, c := ChainSpecs(ch, names), ChainKeys(ch, names);
    assert Joined(specs, c[4..]) == [];
    assert c[3..][1..] == c[4..] && c[2..][1..] == c[3..] && c[1..][1..] == c[2..];
    assert Joined(specs, c[3..]) == [UnlockRpc(ch.datastore)];
    assert Joined(specs, c[2..]) == [CommitRpc] + Joined(specs, c[3..]);
    assert Joined(specs, c[1..]) == [EditConfigRpc(ch.datastore, ch.operation, ch.xml)] + Joined(specs, c[2..]);
  }

  /** The world of the change: the payload is XML, the datastore and the operation are known. */
  predicate Sendable(ch: Change, env: Env) {
    Calm(env) && forall rpc <- Transaction(ch) :: rpc.Buildable(env.validXml(ch.xml))
  }

  /** The one-shot form sends the four RPCs. */
  lemma {:induction false} OneShotTrace<S>(st: State, ch: Change, name: string, dev: Machine<S>, start: S, env: Env)
    requires var key := ObjKey(EditConfig, NsName(ch.ns, name));
      Live(st, key) && st.store[key].spec == OneShot(ch)
    requires Sendable(ch, env) && env.peer == Replies(dev, start)
    requires Accepts(dev, start, TraceOf(st.log), st.sessions[NsName(ch.ns, ch.mountPoint).Key()], Transaction(ch))
    ensures var (st', ending) := Reconcile(st, EditConfig, NsName(ch.ns, name), env);
      && ending == Done && ObjKey(EditConfig, NsName(ch.ns, name)) in st'.store
      && st'.store[ObjKey(EditConfig, NsName(ch.ns, name))].status.status == "success"
      && TraceOf(st'.log) ==
         TraceOf(st.log) + OnSession(st.sessions[NsName(ch.ns, ch.mountPoint).Key()], Transaction(ch))
  {
    var key := ObjKey(EditConfig, NsName(ch.ns, name));
    assert OneShot(ch).Script() == Transaction(ch);
    AcceptedPlays(dev, start, st.log, SenderAt(st, key), Transaction(ch), "", env, env.validXml(ch.xml));
    Fires(st, key, env);
    PlayTrace(st, key, env);
    TraceAfter(st, Reconcile(st, EditConfig, key.nn, env).0, key, PlayAt(st, key, env).sent);
  }

  /** The chain sends the four RPCs under any fair schedule. */
  lemma {:induction false} ChainOfFourTrace<S>(b: Batch, ch: Change, names: Names, sched: seq<ObjKey>, session: nat,
                                               dev: Machine<S>, start: S, env: Env)
    requires names.lock != "" && names.edit != "" && names.commit != ""
    requires Ready(b, ChainSpecs(ch, names)) && Fired(b.st, ChainSpecs(ch, names)) == {}
    requires Fair(ChainSpecs(ch, names), sched)
    requires var key := NsName(ch.ns, ch.mountPoint).Key(); key in b.st.sessions && b.st.sessions[key] == session
    requires Sendable(ch, env) && env.peer == Replies(dev, start)
    requires Accepts(dev, start, TraceOf(b.st.log), session, Transaction(ch))
    ensures var b' := ServeAll(b, sched, env);
      && TraceOf(b'.st.log) == TraceOf(b.st.log) + OnSession(session, Transaction(ch))
      && Fired(b'.st, ChainSpecs(ch, names)) == ChainSpecs(ch, names).Keys
  {
    var specs, c := ChainSpecs(ch, names), ChainKeys(ch, names);
    ChainIsChain(ch, names);
    ChainJoins(ch, names);
    ChainBuildable(ch, names, env);
    ChainSession(b.st, ch, names, session);
    ChainTrace(b, specs, c, sched, dev, start, session, env);
  }

  lemma {:induction false} ChainSession(st: State, ch: Change, names: Names, session: nat)
    requires var key := NsName(ch.ns, ch.mountPoint).Key(); key in st.sessions && st.sessions[key] == session
    ensures SameSession(st, ChainSpecs(ch, names), ChainKeys(ch, names), session)
  {
  }

  lemma {:induction false} ChainBuildable(ch: Change, names: Names, env: Env)
    requires Sendable(ch, env)
    ensures AllBuildable(ChainSpecs(ch, names), env)
  {
    var t := Transaction(ch);
    assert t[0] in t && t[1] in t && t[2] in t && t[3] in t;
  }

  /** The one-shot form refines the chain: on every deterministic device that accepts the four RPCs, one
      EditConfig with lock, commit and unlock leaves the same RPC trace and the same device state as the
      chain of four resources under any fair schedule. */
  lemma {:induction false} OneShotRefinesChain<S>(st: State, b: Batch, ch: Change, name: string, names: Names,
                                                  sched: seq<ObjKey>, dev: Machine<S>, start: S, env: Env)
    requires var key := ObjKey(EditConfig, NsName(ch.ns, name));
      Live(st, key) && st.store[key].spec == OneShot(ch)
    requires names.lock != "" && names.edit != "" && names.commit != ""
    requires Ready(b, ChainSpecs(ch, names)) && Fired(b.st, ChainSpecs(ch, names)) == {}
    requires Fair(ChainSpecs(ch, names), sched)
    requires b.st.sessions == st.sessions && TraceOf(b.st.log) == TraceOf(st.log)
    requires Sendable(ch, env) && env.peer == Replies(dev, start)
    requires Accepts(dev, start, TraceOf(st.log), st.sessions[NsName(ch.ns, ch.mountPoint).Key()], Transaction(ch))
    ensures var once, chain := Reconcile(st, EditConfig, NsName(ch.ns, name), env).0, ServeAll(b, sched, env);
      && TraceOf(once.log) == TraceOf(chain.st.log)
      && StateOn(dev, start, TraceOf(once.log)) == StateOn(dev, start, TraceOf(chain.st.log))
      && Fired(chain.st, ChainSpecs(ch, names)) == ChainSpecs(ch, names).Keys
  {
    OneShotTrace(st, ch, name, dev, start, env);
    ChainOfFourTrace(b, ch, names, sched, st.sessions[NsName(ch.ns, ch.mountPoint).Key()], dev, start, env);
  }
}
