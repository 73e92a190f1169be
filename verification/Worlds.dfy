/** A batch freshly installed on one connected MountPoint: it is reached by a run, the premises of the scheduling
    theorems hold of it, and on a device after RFC 6241 the two forms of a change end alike. */
module Worlds {
  import opened Api
  import opened Operator
  import opened Causality
  import opened Safety
  import opened WellFounded
  import opened Atomic
  import opened Turns
  import opened Execution
  import opened Sequencing
  import opened Batch
  import opened Device
  import opened Rfc6241
  import opened Episodes

  // ----- reaching a fresh batch -----

  /** Every resource is of an executing kind and works on the MountPoint `mp`. */
  ghost predicate OnOne(specs: Specs, mp: NsName) {
    forall key <- specs :: Executes(key.kind) && specs[key].Kind() == key.kind && specs[key].MountPointOf(key.nn) == mp
  }

  /** Of the batch, the resources `done` have been created, and nothing else but the MountPoint is there. */
  ghost predicate Installed(st: State, specs: Specs, mp: NsName, done: set<ObjKey>) {
    && done <= specs.Keys && ObjKey(MountPoint, mp) in st.store && mp.Key() in st.sessions
    && (forall key <- st.store :: key in done || key == ObjKey(MountPoint, mp))
    && (forall key <- done :: key in st.store && st.store[key].spec == specs[key]
                              && !st.store[key].deleting && st.store[key].status == NEW_STATUS)
  }

  function Creating(specs: Specs, key: ObjKey): Turn
    requires key in specs
  {
    Act(Create(key, specs[key], {}))
  }

  lemma {:induction false} InstallsOne(st: State, specs: Specs, mp: NsName, done: set<ObjKey>, key: ObjKey)
    requires OnOne(specs, mp) && NoSlash(mp.ns) && Installed(st, specs, mp, done) && key in specs && key !in done
    ensures var st' := TakeTurn(st, Creating(specs, key));
      Installed(st', specs, mp, done + {key}) && st'.sessions == st.sessions && st'.log == st.log
  {
    assert Executes(key.kind) && key !in st.store;
    var o := Obj(st.nextUid, {}, false, specs[key], NEW_STATUS);
    assert TakeTurn(st, Creating(specs, key)) == st.(store := st.store[key := o], nextUid := st.nextUid + 1);
  }

  lemma OneLess(all: set<ObjKey>, done: set<ObjKey>, key: ObjKey)
    requires key in all && key !in done
    ensures |all - (done + {key})| < |all - done|
  {
    assert all - (done + {key}) == (all - done) - {key};
  }

  lemma NoneLeft(all: set<ObjKey>, done: set<ObjKey>)
    requires done <= all && all - done == {}
    ensures all == done
  {
    assert all == done + (all - done);
  }

  /** Creating the rest of the batch, one resource after the other. */
  lemma {:induction false} Installs(st: State, specs: Specs, mp: NsName, done: set<ObjKey>) returns (turns: seq<Turn>)
    requires OnOne(specs, mp) && NoSlash(mp.ns) && Installed(st, specs, mp, done)
    ensures var st' := TakeTurns(st, turns);
      Installed(st', specs, mp, specs.Keys) && st'.sessions == st.sessions && st'.log == st.log
    decreases |specs.Keys - done|
  {
    turns := [];
    var left := specs.Keys - done;
    if left != {} {
      var key :| key in left;
      InstallsOne(st, specs, mp, done, key);
      OneLess(specs.Keys, done, key);
      var rest := Installs(TakeTurn(st, Creating(specs, key)), specs, mp, done + {key});
      turns := [Creating(specs, key)] + rest;
      assert turns[1..] == rest;
    } else {
      NoneLeft(specs.Keys, done);
    }
  }

  lemma {:induction false} InstalledIsReady(st: State, specs: Specs, mp: NsName)
    requires OnOne(specs, mp) && Installed(st, specs, mp, specs.Keys)
    ensures Ready(Batch(st, specs.Keys), specs) && Fired(st, specs) == {}
  {
    forall key | key in specs
      ensures Live(st, key) && st.store[key].spec == specs[key]
    {
      assert key in specs.Keys;
    }
  }

  lemma {:induction false} MountedTrace(mp: NsName)
    ensures TraceOf(Mounted(INIT.st, mp).log) == []
  {
    var log := Mounted(INIT.st, mp).log;
    TraceAppend([log[0], log[1]], [log[2]]);
    TraceAppend([log[0]], [log[1]]);
    TraceOne(log[0]);
    TraceOne(log[1]);
    TraceOne(log[2]);
    assert log == [log[0], log[1]] + [log[2]] && [log[0], log[1]] == [log[0]] + [log[1]];
  }

  /** Every batch on one MountPoint can be installed by a run: the MountPoint is created and connected, then the
      resources are created. What is reached meets the premises of the scheduling theorems. */
  lemma {:induction false} FreshWorld(specs: Specs, mp: NsName) returns (actions: seq<Action>)
    requires OnOne(specs, mp) && NoSlash(mp.ns)
    ensures var s := Run(INIT, actions);
      && Good(s) && s.workers == map[] && s.st.sessions == map[mp.Key() := 0] && TraceOf(s.st.log) == []
      && Ready(Batch(s.st, specs.Keys), specs) && Fired(s.st, specs) == {}
  {
    var st := Mounted(INIT.st, mp);
    Mounts(INIT.st, mp);
    MountedTrace(mp);
    var rest := Installs(st, specs, mp, {});
    TurnsAppend(INIT.st, Mounting(mp), rest);
    actions := TurnsAreARun(INIT.st, Mounting(mp) + rest);
    Reachable(actions);
    InstalledIsReady(TakeTurns(st, rest), specs, mp);
  }

  function Repeated(pass: seq<ObjKey>, n: nat): seq<seq<ObjKey>> {
    seq(n, i => pass)
  }

  /** Passing over the batch as often as it has resources is fair. */
  lemma {:induction false} RoundRobinIsFair(specs: Specs, pass: seq<ObjKey>)
    requires Pass(specs, pass)
    ensures Fair(specs, Flatten(Repeated(pass, |specs|)))
  {
    var passes := Repeated(pass, |specs|);
    assert forall p <- passes :: Pass(specs, p);
  }

  // ----- the two forms, end to end -----

  function One(ch: Change, name: string): Specs {
    map[ObjKey(EditConfig, NsName(ch.ns, name)) := OneShot(ch)]
  }

  lemma {:induction false} ChangeOnOne(ch: Change, names: Names)
    ensures OnOne(ChainSpecs(ch, names), NsName(ch.ns, ch.mountPoint))
    ensures OnOne(One(ch, names.edit), NsName(ch.ns, ch.mountPoint))
  {
  }

  lemma {:induction false} Applies<C>(edit: Edit<C>, start: Netconf<C>, session: nat, ch: Change, env: Env)
    requires Sendable(ch, env) && ch.datastore == "candidate"
    requires start.Idle() && edit(start.candidate, ch.operation, ch.xml).Some?
    ensures var d := StateOn(Server(edit), start, OnSession(session, Transaction(ch)));
      d.Idle() && d.running == edit(start.candidate, ch.operation, ch.xml).value
  {
    assert OneShot(ch).Script() == Transaction(ch);
    assert Transaction(ch)[1] in Transaction(ch) && Transaction(ch)[1].Buildable(env.validXml(ch.xml));
    TransactionOnDevice(edit, start, [], session, OneShot(ch), env);
    assert [] + OnSession(session, Transaction(ch)) == OnSession(session, Transaction(ch));
  }

  /** From any states in which nothing has been sent, on an idle RFC 6241 device that takes the edit, the one-shot
      EditConfig and the chain of four under any fair schedule send the same four RPCs and leave the device in the
      same state: idle, with the edit applied to running. */
  lemma {:induction false} BothFormsApplyTheEdit<C>(edit: Edit<C>, start: Netconf<C>, st: State, b: Batch, session: nat,
                                                    ch: Change, names: Names, sched: seq<ObjKey>, env: Env)
    requires var key, mp := ObjKey(EditConfig, NsName(ch.ns, names.edit)), NsName(ch.ns, ch.mountPoint).Key();
      && Live(st, key) && st.store[key].spec == OneShot(ch) && st.sessions[mp] == session && TraceOf(st.log) == []
      && mp in b.st.sessions && b.st.sessions[mp] == session && TraceOf(b.st.log) == []
    requires names.lock != "" && names.edit != "" && names.commit != ""
    requires Ready(b, ChainSpecs(ch, names)) && Fired(b.st, ChainSpecs(ch, names)) == {}
    requires Fair(ChainSpecs(ch, names), sched)
    requires Sendable(ch, env) && env.peer == Replies(Server(edit), start) && ch.datastore == "candidate"
    requires start.Idle() && edit(start.candidate, ch.operation, ch.xml).Some?
    ensures var once := Reconcile(st, EditConfig, NsName(ch.ns, names.edit), env).0;
      var chain := ServeAll(b, sched, env).st;
      var d := StateOn(Server(edit), start, TraceOf(once.log));
      && TraceOf(once.log) == TraceOf(chain.log) == OnSession(session, Transaction(ch))
      && StateOn(Server(edit), start, TraceOf(chain.log)) == d
      && d.Idle() && d.running == edit(start.candidate, ch.operation, ch.xml).value
  {
    IdleAcceptsTransaction(edit, start, [], session, ch);
    Applies(edit, start, session, ch, env);
    OneShotTrace(st, ch, names.edit, Server(edit), start, env);
    ChainOfFourTrace(b, ch, names, sched, session, Server(edit), start, env);
    assert [] + OnSession(session, Transaction(ch)) == OnSession(session, Transaction(ch));
  }

  /** And such states are reached: each form can be installed by a run, and going round the chain is a fair
      schedule. */
  lemma {:induction false} BothFormsHappen<C>(edit: Edit<C>, start: Netconf<C>, ch: Change, names: Names, env: Env)
    returns (one: seq<Action>, many: seq<Action>, sched: seq<ObjKey>)
    requires NoSlash(ch.ns) && names.lock != "" && names.edit != "" && names.commit != ""
    requires Sendable(ch, env) && env.peer == Replies(Server(edit), start) && ch.datastore == "candidate"
    requires start.Idle() && edit(start.candidate, ch.operation, ch.xml).Some?
    ensures var st, b := Run(INIT, one).st, Batch(Run(INIT, many).st, ChainSpecs(ch, names).Keys);
      var once := Reconcile(st, EditConfig, NsName(ch.ns, names.edit), env).0;
      var chain := ServeAll(b, sched, env).st;
      && Good(Run(INIT, one)) && Good(Run(INIT, many)) && Fair(ChainSpecs(ch, names), sched)
      && TraceOf(once.log) == TraceOf(chain.log) == OnSession(0, Transaction(ch))
      && StateOn(Server(edit), start, TraceOf(chain.log)).Idle()
      && StateOn(Server(edit), start, TraceOf(chain.log)).running == edit(start.candidate, ch.operation, ch.xml).value
  {
    var mp, specs := NsName(ch.ns, ch.mountPoint), ChainSpecs(ch, names);
    ChangeOnOne(ch, names);
    one := FreshWorld(One(ch, names.edit), mp);
    many := FreshWorld(specs, mp);
    ChainIsChain(ch, names);
    sched := Flatten(Repeated(ChainKeys(ch, names), |specs|));
    RoundRobinIsFair(specs, ChainKeys(ch, names));
    var st := Run(INIT, one).st;
    assert ObjKey(EditConfig, NsName(ch.ns, names.edit)) in One(ch, names.edit);
    BothFormsApplyTheEdit(edit, start, st, Batch(Run(INIT, many).st, specs.Keys), 0, ch, names, sched, env);
  }
}
