/** The operator as a step machine: the object store, the process-wide session cache, the dialled
    NETCONF sessions, a log of what happened, and at most one reconcile in flight per kind. A
    reconcile is cut at every access to shared state, so reconciles of different kinds interleave. */
module Operator {
  import opened Api

  /** A dialled session: the MountPoint it was dialled for and the listeners registered on it. */
  datatype Session = Session(owner: NsName, listeners: set<string>, capabilities: seq<string>)

  /** The resource a log entry is about. */
  datatype Who = Who(kind: Kind, nn: NsName, uid: nat)

  datatype Event =
    | Dialled(session: nat)
    | HelloFailed(session: nat)
    | Installed(key: string, session: nat)
    | Forgotten(key: string, session: nat)
    | Sent(who: Who, dependsOn: DependsOn, mountPoint: NsName, session: nat, since: nat, rpc: Rpc, reply: Outcome)
    | Listened(who: Who, session: nat, id: string, key: string, since: nat)
    | Unlistened(who: Who, session: nat, id: string, key: string, since: nat)
    | StatusWritten(who: Who, ran: Option<bool>, status: string)
    | Gone(who: Who, subscriptionID: string)
    | Restarted

  type Log = seq<Event>

  datatype State = State(
    store: map<ObjKey, Obj>,
    sessions: map<string, nat>,
    dialled: seq<Session>,
    log: Log,
    nextUid: nat)

  /** Where a reconcile stands, named after the access to shared state it makes next. */
  datatype Pc =
    | CheckMountPoint
    | CheckSession
    | CheckDependency
    | Initialize
    | Gate
    | Lookup
    | Unlisten(session: nat)
    | Send(session: nat, todo: seq<Rpc>)
    | Listen(session: nat, id: string)
    | Dial
    | Hello(session: nat)
    | Install(session: nat)
    | Forget(session: nat)
    | HangUp(session: nat)
    | Release
    | Report(failed: bool)

  /** A reconcile in flight. `base` is the object as read and `obj` the copy being changed; `seen` and
      `since` are the lengths of the log when the session was checked and when it was looked up; `ran`
      says how the operator logic ended, if it did; `data` is the payload of the edit-config reply. */
  datatype Worker = Worker(nn: NsName, base: Obj, obj: Obj, pc: Pc,
                           seen: nat, since: nat, ran: Option<bool>, data: string)

  datatype Cause = NilSession | NilReply | BadMessage

  datatype Progress = Go(next: Worker) | Finish(requeue: bool) | Panic(cause: Cause)

  /** What the outside decides during one step: whether the store read or write, dial, hello or close call succeeds,
      whether the payload is XML, what the device replies, and the capabilities of a fresh session. */
  datatype Choice = Choice(ok: bool, xmlOk: bool, reply: Outcome, capabilities: seq<string>)

  const STREAM_HANDLER := "DEFAULT_NOTIFICATION_STREAM"

  // ----- the checks shared by the controllers -----

  predicate MountPointStored(store: map<ObjKey, Obj>, mp: NsName) {
    ObjKey(MountPoint, mp) in store
  }

  /** The three kinds `dependsOn` can name. */
  function DependencyKind(dep: DependsOn): Option<Kind> {
    if dep.kind == "Commit" then Some(Commit)
    else if dep.kind == "EditConfig" then Some(EditConfig)
    else if dep.kind == "Lock" then Some(Lock)
    else None
  }

  predicate ValidDependency(store: map<ObjKey, Obj>, ns: string, dep: DependsOn) {
    && DependencyKind(dep).Some?
    && var key := ObjKey(DependencyKind(dep).value, NsName(ns, dep.name));
       key in store && store[key].status.status == "success"
  }

  predicate GateOpen(store: map<ObjKey, Obj>, ns: string, dep: DependsOn) {
    dep.IsNil() || ValidDependency(store, ns, dep)
  }

  // ----- in-memory moves between two accesses -----

  function StartPc(kind: Kind): Pc {
    if kind.MountPoint? then Initialize else CheckMountPoint
  }

  function Start(kind: Kind, nn: NsName, obj: Obj): Worker {
    Worker(nn, obj, obj, StartPc(kind), 0, 0, None, "")
  }

  function WhoIs(kind: Kind, w: Worker): Who {
    Who(kind, w.nn, w.base.uid)
  }

  function TargetOf(w: Worker): NsName {
    w.obj.spec.MountPointOf(w.nn)
  }

  /** The deletion test of the four RPC kinds, and the dependency test where the logic starts with one. */
  function AfterValidation(kind: Kind, w: Worker): Progress {
    if w.obj.deleting then Finish(false)
    else if (kind.EditConfig? || kind.Unlock?) && !w.obj.spec.Dependency().IsNil() then Go(w.(pc := Gate))
    else Go(w.(pc := Lookup))
  }

  function AfterSessionCheck(kind: Kind, w: Worker, xmlOk: bool): Progress {
    match kind
    case Commit => if w.obj.spec.Dependency().IsNil() then AfterValidation(kind, w) else Go(w.(pc := CheckDependency))
    case EstablishSubscription => if xmlOk then Go(w.(pc := Initialize)) else Go(w.(pc := Report(true)))
    case _ => AfterValidation(kind, w)
  }

  /** The finalizer is present: clean up an object being deleted, otherwise run the logic. */
  function AfterInitialize(kind: Kind, w: Worker): Progress {
    if !w.obj.deleting then Go(w.(pc := if kind.MountPoint? then Dial else Lookup))
    else if kind.EstablishSubscription? && w.obj.status.subscriptionID == "" then Go(w.(pc := Release))
    else Go(w.(pc := Lookup))
  }

  function Conclude(kind: Kind, w: Worker, ok: bool, rpcReply: string, failed: bool): Worker {
    w.(obj := w.obj.(status := w.obj.status.(status := StatusName(kind, ok), rpcReply := rpcReply)),
       ran := Some(ok), pc := Report(failed))
  }

  function AfterReply(kind: Kind, w: Worker, session: nat, todo: seq<Rpc>, reply: Outcome): Progress
    requires |todo| > 0
  {
    match kind
    case EditConfig =>
      if reply.NoReply? then Panic(NilReply)
      else
        var w1 := if todo[0].EditConfigRpc? then w.(data := reply.data) else w;
        if |todo| > 1 then Go(w1.(pc := Send(session, todo[1..])))
        else Go(Conclude(kind, w1, true, w1.data, false))
    case MountPoint =>
      if |todo| > 1 && !reply.Clean() then Go(w.(pc := Send(session, todo[1..])))
      else Go(w.(pc := Forget(session)))
    case EstablishSubscription =>
      if w.obj.deleting then Go(w.(pc := if reply.Err() then Report(true) else Release))
      else if reply.Clean() then Go(w.(pc := Listen(session, reply.subscriptionID)))
      else Go(Conclude(kind, w, false, if reply.NoReply? then w.obj.status.rpcReply else reply.raw, reply.Err()))
    case _ =>
      if reply.NoReply? then Panic(NilReply)
      else if reply.Clean() then Go(Conclude(kind, w, true, reply.data, false))
      else Go(Conclude(kind, w, false, reply.raw, reply.err))
  }

  // ----- the accesses to shared state -----

  function SetListeners(dialled: seq<Session>, s: nat, listeners: set<string>): seq<Session> {
    if s < |dialled| then dialled[s := dialled[s].(listeners := listeners)] else dialled
  }

  function ListenersOf(dialled: seq<Session>, s: nat): set<string> {
    if s < |dialled| then dialled[s].listeners else {}
  }

  /** A store write succeeds only on the very object that was read (optimistic concurrency). */
  predicate Writable(st: State, kind: Kind, w: Worker, c: Choice) {
    c.ok && ObjKey(kind, w.nn) in st.store && st.store[ObjKey(kind, w.nn)] == w.base
  }

  /** Storing an object; one that is being deleted and has no finalizer left disappears. */
  function Put(st: State, key: ObjKey, obj: Obj): State {
    if obj.deleting && obj.finalizers == {} then
      st.(store := st.store - {key}, log := st.log + [Gone(Who(key.kind, key.nn, obj.uid), obj.status.subscriptionID)])
    else st.(store := st.store[key := obj])
  }

  function StepInitialize(st: State, kind: Kind, w: Worker, c: Choice): (State, Progress) {
    if Finalized(kind, w.obj) || OwnFinalizer(kind).None? then (st, AfterInitialize(kind, w))
    else if Writable(st, kind, w, c) && !w.base.deleting then
      (Put(st, ObjKey(kind, w.nn), w.base.(finalizers := w.base.finalizers + {OwnFinalizer(kind).value})),
          Finish(false))
    else (st, Go(w.(pc := Report(true))))
  }

  function StepLookup(st: State, kind: Kind, w: Worker): (State, Progress) {
    var key := TargetOf(w).Key();
    if key !in st.sessions then (st, if kind.MountPoint? then Go(w.(pc := Release)) else Panic(NilSession))
    else
      var s := st.sessions[key];
      var w1 := w.(since := |st.log|);
      (st, Go(w1.(pc :=
        if kind.MountPoint? then Send(s, [CloseSessionRpc, KillSessionRpc])
        else if kind.EstablishSubscription? && w.obj.deleting then Unlisten(s)
        else Send(s, w.obj.spec.Script()))))
  }

  function StepSend(st: State, kind: Kind, w: Worker, c: Choice): (State, Progress)
    requires w.pc.Send?
  {
    var s, todo := w.pc.session, w.pc.todo;
    if |todo| == 0 then (st, Finish(false))
    else if !todo[0].Buildable(c.xmlOk) then (st, Panic(BadMessage))
    else
      (st.(log := st.log + [Sent(WhoIs(kind, w), w.obj.spec.Dependency(), TargetOf(w), s, w.since, todo[0], c.reply)]),
       AfterReply(kind, w, s, todo, c.reply))
  }

  function StepUnlisten(st: State, kind: Kind, w: Worker): (State, Progress)
    requires w.pc.Unlisten?
  {
    var s, id := w.pc.session, w.obj.status.subscriptionID;
    (st.(dialled := SetListeners(st.dialled, s, ListenersOf(st.dialled, s) - {id}),
         log := st.log + [Unlistened(WhoIs(kind, w), s, id, TargetOf(w).Key(), w.since)]),
     Go(w.(pc := Send(s, [DeleteSubscriptionRpc(id)]))))
  }

  function StepListen(st: State, kind: Kind, w: Worker): (State, Progress)
    requires w.pc.Listen?
  {
    var s, id := w.pc.session, w.pc.id;
    var status := w.obj.status.(status := StatusName(kind, true), subscriptionID := id);
    (st.(dialled := SetListeners(st.dialled, s, ListenersOf(st.dialled, s) + {id}),
         log := st.log + [Listened(WhoIs(kind, w), s, id, TargetOf(w).Key(), w.since)]),
     Go(w.(obj := w.obj.(status := status), ran := Some(true), pc := Report(false))))
  }

  function FailConnect(kind: Kind, w: Worker): Worker {
    w.(obj := w.obj.(status := w.obj.status.(status := StatusName(kind, false))), ran := Some(false),
        pc := Report(true))
  }

  function StepDial(st: State, kind: Kind, w: Worker, c: Choice): (State, Progress) {
    if !c.ok then (st, Go(FailConnect(kind, w)))
    else
      (st.(dialled := st.dialled + [Session(w.nn, {}, c.capabilities)], log := st.log + [Dialled(|st.dialled|)]),
       Go(w.(pc := Hello(|st.dialled|))))
  }

  function StepHello(st: State, kind: Kind, w: Worker, c: Choice): (State, Progress)
    requires w.pc.Hello?
  {
    var s := w.pc.session;
    if !c.ok then (st.(log := st.log + [HelloFailed(s)]), Go(FailConnect(kind, w)))
    else
      var caps := if s < |st.dialled| then st.dialled[s].capabilities else [];
      var status := w.obj.status.(status := StatusName(kind, true), capabilities := caps);
      (st, Go(w.(obj := w.obj.(status := status), ran := Some(true), pc := Install(s))))
  }

  function StepInstall(st: State, w: Worker): (State, Progress)
    requires w.pc.Install?
  {
    (st.(sessions := st.sessions[w.nn.Key() := w.pc.session], log := st.log + [Installed(w.nn.Key(), w.pc.session)]),
     Go(w.(pc := Report(false))))
  }

  function StepForget(st: State, w: Worker): (State, Progress)
    requires w.pc.Forget?
  {
    (st.(sessions := st.sessions - {w.nn.Key()}, log := st.log + [Forgotten(w.nn.Key(), w.pc.session)]),
     Go(w.(pc := HangUp(w.pc.session))))
  }

  function StepHangUp(st: State, w: Worker, c: Choice): (State, Progress)
    requires w.pc.HangUp?
  {
    var s := w.pc.session;
    (st.(dialled := SetListeners(st.dialled, s, ListenersOf(st.dialled, s) - {STREAM_HANDLER})),
     Go(w.(pc := if c.ok then Release else Report(true))))
  }

  function StepRelease(st: State, kind: Kind, w: Worker, c: Choice): (State, Progress) {
    if Writable(st, kind, w, c) && OwnFinalizer(kind).Some? then
      (Put(st, ObjKey(kind, w.nn), w.base.(finalizers := w.base.finalizers - {OwnFinalizer(kind).value})),
          Finish(false))
    else (st, Go(w.(pc := Report(true))))
  }

  /** Writing the in-memory status back; a failed logic or a failed write requeues. */
  function StepReport(st: State, kind: Kind, w: Worker, c: Choice): (State, Progress)
    requires w.pc.Report?
  {
    if Writable(st, kind, w, c) then
      (st.(store := st.store[ObjKey(kind, w.nn) := w.base.(status := w.obj.status)],
           log := st.log + [StatusWritten(WhoIs(kind, w), w.ran, w.obj.status.status)]),
       Finish(w.pc.failed))
    else (st, Finish(true))
  }

  /** One access to shared state by the reconcile `w` of kind `kind`. */
  function StepWorker(st: State, kind: Kind, w: Worker, c: Choice): (State, Progress) {
    match w.pc
    case CheckMountPoint =>
      (st, Go(w.(pc := if c.ok && MountPointStored(st.store, TargetOf(w)) then CheckSession else Report(true))))
    case CheckSession =>
      (st, if TargetOf(w).Key() in st.sessions then AfterSessionCheck(kind, w.(seen := |st.log|), c.xmlOk)
           else Go(w.(pc := Report(true))))
    case CheckDependency =>
      (st, if c.ok && GateOpen(st.store, w.nn.ns, w.obj.spec.Dependency()) then AfterValidation(kind, w)
           else Go(w.(pc := Report(true))))
    case Initialize => StepInitialize(st, kind, w, c)
    case Gate =>
      (st, Go(w.(pc := if c.ok && GateOpen(st.store, w.nn.ns, w.obj.spec.Dependency()) then Lookup else Report(true))))
    case Lookup => StepLookup(st, kind, w)
    case Unlisten(_) => StepUnlisten(st, kind, w)
    case Send(_, _) => StepSend(st, kind, w, c)
    case Listen(_, _) => StepListen(st, kind, w)
    case Dial => StepDial(st, kind, w, c)
    case Hello(_) => StepHello(st, kind, w, c)
    case Install(_) => StepInstall(st, w)
    case Forget(_) => StepForget(st, w)
    case HangUp(_) => StepHangUp(st, w, c)
    case Release => StepRelease(st, kind, w, c)
    case Report(_) => StepReport(st, kind, w, c)
  }

  // ----- the whole system -----

  /** The shared state and the reconcile in flight of each busy controller (one worker per kind). */
  datatype Sys = Sys(st: State, workers: map<Kind, Worker>)

  datatype Action =
    | Begin(kind: Kind, nn: NsName)
    | Step(worker: Kind, choice: Choice)
    | Create(key: ObjKey, spec: Spec, finalizers: set<string>)
    | EditSpec(key: ObjKey, spec: Spec)
    | Delete(key: ObjKey)
    | Hold(key: ObjKey, finalizer: string)
    | Unhold(key: ObjKey, finalizer: string)
    | Crash

  const INIT := Sys(State(map[], map[], [], [], 0), map[])

  /** A panic or a kill ends the process: the cache and every reconcile in flight are lost. */
  function Restart(st: State): State {
    st.(sessions := map[], log := st.log + [Restarted])
  }

  predicate Foreign(f: string) {
    f != MOUNTPOINT_FINALIZER && f != SUBSCRIPTION_FINALIZER
  }

  /** The system once a step of the `kind` controller has left state `st` and progress `p`. */
  function After(s: Sys, kind: Kind, st: State, p: Progress): Sys {
    match p
    case Go(w) => Sys(st, s.workers[kind := w])
    case Finish(_) => Sys(st, s.workers - {kind})
    case Panic(_) => Sys(Restart(st), map[])
  }

  function Advance(s: Sys, kind: Kind, c: Choice): Sys {
    if kind !in s.workers then s
    else
      var (st, p) := StepWorker(s.st, kind, s.workers[kind], c);
      After(s, kind, st, p)
  }

  /** One action of a user, of a controller or of the process. Actions the API server refuses change nothing. */
  function Apply(s: Sys, a: Action): Sys {
    match a
    case Begin(kind, nn) =>
      if kind in s.workers || ObjKey(kind, nn) !in s.st.store then s
      else s.(workers := s.workers[kind := Start(kind, nn, s.st.store[ObjKey(kind, nn)])])
    case Step(kind, c) => Advance(s, kind, c)
    case Create(key, spec, fs) =>
      if key in s.st.store || spec.Kind() != key.kind || !NoSlash(key.nn.ns) || !(forall f <- fs :: Foreign(f)) then s
      else
        s.(st := s.st.(store := s.st.store[key := Obj(s.st.nextUid, fs, false, spec, NEW_STATUS)],
                       nextUid := s.st.nextUid + 1))
    case EditSpec(key, spec) =>
      if key !in s.st.store || spec.Kind() != key.kind then s
      else s.(st := s.st.(store := s.st.store[key := s.st.store[key].(spec := spec)]))
    case Delete(key) =>
      if key !in s.st.store then s else s.(st := Put(s.st, key, s.st.store[key].(deleting := true)))
    case Hold(key, f) =>
      if key !in s.st.store || s.st.store[key].deleting || !Foreign(f) then s
      else s.(st := Put(s.st, key, s.st.store[key].(finalizers := s.st.store[key].finalizers + {f})))
    case Unhold(key, f) =>
      if key !in s.st.store || !Foreign(f) then s
      else s.(st := Put(s.st, key, s.st.store[key].(finalizers := s.st.store[key].finalizers - {f})))
    case Crash => Sys(Restart(s.st), map[])
  }

  function Run(s: Sys, actions: seq<Action>): Sys
    decreases |actions|
  {
    if actions == [] then s else Run(Apply(s, actions[0]), actions[1..])
  }
}
