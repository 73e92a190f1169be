/** What becomes of every subscription id a resource registered: it is stored, superseded by a later one, cleaned
    up, left behind because it is empty, or lost because no status write followed. */
module Registrations {
  import opened Api
  import opened Operator
  import opened Invariants
  import opened Subscriptions

  /** Registered and its status not written yet, stored, superseded by a later one that was stored, cleaned up, left
      behind when its object went, or dropped: the next thing that happened to the resource, or a restart, came
      before its status was written. */
  datatype RegFate = InHand | Held | Replaced | Removed | Left | Dropped

  function NextReg(f: RegFate, e: Event, who: Who): RegFate {
    match e
    case Restarted => if f.InHand? then Dropped else f
    case Listened(w, _, _, _, _) => if w == who && f.InHand? then Dropped else f
    case Unlistened(w, _, _, _, _) =>
      if w != who then f else if f.InHand? then Dropped else if f.Held? then Removed else f
    case Gone(w, _) => if w != who then f else if f.InHand? then Dropped else if f.Held? then Left else f
    case StatusWritten(w, ran, _) =>
      if w != who then f
      else if ran == Some(true) then (if f.InHand? then Held else if f.Held? then Replaced else f)
      else if f.InHand? then Dropped
      else f
    case _ => f
  }

  function RegOf(log: Log, i: nat): RegFate
    requires i < |log| && log[i].Listened?
    decreases |log|
  {
    var n := |log| - 1;
    if i == n then InHand else NextReg(RegOf(log[..n], i), log[n], log[i].who)
  }

  predicate Reg(log: Log, i: nat) {
    i < |log| && log[i].Listened?
  }

  predicate RegIs(log: Log, i: nat, f: RegFate) {
    Reg(log, i) && RegOf(log, i) == f
  }

  lemma RegSnoc(log: Log, e: Event, i: nat)
    requires Reg(log, i)
    ensures Reg(log + [e], i) && RegOf(log + [e], i) == NextReg(RegOf(log, i), e, log[i].who)
  {
    assert (log + [e])[..|log|] == log;
  }

  // ----- what the log alone says -----

  /** Only the latest registration of a resource can be in hand. */
  lemma {:induction false} InHandIsLast(log: Log, i: nat, j: nat)
    requires Reg(log, i) && Reg(log, j) && i < j && log[i].who == log[j].who
    ensures !RegIs(log, i, InHand)
    decreases |log|
  {
    var n := |log| - 1;
    assert log == log[..n] + [log[n]];
    RegSnoc(log[..n], log[n], i);
    if j < n { InHandIsLast(log[..n], i, j); }
  }

  /** A resource holds one registration at most. */
  lemma {:induction false} OneHeld(log: Log, i: nat, j: nat)
    requires RegIs(log, i, Held) && RegIs(log, j, Held) && log[i].who == log[j].who
    ensures i == j
    decreases |log|
  {
    var n := |log| - 1;
    var rest := log[..n];
    assert log == rest + [log[n]] && i < n && j < n;
    RegSnoc(rest, log[n], i);
    RegSnoc(rest, log[n], j);
    if RegIs(rest, i, Held) && RegIs(rest, j, Held) {
      OneHeld(rest, i, j);
    } else if i < j {
      InHandIsLast(rest, i, j);
    } else if j < i {
      InHandIsLast(rest, j, i);
    }
  }

  predicate Stored(f: RegFate) {
    f.Held? || f.Replaced? || f.Removed? || f.Left?
  }

  ghost predicate ReplacedBy(log: Log, i: nat, j: nat) {
    i < j && Reg(log, i) && Reg(log, j) && log[j].who == log[i].who && Stored(RegOf(log, j))
  }

  /** The registration at `l` of `who` as `id` is stored, or was until it was cleaned up. */
  predicate OfStored(log: Log, l: nat, who: Who, id: string) {
    Reg(log, l) && ListenedAs(log[l], who, id) && (RegOf(log, l).Held? || RegOf(log, l).Removed?)
  }

  // ----- what every action keeps -----

  ghost predicate RegKept(st: State, i: nat)
    requires Reg(st.log, i)
  {
    var e, f := st.log[i], RegOf(st.log, i);
    var key := ObjKey(e.who.kind, e.who.nn);
    && e.who.kind.EstablishSubscription?
    && (f.Held? ==>
          && key in st.store && st.store[key].uid == e.who.uid && st.store[key].status.subscriptionID == e.id
          && (e.id != "" ==> Finalized(key.kind, st.store[key])))
    && (f.Left? ==> e.id == "")
    && (f.Removed? ==>
          exists u :: i < u < |st.log| && st.log[u].Unlistened? && st.log[u].who == e.who && st.log[u].id == e.id)
    && (f.Replaced? ==> exists j :: ReplacedBy(st.log, i, j))
  }

  ghost predicate ObjKept(st: State, key: ObjKey)
    requires key in st.store
  {
    var o := st.store[key];
    key.kind.EstablishSubscription? && o.status.subscriptionID != "" ==>
      exists i: nat :: OfStored(st.log, i, Who(key.kind, key.nn, o.uid), o.status.subscriptionID)
  }

  ghost predicate FlightKept(log: Log, w: Worker) {
    var who := WhoIs(EstablishSubscription, w);
    && (w.ran == Some(true) ==>
          exists i: nat :: RegIs(log, i, InHand) && ListenedAs(log[i], who, w.obj.status.subscriptionID))
    && (w.base.deleting && (w.pc.Send? || w.pc.Release?) ==>
          forall i: nat :: RegIs(log, i, Held) && log[i].who == who ==> log[i].id == "")
  }

  ghost predicate Regs(s: Sys) {
    && (forall i: nat :: Reg(s.st.log, i) ==> RegKept(s.st, i))
    && (forall key <- s.st.store :: ObjKept(s.st, key))
    && (EstablishSubscription in s.workers ==> FlightKept(s.st.log, s.workers[EstablishSubscription]))
  }

  // ----- frames -----

  /** The entry concerns no registration of `who`. */
  predicate Aside(e: Event, who: Who) {
    && !e.Restarted?
    && (e.Listened? || e.Unlistened? || e.StatusWritten? || e.Gone? ==> e.who != who)
  }

  lemma AsideReg(log: Log, log': Log, i: nat)
    requires Extends(log, log') && Reg(log, i) && (|log'| > |log| ==> Aside(log'[|log|], log[i].who))
    ensures Reg(log', i) && RegOf(log', i) == RegOf(log, i) && log'[i] == log[i]
  {
    if |log'| > |log| {
      assert log' == log + [log'[|log|]];
      RegSnoc(log, log'[|log|], i);
    } else {
      assert log' == log;
    }
  }

  /** A stored fate stays a stored one. */
  lemma StoredStays(log: Log, e: Event, i: nat, j: nat)
    requires ReplacedBy(log, i, j)
    ensures ReplacedBy(log + [e], i, j)
  {
    RegSnoc(log, e, i);
    RegSnoc(log, e, j);
  }

  lemma WitnessesStay(st: State, log': Log, i: nat)
    requires Reg(st.log, i) && RegKept(st, i) && Extends(st.log, log')
    ensures RegOf(st.log, i).Removed? ==>
      exists u :: i < u < |log'| && log'[u].Unlistened? && log'[u].who == st.log[i].who && log'[u].id == st.log[i].id
    ensures RegOf(st.log, i).Replaced? ==> exists j :: ReplacedBy(log', i, j)
  {
    if RegOf(st.log, i).Removed? {
      var u :| i < u < |st.log| && st.log[u].Unlistened?
               && st.log[u].who == st.log[i].who && st.log[u].id == st.log[i].id;
      assert log'[u] == st.log[u];
    }
    if RegOf(st.log, i).Replaced? {
      var j :| ReplacedBy(st.log, i, j);
      if |log'| > |st.log| {
        assert log' == st.log + [log'[|st.log|]];
        StoredStays(st.log, log'[|st.log|], i, j);
      } else {
        assert log' == st.log;
      }
      assert ReplacedBy(log', i, j);
    }
  }

  /** The entry added says that the object went. */
  predicate GoesNow(log: Log, log': Log, who: Who) {
    |log'| > |log| && log'[|log|].Gone? && log'[|log|].who == who
  }

  /** The object goes, or stays with its status. */
  predicate Onward(st: State, st': State, key: ObjKey)
    requires key in st.store
  {
    || GoesNow(st.log, st'.log, Who(key.kind, key.nn, st.store[key].uid))
    || (key in st'.store && st'.store[key].uid == st.store[key].uid && st'.store[key].status == st.store[key].status)
  }

  /** A registration the new entry says nothing about, unless that its object went. */
  lemma RegStays(st: State, st': State, i: nat)
    requires Reg(st.log, i) && RegKept(st, i) && Extends(st.log, st'.log)
    requires GoesNow(st.log, st'.log, st.log[i].who)
             || (|st'.log| > |st.log| ==> Aside(st'.log[|st.log|], st.log[i].who))
    requires var key := ObjKey(st.log[i].who.kind, st.log[i].who.nn);
      RegOf(st.log, i).Held? ==>
        && Onward(st, st', key)
        && (st.log[i].id != "" ==>
              && !GoesNow(st.log, st'.log, st.log[i].who)
              && (key in st'.store ==> Finalized(key.kind, st'.store[key])))
    ensures Reg(st'.log, i) && RegKept(st', i)
  {
    WitnessesStay(st, st'.log, i);
    if GoesNow(st.log, st'.log, st.log[i].who) {
      assert st'.log == st.log + [st'.log[|st.log|]];
      RegSnoc(st.log, st'.log[|st.log|], i);
    } else {
      AsideReg(st.log, st'.log, i);
    }
  }

  lemma ObjStays(st: State, st': State, key: ObjKey)
    requires key in st.store && key in st'.store && ObjKept(st, key) && Extends(st.log, st'.log)
    requires st'.store[key].uid == st.store[key].uid && st'.store[key].status == st.store[key].status
    requires var who := Who(key.kind, key.nn, st.store[key].uid);
      |st'.log| > |st.log| ==>
        var e := st'.log[|st.log|];
        !(e.StatusWritten? && e.ran == Some(true) && e.who == who) && !(e.Gone? && e.who == who)
    ensures ObjKept(st', key)
  {
    var o := st.store[key];
    var who, id := Who(key.kind, key.nn, o.uid), o.status.subscriptionID;
    if key.kind.EstablishSubscription? && id != "" {
      var i: nat :| OfStored(st.log, i, who, id);
      if |st'.log| > |st.log| {
        assert st'.log == st.log + [st'.log[|st.log|]];
        RegSnoc(st.log, st'.log[|st.log|], i);
      } else {
        assert st'.log == st.log;
      }
      assert OfStored(st'.log, i, who, id);
    }
  }

  // ----- the steps of the EstablishSubscription controller -----

  const ES := EstablishSubscription

  /** What an entry `e` about `who` itself makes of a registration of it, the store left alone. */
  lemma OwnEntry(st: State, st': State, e: Event, i: nat)
    requires Reg(st.log, i) && RegKept(st, i) && st'.log == st.log + [e] && st'.store == st.store
    requires e.Listened?
             || (e.Unlistened? && (RegIs(st.log, i, Held) && e.who == st.log[i].who ==> e.id == st.log[i].id))
    ensures Reg(st'.log, i) && RegKept(st', i)
  {
    RegSnoc(st.log, e, i);
    WitnessesStay(st, st'.log, i);
    if e.Unlistened? && e.who == st.log[i].who { assert st'.log[|st.log|] == e; }
  }

  lemma ListenKeeps(s: Sys, c: Choice)
    requires Shape(s) && Regs(s) && ES in s.workers && s.workers[ES].pc.Listen?
    ensures Regs(Advance(s, ES, c))
  {
    var w := s.workers[ES];
    assert WorkerOk(s.st, ES, w);
    var (st, p) := StepWorker(s.st, ES, w, c);
    var e := st.log[|s.st.log|];
    assert st.log == s.st.log + [e];
    forall i: nat | Reg(st.log, i)
      ensures RegKept(st, i)
    {
      if i < |s.st.log| {
        assert Reg(s.st.log, i);
        OwnEntry(s.st, st, e, i);
      }
    }
    forall key | key in st.store
      ensures ObjKept(st, key)
    {
      assert ObjKept(s.st, key);
      ObjStays(s.st, st, key);
    }
    assert RegIs(st.log, |s.st.log|, InHand) && ListenedAs(e, WhoIs(ES, w), p.next.obj.status.subscriptionID);
  }

  lemma UnlistenKeeps(s: Sys, c: Choice)
    requires Shape(s) && Subs(s) && Regs(s) && ES in s.workers && s.workers[ES].pc.Unlisten?
    ensures Regs(Advance(s, ES, c))
  {
    var w := s.workers[ES];
    assert WorkerOk(s.st, ES, w) && FlightSub(s.st, ES, w);
    var (st, p) := StepWorker(s.st, ES, w, c);
    var e := st.log[|s.st.log|];
    assert st.log == s.st.log + [e];
    forall i: nat | Reg(st.log, i)
      ensures RegKept(st, i) && !(RegIs(st.log, i, Held) && st.log[i].who == WhoIs(ES, w))
    {
      assert i < |s.st.log| && Reg(s.st.log, i);
      assert RegKept(s.st, i);
      OwnEntry(s.st, st, e, i);
      RegSnoc(s.st.log, e, i);
    }
    forall key | key in st.store
      ensures ObjKept(st, key)
    {
      assert ObjKept(s.st, key);
      ObjStays(s.st, st, key);
    }
  }

  /** Persisting the status of a reconcile that registered. */
  lemma PersistReg(st: State, w: Worker, st': State, e: Event, k: nat, i: nat)
    requires e == StatusWritten(WhoIs(ES, w), Some(true), w.obj.status.status) && st'.log == st.log + [e]
    requires var key := ObjKey(ES, w.nn);
      && key in st.store && st.store[key] == w.base && Finalized(ES, w.base)
      && st'.store == st.store[key := w.base.(status := w.obj.status)]
    requires RegIs(st.log, k, InHand) && ListenedAs(st.log[k], WhoIs(ES, w), w.obj.status.subscriptionID)
    requires Reg(st.log, i) && RegKept(st, i)
    ensures Reg(st'.log, i) && RegKept(st', i)
  {
    RegSnoc(st.log, e, i);
    RegSnoc(st.log, e, k);
    WitnessesStay(st, st'.log, i);
    if st.log[i].who == WhoIs(ES, w) {
      if i < k {
        InHandIsLast(st.log, i, k);
        assert ReplacedBy(st'.log, i, k);
      } else if k < i {
        InHandIsLast(st.log, k, i);
      }
    }
  }

  lemma PersistKeeps(s: Sys, c: Choice)
    requires Shape(s) && Subs(s) && Regs(s) && ES in s.workers && s.workers[ES].pc.Report?
    requires s.workers[ES].ran == Some(true) && Writable(s.st, ES, s.workers[ES], c)
    ensures Regs(Advance(s, ES, c))
  {
    var w := s.workers[ES];
    assert WorkerOk(s.st, ES, w) && FlightSub(s.st, ES, w);
    var (st, p) := StepWorker(s.st, ES, w, c);
    var e := StatusWritten(WhoIs(ES, w), w.ran, w.obj.status.status);
    var k: nat :| RegIs(s.st.log, k, InHand) && ListenedAs(s.st.log[k], WhoIs(ES, w), w.obj.status.subscriptionID);
    forall i: nat | Reg(st.log, i)
      ensures RegKept(st, i)
    {
      assert i < |s.st.log| && Reg(s.st.log, i);
      PersistReg(s.st, w, st, e, k, i);
    }
    RegSnoc(s.st.log, e, k);
    forall key | key in st.store
      ensures ObjKept(st, key)
    {
      if key == ObjKey(ES, w.nn) {
        assert OfStored(st.log, k, WhoIs(ES, w), w.obj.status.subscriptionID);
      } else {
        assert ObjKept(s.st, key);
        ObjStays(s.st, st, key);
      }
    }
  }

  /** Writing the status of a reconcile that registered nothing. */
  lemma ReportReg(st: State, w: Worker, st': State, e: Event, i: nat)
    requires e.StatusWritten? && e.who == WhoIs(ES, w) && e.ran != Some(true) && st'.log == st.log + [e]
    requires var key := ObjKey(ES, w.nn);
      && key in st.store && st.store[key] == w.base && st'.store == st.store[key := w.base.(status := w.obj.status)]
      && w.obj.status.subscriptionID == w.base.status.subscriptionID
    requires Reg(st.log, i) && RegKept(st, i)
    ensures Reg(st'.log, i) && RegKept(st', i)
  {
    RegSnoc(st.log, e, i);
    WitnessesStay(st, st'.log, i);
  }

  lemma ReportKeeps(s: Sys, c: Choice)
    requires Shape(s) && Subs(s) && Regs(s) && ES in s.workers && s.workers[ES].pc.Report?
    requires s.workers[ES].ran != Some(true) || !Writable(s.st, ES, s.workers[ES], c)
    ensures Regs(Advance(s, ES, c))
  {
    var w := s.workers[ES];
    assert WorkerOk(s.st, ES, w) && FlightSub(s.st, ES, w);
    var (st, p) := StepWorker(s.st, ES, w, c);
    if Writable(s.st, ES, w, c) {
      var e := StatusWritten(WhoIs(ES, w), w.ran, w.obj.status.status);
      forall i: nat | Reg(st.log, i)
        ensures RegKept(st, i)
      {
        assert i < |s.st.log| && Reg(s.st.log, i);
        ReportReg(s.st, w, st, e, i);
      }
      forall key | key in st.store
        ensures ObjKept(st, key)
      {
        assert ObjKept(s.st, key);
        ReportObj(s.st, w, st, e, key);
      }
    }
  }

  lemma ReportObj(st: State, w: Worker, st': State, e: Event, key: ObjKey)
    requires e.StatusWritten? && e.ran != Some(true) && st'.log == st.log + [e]
    requires var own := ObjKey(ES, w.nn);
      && own in st.store && st.store[own] == w.base && st'.store == st.store[own := w.base.(status := w.obj.status)]
      && w.obj.status.subscriptionID == w.base.status.subscriptionID
    requires key in st.store && ObjKept(st, key)
    ensures ObjKept(st', key)
  {
    var o := st.store[key];
    var who, id := Who(key.kind, key.nn, o.uid), o.status.subscriptionID;
    if key.kind.EstablishSubscription? && id != "" {
      var i: nat :| OfStored(st.log, i, who, id);
      RegSnoc(st.log, e, i);
      assert OfStored(st'.log, i, who, id);
    }
  }

  /** Steps that register, remove and write no status. */
  lemma PlainKeeps(s: Sys, c: Choice)
    requires Shape(s) && Subs(s) && Regs(s) && ES in s.workers
    requires var w := s.workers[ES]; !w.pc.Listen? && !w.pc.Unlisten? && !w.pc.Report?
    ensures var st := StepWorker(s.st, ES, s.workers[ES], c).0; forall i: nat :: Reg(st.log, i) ==> RegKept(st, i)
  {
    var w := s.workers[ES];
    assert WorkerOk(s.st, ES, w) && FlightSub(s.st, ES, w);
    var (st, p) := StepWorker(s.st, ES, w, c);
    StepExtends(s.st, ES, w, c);
    PlainEntry(s.st, w, c);
    if w.pc.Initialize? || w.pc.Release? { WriteStep(s.st, ES, w, c); } else { ReadStep(s.st, ES, w, c); }
    forall i: nat | Reg(st.log, i)
      ensures RegKept(st, i)
    {
      assert i < |s.st.log| && Reg(s.st.log, i) && RegKept(s.st, i);
      var key := ObjKey(s.st.log[i].who.kind, s.st.log[i].who.nn);
      if key == ObjKey(ES, w.nn) { PlainOwn(s.st, w, c); } else { assert Find(st, key) == Find(s.st, key); }
      RegStays(s.st, st, i);
    }
  }

  lemma PlainKeepsObjects(s: Sys, c: Choice)
    requires Shape(s) && Regs(s) && ES in s.workers
    requires var w := s.workers[ES]; !w.pc.Listen? && !w.pc.Unlisten? && !w.pc.Report?
    ensures var st := StepWorker(s.st, ES, s.workers[ES], c).0; forall key <- st.store :: ObjKept(st, key)
  {
    var w := s.workers[ES];
    assert WorkerOk(s.st, ES, w);
    var (st, p) := StepWorker(s.st, ES, w, c);
    StepExtends(s.st, ES, w, c);
    PlainEntry(s.st, w, c);
    if w.pc.Initialize? || w.pc.Release? { WriteStep(s.st, ES, w, c); } else { ReadStep(s.st, ES, w, c); }
    forall key | key in st.store
      ensures ObjKept(st, key)
    {
      if key == ObjKey(ES, w.nn) { PlainOwn(s.st, w, c); } else { assert Find(st, key) == Find(s.st, key); }
      assert ObjKept(s.st, key);
      ObjStays(s.st, st, key);
    }
  }

  lemma PlainEntry(st: State, w: Worker, c: Choice)
    requires !w.pc.Listen? && !w.pc.Unlisten? && !w.pc.Report?
    ensures var log' := StepWorker(st, ES, w, c).0.log;
      |log'| > |st.log| ==>
        var e := log'[|st.log|]; !e.Restarted? && !e.Listened? && !e.Unlistened? && !e.StatusWritten?
  {
    match w.pc
    case Initialize =>
    case Release =>
    case Send(_, _) =>
    case Dial =>
    case Hello(_) =>
    case Install(_) =>
    case Forget(_) =>
    case HangUp(_) =>
    case _ => LookStep(st, ES, w, c);
  }

  /** Only the release takes the finalizer away, and nothing but a report changes the status. */
  lemma PlainOwn(st: State, w: Worker, c: Choice)
    requires !w.pc.Listen? && !w.pc.Unlisten? && !w.pc.Report?
    ensures var st', key := StepWorker(st, ES, w, c).0, ObjKey(ES, w.nn);
      && (key in st'.store ==>
            key in st.store && st'.store[key].uid == st.store[key].uid && st'.store[key].status == st.store[key].status)
      && (key in st.store && !w.pc.Release? ==>
            key in st'.store && (Finalized(ES, st.store[key]) ==> Finalized(ES, st'.store[key])))
      && (key in st.store && w.pc.Release? && st'.store != st.store ==> st.store[key] == w.base)
  {
    if w.pc.Initialize? || w.pc.Release? { WriteStep(st, ES, w, c); } else { ReadStep(st, ES, w, c); }
  }

  lemma PlainFlight(s: Sys, c: Choice)
    requires Shape(s) && Subs(s) && Regs(s) && ES in s.workers
    requires var w := s.workers[ES]; !w.pc.Listen? && !w.pc.Unlisten? && !w.pc.Report?
    ensures var (st, p) := StepWorker(s.st, ES, s.workers[ES], c); p.Go? ==> FlightKept(st.log, p.next)
  {
    var w := s.workers[ES];
    assert WorkerOk(s.st, ES, w) && FlightSub(s.st, ES, w);
    var (st, p) := StepWorker(s.st, ES, w, c);
    StepExtends(s.st, ES, w, c);
    PlainEntry(s.st, w, c);
    PlainNext(s.st, w, c);
    if p.Go? && p.next.base.deleting && (p.next.pc.Send? || p.next.pc.Release?) {
      forall i: nat | RegIs(st.log, i, Held) && st.log[i].who == WhoIs(ES, w)
        ensures st.log[i].id == ""
      {
        assert i < |s.st.log| && Reg(s.st.log, i);
        AsideReg(s.st.log, st.log, i);
        assert RegKept(s.st, i);
      }
    }
  }

  /** A reconcile being cleaned up comes to send or release from one that already did, or has no id. */
  lemma PlainNext(st: State, w: Worker, c: Choice)
    requires Fits(ES, w) && FlightSub(st, ES, w) && !w.pc.Listen? && !w.pc.Unlisten? && !w.pc.Report?
    ensures var p := StepWorker(st, ES, w, c).1;
      p.Go? ==>
        && p.next.ran != Some(true) && p.next.base == w.base && p.next.nn == w.nn
        && (w.base.deleting && (p.next.pc.Send? || p.next.pc.Release?) ==>
              w.pc.Send? || w.base.status.subscriptionID == "")
  {
    GoFits(st, ES, w, c);
    match w.pc
    case Send(_, _) =>
    case Lookup =>
    case Initialize =>
    case Release =>
    case CheckMountPoint =>
    case CheckSession =>
    case _ =>
  }

  // ----- every action -----

  lemma OwnStep(s: Sys, c: Choice)
    requires Shape(s) && Subs(s) && Regs(s) && ES in s.workers
    ensures Regs(Advance(s, ES, c))
  {
    var w := s.workers[ES];
    match w.pc
    case Listen(_, _) => ListenKeeps(s, c);
    case Unlisten(_) => UnlistenKeeps(s, c);
    case Report(_) =>
      if w.ran == Some(true) && Writable(s.st, ES, w, c) { PersistKeeps(s, c); } else { ReportKeeps(s, c); }
    case _ =>
      var (st, p) := StepWorker(s.st, ES, w, c);
      PlainKeeps(s, c);
      PlainKeepsObjects(s, c);
      PlainFlight(s, c);
      RegsAfter(s, st, p);
  }

  lemma RegsAfter(s: Sys, st: State, p: Progress)
    requires forall i: nat :: Reg(st.log, i) ==> RegKept(st, i)
    requires forall key <- st.store :: ObjKept(st, key)
    requires p.Go? ==> FlightKept(st.log, p.next)
    ensures Regs(After(s, ES, st, p))
  {
    if p.Panic? { RegsRestart(st); }
  }

  lemma RegsRestart(st: State)
    requires forall i: nat :: Reg(st.log, i) ==> RegKept(st, i)
    requires forall key <- st.store :: ObjKept(st, key)
    ensures Regs(Sys(Restart(st), map[]))
  {
    var st' := Restart(st);
    forall i: nat | Reg(st'.log, i)
      ensures RegKept(st', i)
    {
      assert i < |st.log| && Reg(st.log, i) && RegKept(st, i);
      RegSnoc(st.log, Restarted, i);
      WitnessesStay(st, st'.log, i);
    }
    forall key | key in st'.store
      ensures ObjKept(st', key)
    {
      ObjStays(st, st', key);
    }
  }

  /** An object that is finalized stays so, and one that goes is not there any more. */
  predicate Onwards(st: State, st': State, key: ObjKey)
    requires key in st.store
  {
    var gone := GoesNow(st.log, st'.log, Who(key.kind, key.nn, st.store[key].uid));
    && Onward(st, st', key)
    && (gone ==> key !in st'.store)
    && (Finalized(key.kind, st.store[key]) ==> !gone && Finalized(key.kind, st'.store[key]))
  }

  /** An entry about no registration, unless that an object went. */
  predicate Silent(log: Log, log': Log) {
    |log'| > |log| ==>
      var e := log'[|log|];
      !e.Restarted? && !e.Listened? && !e.Unlistened? && (e.StatusWritten? ==> !e.who.kind.EstablishSubscription?)
  }

  /** Whatever else happens: no entry about the registrations, and their objects stay as they are or go. */
  lemma RegsElsewhere(s: Sys, s': Sys)
    requires Regs(s) && Extends(s.st.log, s'.st.log) && Silent(s.st.log, s'.st.log)
    requires forall key <- s.st.store :: key.kind.EstablishSubscription? ==> Onwards(s.st, s'.st, key)
    requires forall key <- s'.st.store :: key.kind.EstablishSubscription? ==>
      key in s.st.store || s'.st.store[key].status.subscriptionID == ""
    requires ES in s.workers && s.workers[ES].ran == Some(true) ==>
      !GoesNow(s.st.log, s'.st.log, WhoIs(ES, s.workers[ES]))
    requires ES in s'.workers ==>
      (ES in s.workers && s'.workers[ES] == s.workers[ES])
      || (s'.workers[ES].ran == None && s'.workers[ES].pc.CheckMountPoint?)
    ensures Regs(s')
  {
    forall i: nat | Reg(s'.st.log, i)
      ensures RegKept(s'.st, i)
    {
      assert i < |s.st.log| && Reg(s.st.log, i) && RegKept(s.st, i);
      RegStays(s.st, s'.st, i);
    }
    forall key | key in s'.st.store
      ensures ObjKept(s'.st, key)
    {
      if key.kind.EstablishSubscription? && s'.st.store[key].status.subscriptionID != "" {
        assert ObjKept(s.st, key) && Onwards(s.st, s'.st, key);
        ObjStays(s.st, s'.st, key);
      }
    }
    if ES in s'.workers && ES in s.workers && s'.workers[ES] == s.workers[ES] {
      FlightStaysKept(s.st, s'.st.log, s.workers[ES]);
    }
  }

  lemma FlightStaysKept(st: State, log': Log, w: Worker)
    requires FlightKept(st.log, w) && Extends(st.log, log') && Silent(st.log, log')
    requires w.ran == Some(true) ==> !GoesNow(st.log, log', WhoIs(ES, w))
    ensures FlightKept(log', w)
  {
    var who := WhoIs(ES, w);
    if w.ran == Some(true) {
      var i: nat :| RegIs(st.log, i, InHand) && ListenedAs(st.log[i], who, w.obj.status.subscriptionID);
      AsideReg(st.log, log', i);
      assert RegIs(log', i, InHand) && ListenedAs(log'[i], who, w.obj.status.subscriptionID);
    }
    forall i: nat | RegIs(log', i, Held) && log'[i].who == who && w.base.deleting && (w.pc.Send? || w.pc.Release?)
      ensures log'[i].id == ""
    {
      assert i < |st.log| && Reg(st.log, i);
      if |log'| > |st.log| {
        assert log' == st.log + [log'[|st.log|]];
        RegSnoc(st.log, log'[|st.log|], i);
      } else {
        assert log' == st.log;
      }
      assert RegIs(st.log, i, Held);
    }
  }

  lemma OtherStep(s: Sys, kind: Kind, c: Choice)
    requires Shape(s) && Regs(s) && kind in s.workers && !kind.EstablishSubscription?
    ensures Regs(Advance(s, kind, c))
  {
    var w := s.workers[kind];
    assert WorkerOk(s.st, kind, w);
    var (st, p) := StepWorker(s.st, kind, w, c);
    StepExtends(s.st, kind, w, c);
    StepTracks(s.st, kind, w, c);
    OtherEntry(s.st, kind, w, c);
    assert forall key: ObjKey :: key.kind.EstablishSubscription? ==> Find(st, key) == Find(s.st, key);
    OtherAfter(s, kind, st, p);
  }

  lemma OtherAfter(s: Sys, kind: Kind, st: State, p: Progress)
    requires Regs(s) && kind in s.workers && !kind.EstablishSubscription? && Extends(s.st.log, st.log)
    requires Silent(s.st.log, st.log)
    requires |st.log| > |s.st.log| ==> !st.log[|s.st.log|].Gone? || !st.log[|s.st.log|].who.kind.EstablishSubscription?
    requires forall key: ObjKey :: key.kind.EstablishSubscription? ==> Find(st, key) == Find(s.st, key)
    ensures Regs(After(s, kind, st, p))
  {
    var s1 := Sys(st, if p.Go? then s.workers[kind := p.next] else s.workers - {kind});
    forall key | key in s.st.store && key.kind.EstablishSubscription?
      ensures Onwards(s.st, st, key)
    {
      assert Find(st, key) == Find(s.st, key);
    }
    forall key | key in st.store && key.kind.EstablishSubscription?
      ensures key in s.st.store
    {
      assert Find(st, key) == Find(s.st, key);
    }
    RegsElsewhere(s, s1);
    if p.Panic? { RegsRestart(st); }
  }

  lemma OtherEntry(st: State, kind: Kind, w: Worker, c: Choice)
    requires Fits(kind, w) && !kind.EstablishSubscription?
    ensures var log' := StepWorker(st, kind, w, c).0.log;
      && Silent(st.log, log')
      && (|log'| > |st.log| ==> !log'[|st.log|].Gone? || !log'[|st.log|].who.kind.EstablishSubscription?)
  {
    match w.pc
    case Initialize =>
    case Release =>
    case Report(_) =>
    case Send(_, _) =>
    case Dial =>
    case Hello(_) =>
    case Install(_) =>
    case Forget(_) =>
    case HangUp(_) =>
    case _ => LookStep(st, kind, w, c);
  }

  /** No user's write makes a finalized object disappear. */
  lemma UserOnwards(s: Sys, a: Action, key: ObjKey)
    requires ByUser(a) && key in s.st.store
    ensures Onwards(s.st, Apply(s, a).st, key)
  {
    match a
    case Create(_, _, _) =>
    case EditSpec(_, _) =>
    case Delete(_) =>
    case Hold(_, _) =>
    case Unhold(_, f) =>
      assert Foreign(f) && Finalized(key.kind, s.st.store[key]) ==>
        OwnFinalizer(key.kind).value in s.st.store[key].finalizers - {f};
  }

  lemma RegsUser(s: Sys, a: Action)
    requires ByUser(a) && Shape(s) && Subs(s) && Regs(s)
    ensures Regs(Apply(s, a))
  {
    UserFrame(s, a);
    var s' := Apply(s, a);
    forall key | key in s.st.store && key.kind.EstablishSubscription?
      ensures Onwards(s.st, s'.st, key)
    {
      UserOnwards(s, a, key);
    }
    forall key | key in s'.st.store && key.kind.EstablishSubscription?
      ensures key in s.st.store || s'.st.store[key].status.subscriptionID == ""
    {
      assert UserKept(s.st, s'.st, key);
    }
    if ES in s.workers {
      assert WorkerOk(s.st, ES, s.workers[ES]) && FlightSub(s.st, ES, s.workers[ES]);
    }
    RegsElsewhere(s, s');
  }

  lemma RegsKept(s: Sys, a: Action)
    requires Shape(s) && Subs(s) && Regs(s)
    ensures Regs(Apply(s, a))
  {
    match a
    case Begin(_, _) => RegsElsewhere(s, Apply(s, a));
    case Step(kind, c) =>
      if kind in s.workers {
        if kind.EstablishSubscription? { OwnStep(s, c); } else { OtherStep(s, kind, c); }
      }
    case Crash => RegsRestart(s.st);
    case _ => RegsUser(s, a);
  }
}
