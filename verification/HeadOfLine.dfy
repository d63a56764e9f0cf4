/**
 The queue in the order the push handler is handed it: a batch's rows as they were inserted, each taken up
 only when every row before it is resolved, because a row that throws ends the call and the batch is retried.
 A verified attempt whose code names no code is answered HTTP 400 for good, and blocks all that follow it.
 */
module HeadOfLine {
  import opened Prelude
  import opened Redemption
  import opened RedemptionProtocol

  // ----- the order -----

  predicate ResolvedIn(dev: Device, id: AttemptId) { id in dev.local.queue && dev.local.queue[id].status != Pending }

  /** Every attempt inserted before `id` is resolved. */
  predicate Turn(dev: Device, id: AttemptId) {
    forall i, j :: 0 <= i < j < |dev.order| && dev.order[j] == id ==> ResolvedIn(dev, dev.order[i])
  }

  /** The handler takes a row up only in its turn. */
  predicate InTurn(w: World, s: Step) {
    s.Push? && s.input.Begin? && s.d in w.devices ==> Turn(w.devices[s.d], s.input.id)
  }

  ghost predicate Orderly(w: World, steps: seq<Step>)
    decreases |steps|
  {
    steps != [] ==> Orderly(w, steps[..|steps| - 1]) && InTurn(Run(w, steps[..|steps| - 1]), steps[|steps| - 1])
  }

  lemma {:induction false} OrderlyAppends(w: World, steps: seq<Step>, more: seq<Step>)
    ensures Orderly(w, steps + more) <==> Orderly(w, steps) && Orderly(Run(w, steps), more)
    decreases |more|
  {
    if more == [] {
      assert steps + more == steps;
    } else {
      var front := more[..|more| - 1];
      assert (steps + more)[..|steps + more| - 1] == steps + front;
      OrderlyAppends(w, steps, front);
      RunAppends(w, steps, front);
    }
  }

  lemma {:induction false} BeginlessIsOrderly(w: World, steps: seq<Step>)
    requires BeginsNone(steps)
    ensures Orderly(w, steps)
    decreases |steps|
  {
    if steps != [] {
      BeginlessIsOrderly(w, steps[..|steps| - 1]);
    }
  }

  lemma OrderlyOne(w: World, s: Step)
    ensures Orderly(w, [s]) <==> InTurn(w, s)
  {
    assert [s][..0] == [];
  }

  lemma OrderlyFirst(w: World, s: Step, more: seq<Step>)
    requires InTurn(w, s) && Orderly(Next(w, s), more)
    ensures Orderly(w, [s] + more)
  {
    OrderlyOne(w, s);
    assert [s][..0] == [];
    assert Run(w, [s]) == Next(Run(w, []), s);
    OrderlyAppends(w, [s], more);
  }

  // ----- what the order lists -----

  /** The order lists the queue's attempts, each once. */
  ghost predicate Lined(dev: Device) {
    Distinct(dev.order) && forall id :: id in dev.order <==> id in dev.local.queue
  }

  /** A step leaves a device's attempts and their order, or inserts one at the end. */
  ghost predicate Appends(dev: Device, dev': Device) {
    || (dev'.order == dev.order && dev'.local.queue.Keys == dev.local.queue.Keys)
    || (exists id ::
          && id !in dev.local.queue
          && dev'.order == dev.order + [id]
          && dev'.local.queue.Keys == dev.local.queue.Keys + {id})
  }

  lemma StepAppends(w: World, s: Step, d: DeviceId)
    requires WorldTrue(w) && d in w.devices
    ensures Appends(w.devices[d], Next(w, s).devices[d])
  {
    hide WorldTrue, DeviceTrue;
    if Enabled(w, s) && LocalKind(s) && s.d == d {
      var dev := w.devices[d];
      DeviceOf(w, d);
      if s.Push? {
        PushCarries(w.server, d, dev, s.input);
      } else if s.Insert? {
        var dev' := InsertOne(dev, d, s.code, s.id);
        if dev' != dev {
          assert s.id !in dev.local.queue && dev'.order == dev.order + [s.id];
        }
      }
    }
  }

  lemma AppendsKeepsLined(dev: Device, dev': Device)
    requires Lined(dev) && Appends(dev, dev')
    ensures Lined(dev') && dev.order <= dev'.order
  {
    if dev'.order != dev.order {
      var id :| id !in dev.local.queue && dev'.order == dev.order + [id]
          && dev'.local.queue.Keys == dev.local.queue.Keys + {id};
      forall x ensures x in dev'.order <==> x in dev'.local.queue {
        assert x in dev'.order <==> x in dev.order || x == id;
        assert x in dev'.local.queue.Keys <==> x in dev.local.queue.Keys || x == id;
      }
    } else {
      forall x ensures x in dev'.order <==> x in dev'.local.queue {
        assert x in dev'.local.queue.Keys <==> x in dev.local.queue.Keys;
      }
    }
  }

  /** What a run keeps of the order: it lists the queue, and it only grows at the end. */
  lemma {:induction false} RunLines(w: World, steps: seq<Step>, d: DeviceId)
    requires WorldTrue(w) && d in w.devices && Lined(w.devices[d])
    ensures Lined(Run(w, steps).devices[d]) && w.devices[d].order <= Run(w, steps).devices[d].order
    decreases |steps|
  {
    if steps != [] {
      var front := steps[..|steps| - 1];
      RunLines(w, front, d);
      RunKeeps(w, front);
      StepAppends(Run(w, front), steps[|steps| - 1], d);
      AppendsKeepsLined(Run(w, front).devices[d], Run(w, steps).devices[d]);
    }
  }

  // ----- orderly runs -----

  /** What flies had its turn, and everything before a resolved attempt is resolved. */
  ghost predicate Fifo(dev: Device) {
    && (dev.local.flight != Idle ==> Turn(dev, dev.local.flight.id))
    && forall id :: ResolvedIn(dev, id) ==> Turn(dev, id)
  }

  lemma TurnCarried(dev: Device, dev': Device, id: AttemptId)
    requires Lined(dev) && Appends(dev, dev') && Carries(dev.local, dev'.local) && id in dev.local.queue
             && Turn(dev, id)
    ensures Turn(dev', id)
  {
    AppendsKeepsLined(dev, dev');
    forall i, j | 0 <= i < j < |dev'.order| && dev'.order[j] == id ensures ResolvedIn(dev', dev'.order[i]) {
      var k :| 0 <= k < |dev.order| && dev.order[k] == id;
      assert dev'.order[k] == id && j == k;
      assert dev'.order[i] == dev.order[i] && ResolvedIn(dev, dev.order[i]);
      assert Carried(dev.local.queue[dev.order[i]], dev'.local.queue[dev.order[i]]);
    }
  }

  /** A step that resolves a row resolves the one in flight; a row goes in flight by being taken up. */
  predicate Moves(l: Local, l': Local, begun: Option<AttemptId>) {
    && (forall id :: id in l'.queue && l'.queue[id].status != Pending ==>
          (id in l.queue && l.queue[id].status != Pending) || (l.flight != Idle && l.flight.id == id))
    && (l'.flight != Idle ==>
          l'.flight.id in l.queue && ((l.flight != Idle && l'.flight.id == l.flight.id) || begun == Some(l'.flight.id)))
  }

  function Begun(s: Step): Option<AttemptId> { if s.Push? && s.input.Begin? then Some(s.input.id) else None }

  lemma PushMoves(l: Local, me: DeviceId, input: Input)
    requires l.flight != Idle ==> l.flight.id in l.queue
    ensures Moves(l, LocalStep(l, me, input), if input.Begin? then Some(input.id) else None)
  {
  }

  lemma InsertMoves(s: Server, d: DeviceId, dev: Device, c: CodeId, id: AttemptId)
    requires DeviceTrue(s, d, dev) && id !in dev.local.queue
    ensures Moves(dev.local, InsertOne(dev, d, c, id).local, None)
  {
  }

  lemma StillMoves(l: Local, l': Local)
    requires l.flight != Idle ==> l.flight.id in l.queue
    requires l'.queue == l.queue && (l'.flight == l.flight || l'.flight == Idle)
    ensures Moves(l, l', None)
  {
  }

  lemma StepMoves(w: World, s: Step, d: DeviceId)
    requires WorldTrue(w) && d in w.devices
    ensures Moves(w.devices[d].local, Next(w, s).devices[d].local, if s.Push? && s.d == d then Begun(s) else None)
  {
    hide WorldTrue, DeviceTrue, Moves;
    var dev := w.devices[d];
    DeviceOf(w, d);
    FlyingInQueue(w.server, d, dev);
    if Enabled(w, s) && LocalKind(s) && s.d == d && s.Push? {
      PushMoves(dev.local, d, s.input);
    } else if Enabled(w, s) && LocalKind(s) && s.d == d && s.Insert? {
      InsertMoves(w.server, d, dev, s.code, s.id);
    } else {
      StillMoves(dev.local, Next(w, s).devices[d].local);
    }
  }

  lemma DeviceOf(w: World, d: DeviceId)
    requires WorldTrue(w) && d in w.devices
    ensures DeviceTrue(w.server, d, w.devices[d])
  {
  }

  lemma FlyingInQueue(s: Server, d: DeviceId, dev: Device)
    requires DeviceTrue(s, d, dev)
    ensures dev.local.flight != Idle ==> dev.local.flight.id in dev.local.queue
  {
  }

  lemma StepFifo(w: World, s: Step, d: DeviceId)
    requires WorldTrue(w) && d in w.devices && Lined(w.devices[d]) && Fifo(w.devices[d]) && InTurn(w, s)
    ensures Fifo(Next(w, s).devices[d])
  {
    hide WorldTrue, DeviceTrue, Next;
    var dev, dev' := w.devices[d], Next(w, s).devices[d];
    StepAppends(w, s, d);
    StepMoves(w, s, d);
    StepKeeps(w, s);
    DeviceOf(w, d);
    FlyingInQueue(w.server, d, dev);
    if dev'.local.flight != Idle {
      TurnCarried(dev, dev', dev'.local.flight.id);
    }
    forall id | ResolvedIn(dev', id) ensures Turn(dev', id) {
      if ResolvedIn(dev, id) || (dev.local.flight != Idle && dev.local.flight.id == id) {
        TurnCarried(dev, dev', id);
      }
    }
  }

  lemma {:induction false} RunFifo(w: World, steps: seq<Step>, d: DeviceId)
    requires Initial(w) && d in w.devices && Orderly(w, steps)
    ensures Lined(Run(w, steps).devices[d]) && Fifo(Run(w, steps).devices[d])
    decreases |steps|
  {
    Reachable(w, []);
    if steps == [] {
      assert NewDevice(w.devices[d]);
    } else {
      var front := steps[..|steps| - 1];
      RunFifo(w, front, d);
      Reachable(w, front);
      StepFifo(Run(w, front), steps[|steps| - 1], d);
      StepAppends(Run(w, front), steps[|steps| - 1], d);
      AppendsKeepsLined(Run(w, front).devices[d], Run(w, steps).devices[d]);
    }
  }

  // ----- who is stranded -----

  /** A nameless attempt stands at or before `id`. */
  predicate Blocked(dev: Device, id: AttemptId) {
    exists i, j :: 0 <= i <= j < |dev.order| && dev.order[j] == id
                   && dev.order[i] in dev.local.queue && Nameless(dev.local.queue[dev.order[i]])
  }

  lemma CarriedAlong(v: World, more: seq<Step>, d: DeviceId, id: AttemptId)
    requires WorldTrue(v) && d in v.devices && id in v.devices[d].local.queue
    ensures WorldTrue(Run(v, more)) && id in Run(v, more).devices[d].local.queue
    ensures var a, b := v.devices[d].local.queue[id], Run(v, more).devices[d].local.queue[id];
            Nameless(b) == Nameless(a) && (a.status != Pending ==> b.status != Pending)
  {
    hide WorldTrue;
    RunKeeps(v, more);
    assert Carried(v.devices[d].local.queue[id], Run(v, more).devices[d].local.queue[id]);
  }

  /** In a queue worked in order nothing behind a nameless attempt is resolved. */
  lemma NothingBehind(u: World, d: DeviceId, i: nat, j: nat)
    requires WorldTrue(u) && d in u.devices && Fifo(u.devices[d]) && i <= j < |u.devices[d].order|
    requires var dev := u.devices[d]; dev.order[i] in dev.local.queue && Nameless(dev.local.queue[dev.order[i]])
    ensures !ResolvedAt(u, d, u.devices[d].order[j])
  {
    hide WorldTrue, Nameless;
    var dev := u.devices[d];
    NamelessStaysPending(u, d, dev.order[i]);
    assert ResolvedIn(dev, dev.order[j]) ==> Turn(dev, dev.order[j]);
  }

  lemma BlockedForGood(w: World, steps: seq<Step>, more: seq<Step>, d: DeviceId, id: AttemptId)
    requires Initial(w) && d in w.devices && Orderly(w, steps + more) && Blocked(Run(w, steps).devices[d], id)
    ensures !ResolvedAt(Run(w, steps + more), d, id)
  {
    hide WorldTrue, Initial, Nameless, Fifo;
    var v, u := Run(w, steps), Run(w, steps + more);
    OrderlyAppends(w, steps, more);
    RunFifo(w, steps, d);
    RunFifo(w, steps + more, d);
    Reachable(w, steps);
    RunAppends(w, steps, more);
    RunLines(v, more, d);
    var dev := v.devices[d];
    var i, j :| 0 <= i <= j < |dev.order| && dev.order[j] == id
                && dev.order[i] in dev.local.queue && Nameless(dev.local.queue[dev.order[i]]);
    assert u.devices[d].order[i] == dev.order[i] && u.devices[d].order[j] == id;
    CarriedAlong(v, more, d, dev.order[i]);
    NothingBehind(u, d, i, j);
  }

  lemma CrashKeepsTurn(v: World, d: DeviceId, id: AttemptId)
    requires d in v.devices && Turn(v.devices[d], id)
    ensures Turn(Next(v, Crash(d)).devices[d], id)
  {
    assert Next(v, Crash(d)).devices[d].local.queue == v.devices[d].local.queue;
  }

  lemma Resolve(v: World, d: DeviceId, id: AttemptId) returns (more: seq<Step>)
    requires WorldTrue(v) && d in v.devices && id in v.devices[d].local.queue && Turn(v.devices[d], id)
    requires !Nameless(v.devices[d].local.queue[id])
    ensures Orderly(v, more) && ResolvedAt(Run(v, more), d, id)
  {
    hide WorldTrue, Nameless;
    if ResolvedAt(v, d, id) {
      more := [];
    } else {
      var rest := FromAnywhere(v, d, id);
      var crashed := Next(v, Crash(d));
      CrashKeepsTurn(v, d, id);
      BeginlessIsOrderly(Next(crashed, Push(d, Begin(id))), rest);
      OrderlyFirst(crashed, Push(d, Begin(id)), rest);
      OrderlyFirst(v, Crash(d), [Push(d, Begin(id))] + rest);
      more := [Crash(d)] + ([Push(d, Begin(id))] + rest);
    }
  }

  /** With nothing nameless up to position n, the queue can be drained up to there, in order. */
  lemma {:induction false} Drain(v: World, d: DeviceId, n: nat) returns (more: seq<Step>)
    requires WorldTrue(v) && d in v.devices && Lined(v.devices[d]) && n <= |v.devices[d].order|
    requires forall i :: 0 <= i < n ==> v.devices[d].order[i] in v.devices[d].local.queue
                                        && !Nameless(v.devices[d].local.queue[v.devices[d].order[i]])
    ensures Orderly(v, more)
    ensures forall i :: 0 <= i < n ==> ResolvedAt(Run(v, more), d, v.devices[d].order[i])
    decreases n
  {
    hide WorldTrue, Lined, Nameless;
    if n == 0 {
      more := [];
    } else {
      var order := v.devices[d].order;
      var first := Drain(v, d, n - 1);
      var u := Run(v, first);
      CarriedAlong(v, first, d, order[n - 1]);
      RunLines(v, first, d);
      InTurnAfter(v.devices[d], u.devices[d], n);
      var last := Resolve(u, d, order[n - 1]);
      more := first + last;
      OrderlyAppends(v, first, last);
      RunAppends(v, first, last);
      forall i | 0 <= i < n ensures ResolvedAt(Run(v, more), d, order[i]) {
        if i < n - 1 {
          CarriedAlong(u, last, d, order[i]);
        }
      }
    }
  }

  lemma InTurnAfter(dev: Device, dev': Device, n: nat)
    requires 0 < n <= |dev.order| && dev.order <= dev'.order && Lined(dev')
    requires forall i :: 0 <= i < n - 1 ==> ResolvedIn(dev', dev.order[i])
    ensures Turn(dev', dev.order[n - 1])
  {
    forall i, j | 0 <= i < j < |dev'.order| && dev'.order[j] == dev.order[n - 1]
      ensures ResolvedIn(dev', dev'.order[i])
    {
      assert dev'.order[n - 1] == dev.order[n - 1] && j == n - 1;
      assert dev'.order[i] == dev.order[i];
    }
  }

  /**
   Head-of-line: in a queue worked in order, some continuation resolves an attempt exactly when neither it nor
   any attempt queued before it is a verified one whose code names no code.
   */
  lemma DrainsExactly(w: World, steps: seq<Step>, d: DeviceId, id: AttemptId)
    requires Initial(w) && Orderly(w, steps) && d in w.devices && id in Run(w, steps).devices[d].local.queue
    ensures (exists more :: Orderly(w, steps + more) && ResolvedAt(Run(w, steps + more), d, id))
            <==> !Blocked(Run(w, steps).devices[d], id)
  {
    if Blocked(Run(w, steps).devices[d], id) {
      forall more | Orderly(w, steps + more) ensures !ResolvedAt(Run(w, steps + more), d, id) {
        BlockedForGood(w, steps, more, d, id);
      }
    } else {
      var v := Run(w, steps);
      Reachable(w, steps);
      RunFifo(w, steps, d);
      var j :| 0 <= j < |v.devices[d].order| && v.devices[d].order[j] == id;
      forall i | 0 <= i < j + 1
        ensures v.devices[d].order[i] in v.devices[d].local.queue
                && !Nameless(v.devices[d].local.queue[v.devices[d].order[i]])
      {
      }
      var more := Drain(v, d, j + 1);
      OrderlyAppends(w, steps, more);
      RunAppends(w, steps, more);
    }
  }
}
