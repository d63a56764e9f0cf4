/**
 The push handler and its winner poll as the loops that run them, proved against the automaton:
 each queued row of a batch feeds it one script of inputs, and a throw stops the batch.
 */
module PushHandler {
  import opened Prelude
  import opened Redemption

  /** A codes-replica document, as far as awaitWinner reads it. */
  datatype CodeView = CodeView(redeemedBy: Option<DeviceId>, redeemedAt: Option<int>)

  // ----- awaitWinner -----

  /** `clock(0)` is read for the deadline, `clock(k + 1)` after the k-th replica read. */
  ghost predicate Advancing(clock: nat -> int) { forall k: nat :: Ticks(clock, k) }

  predicate Ticks(clock: nat -> int, k: nat) { clock(k) < clock(k + 1) }

  function Named(v: Option<CodeView>): Option<Winner> {
    if v.Some? && v.value.redeemedBy.Some? then Some(Winner(v.value.redeemedBy.value, v.value.redeemedAt)) else None
  }

  ghost function Polled(clock: nat -> int, replica: nat -> Option<CodeView>, deadline: int, k: nat): Option<Winner>
    requires Advancing(clock)
    decreases deadline - clock(k + 1)
  {
    if Named(replica(k)).Some? then Named(replica(k))
    else if clock(k + 1) >= deadline then None
    else
      assert Ticks(clock, k + 1);
      Polled(clock, replica, deadline, k + 1)
  }

  ghost function Awaited(clock: nat -> int, replica: nat -> Option<CodeView>, waitMs: int): Option<Winner>
    requires Advancing(clock)
  {
    Polled(clock, replica, clock(0) + waitMs, 0)
  }

  /** The replica has no document, or one that names no winner. */
  predicate Silent(v: Option<CodeView>) { v.Some? ==> v.value.redeemedBy.None? }

  /** Poll `j` names nobody, and time is left. */
  predicate Unsettled(clock: nat -> int, replica: nat -> Option<CodeView>, deadline: int, j: nat) {
    Silent(replica(j)) && clock(j + 1) < deadline
  }

  /** Poll `n` is the last one: nothing was named before it, and it named a winner or met the deadline. */
  ghost predicate LastPoll(clock: nat -> int, replica: nat -> Option<CodeView>, deadline: int, k: nat, n: nat) {
    && k <= n
    && (forall j: nat :: k <= j < n ==> Unsettled(clock, replica, deadline, j))
    && (Silent(replica(n)) ==> clock(n + 1) >= deadline)
  }

  /** What is answered is the document's redeemed_by and redeemed_at, and nothing without them. */
  predicate Says(v: Option<CodeView>, w: Option<Winner>) {
    if Silent(v) then w.None? else w.Some? && v.value == CodeView(Some(w.value.device), w.value.at)
  }

  /** The first poll that names a winner decides; giving up means no poll up to the deadline named one. */
  lemma {:induction false} PolledMeaning(clock: nat -> int, replica: nat -> Option<CodeView>, deadline: int, k: nat)
    requires Advancing(clock)
    ensures exists n: nat :: LastPoll(clock, replica, deadline, k, n)
                             && Says(replica(n), Polled(clock, replica, deadline, k))
    decreases deadline - clock(k + 1)
  {
    if Unsettled(clock, replica, deadline, k) {
      assert Ticks(clock, k + 1);
      PolledMeaning(clock, replica, deadline, k + 1);
      var n: nat :| LastPoll(clock, replica, deadline, k + 1, n)
        && Says(replica(n), Polled(clock, replica, deadline, k + 1));
      assert LastPoll(clock, replica, deadline, k, n);
    } else {
      assert LastPoll(clock, replica, deadline, k, k);
    }
  }

  method AwaitWinner(clock: nat -> int, replica: nat -> Option<CodeView>, waitMs: int) returns (w: Option<Winner>)
    requires Advancing(clock)
    ensures w == Awaited(clock, replica, waitMs)
  {
    var deadline := clock(0) + waitMs;
    var k: nat := 0;
    while true
      invariant Polled(clock, replica, deadline, k) == Awaited(clock, replica, waitMs)
      decreases deadline - clock(k + 1)
    {
      var named := Named(replica(k));
      if named.Some? { return named; }
      if clock(k + 1) >= deadline { return None; }
      assert Ticks(clock, k + 1);
      k := k + 1;
    }
  }

  // ----- one row of a batch -----

  /** What the network and the replica do while one row is handled; None is a request that threw. */
  datatype RowEnv = RowEnv(
    redeem: Option<(nat, Verdict)>, clock: nat -> int, replica: nat -> Option<CodeView>, land: Option<nat>)

  predicate Skipped(q: Queue, state: Attempt) {
    state.status != Pending || state.id !in q || q[state.id].status != Pending
  }

  function LandInputs(env: RowEnv): seq<Input> {
    if env.land.None? then [Aborted]
    else if LandedOk(env.land.value) then [LandAnswered(env.land.value), Resolved]
    else [LandAnswered(env.land.value)]
  }

  ghost function BurnInputs(env: RowEnv, waitMs: int): seq<Input>
    requires Advancing(env.clock)
  {
    if env.redeem.None? || env.redeem.value.0 != 200 then [Aborted]
    else
      var v := env.redeem.value.1;
      if !v.ok && v.reason == Some(AlreadyUsed) then
        var w := Awaited(env.clock, env.replica, waitMs);
        if w.None? then [RedeemAnswered(v), Aborted]
        else [RedeemAnswered(v), WinnerNamed(w.value), Persisted] + LandInputs(env)
      else [RedeemAnswered(v), Persisted] + LandInputs(env)
  }

  ghost function RowInputs(q: Queue, state: Attempt, env: RowEnv, waitMs: int): seq<Input>
    requires Advancing(env.clock)
  {
    if Skipped(q, state) then []
    else [Begin(state.id)] + if Decided(q[state.id]) then LandInputs(env) else BurnInputs(env, waitMs)
  }

  predicate LandsOk(env: RowEnv) { env.land.Some? && LandedOk(env.land.value) }

  ghost predicate BurnsOk(env: RowEnv, waitMs: int)
    requires Advancing(env.clock)
  {
    && env.redeem.Some? && env.redeem.value.0 == 200
    && var v := env.redeem.value.1;
       (!v.ok && v.reason == Some(AlreadyUsed) ==> Awaited(env.clock, env.replica, waitMs).Some?)
  }

  /** The row is handled to its end: nothing throws. */
  ghost predicate RowOk(q: Queue, state: Attempt, env: RowEnv, waitMs: int)
    requires Advancing(env.clock)
  {
    Skipped(q, state) || (LandsOk(env) && (Decided(q[state.id]) || BurnsOk(env, waitMs)))
  }

  ghost function RowRun(l: Local, me: DeviceId, state: Attempt, env: RowEnv, waitMs: int): Local
    requires Advancing(env.clock)
  {
    LocalRun(l, me, RowInputs(l.queue, state, env, waitMs))
  }

  // ----- the batch -----

  datatype Pass = Pass(local: Local, threw: bool, handled: nat)

  ghost function PassRun(l: Local, me: DeviceId, rows: seq<Attempt>, envs: seq<RowEnv>, waitMs: int): Pass
    requires |rows| == |envs| && forall e :: e in envs ==> Advancing(e.clock)
    decreases |rows|
  {
    if rows == [] then Pass(l, false, 0)
    else
      var l' := RowRun(l, me, rows[0], envs[0], waitMs);
      if RowOk(l.queue, rows[0], envs[0], waitMs)
      then var rest := PassRun(l', me, rows[1..], envs[1..], waitMs); rest.(handled := rest.handled + 1)
      else Pass(l', true, 0)
  }

  class PushReplica {
    const me: DeviceId
    const waitMs: int
    var queue: Queue
    var log: seq<Request>

    constructor (me: DeviceId, waitMs: int, queue: Queue)
      ensures this.me == me && this.waitMs == waitMs && this.queue == queue && log == []
    {
      this.me, this.waitMs, this.queue, log := me, waitMs, queue, [];
    }

    ghost function At(flight: Flight): Local
      reads this
    {
      Local(queue, flight, log)
    }

    /** enqueueAttempt: one find and one insert, with nothing in between. */
    method EnqueueAttempt(id: AttemptId, code: CodeId, unverified: bool, audit: Audit)
        returns (doc: Attempt, deduped: bool)
      requires id !in queue
      modifies this`queue
      ensures deduped <==> exists x :: Live(old(queue), code, x)
      ensures deduped ==> queue == old(queue) && exists x :: Live(queue, code, x) && doc == queue[x]
      ensures !deduped ==> doc == Attempt(id, code, me, unverified, audit, Pending, None, None, None, false, None, None)
      ensures !deduped ==> queue == old(queue)[id := doc]
    {
      var todo := queue.Keys;
      while todo != {}
        invariant todo <= queue.Keys && queue == old(queue)
        invariant forall x :: x in queue.Keys - todo ==> !Live(queue, code, x)
        decreases |todo|
      {
        var x :| x in todo;
        if queue[x].code == code && queue[x].status != Rejected {
          assert Live(queue, code, x);
          return queue[x], true;
        }
        todo := todo - {x};
      }
      doc := NewAttempt(id, code, me, unverified, audit);
      queue := queue[id := doc];
      deduped := false;
    }

    /** Land the decided row and resolve it; false is the handler's throw. */
    method Land(id: AttemptId, env: RowEnv) returns (ok: bool)
      requires id in queue && Decided(queue[id])
      modifies this
      ensures ok == LandsOk(env)
      ensures At(Idle) == LocalRun(SendLanding(old(At(Idle)), me, id), me, LandInputs(env))
    {
      ghost var sent := SendLanding(At(Idle), me, id);
      log := log + [LandPost(LandingRow(queue[id], me))];
      if env.land.None? || !LandedOk(env.land.value) {
        RunCons(sent, me, LandInputs(env)[0], []);
        return false;
      }
      queue := queue[id := PatchResolved(queue[id])];
      RunCons(sent, me, LandAnswered(env.land.value), [Resolved]);
      RunCons(LocalStep(sent, me, LandAnswered(env.land.value)), me, Resolved, []);
      ok := true;
    }

    /** Burn the row's code and persist the outcome before anything lands; false is a throw. */
    method BurnAndPersist(id: AttemptId, env: RowEnv) returns (ok: bool)
      requires id in queue && !Decided(queue[id]) && queue[id].status == Pending && Advancing(env.clock)
      modifies this
      ensures ok == BurnsOk(env, waitMs)
      ensures !ok ==> At(Idle) == LocalRun(LocalStep(old(At(Idle)), me, Begin(id)), me, BurnInputs(env, waitMs))
      ensures ok ==> id in queue && Decided(queue[id])
      ensures ok ==> LocalRun(SendLanding(At(Idle), me, id), me, LandInputs(env))
                     == LocalRun(LocalStep(old(At(Idle)), me, Begin(id)), me, BurnInputs(env, waitMs))
    {
      ghost var burning := LocalStep(At(Idle), me, Begin(id));
      log := log + [RedeemPost(id, queue[id].code)];
      if env.redeem.None? || env.redeem.value.0 != 200 {
        RunCons(burning, me, Aborted, []);
        return false;
      }
      var v := env.redeem.value.1;
      var burn := Judge(v);
      ghost var answered := LocalStep(burning, me, RedeemAnswered(v));
      if !v.ok && v.reason == Some(AlreadyUsed) {
        var w := AwaitWinner(env.clock, env.replica, waitMs);
        if w.None? {
          RunCons(burning, me, RedeemAnswered(v), [Aborted]);
          RunCons(answered, me, Aborted, []);
          return false;
        }
        burn := Arbitrate(me, w.value);
        ghost var rest := [Persisted] + LandInputs(env);
        assert BurnInputs(env, waitMs) == [RedeemAnswered(v)] + ([WinnerNamed(w.value)] + rest);
        RunCons(burning, me, RedeemAnswered(v), [WinnerNamed(w.value)] + rest);
        RunCons(answered, me, WinnerNamed(w.value), rest);
        answered := LocalStep(answered, me, WinnerNamed(w.value));
      } else {
        assert BurnInputs(env, waitMs) == [RedeemAnswered(v)] + ([Persisted] + LandInputs(env));
        RunCons(burning, me, RedeemAnswered(v), [Persisted] + LandInputs(env));
      }
      assert answered == Local(queue, Persisting(id, burn), log);
      queue := queue[id := PatchBurn(queue[id], burn)];
      RunCons(answered, me, Persisted, LandInputs(env));
      ok := true;
    }

    method HandleRow(state: Attempt, env: RowEnv) returns (ok: bool)
      requires Advancing(env.clock)
      modifies this
      ensures ok == RowOk(old(queue), state, env, waitMs)
      ensures At(Idle) == RowRun(old(At(Idle)), me, state, env, waitMs)
    {
      if state.status != Pending { return true; }
      if state.id !in queue || queue[state.id].status != Pending { return true; }
      var id := state.id;
      var doc := queue[id];
      if doc.unverified || doc.burnOk.Some? {
        RunCons(At(Idle), me, Begin(id), LandInputs(env));
        ok := Land(id, env);
        return;
      }
      RunCons(At(Idle), me, Begin(id), BurnInputs(env, waitMs));
      ok := BurnAndPersist(id, env);
      if ok {
        ok := Land(id, env);
      }
    }

    /** pushHandler over one batch; `threw` leaves RxDB to retry the batch later. */
    method Push(rows: seq<Attempt>, envs: seq<RowEnv>) returns (threw: bool)
      requires |rows| == |envs| && forall e :: e in envs ==> Advancing(e.clock)
      modifies this
      ensures var pass := PassRun(old(At(Idle)), me, rows, envs, waitMs);
              threw == pass.threw && At(Idle) == pass.local
    {
      ghost var start := At(Idle);
      var i := 0;
      while i < |rows|
        invariant 0 <= i <= |rows|
        invariant var pass := PassRun(start, me, rows, envs, waitMs);
                  var rest := PassRun(At(Idle), me, rows[i..], envs[i..], waitMs);
                  pass.local == rest.local && pass.threw == rest.threw
      {
        assert rows[i..][1..] == rows[i + 1..] && envs[i..][1..] == envs[i + 1..];
        var ok := HandleRow(rows[i], envs[i]);
        if !ok { return true; }
        i := i + 1;
      }
      threw := false;
    }
  }

  // ----- what a pass does to the queue -----

  /** The burn outcome one row's environment yields; None where the handler throws. */
  ghost function BurnOf(me: DeviceId, env: RowEnv, waitMs: int): Option<Burn>
    requires Advancing(env.clock)
  {
    if !BurnsOk(env, waitMs) then None
    else
      var v := env.redeem.value.1;
      if !v.ok && v.reason == Some(AlreadyUsed)
      then Some(Arbitrate(me, Awaited(env.clock, env.replica, waitMs).value))
      else Some(Judge(v))
  }

  /**
   The outcome persisted: a win has neither reason nor winner, and so has a loss the replica shows to be our own
   burn (belt 2); any other loss as already used names the winner, and a refusal keeps the arbiter's reason.
   */
  lemma BurnMeans(me: DeviceId, env: RowEnv, waitMs: int)
    requires Advancing(env.clock) && BurnsOk(env, waitMs)
    ensures var v, w := env.redeem.value.1, Awaited(env.clock, env.replica, waitMs);
            BurnOf(me, env, waitMs) == Some(
              if v.ok then Burn(true, None, None)
              else if v.reason != Some(AlreadyUsed) then Burn(false, v.reason, None)
              else if w.value.device == me then Burn(true, None, None)
              else Burn(false, Some(AlreadyUsed), w))
  {
  }

  function Landed(a: Attempt, env: RowEnv): Attempt {
    if LandsOk(env) then PatchResolved(a) else a
  }

  /** A pending row's document and the requests sent for it, after one handling. */
  ghost function Handled(a: Attempt, me: DeviceId, env: RowEnv, waitMs: int): (Attempt, seq<Request>)
    requires Advancing(env.clock)
  {
    if Decided(a) then (Landed(a, env), [LandPost(LandingRow(a, me))])
    else
      var burn := BurnOf(me, env, waitMs);
      if burn.None? then (a, [RedeemPost(a.id, a.code)])
      else
        var burned := PatchBurn(a, burn.value);
        (Landed(burned, env), [RedeemPost(a.id, a.code), LandPost(LandingRow(burned, me))])
  }

  predicate Keyed(q: Queue) {
    forall id :: id in q ==> q[id].id == id
  }

  lemma LandRun(l: Local, me: DeviceId, id: AttemptId, env: RowEnv)
    requires l.flight == Idle && id in l.queue && Decided(l.queue[id])
    ensures LocalRun(SendLanding(l, me, id), me, LandInputs(env))
            == Local(l.queue[id := Landed(l.queue[id], env)], Idle, l.log + [LandPost(LandingRow(l.queue[id], me))])
  {
    var sent := SendLanding(l, me, id);
    assert l.queue[id := l.queue[id]] == l.queue;
    if LandsOk(env) {
      RunCons(sent, me, LandAnswered(env.land.value), [Resolved]);
      RunCons(LocalStep(sent, me, LandAnswered(env.land.value)), me, Resolved, []);
    } else {
      RunCons(sent, me, LandInputs(env)[0], []);
    }
  }

  lemma BurnRun(l: Local, me: DeviceId, id: AttemptId, env: RowEnv, waitMs: int)
    requires l.flight == Burning(id) && id in l.queue && !Decided(l.queue[id]) && Advancing(env.clock)
    ensures var burn := BurnOf(me, env, waitMs);
            LocalRun(l, me, BurnInputs(env, waitMs)) ==
              if burn.None? then l.(flight := Idle)
              else LocalRun(SendLanding(Local(l.queue[id := PatchBurn(l.queue[id], burn.value)], Idle, l.log), me, id),
                            me, LandInputs(env))
  {
    if env.redeem.None? || env.redeem.value.0 != 200 {
      RunCons(l, me, Aborted, []);
    } else {
      var v := env.redeem.value.1;
      var w := Awaited(env.clock, env.replica, waitMs);
      var tail := [Persisted] + LandInputs(env);
      var answered := LocalStep(l, me, RedeemAnswered(v));
      if !v.ok && v.reason == Some(AlreadyUsed) {
        if w.None? {
          RunCons(l, me, RedeemAnswered(v), [Aborted]);
          RunCons(answered, me, Aborted, []);
        } else {
          assert BurnInputs(env, waitMs) == [RedeemAnswered(v)] + ([WinnerNamed(w.value)] + tail);
          RunCons(l, me, RedeemAnswered(v), [WinnerNamed(w.value)] + tail);
          RunCons(answered, me, WinnerNamed(w.value), tail);
          RunCons(LocalStep(answered, me, WinnerNamed(w.value)), me, Persisted, LandInputs(env));
        }
      } else {
        assert BurnInputs(env, waitMs) == [RedeemAnswered(v)] + tail;
        RunCons(l, me, RedeemAnswered(v), tail);
        RunCons(answered, me, Persisted, LandInputs(env));
      }
    }
  }

  /** One row, closed form: only its own document moves, and the requests are these and no others. */
  lemma RowClosed(l: Local, me: DeviceId, state: Attempt, env: RowEnv, waitMs: int)
    requires l.flight == Idle && Keyed(l.queue) && Advancing(env.clock)
    ensures RowRun(l, me, state, env, waitMs) ==
              if Skipped(l.queue, state) then l
              else var (a, sent) := Handled(l.queue[state.id], me, env, waitMs);
                   Local(l.queue[state.id := a], Idle, l.log + sent)
  {
    if !Skipped(l.queue, state) {
      var id := state.id;
      var a := l.queue[id];
      if Decided(a) {
        RunCons(l, me, Begin(id), LandInputs(env));
        LandRun(l, me, id, env);
      } else {
        RunCons(l, me, Begin(id), BurnInputs(env, waitMs));
        var burning := LocalStep(l, me, Begin(id));
        BurnRun(burning, me, id, env, waitMs);
        var burn := BurnOf(me, env, waitMs);
        if burn.Some? {
          var burned := PatchBurn(a, burn.value);
          LandRun(Local(l.queue[id := burned], Idle, burning.log), me, id, env);
          assert l.queue[id := burned][id := Landed(burned, env)] == l.queue[id := Landed(burned, env)];
          assert l.log + [RedeemPost(id, a.code)] + [LandPost(LandingRow(burned, me))]
              == l.log + [RedeemPost(id, a.code), LandPost(LandingRow(burned, me))];
        } else {
          assert l.queue[id := a] == l.queue;
        }
      }
    }
  }

  /** A document a finished handling leaves: resolved, landed, and carrying its burn outcome. */
  predicate Settled(a: Attempt) {
    && a.landed && (a.unverified || a.burnOk.Some?)
    && (if a.unverified || a.burnOk == Some(true) then a.status == Accepted && a.reason == None
        else a.status == Rejected && a.reason == a.burnReason)
  }

  /** What a completed handling leaves of a row: settled, or as it was if there was nothing to do. */
  predicate Done(before: Queue, after: Queue, row: Attempt) {
    if Skipped(before, row)
    then row.id in before ==> row.id in after && after[row.id] == before[row.id]
    else row.id in after && Settled(after[row.id])
  }

  /** One row handled to its end is done; one that throws leaves its document pending. */
  lemma RowProgress(l: Local, me: DeviceId, state: Attempt, env: RowEnv, waitMs: int)
    requires l.flight == Idle && Keyed(l.queue) && Advancing(env.clock)
    ensures var l' := RowRun(l, me, state, env, waitMs);
            if RowOk(l.queue, state, env, waitMs) then Done(l.queue, l'.queue, state)
            else !Skipped(l.queue, state) && state.id in l'.queue && l'.queue[state.id].status == Pending
  {
    RowClosed(l, me, state, env, waitMs);
  }

  /**
   Queue progress: the rows before the one that throws are done, the throwing row is still pending,
   and every document the pass did not reach, in the batch or not, is untouched.
   */
  lemma {:induction false} QueueProgress(l: Local, me: DeviceId, rows: seq<Attempt>, envs: seq<RowEnv>, waitMs: int)
    requires l.flight == Idle && Keyed(l.queue)
    requires |rows| == |envs| && forall e :: e in envs ==> Advancing(e.clock)
    requires forall i, j :: 0 <= i < j < |rows| ==> rows[i].id != rows[j].id
    ensures var pass := PassRun(l, me, rows, envs, waitMs);
            && pass.handled <= |rows| && (pass.threw <==> pass.handled < |rows|)
            && (forall i :: 0 <= i < pass.handled ==> Done(l.queue, pass.local.queue, rows[i]))
            && (pass.threw ==>
                  && !Skipped(l.queue, rows[pass.handled]) && rows[pass.handled].id in pass.local.queue
                  && pass.local.queue[rows[pass.handled].id].status == Pending)
            && (forall i :: pass.handled < i < |rows| && rows[i].id in l.queue ==>
                  rows[i].id in pass.local.queue && pass.local.queue[rows[i].id] == l.queue[rows[i].id])
    decreases |rows|
  {
    if rows != [] {
      OtherRowsUntouched(l, me, rows[0], envs[0], waitMs);
      RowProgress(l, me, rows[0], envs[0], waitMs);
      if RowOk(l.queue, rows[0], envs[0], waitMs) {
        var l' := RowRun(l, me, rows[0], envs[0], waitMs);
        assert forall e :: e in envs[1..] ==> e in envs;
        var rest := PassRun(l', me, rows[1..], envs[1..], waitMs);
        QueueProgress(l', me, rows[1..], envs[1..], waitMs);
        LaterRowsKeep(l', me, rows[0].id, rows[1..], envs[1..], waitMs);
        ProgressJoin(l.queue, l'.queue, rest.local.queue, rows, rest.handled);
      }
    }
  }

  /** A row still to be handled whose landing is not answered 201 or 409, or whose burn fails. */
  ghost predicate Stops(q: Queue, state: Attempt, env: RowEnv, waitMs: int)
    requires Advancing(env.clock)
  {
    && !Skipped(q, state)
    && ((env.land != Some(201) && env.land != Some(409)) || (!Decided(q[state.id]) && !BurnsOk(env, waitMs)))
  }

  /** Handling a row throws exactly when it stops, and then its document stays pending. */
  lemma RowStops(l: Local, me: DeviceId, state: Attempt, env: RowEnv, waitMs: int)
    requires l.flight == Idle && Keyed(l.queue) && Advancing(env.clock)
    ensures RowOk(l.queue, state, env, waitMs) <==> !Stops(l.queue, state, env, waitMs)
    ensures var l' := RowRun(l, me, state, env, waitMs);
            Stops(l.queue, state, env, waitMs) ==> state.id in l'.queue && l'.queue[state.id].status == Pending
  {
    RowProgress(l, me, state, env, waitMs);
  }

  lemma StopsElsewhere(q: Queue, q': Queue, state: Attempt, env: RowEnv, waitMs: int)
    requires Advancing(env.clock) && q'.Keys == q.Keys && (state.id in q ==> q'[state.id] == q[state.id])
    ensures Stops(q', state, env, waitMs) <==> Stops(q, state, env, waitMs)
  {
  }

  /**
   A pass throws exactly when some row stops it, at the first one that does, which stays pending: no landing
   answered by anything but 201 or 409 is ever taken for one that arrived.
   */
  lemma {:induction false} ThrowsExactly(l: Local, me: DeviceId, rows: seq<Attempt>, envs: seq<RowEnv>, waitMs: int)
    requires l.flight == Idle && Keyed(l.queue)
    requires |rows| == |envs| && forall e :: e in envs ==> Advancing(e.clock)
    requires forall i, j :: 0 <= i < j < |rows| ==> rows[i].id != rows[j].id
    ensures var pass := PassRun(l, me, rows, envs, waitMs);
            && pass.handled <= |rows| && (pass.threw <==> pass.handled < |rows|)
            && (forall i :: 0 <= i < pass.handled ==> !Stops(l.queue, rows[i], envs[i], waitMs))
            && (pass.threw ==>
                  && Stops(l.queue, rows[pass.handled], envs[pass.handled], waitMs)
                  && rows[pass.handled].id in pass.local.queue
                  && pass.local.queue[rows[pass.handled].id].status == Pending)
    decreases |rows|
  {
    hide Stops, RowOk, Keyed, RowRun;
    if rows != [] {
      OtherRowsUntouched(l, me, rows[0], envs[0], waitMs);
      RowStops(l, me, rows[0], envs[0], waitMs);
      if RowOk(l.queue, rows[0], envs[0], waitMs) {
        var l' := RowRun(l, me, rows[0], envs[0], waitMs);
        TailOf(rows, envs);
        ThrowsExactly(l', me, rows[1..], envs[1..], waitMs);
        forall i | 0 < i < |rows|
          ensures Stops(l'.queue, rows[1..][i - 1], envs[1..][i - 1], waitMs)
                  <==> Stops(l.queue, rows[i], envs[i], waitMs)
        {
          StopsElsewhere(l.queue, l'.queue, rows[i], envs[i], waitMs);
        }
      }
    }
  }

  lemma ProgressJoin(q: Queue, q1: Queue, q2: Queue, rows: seq<Attempt>, handled: nat)
    requires rows != [] && forall i :: 0 < i < |rows| ==> rows[i].id != rows[0].id
    requires q1.Keys == q.Keys && forall id :: id in q && id != rows[0].id ==> q1[id] == q[id]
    requires rows[0].id in q1 ==> rows[0].id in q2 && q2[rows[0].id] == q1[rows[0].id]
    requires handled <= |rows[1..]| && forall i :: 0 <= i < handled ==> Done(q1, q2, rows[1..][i])
    requires Done(q, q1, rows[0])
    ensures forall i :: 0 <= i < handled + 1 ==> Done(q, q2, rows[i])
  {
    forall i | 0 <= i < handled + 1 ensures Done(q, q2, rows[i]) {
      if i > 0 {
        assert Done(q1, q2, rows[1..][i - 1]);
      }
    }
  }

  /** Documents named by no row of the batch are untouched, and no document appears or disappears. */
  lemma OutsideTheBatch(l: Local, me: DeviceId, id: AttemptId, rows: seq<Attempt>, envs: seq<RowEnv>, waitMs: int)
    requires l.flight == Idle && Keyed(l.queue) && id in l.queue && !Names(rows, id)
    requires |rows| == |envs| && forall e :: e in envs ==> Advancing(e.clock)
    ensures id in PassRun(l, me, rows, envs, waitMs).local.queue
    ensures PassRun(l, me, rows, envs, waitMs).local.queue[id] == l.queue[id]
  {
    LaterRowsKeep(l, me, id, rows, envs, waitMs);
  }

  /** A request a pass may send: a redeem for an undecided verified row, or a decided row's landing. */
  predicate Earned(before: Queue, after: Queue, me: DeviceId, r: Request) {
    match r
    case RedeemPost(id, code) =>
      id in before && before[id].status == Pending && !Decided(before[id]) && before[id].code == code
    case LandPost(row) =>
      && row.id in before && before[row.id].status == Pending
      && row.id in after && Decided(after[row.id]) && row == LandingRow(after[row.id], me)
  }

  function AttemptOf(r: Request): AttemptId { if r.RedeemPost? then r.id else r.row.id }

  predicate Names(rows: seq<Attempt>, id: AttemptId) {
    exists i :: 0 <= i < |rows| && rows[i].id == id
  }

  predicate AllEarned(before: Queue, after: Queue, me: DeviceId, rows: seq<Attempt>, sent: seq<Request>) {
    forall k :: 0 <= k < |sent| ==> Names(rows, AttemptOf(sent[k])) && Earned(before, after, me, sent[k])
  }

  ghost function RowSent(l: Local, me: DeviceId, state: Attempt, env: RowEnv, waitMs: int): seq<Request>
    requires Advancing(env.clock)
  {
    if Skipped(l.queue, state) then [] else Handled(l.queue[state.id], me, env, waitMs).1
  }

  ghost function PassSent(l: Local, me: DeviceId, rows: seq<Attempt>, envs: seq<RowEnv>, waitMs: int): seq<Request>
    requires |rows| == |envs| && forall e :: e in envs ==> Advancing(e.clock)
    decreases |rows|
  {
    if rows == [] then []
    else
      var sent := RowSent(l, me, rows[0], envs[0], waitMs);
      if RowOk(l.queue, rows[0], envs[0], waitMs)
      then sent + PassSent(RowRun(l, me, rows[0], envs[0], waitMs), me, rows[1..], envs[1..], waitMs)
      else sent
  }

  lemma NothingEarned(q: Queue, me: DeviceId, rows: seq<Attempt>)
    ensures AllEarned(q, q, me, rows, [])
  {
  }

  lemma RowEarns(l: Local, me: DeviceId, rows: seq<Attempt>, env: RowEnv, waitMs: int)
    requires l.flight == Idle && Keyed(l.queue) && Advancing(env.clock) && rows != []
    ensures var l' := RowRun(l, me, rows[0], env, waitMs);
            var sent := RowSent(l, me, rows[0], env, waitMs);
            && l'.log == l.log + sent && AllEarned(l.queue, l'.queue, me, rows, sent)
            && forall k :: 0 <= k < |sent| ==> AttemptOf(sent[k]) == rows[0].id
  {
    RowClosed(l, me, rows[0], env, waitMs);
  }

  lemma EarnedEarlier(q: Queue, q1: Queue, q2: Queue, me: DeviceId, r: Request)
    requires Earned(q, q1, me, r)
    requires AttemptOf(r) in q1 ==> AttemptOf(r) in q2 && q2[AttemptOf(r)] == q1[AttemptOf(r)]
    ensures Earned(q, q2, me, r)
  {
  }

  lemma EarnedLater(q: Queue, q1: Queue, q2: Queue, me: DeviceId, r: Request)
    requires Earned(q1, q2, me, r)
    requires AttemptOf(r) in q1 ==> AttemptOf(r) in q && q[AttemptOf(r)] == q1[AttemptOf(r)]
    ensures Earned(q, q2, me, r)
  {
  }

  lemma OtherRowsUntouched(l: Local, me: DeviceId, state: Attempt, env: RowEnv, waitMs: int)
    requires l.flight == Idle && Keyed(l.queue) && Advancing(env.clock)
    ensures var l' := RowRun(l, me, state, env, waitMs);
            && l'.flight == Idle && Keyed(l'.queue) && l'.queue.Keys == l.queue.Keys
            && forall id :: id in l.queue && id != state.id ==> l'.queue[id] == l.queue[id]
  {
    RowClosed(l, me, state, env, waitMs);
  }

  /** Everything a pass sends was earned: no redeem for an unverified or already burned attempt. */
  lemma {:induction false} RequestsAreEarned(l: Local, me: DeviceId, rows: seq<Attempt>, envs: seq<RowEnv>, waitMs: int)
    requires l.flight == Idle && Keyed(l.queue)
    requires |rows| == |envs| && forall e :: e in envs ==> Advancing(e.clock)
    requires forall i, j :: 0 <= i < j < |rows| ==> rows[i].id != rows[j].id
    ensures var pass := PassRun(l, me, rows, envs, waitMs);
            var sent := PassSent(l, me, rows, envs, waitMs);
            pass.local.log == l.log + sent && AllEarned(l.queue, pass.local.queue, me, rows, sent)
    decreases |rows|
  {
    hide AllEarned, Keyed, RowRun, RowOk, RowSent, PassRun, PassSent;
    PassOne(l, me, rows, envs, waitMs);
    if rows == [] {
      NothingEarned(l.queue, me, rows);
    } else {
      var now := RowSent(l, me, rows[0], envs[0], waitMs);
      var l' := RowRun(l, me, rows[0], envs[0], waitMs);
      RowEarns(l, me, rows, envs[0], waitMs);
      OtherRowsUntouched(l, me, rows[0], envs[0], waitMs);
      if RowOk(l.queue, rows[0], envs[0], waitMs) {
        TailOf(rows, envs);
        RequestsAreEarned(l', me, rows[1..], envs[1..], waitMs);
        LaterRowsKeep(l', me, rows[0].id, rows[1..], envs[1..], waitMs);
        var last := PassRun(l', me, rows[1..], envs[1..], waitMs).local;
        EarnedJoin(l.queue, l'.queue, last.queue, me, rows, now, PassSent(l', me, rows[1..], envs[1..], waitMs));
      }
    }
  }

  /** A pass opened up by one row. */
  lemma PassOne(l: Local, me: DeviceId, rows: seq<Attempt>, envs: seq<RowEnv>, waitMs: int)
    requires |rows| == |envs| && forall e :: e in envs ==> Advancing(e.clock)
    ensures rows == [] ==>
              PassRun(l, me, rows, envs, waitMs).local == l && PassSent(l, me, rows, envs, waitMs) == []
    ensures rows != [] && !RowOk(l.queue, rows[0], envs[0], waitMs) ==>
              && PassRun(l, me, rows, envs, waitMs).local == RowRun(l, me, rows[0], envs[0], waitMs)
              && PassSent(l, me, rows, envs, waitMs) == RowSent(l, me, rows[0], envs[0], waitMs)
    ensures rows != [] && RowOk(l.queue, rows[0], envs[0], waitMs) ==>
              var l' := RowRun(l, me, rows[0], envs[0], waitMs);
              && PassRun(l, me, rows, envs, waitMs).local == PassRun(l', me, rows[1..], envs[1..], waitMs).local
              && PassSent(l, me, rows, envs, waitMs)
                 == RowSent(l, me, rows[0], envs[0], waitMs) + PassSent(l', me, rows[1..], envs[1..], waitMs)
  {
  }

  lemma TailOf(rows: seq<Attempt>, envs: seq<RowEnv>)
    requires rows != [] && |rows| == |envs| && forall i, j :: 0 <= i < j < |rows| ==> rows[i].id != rows[j].id
    ensures forall e :: e in envs[1..] ==> e in envs
    ensures forall i, j :: 0 <= i < j < |rows[1..]| ==> rows[1..][i].id != rows[1..][j].id
    ensures forall i :: 0 <= i < |rows[1..]| ==> rows[1..][i].id != rows[0].id
  {
  }

  lemma EarnedJoin(q: Queue, q1: Queue, q2: Queue, me: DeviceId, rows: seq<Attempt>, now: seq<Request>,
                   later: seq<Request>)
    requires rows != [] && forall i :: 0 < i < |rows| ==> rows[i].id != rows[0].id
    requires AllEarned(q, q1, me, rows, now) && AllEarned(q1, q2, me, rows[1..], later)
    requires forall k :: 0 <= k < |now| ==> AttemptOf(now[k]) == rows[0].id
    requires rows[0].id in q1 ==> rows[0].id in q2 && q2[rows[0].id] == q1[rows[0].id]
    requires q1.Keys == q.Keys && forall id :: id in q && id != rows[0].id ==> q1[id] == q[id]
    ensures AllEarned(q, q2, me, rows, now + later)
  {
    forall k | 0 <= k < |now + later|
      ensures Names(rows, AttemptOf((now + later)[k])) && Earned(q, q2, me, (now + later)[k])
    {
      if k < |now| {
        EarnedEarlier(q, q1, q2, me, now[k]);
      } else {
        var r := later[k - |now|];
        var i :| 0 <= i < |rows[1..]| && rows[1..][i].id == AttemptOf(r);
        assert rows[i + 1].id == AttemptOf(r);
        EarnedLater(q, q1, q2, me, r);
      }
    }
  }

  lemma {:induction false} LaterRowsKeep(l: Local, me: DeviceId, id: AttemptId, rows: seq<Attempt>, envs: seq<RowEnv>,
                                         waitMs: int)
    requires l.flight == Idle && Keyed(l.queue)
    requires |rows| == |envs| && forall e :: e in envs ==> Advancing(e.clock)
    requires forall i :: 0 <= i < |rows| ==> rows[i].id != id
    ensures var after := PassRun(l, me, rows, envs, waitMs).local;
            && after.flight == Idle && Keyed(after.queue) && after.queue.Keys == l.queue.Keys
            && (id in l.queue ==> after.queue[id] == l.queue[id])
    decreases |rows|
  {
    if rows != [] {
      OtherRowsUntouched(l, me, rows[0], envs[0], waitMs);
      assert forall e :: e in envs[1..] ==> e in envs;
      LaterRowsKeep(RowRun(l, me, rows[0], envs[0], waitMs), me, id, rows[1..], envs[1..], waitMs);
    }
  }

  /** A pass over rows that are all resolved, or gone, sends nothing and changes nothing. */
  lemma {:induction false} ResolvedRowsSendNothing(l: Local, me: DeviceId, rows: seq<Attempt>, envs: seq<RowEnv>,
                                                   waitMs: int)
    requires l.flight == Idle && |rows| == |envs| && forall e :: e in envs ==> Advancing(e.clock)
    requires forall i :: 0 <= i < |rows| ==> Skipped(l.queue, rows[i])
    ensures PassRun(l, me, rows, envs, waitMs) == Pass(l, false, |rows|)
    decreases |rows|
  {
    if rows != [] {
      assert RowRun(l, me, rows[0], envs[0], waitMs) == l;
      assert forall e :: e in envs[1..] ==> e in envs;
      assert forall i :: 0 <= i < |rows| - 1 ==> rows[1..][i] == rows[i + 1];
      ResolvedRowsSendNothing(l, me, rows[1..], envs[1..], waitMs);
    }
  }

  /** Belt 1: once the burn is persisted, a retry after a failed landing sends that same landing and no redeem. */
  lemma RetryOnlyLands(l: Local, me: DeviceId, state: Attempt, env: RowEnv, retry: RowEnv, waitMs: int)
    requires l.flight == Idle && Keyed(l.queue) && Advancing(env.clock) && Advancing(retry.clock)
    requires !Skipped(l.queue, state) && BurnOf(me, env, waitMs).Some? && !LandsOk(env)
    ensures var l1 := RowRun(l, me, state, env, waitMs);
            var l2 := RowRun(l1, me, state, retry, waitMs);
            && state.id in l1.queue && state.id in l2.queue
            && Decided(l1.queue[state.id])
            && l2.log == l1.log + [LandPost(LandingRow(l1.queue[state.id], me))]
            && LandPost(LandingRow(l1.queue[state.id], me)) in l1.log
            && l2.queue[state.id].burnOk == l1.queue[state.id].burnOk
            && l2.queue[state.id].burnReason == l1.queue[state.id].burnReason
  {
    RowClosed(l, me, state, env, waitMs);
    var l1 := RowRun(l, me, state, env, waitMs);
    RowClosed(l1, me, state, retry, waitMs);
  }

  // ----- a row whose redeem is refused for good -----

  predicate Refused(env: RowEnv) { env.redeem.None? || env.redeem.value.0 != 200 }

  /** A pending verified row that names no code, and the 400 its redeem is answered with. */
  predicate Poisons(q: Queue, state: Attempt, env: RowEnv) {
    !Skipped(q, state) && Nameless(q[state.id]) && !Decided(q[state.id]) && Refused(env)
  }

  /** The batch throws at or before such a row, which stays as it was, and so does every row after it. */
  lemma {:induction false} NamelessBatchThrows(l: Local, me: DeviceId, rows: seq<Attempt>, envs: seq<RowEnv>,
                                               waitMs: int, i: nat)
    requires l.flight == Idle && Keyed(l.queue)
    requires |rows| == |envs| && forall e :: e in envs ==> Advancing(e.clock)
    requires forall j, k :: 0 <= j < k < |rows| ==> rows[j].id != rows[k].id
    requires i < |rows| && Poisons(l.queue, rows[i], envs[i])
    ensures var pass := PassRun(l, me, rows, envs, waitMs);
            && pass.threw && pass.handled <= i && pass.local.flight == Idle && Keyed(pass.local.queue)
            && forall j :: i <= j < |rows| && rows[j].id in l.queue ==>
                 rows[j].id in pass.local.queue && pass.local.queue[rows[j].id] == l.queue[rows[j].id]
    decreases |rows|
  {
    OtherRowsUntouched(l, me, rows[0], envs[0], waitMs);
    if i == 0 {
      RowClosed(l, me, rows[0], envs[0], waitMs);
    } else if RowOk(l.queue, rows[0], envs[0], waitMs) {
      var l' := RowRun(l, me, rows[0], envs[0], waitMs);
      assert forall e :: e in envs[1..] ==> e in envs;
      assert forall j :: 0 < j < |rows| ==> rows[1..][j - 1] == rows[j];
      NamelessBatchThrows(l', me, rows[1..], envs[1..], waitMs, i - 1);
    }
  }

  /** The batch handed over again and again, each time in another environment. */
  ghost function Retries(l: Local, me: DeviceId, rows: seq<Attempt>, tries: seq<seq<RowEnv>>, waitMs: int): Local
    requires forall envs :: envs in tries ==> |rows| == |envs| && forall e :: e in envs ==> Advancing(e.clock)
    decreases |tries|
  {
    if tries == [] then l else Retries(PassRun(l, me, rows, tries[0], waitMs).local, me, rows, tries[1..], waitMs)
  }

  /** However often the batch is retried, that row and the rows behind it never move. */
  lemma {:induction false} NamelessBatchNeverEnds(l: Local, me: DeviceId, rows: seq<Attempt>, tries: seq<seq<RowEnv>>,
                                                  waitMs: int, i: nat)
    requires l.flight == Idle && Keyed(l.queue)
    requires forall envs :: envs in tries ==> |rows| == |envs| && forall e :: e in envs ==> Advancing(e.clock)
    requires forall j, k :: 0 <= j < k < |rows| ==> rows[j].id != rows[k].id
    requires i < |rows| && forall envs :: envs in tries ==> Poisons(l.queue, rows[i], envs[i])
    ensures var l' := Retries(l, me, rows, tries, waitMs);
            forall j :: i <= j < |rows| && rows[j].id in l.queue ==>
              rows[j].id in l'.queue && l'.queue[rows[j].id] == l.queue[rows[j].id]
    decreases |tries|
  {
    if tries != [] {
      assert tries[0] in tries && forall envs :: envs in tries[1..] ==> envs in tries;
      NamelessBatchThrows(l, me, rows, tries[0], waitMs, i);
      NamelessBatchNeverEnds(PassRun(l, me, rows, tries[0], waitMs).local, me, rows, tries[1..], waitMs, i);
    }
  }
}
