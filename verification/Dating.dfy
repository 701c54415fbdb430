/**
 * When a denial stems from the last failure: in every run without a reset of the failures, since a denial is
 * made with the count and the clock of the failure, and given up or replaced as a whole.
 */
module Dating {
  import opened Basics
  import opened Fsm
  import opened Connection
  import opened Scheduler
  import opened Turns
  import opened Slots
  import opened SafeTurns
  import opened Shutdown
  import opened Failures
  import opened Denials

  ghost predicate DatedFor(w: World, id: PeerId, t: int) {
    id in w.table && w.table[id] < |w.queues| ==> Dated(w.queues[w.table[id]], w.cfg, t)
  }

  /** The queue of the peer is not denied afterwards, or has the same denial and failures. */
  ghost predicate Milder(w: World, m: World, id: PeerId) {
    && m.cfg == w.cfg && |m.conns| >= |w.conns|
    && (id in m.table && m.table[id] < |m.queues| ==>
          || m.queues[m.table[id]].denial == NotDenied
          || (id in w.table && w.table[id] < |w.queues| && SameFailures(w.queues[w.table[id]], m.queues[m.table[id]])))
  }

  predicate SameFailures(d: DialQueue, e: DialQueue) { e.denial == d.denial && e.denials == d.denials }

  /** The clock of the turn starts at `since`. */
  ghost predicate Starts(w: World, id: PeerId, since: int, env: Env) {
    Grows(w.cfg) && Ticks(env) && DatedFor(w, id, since) && since <= env.now(0)
  }

  lemma MilderDated(w: World, m: World, id: PeerId, since: int, env: Env)
    requires Grows(w.cfg) && Ticks(env) && DatedFor(w, id, since) && since <= env.now(|w.conns|) && Milder(w, m, id)
    ensures DatedFor(m, id, since) && DatedFor(m, id, env.now(|m.conns|)) && since <= env.now(|m.conns|)
  {
    if id in m.table && m.table[id] < |m.queues| && m.queues[m.table[id]].denial != NotDenied {
      SameLasts(w.queues[w.table[id]], m.queues[m.table[id]], w.cfg, since, since);
      SameLasts(w.queues[w.table[id]], m.queues[m.table[id]], w.cfg, since, env.now(|m.conns|));
    }
  }

  lemma ExecDated(w: World, t: Task, env: Env, id: PeerId, since: int)
    requires Wf(w) && TaskOk(w, t) && DatedFor(w, id, since) && Grows(w.cfg) && Ticks(env) && since <= Clock(w, t, env)
    ensures var r := Exec(w, t, env); DatedFor(r, id, env.now(|r.conns|))
  {
    if id in w.table { ExecLasts(w, t, env, w.table[id], since); }
  }

  /** A cascade that starts after the failures have become milder at most. */
  lemma ThenDated(w: World, m: World, t: Task, env: Env, id: PeerId, since: int)
    requires Starts(w, id, since, env) && Milder(w, m, id) && Wf(m) && TaskOk(m, t)
    ensures var r := Exec(m, t, env); DatedFor(r, id, env.now(|r.conns|))
  {
    MilderDated(w, m, id, since, env);
    ExecDated(m, t, env, id, since);
  }

  lemma SetQueueMilder(w: World, m: World, q: nat, d: DialQueue, id: PeerId)
    requires Milder(w, m, id) && q < |m.queues| && (d.denial == NotDenied || SameFailures(m.queues[q], d))
    ensures Milder(w, SetQueue(m, q, d), id)
  {
  }

  lemma OfferMilder(w: World, m: World, q: nat, req: Request, now: int, id: PeerId)
    requires Milder(w, m, id) && q < |m.queues|
    ensures Milder(w, Offer(m, q, req, now), id)
  {
    var (d, allowed) := IsDialAllowed(m.queues[q], now);
    if allowed { SetQueueMilder(w, m, q, d.(pending := d.pending + [req]), id); }
  }

  lemma AddDated(w: World, x: PeerId, req: Request, priority: int, connected: bool, t1: int, t2: int, env: Env,
                 id: PeerId, since: int)
    requires Wf(w) && Starts(w, id, since, env)
    ensures var r := Add(w, x, req, priority, connected, t1, t2, env); DatedFor(r, id, env.now(|r.conns|))
  {
    var w0 := GetQueue(w, x);
    GetQueueWf(w, x);
    var q := w0.table[x];
    assert Milder(w, w0, id);
    if ColdRefused(w0, x, priority) {
      MilderDated(w, w0, id, since, env);
    } else {
      var w1 := Offer(w0, q, req, t1);
      OfferWf(w0, q, req, t1);
      OfferMilder(w, w0, q, req, t1, id);
      if connected {
        ThenDated(w, w1, TStart(q), env, id, since);
      } else {
        PlaceDated(w, w1, q, x, priority, t2, env, id, since);
      }
    }
  }

  lemma PlaceDated(w: World, m: World, q: nat, x: PeerId, priority: int, now: int, env: Env, id: PeerId, since: int)
    requires Starts(w, id, since, env) && Milder(w, m, id) && Wf(m) && q < |m.queues|
    ensures var r := Place(m, q, x, priority, now, env); DatedFor(r, id, env.now(|r.conns|))
  {
    var (d, allowed) := IsDialAllowed(m.queues[q], now);
    if allowed {
      var w1 := SetQueue(m, q, d);
      SetQueueWf(m, q, d);
      SetQueueMilder(w, m, q, d, id);
      EnqueueWf(w1, x, priority);
      ThenDated(w, if d.running then w1 else Enqueue(w1, x, priority), TRun, env, id, since);
    } else {
      MilderDated(w, m, id, since, env);
    }
  }

  lemma {:induction false} CleanDated(w: World, order: seq<PeerId>, connected: PeerId -> bool, env: Env, id: PeerId,
                                      since: int)
    requires Wf(w) && DatedFor(w, id, since) && Grows(w.cfg) && Ticks(env) && since <= env.now(|w.conns|)
    ensures var r := Clean(w, order, connected, env); DatedFor(r, id, env.now(|r.conns|))
    decreases |order|
  {
    if order == [] {
      MilderDated(w, w, id, since, env);
    } else {
      var x := order[0];
      if x in w.table && Stale(w.queues[w.table[x]], connected(x)) {
        ExecDated(w, TAbort(w.table[x]), env, id, since);
        var m := Discard(w, x, env);
        CleanDated(m, order[1..], connected, env, id, env.now(|m.conns|));
      } else {
        CleanDated(w, order[1..], connected, env, id, since);
      }
    }
  }

  lemma ClearMilder(w: World, m: World, x: PeerId, id: PeerId)
    requires Wf(m) && Milder(w, m, id)
    ensures Milder(w, ClearDenylist(m, x), id)
  {
    GetQueueWf(m, x);
    assert Milder(w, GetQueue(m, x), id);
    SetQueueMilder(w, GetQueue(m, x), GetQueue(m, x).table[x],
                   GetQueue(m, x).queues[GetQueue(m, x).table[x]].(denial := NotDenied, denials := 0), id);
  }

  /** The listeners of a new state reset the failures of a queue only as the connection opens. */
  lemma AnnouncedMilder(w: World, c: nat, d: Conn, id: PeerId)
    requires Wf(w) && c < |w.conns| && d.owner == w.conns[c].owner && d.peer == w.conns[c].peer
    requires d.state == Connected ==> d.peer != id
    ensures Milder(w, Announced(w, c, d), id)
  {
    StoreWf(w, c, d);
    var w1 := Store(w, c, d);
    var w2 := if d.state == Muxed then ClearDenylist(w1, d.peer) else w1;
    assert Milder(w, w1, id);
    if d.state == Muxed { ClearMilder(w, w1, d.peer, id); }
    if (d.state == Muxed || d.state == Connected) && d.owner.Some? && d.dial.Some? { GreetMilder(w, w2, c, id); }
  }

  lemma GreetMilder(w: World, m: World, c: nat, id: PeerId)
    requires Wf(m) && Milder(w, m, id) && c < |m.conns| && m.conns[c].owner.Some? && m.conns[c].dial.Some?
    requires m.conns[c].peer != id || DenialOf(m, id) == NotDenied
    ensures Milder(w, Greet(m, c), id)
  {
    assert OwnerOk(m, c);
  }

  lemma AdvanceDated(w: World, c: nat, d: Conn, env: Env, id: PeerId, since: int)
    requires Wf(w) && c < |w.conns| && d.owner == w.conns[c].owner && d.peer == w.conns[c].peer
    requires Starts(w, id, since, env) && (d.state == Connected ==> d.peer != id)
    ensures var r := Advance(w, c, d, env); DatedFor(r, id, env.now(|r.conns|))
  {
    var m := Announced(w, c, d);
    AnnouncedMilder(w, c, d, id);
    assert OwnerOk(w, c);
    match Wakes(d)
    case None => MilderDated(w, m, id, since, env);
    case Some(t) => ThenDated(w, m, t, env, id, since);
  }

  lemma CloseWithDated(w: World, c: nat, err: bool, o: Option<Op>, env: Env, id: PeerId, since: int)
    requires Wf(w) && c < |w.conns| && DatedFor(w, id, since) && Grows(w.cfg) && Ticks(env)
    requires since <= env.now(|w.conns|) && (err ==> since <= env.now(c))
    ensures var r := CloseWith(w, c, err, o, env); DatedFor(r, id, env.now(|r.conns|))
  {
    if w.conns[c].state == Disconnecting {
      MilderDated(w, CloseWith(w, c, err, o, env), id, since, env);
    } else {
      ExecDated(w, if err then TFail(c, o) else TClose(c, o), env, id, since);
    }
  }

  lemma {:induction false} CloseEachDated(w: World, list: seq<nat>, env: Env, id: PeerId, since: int)
    requires Wf(w) && (forall i :: 0 <= i < |list| ==> list[i] < |w.conns|)
    requires DatedFor(w, id, since) && Grows(w.cfg) && Ticks(env) && since <= env.now(|w.conns|)
    ensures var r := CloseEach(w, list, env); DatedFor(r, id, env.now(|r.conns|))
    decreases |list|
  {
    if list == [] {
      MilderDated(w, w, id, since, env);
    } else {
      CloseWithGrows(w, list[0], false, None, env);
      CloseWithDated(w, list[0], false, None, env, id, since);
      var m := CloseWith(w, list[0], false, None, env);
      CloseEachDated(m, list[1..], env, id, env.now(|m.conns|));
    }
  }

  lemma CompleteDated(w: World, c: nat, o: Op, ok: bool, env: Env, id: PeerId, since: int)
    requires Safe(w, None) && c < |w.conns| && o in w.conns[c].ops && Starts(w, id, since, env)
    requires !Resets(w, CompleteTurn(c, o, ok), env, id)
    ensures var r := Complete(w, c, o, ok, env); DatedFor(r, id, env.now(|r.conns|))
  {
    var k := w.conns[c];
    assert ConnOk(k);
    if Reports(o) && (ok || o == EndOp) {
      OnlyMuxOpens(k, o, env.setup);
      AdvanceDated(w, c, Fire(Delivered(k, o, env.setup), Done, env.setup).value, env, id, since);
    } else if o == MuxOp {
      StopDated(w, c, env, id, since);
    } else if o == IdentifyOp && ok {
      MilderDated(w, Complete(w, c, o, ok, env), id, since, env);
    } else {
      CloseWithDated(w, c, o != MuxerCloseOp, Some(o), env, id, since);
    }
  }

  lemma StopDated(w: World, c: nat, env: Env, id: PeerId, since: int)
    requires Safe(w, None) && c < |w.conns| && MuxOp in w.conns[c].ops && Starts(w, id, since, env)
    requires !Resets(w, CompleteTurn(c, MuxOp, false), env, id)
    ensures var r := Complete(w, c, MuxOp, false, env); DatedFor(r, id, env.now(|r.conns|))
  {
    var k := w.conns[c];
    assert ConnOk(k);
    UpgradeStopped(k, env.setup);
    if k.state == Upgrading {
      AdvanceDated(w, c, Fire(Without(k, Some(MuxOp)), Fsm.Stop, env.setup).value, env, id, since);
    } else {
      OpsKeep(w, c, Some(MuxOp));
      ThenDated(w, Forgetting(w, c, MuxOp), TError(c), env, id, since);
    }
  }

  /** Every turn that does not reset the failures of the peer's queue leaves its denial dated. */
  lemma TurnDated(w: World, t: Turn, env: Env, id: PeerId, since: int)
    requires Safe(w, None) && CanTake(w, t) && !Resets(w, t, env, id) && Starts(w, id, since, env)
    ensures var r := Take(w, t, env); DatedFor(r, id, env.now(|r.conns|))
  {
    match t
    case DialTurn(x, req, priority, connected, t1, t2) =>
      AddDated(w, x, req, priority, connected, t1, t2, env, id, since);
    case CleanTurn(order, isConnected) => CleanDated(w, order, isConnected, env, id, since);
    case StopTurn(order) => StopDrains(w, order, env);
    case StartTurn => MilderDated(w, w.(running := true), id, since, env);
    case ClearTurn(x) =>
      ClearMilder(w, w, x, id);
      MilderDated(w, ClearDenylist(w, x), id, since, env);
    case AcceptTurn(x) => AcceptDated(w, x, id, since, env);
    case CompleteTurn(c, op, ok) => CompleteDated(w, c, op, ok, env, id, since);
    case CloseTurn(c, err) => CloseWithDated(w, c, err, None, env, id, since);
    case HangUpTurn(x) =>
      var list := OfPeer(w.tracked, w.conns, x);
      forall i | 0 <= i < |list| ensures list[i] < |w.conns| { assert list[i] in w.tracked; }
      CloseEachDated(w, list, env, id, since);
  }

  lemma AcceptDated(w: World, x: PeerId, id: PeerId, since: int, env: Env)
    requires Wf(w) && Starts(w, id, since, env)
    ensures var r := Accept(w, x); DatedFor(r, id, env.now(|r.conns|))
  {
    AcceptWf(w, x);
    var m := w.(conns := w.conns + [Inbound(x)], tracked := w.tracked + [|w.conns|]);
    assert Milder(w, m, id);
    ClearMilder(w, m, x, id);
    MilderDated(w, Accept(w, x), id, since, env);
  }
}
