/** Every request handed to the manager is noted once, and has exactly one fate at any time. */
module Fates {
  import opened Basics
  import opened Fsm
  import opened Connection
  import opened Scheduler
  import opened Turns
  import opened Slots
  import opened SafeTurns
  import opened Shutdown
  import opened Ledger

  /** Handshakes are only ever made on a connection that is muxed or connected. */
  predicate Proper(e: Entry) { e.Shaken? ==> e.state == Muxed || e.state == Connected }

  /** The log grew, with proper handshakes, and not by the arrival of a request. */
  ghost predicate Says(w: World, r: World) {
    w.log <= r.log && forall i :: |w.log| <= i < |r.log| ==> !IsArrived(r.log[i]) && Proper(r.log[i])
  }

  lemma SaysTwice(w: World, m: World, r: World)
    requires Says(w, m) && Says(m, r)
    ensures Says(w, r)
  {
    forall i | |w.log| <= i < |r.log| ensures !IsArrived(r.log[i]) && Proper(r.log[i]) {
      if i < |m.log| { assert r.log[i] == m.log[i]; }
    }
  }

  lemma MicroSays(w: World, t: Task, env: Env)
    requires Wf(w) && TaskOk(w, t) && !t.TFail?
    ensures Says(w, Micro(w, t, env).0)
  {
    match t
    case TError(c) => assert OwnerOk(w, c);
    case _ =>
  }

  lemma {:induction false} ExecSays(w: World, t: Task, env: Env)
    requires Wf(w) && TaskOk(w, t)
    ensures Says(w, Exec(w, t, env))
    decreases Backlog(w), Focus(w, t), Phase(t)
  {
    if t.TFail? {
      ExecSays(w, TError(t.c), env);
      var r := UnfoldFail(w, t.c, t.op, env);
      ExecSays(r, TClose(t.c, t.op), env);
      SaysTwice(w, r, Exec(r, TClose(t.c, t.op), env));
    } else {
      MicroSays(w, t, env);
      var w1, next := Unfold(w, t, env);
      if next.Some? {
        ExecSays(w1, next.value, env);
        SaysTwice(w, w1, Exec(w1, next.value, env));
      }
    }
  }

  lemma SaysNothing(w: World, r: World, id: PeerId)
    requires Says(w, r)
    ensures Arriveds(r.log, id) == Arriveds(w.log, id)
  {
    var more := r.log[|w.log|..];
    assert r.log == w.log + more;
    SelectConcat(w.log, more, id, IsArrived);
    SelectNone(more, id, IsArrived);
  }

  /** The one arrival a call of `add` notes, and the state right after it. */
  lemma AddNotes(w: World, id: PeerId, req: Request, priority: int, connected: bool, t1: int, t2: int, env: Env)
    returns (e: Entry, m: World)
    requires Wf(w)
    ensures IsArrived(e) && e.id == id && e.req == req && m.log == w.log + [e]
    ensures Says(m, Add(w, id, req, priority, connected, t1, t2, env))
  {
    var w0 := GetQueue(w, id);
    GetQueueWf(w, id);
    var q := w0.table[id];
    if ColdRefused(w0, id, priority) {
      e, m := Refused(id, req, DialAborted), Add(w, id, req, priority, connected, t1, t2, env);
    } else {
      m := Offer(w0, q, req, t1);
      OfferWf(w0, q, req, t1);
      e := if IsDialAllowed(w0.queues[q], t1).1 then Accepted(id, req) else Refused(id, req, DialDenied);
      if connected {
        ExecSays(m, TStart(q), env);
      } else {
        PlaceSays(m, q, id, priority, t2, env);
      }
    }
  }

  lemma PlaceSays(w: World, q: nat, id: PeerId, priority: int, now: int, env: Env)
    requires Wf(w) && q < |w.queues|
    ensures Says(w, Place(w, q, id, priority, now, env))
  {
    var (d, allowed) := IsDialAllowed(w.queues[q], now);
    if allowed {
      var w1 := SetQueue(w, q, d);
      SetQueueWf(w, q, d);
      EnqueueWf(w1, id, priority);
      ExecSays(if d.running then w1 else Enqueue(w1, id, priority), TRun, env);
    }
  }

  /** A handshake is all that the listeners of an open connection say. */
  lemma GreetSays(w: World, c: nat)
    requires Wf(w) && c < |w.conns| && w.conns[c].owner.Some? && w.conns[c].dial.Some?
    requires w.conns[c].state == Muxed || w.conns[c].state == Connected
    ensures Says(w, Greet(w, c))
  {
    assert OwnerOk(w, c);
  }

  /** The listeners of a new state say nothing but a handshake, on a connection that has opened. */
  lemma AnnouncedSays(w: World, c: nat, d: Conn)
    requires Wf(w) && c < |w.conns| && d.owner == w.conns[c].owner && d.peer == w.conns[c].peer
    ensures Says(w, Announced(w, c, d))
  {
    StoreWf(w, c, d);
    var w1 := Store(w, c, d);
    var w2 := if d.state == Muxed then ClearDenylist(w1, d.peer) else w1;
    assert w2.log == w.log && c < |w2.conns| && w2.conns[c] == Disarm(d);
    if (d.state == Muxed || d.state == Connected) && d.owner.Some? && d.dial.Some? { GreetSays(w2, c); }
  }

  lemma AdvanceSays(w: World, c: nat, d: Conn, env: Env)
    requires Wf(w) && c < |w.conns| && d.owner == w.conns[c].owner && d.peer == w.conns[c].peer
    ensures Says(w, Advance(w, c, d, env))
  {
    AnnouncedSays(w, c, d);
    assert OwnerOk(w, c);
    var w3 := Announced(w, c, d);
    if Wakes(d).Some? {
      ExecSays(w3, Wakes(d).value, env);
      SaysTwice(w, w3, Exec(w3, Wakes(d).value, env));
    }
  }

  lemma FiredSays(w: World, c: nat, k: Conn, e: Fsm.Event, env: Env)
    requires Wf(w) && c < |w.conns| && k.owner == w.conns[c].owner && k.peer == w.conns[c].peer
    ensures Says(w, Fired(w, c, k, e, env))
  {
    match Fire(k, e, env.setup)
    case None =>
      SetConnWf(w, c, k);
      ExecSays(w.(conns := w.conns[c := k]), TError(c), env);
    case Some(d) =>
      FireKeeps(k, e, env.setup);
      AdvanceSays(w, c, d, env);
  }

  lemma CloseWithSays(w: World, c: nat, err: bool, o: Option<Op>, env: Env)
    requires Wf(w) && c < |w.conns|
    ensures Says(w, CloseWith(w, c, err, o, env))
  {
    if w.conns[c].state != Disconnecting {
      if err { ExecSays(w, TFail(c, o), env); } else { ExecSays(w, TClose(c, o), env); }
    }
  }

  lemma CompleteSays(w: World, c: nat, o: Op, ok: bool, env: Env)
    requires Wf(w) && c < |w.conns|
    ensures Says(w, Complete(w, c, o, ok, env))
  {
    var k := w.conns[c];
    if o == MuxerCloseOp || (o == IdentifyOp && !ok) { CloseWithSays(w, c, o == IdentifyOp, Some(o), env); }
    else if o == MuxOp && !ok { FiredSays(w, c, Without(k, Some(o)), Fsm.Stop, env); }
    else if o == EndOp || (ok && o != IdentifyOp) { FiredSays(w, c, Delivered(k, o, env.setup), Done, env); }
    else if o != IdentifyOp { CloseWithSays(w, c, true, Some(o), env); }
  }

  lemma DiscardSays(w: World, id: PeerId, env: Env)
    requires Wf(w) && id in w.table
    ensures Says(w, Discard(w, id, env))
  {
    ExecSays(w, TAbort(w.table[id]), env);
  }

  lemma {:induction false} CleanSays(w: World, order: seq<PeerId>, connected: PeerId -> bool, env: Env)
    requires Wf(w)
    ensures Says(w, Clean(w, order, connected, env))
    decreases |order|
  {
    if order != [] {
      var id := order[0];
      if id in w.table && Stale(w.queues[w.table[id]], connected(id)) {
        DiscardSays(w, id, env);
        CleanSays(Discard(w, id, env), order[1..], connected, env);
        SaysTwice(w, Discard(w, id, env), Clean(w, order, connected, env));
      } else {
        CleanSays(w, order[1..], connected, env);
      }
    }
  }

  lemma {:induction false} DiscardAllSays(w: World, order: seq<PeerId>, env: Env)
    requires Wf(w)
    ensures Says(w, DiscardAll(w, order, env))
    decreases |order|
  {
    if order != [] {
      if order[0] in w.table {
        DiscardSays(w, order[0], env);
        DiscardAllSays(Discard(w, order[0], env), order[1..], env);
        SaysTwice(w, Discard(w, order[0], env), DiscardAll(w, order, env));
      } else {
        DiscardAllSays(w, order[1..], env);
      }
    }
  }

  lemma {:induction false} CloseEachSays(w: World, list: seq<nat>, env: Env)
    requires Wf(w) && forall i :: 0 <= i < |list| ==> list[i] < |w.conns|
    ensures Says(w, CloseEach(w, list, env))
    decreases |list|
  {
    if list != [] {
      CloseWithSays(w, list[0], false, None, env);
      CloseWithGrows(w, list[0], false, None, env);
      var m := CloseWith(w, list[0], false, None, env);
      CloseEachSays(m, list[1..], env);
      SaysTwice(w, m, CloseEach(m, list[1..], env));
    }
  }

  /** The requests a turn hands to the manager for a peer. */
  function Asked(t: Turn, id: PeerId): seq<Request> {
    if t.DialTurn? && t.id == id then [t.req] else []
  }

  /** What a turn adds to the log besides the request it hands over. */
  lemma TurnSays(w: World, t: Turn, env: Env) returns (m: World)
    requires Wf(w) && CanTake(w, t)
    ensures Says(m, Take(w, t, env))
    ensures if t.DialTurn? then |m.log| == |w.log| + 1 && w.log == m.log[..|w.log|] && IsArrived(m.log[|w.log|])
                                && m.log[|w.log|].id == t.id && m.log[|w.log|].req == t.req
            else m.log == w.log
  {
    m := w;
    match t
    case DialTurn(x, req, priority, connected, t1, t2) =>
      AddWf(w, x, req, priority, connected, t1, t2, env);
      var e;
      e, m := AddNotes(w, x, req, priority, connected, t1, t2, env);
    case CleanTurn(order, isConnected) => CleanSays(w, order, isConnected, env);
    case StopTurn(order) =>
      m := w.(running := false, waiting := [], cold := []);
      SameWf(w, m);
      DiscardAllSays(m, order, env);
    case StartTurn =>
    case ClearTurn(x) =>
    case AcceptTurn(x) =>
    case CompleteTurn(c, op, ok) => CompleteSays(w, c, op, ok, env);
    case CloseTurn(c, err) => CloseWithSays(w, c, err, None, env);
    case HangUpTurn(x) =>
      var list := OfPeer(w.tracked, w.conns, x);
      forall i | 0 <= i < |list| ensures list[i] < |w.conns| { assert list[i] in w.tracked; }
      CloseEachSays(w, list, env);
  }

  /** A dial notes its own request, whatever else it sets off; no other turn notes any. */
  lemma TurnNotes(w: World, t: Turn, env: Env, id: PeerId)
    requires Wf(w) && CanTake(w, t)
    ensures Arriveds(Take(w, t, env).log, id) == Arriveds(w.log, id) + Asked(t, id)
  {
    var m := TurnSays(w, t, env);
    SaysNothing(m, Take(w, t, env), id);
    if t.DialTurn? {
      assert m.log == w.log + [m.log[|w.log|]];
      SelectOne(w.log, m.log[|w.log|], id, IsArrived);
    }
  }

  ghost predicate AllProper(log: seq<Entry>) { forall i :: 0 <= i < |log| ==> Proper(log[i]) }

  /** Every handshake of a turn is made in MUXED or CONNECTED. */
  lemma TurnShakes(w: World, t: Turn, env: Env)
    requires Wf(w) && CanTake(w, t) && AllProper(w.log)
    ensures AllProper(Take(w, t, env).log)
  {
    var m := TurnSays(w, t, env);
    var r := Take(w, t, env);
    forall i | 0 <= i < |r.log| ensures Proper(r.log[i]) {
      if i < |w.log| { assert r.log[i] == m.log[i] == w.log[i]; }
      else if i < |m.log| { assert r.log[i] == m.log[i]; }
    }
  }

  /** Two kinds of entries that exclude each other split what they select together. */
  lemma {:induction false} SelectSplit(log: seq<Entry>, id: PeerId,
                                       a: Entry -> bool, b: Entry -> bool, either: Entry -> bool)
    requires forall e: Entry :: either(e) <==> a(e) || b(e)
    requires forall e: Entry :: !(a(e) && b(e))
    ensures multiset(Select(log, id, either)) == multiset(Select(log, id, a)) + multiset(Select(log, id, b))
  {
    if log != [] { SelectSplit(log[..|log| - 1], id, a, b, either); }
  }

  /**
   * With the balance kept, every arrived request is in exactly one place, as often as it arrived:
   * refused, aborted, started, or pending in the peer's queue.
   */
  lemma OneFate(w: World, id: PeerId)
    requires Balanced(w)
    ensures multiset(Arriveds(w.log, id)) ==
            multiset(Select(w.log, id, IsRefused)) + multiset(Select(w.log, id, IsAborted))
            + multiset(Select(w.log, id, IsStarted)) + multiset(PendingOf(w, id))
  {
    SelectSplit(w.log, id, IsAccepted, IsRefused, IsArrived);
    SelectSplit(w.log, id, IsAborted, IsStarted, IsLeft);
    assert Accepteds(w.log, id) == Lefts(w.log, id) + PendingOf(w, id);
  }
}
