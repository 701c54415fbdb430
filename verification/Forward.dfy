/** Connections only move forward: a trail only grows, and a closing connection never comes back. */
module Forward {
  import opened Basics
  import opened Fsm
  import opened Connection
  import opened Scheduler
  import opened Turns
  import opened Slots
  import opened SafeTurns
  import opened Shutdown

  ghost predicate Ahead(c: Conn, d: Conn) {
    && d.peer == c.peer && d.owner == c.owner && d.dial == c.dial
    && c.trail <= d.trail
    && (Closing(c.state) ==> Closing(d.state))
    && (c.state == Disconnected ==> d.state == Disconnected)
  }

  ghost predicate Onward(w: World, r: World) {
    |w.conns| <= |r.conns| && forall c :: 0 <= c < |w.conns| ==> Ahead(w.conns[c], r.conns[c])
  }

  lemma OnwardTwice(w: World, m: World, r: World)
    requires Onward(w, m) && Onward(m, r)
    ensures Onward(w, r)
  {
    forall c | 0 <= c < |w.conns| ensures Ahead(w.conns[c], r.conns[c]) {
      assert Ahead(w.conns[c], m.conns[c]) && Ahead(m.conns[c], r.conns[c]);
    }
  }

  lemma MicroOnward(w: World, t: Task, env: Env)
    requires Ready(w, t) && !t.TFail?
    ensures Onward(w, Micro(w, t, env).0)
  {
    if t.TClose? { CloseOnward(w, t.c, t.op, env); } else { OthersOnward(w, t, env); }
  }

  lemma CloseOnward(w: World, c: nat, o: Option<Op>, env: Env)
    requires Ready(w, TClose(c, o))
    ensures Onward(w, CloseConn(w, c, o, env).0)
  {
    assert ConnOk(w.conns[c]);
    Disconnects(w.conns[c], o, env.setup);
  }

  lemma OthersOnward(w: World, t: Task, env: Env)
    requires Wf(w) && TaskOk(w, t) && !t.TFail? && !t.TClose?
    ensures Onward(w, Micro(w, t, env).0)
  {
    match t
    case TError(c) => ErrorOnward(w, c, env);
    case _ =>
  }

  lemma ErrorOnward(w: World, c: nat, env: Env)
    requires Wf(w) && c < |w.conns|
    ensures Onward(w, ReportError(w, c, env).0)
  {
    assert OwnerOk(w, c);
  }

  lemma {:induction false} ExecOnward(w: World, t: Task, env: Env)
    requires Ready(w, t)
    ensures Onward(w, Exec(w, t, env))
    decreases Backlog(w), Focus(w, t), Phase(t)
  {
    if t.TFail? {
      ExecOnward(w, TError(t.c), env);
      ExecKeeps(w, TError(t.c), env);
      ExecFrames(w, TError(t.c), env, t.c);
      var r := UnfoldFail(w, t.c, t.op, env);
      ExecOnward(r, TClose(t.c, t.op), env);
      OnwardTwice(w, r, Exec(r, TClose(t.c, t.op), env));
    } else {
      MicroKeeps(w, t, env);
      MicroOnward(w, t, env);
      var w1, next := Unfold(w, t, env);
      if next.Some? {
        ExecOnward(w1, next.value, env);
        OnwardTwice(w, w1, Exec(w1, next.value, env));
      }
    }
  }

  lemma SameOnward(w: World, m: World, t: Task, env: Env)
    requires Ready(m, t) && Onward(w, m)
    ensures Onward(w, Exec(m, t, env))
  {
    ExecOnward(m, t, env);
    OnwardTwice(w, m, Exec(m, t, env));
  }

  lemma AddOnward(w: World, id: PeerId, req: Request, priority: int, connected: bool, t1: int, t2: int, env: Env)
    requires Safe(w, None) && t1 <= t2
    ensures Onward(w, Add(w, id, req, priority, connected, t1, t2, env))
  {
    var m, t := AddParts(w, id, req, priority, connected, t1, t2, env);
    assert Onward(w, m);
    if t.Some? { SameOnward(w, m, t.value, env); }
  }

  lemma AdvanceOnward(w: World, c: nat, d: Conn, env: Env)
    requires Safe(w, None) && c < |w.conns|
    requires ConnOk(Disarm(d)) && Further(w.conns[c], d)
    requires w.conns[c].state == Disconnected ==> d.state == Disconnected
    requires Closing(w.conns[c].state) ==> Closing(d.state)
    ensures Onward(w, Advance(w, c, d, env))
  {
    var w3 := AdvanceParts(w, c, d, env);
    AnnouncedOnward(w, c, d);
    if Wakes(d).Some? { SameOnward(w, w3, Wakes(d).value, env); }
  }

  lemma AnnouncedOnward(w: World, c: nat, d: Conn)
    requires Wf(w) && c < |w.conns| && Further(w.conns[c], d)
    requires w.conns[c].state == Disconnected ==> d.state == Disconnected
    requires Closing(w.conns[c].state) ==> Closing(d.state)
    ensures Onward(w, Announced(w, c, d))
  {
    assert Announced(w, c, d).conns == w.conns[c := Disarm(d)];
  }

  lemma CloseWithOnward(w: World, c: nat, err: bool, o: Option<Op>, env: Env)
    requires Safe(w, None) && c < |w.conns| && (o.Some? ==> o.value != EndOp)
    ensures Onward(w, CloseWith(w, c, err, o, env))
  {
    if w.conns[c].state != Disconnecting {
      if err { ExecOnward(w, TFail(c, o), env); } else { ExecOnward(w, TClose(c, o), env); }
    }
  }

  lemma ForgettingOnward(w: World, c: nat, o: Op)
    requires c < |w.conns|
    ensures Onward(w, Forgetting(w, c, o))
  {
  }

  lemma CompleteOnward(w: World, c: nat, o: Op, ok: bool, env: Env)
    requires Safe(w, None) && c < |w.conns| && o in w.conns[c].ops
    ensures Onward(w, Complete(w, c, o, ok, env))
  {
    var e := CompleteEnds(w, c, o, ok, env);
    match e
    case Moved(d) => AdvanceOnward(w, c, d, env);
    case Reported(m) =>
      ForgettingOnward(w, c, o);
      SameOnward(w, m, TError(c), env);
    case Noted(m) => ForgettingOnward(w, c, o);
    case Shut(err) => CloseWithOnward(w, c, err, Some(o), env);
  }

  lemma {:induction false} CleanOnward(w: World, order: seq<PeerId>, connected: PeerId -> bool, env: Env)
    requires Safe(w, None)
    ensures Onward(w, Clean(w, order, connected, env))
    decreases |order|
  {
    if order != [] {
      var id := order[0];
      if id in w.table && Stale(w.queues[w.table[id]], connected(id)) {
        DiscardKeeps(w, id, env);
        ExecOnward(w, TAbort(w.table[id]), env);
        CleanOnward(Discard(w, id, env), order[1..], connected, env);
        OnwardTwice(w, Discard(w, id, env), Clean(w, order, connected, env));
      } else {
        CleanOnward(w, order[1..], connected, env);
      }
    }
  }

  lemma TaskCloses(r: World, c: nat, env: Env)
    requires Ready(r, TClose(c, None))
    ensures Closing(Exec(r, TClose(c, None), env).conns[c].state)
  {
    MicroKeeps(r, TClose(c, None), env);
    assert ConnOk(r.conns[c]);
    Disconnects(r.conns[c], None, env.setup);
    var r1, next := Unfold(r, TClose(c, None), env);
    assert Closing(r1.conns[c].state);
    if next.Some? {
      ExecOnward(r1, next.value, env);
      assert Ahead(r1.conns[c], Exec(r1, next.value, env).conns[c]);
    }
  }

  /** Closing one connection puts it on its way out at once, whatever state it is in. */
  lemma CloseCloses(w: World, c: nat, err: bool, env: Env)
    requires Safe(w, None) && c < |w.conns|
    ensures Closing(CloseWith(w, c, err, None, env).conns[c].state)
  {
    if w.conns[c].state != Disconnecting {
      if err {
        ExecKeeps(w, TError(c), env);
        ExecFrames(w, TError(c), env, c);
        var r := UnfoldFail(w, c, None, env);
        TaskCloses(r, c, env);
      } else {
        TaskCloses(w, c, env);
      }
    }
  }

  /** Closing a list of connections closes every one of them, although closing edits other lists. */
  lemma {:induction false} CloseEachCloses(w: World, list: seq<nat>, env: Env)
    requires Safe(w, None) && forall i :: 0 <= i < |list| ==> list[i] < |w.conns|
    ensures var r := CloseEach(w, list, env);
            Onward(w, r) && forall i :: 0 <= i < |list| ==> Closing(r.conns[list[i]].state)
    decreases |list|
  {
    if list != [] {
      CloseWithKeeps(w, list[0], false, None, env);
      CloseWithGrows(w, list[0], false, None, env);
      CloseWithOnward(w, list[0], false, None, env);
      CloseCloses(w, list[0], false, env);
      var m := CloseWith(w, list[0], false, None, env);
      CloseEachCloses(m, list[1..], env);
      var r := CloseEach(m, list[1..], env);
      OnwardTwice(w, m, r);
      forall i | 0 <= i < |list| ensures Closing(r.conns[list[i]].state) {
        if i == 0 { assert Ahead(m.conns[list[0]], r.conns[list[0]]); } else { assert list[i] == list[1..][i - 1]; }
      }
    }
  }

  /** Every turn moves every connection forward or leaves it where it is. */
  lemma TurnOnward(w: World, t: Turn, env: Env)
    requires Safe(w, None) && CanTake(w, t)
    ensures Onward(w, Take(w, t, env))
  {
    match t
    case DialTurn(id, req, priority, connected, t1, t2) => AddOnward(w, id, req, priority, connected, t1, t2, env);
    case CleanTurn(order, isConnected) => CleanOnward(w, order, isConnected, env);
    case StopTurn(order) => StopDrains(w, order, env);
    case StartTurn =>
    case ClearTurn(id) =>
    case AcceptTurn(id) =>
    case CompleteTurn(c, op, ok) => CompleteOnward(w, c, op, ok, env);
    case CloseTurn(c, err) => CloseWithOnward(w, c, err, None, env);
    case HangUpTurn(id) =>
      var list := OfPeer(w.tracked, w.conns, id);
      forall i | 0 <= i < |list| ensures list[i] < |w.conns| { assert list[i] in w.tracked; }
      CloseEachCloses(w, list, env);
  }
}
