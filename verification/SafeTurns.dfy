/** Every turn, and so every run, keeps the invariant of Slots. */
module SafeTurns {
  import opened Basics
  import opened Fsm
  import opened Connection
  import opened Scheduler
  import opened Turns
  import opened Slots

  // ---------------------------------------------------------------- a discarded queue stays quiet

  /** A queue with nothing to do. */
  predicate Quiet(w: World, q: nat)
    requires q < |w.queues|
  {
    w.queues[q].pending == [] && !w.queues[q].running
  }

  /** A queue without requests that runs only because the task at hand is about to stop it. */
  predicate Quietens(w: World, t: Task, q: nat)
    requires q < |w.queues|
  {
    w.queues[q].pending == [] && (w.queues[q].running ==> t == TNext(q) || t == TStop(q))
  }

  lemma MicroQuiet(w: World, t: Task, env: Env, q: nat)
    requires Wf(w) && TaskOk(w, t) && !t.TFail? && q < |w.queues| && Quietens(w, t, q)
    ensures var m := Micro(w, t, env);
            |m.0.queues| == |w.queues| && if m.1.Some? then Quietens(m.0, m.1.value, q) else Quiet(m.0, q)
  {
    match t
    case TError(c) => assert OwnerOk(w, c);
    case _ =>
  }

  /** A queue without requests cannot be running when the cascade is over. */
  lemma {:induction false} ExecQuiet(w: World, t: Task, env: Env, q: nat)
    requires Wf(w) && TaskOk(w, t) && q < |w.queues| && Quietens(w, t, q)
    ensures Quiet(Exec(w, t, env), q)
    decreases Backlog(w), Focus(w, t), Phase(t)
  {
    if t.TFail? {
      ExecQuiet(w, TError(t.c), env, q);
      var r := UnfoldFail(w, t.c, t.op, env);
      ExecQuiet(r, TClose(t.c, t.op), env, q);
    } else {
      MicroQuiet(w, t, env, q);
      var w1, next := Unfold(w, t, env);
      if next.Some? { ExecQuiet(w1, next.value, env, q); }
    }
  }

  /** Aborting a queue leaves it without requests and stopped, whatever else the cascade starts. */
  lemma AbortQuietens(w: World, q: nat, env: Env)
    requires Wf(w) && q < |w.queues|
    ensures Quiet(Exec(w, TAbort(q), env), q)
  {
    var w1, next := Unfold(w, TAbort(q), env);
    ExecQuiet(w1, next.value, env, q);
  }

  // ---------------------------------------------------------------- the parts of a turn

  /** Adding an idle queue, or changing only what queues say about denials, changes nothing else. */
  lemma NewQueueKeeps(w: World, id: PeerId, hole: Option<nat>)
    requires Safe(w, hole)
    ensures Safe(GetQueue(w, id), hole)
  {
    var r := GetQueue(w, id);
    GetQueueWf(w, id);
    if id !in w.table {
      forall x | x in r.dialing
        ensures x in r.table && r.table[x] < |r.queues| && (r.queues[r.table[x]].running || hole == Some(r.table[x]))
      { assert x in w.dialing && x != id; }
      forall k | 0 <= k < |r.queues| && r.queues[k].running
        ensures Attached(r, k) && (hole == Some(k) || HasLive(r, k))
      {
        assert r.queues[k] == w.queues[k];
        assert Attached(w, k);
        if hole != Some(k) { LiveKept(w, r, k); }
      }
      forall k | 0 <= k < |r.queues| && r.queues[k].pending != []
        ensures Attached(r, k)
        ensures r.queues[k].running || r.queues[k].id in r.waiting || r.queues[k].id in r.cold || hole == Some(k)
      {
        assert r.queues[k] == w.queues[k];
        assert Attached(w, k);
      }
      forall c | 0 <= c < |r.conns|
        ensures ConnOk(r.conns[c]) && (c in r.tracked <==> r.conns[c].state != Disconnected) {
        assert ConnOk(w.conns[c]);
      }
    }
  }

  lemma DenialKeeps(w: World, q: nat, d: DialQueue, log: seq<Entry>, hole: Option<nat>)
    requires Safe(w, hole) && q < |w.queues|
    requires d == w.queues[q].(denial := d.denial, denials := d.denials)
    ensures Safe(SetQueue(w, q, d).(log := log), hole)
  {
    var r := SetQueue(w, q, d).(log := log);
    OwnersKept(w, r);
    forall k | 0 <= k < |r.queues| && r.queues[k].running
      ensures Attached(r, k) && (hole == Some(k) || HasLive(r, k))
    {
      assert w.queues[k].running;
      assert Attached(w, k);
      if hole != Some(k) { LiveKept(w, r, k); }
    }
    forall k | 0 <= k < |r.queues| && r.queues[k].pending != []
      ensures Attached(r, k)
      ensures r.queues[k].running || r.queues[k].id in r.waiting || r.queues[k].id in r.cold || hole == Some(k)
    {
      assert w.queues[k].pending != [];
      assert Attached(w, k);
    }
    forall c | 0 <= c < |r.conns| ensures ConnOk(r.conns[c]) && (c in r.tracked <==> r.conns[c].state != Disconnected) {
      assert ConnOk(w.conns[c]);
    }
  }

  lemma LogKeeps(w: World, log: seq<Entry>, hole: Option<nat>)
    requires Safe(w, hole)
    ensures Safe(w.(log := log), hole)
  {
    if |w.queues| > 0 {
      DenialKeeps(w, 0, w.queues[0], log, hole);
      assert SetQueue(w, 0, w.queues[0]) == w;
    } else {
      SameWf(w, w.(log := log));
    }
  }

  lemma ClearKeeps(w: World, id: PeerId, hole: Option<nat>)
    requires Safe(w, hole)
    ensures var r := ClearDenylist(w, id);
            && Safe(r, hole) && |r.queues| >= |w.queues| && r.conns == w.conns
            && forall k :: 0 <= k < |w.queues| ==> r.queues[k].running == w.queues[k].running
  {
    var w0 := GetQueue(w, id);
    NewQueueKeeps(w, id, hole);
    GetQueueWf(w, id);
    var q := w0.table[id];
    DenialKeeps(w0, q, w0.queues[q].(denial := NotDenied, denials := 0), w0.log, hole);
  }

  /** Deleting a queue that has nothing to do strands nothing. */
  lemma DropKeeps(w: World, id: PeerId)
    requires Safe(w, None) && id in w.table && Quiet(w, w.table[id])
    ensures Safe(Drop(w, id), None)
  {
    var r := Drop(w, id);
    DropWf(w, id);
    var q := w.table[id];
    assert id !in w.dialing;
    forall x | x in r.dialing
      ensures x in r.table && r.table[x] < |r.queues| && r.queues[r.table[x]].running
    { assert x in w.dialing && x != id; }
    forall k | 0 <= k < |r.queues| && r.queues[k].running
      ensures Attached(r, k) && HasLive(r, k)
    {
      assert Attached(w, k);
      LiveKept(w, r, k);
    }
    forall k | 0 <= k < |r.queues| && r.queues[k].pending != []
      ensures Attached(r, k)
      ensures r.queues[k].running || r.queues[k].id in r.waiting || r.queues[k].id in r.cold
    { assert Attached(w, k); }
    forall c | 0 <= c < |r.conns| ensures ConnOk(r.conns[c]) && (c in r.tracked <==> r.conns[c].state != Disconnected) {
      assert ConnOk(w.conns[c]);
    }
  }

  lemma DiscardKeeps(w: World, id: PeerId, env: Env)
    requires Safe(w, None) && id in w.table
    ensures Safe(Discard(w, id, env), None)
  {
    ExecKeeps(w, TAbort(w.table[id]), env);
    AbortQuietens(w, w.table[id], env);
    DropKeeps(Exec(w, TAbort(w.table[id]), env), id);
  }

  // ---------------------------------------------------------------- the manager's turns

  /** A request accepted by a queue that does not run leaves that queue to be placed. */
  lemma OfferKeeps(w: World, q: nat, req: Request, now: int)
    requires Safe(w, None) && q < |w.queues| && Attached(w, q)
    ensures var r := Offer(w, q, req, now);
            && Safe(r, if w.queues[q].running then None else Some(q))
            && r == w.(queues := r.queues, log := r.log) && |r.queues| == |w.queues|
            && r.queues[q].running == w.queues[q].running && r.queues[q].id == w.queues[q].id
            && (!IsDialAllowed(w.queues[q], now).1 ==> Safe(r, None) && r.queues == w.queues)
            && (IsDialAllowed(w.queues[q], now).1 ==> r.queues[q].denial == NotDenied)
  {
    var r := Offer(w, q, req, now);
    if IsDialAllowed(w.queues[q], now).1 {
      QueueChange(w, r, q, None, if w.queues[q].running then None else Some(q));
    } else {
      LogKeeps(w, r.log, None);
      HolesCover(r, q);
    }
  }

  /** An idle queue's id placed in a waiting set. */
  lemma EnqueueKeeps(w: World, q: nat, priority: int)
    requires Safe(w, Some(q)) && q < |w.queues| && Attached(w, q) && !w.queues[q].running
    requires w.queues[q].id !in w.dialing && !ColdRefused(w, w.queues[q].id, priority)
    ensures Safe(Enqueue(w, w.queues[q].id, priority), None)
  {
    var id := w.queues[q].id;
    var r := Enqueue(w, id, priority);
    EnqueueWf(w, id, priority);
    RemoveDistinct(w.cold, id);
    RemoveShortens(w.cold, id);
    assert SetsOk(r);
    EnqueueQueues(w, r, q);
    forall c | 0 <= c < |r.conns| ensures ConnOk(r.conns[c]) && (c in r.tracked <==> r.conns[c].state != Disconnected) {
      assert ConnOk(w.conns[c]);
    }
  }

  /** Nothing is missing once the id of the queue waits. */
  lemma EnqueueQueues(w: World, r: World, q: nat)
    requires TableOk(w) && DialingOk(w, Some(q)) && RunningOk(w, Some(q)) && PendingOk(w, Some(q))
    requires q < |w.queues| && !w.queues[q].running && w.queues[q].id !in w.dialing
    requires r.table == w.table && r.queues == w.queues && r.conns == w.conns && r.dialing == w.dialing
    requires forall id :: id in w.waiting || id in w.cold || id == w.queues[q].id ==> id in r.waiting || id in r.cold
    ensures DialingOk(r, None) && RunningOk(r, None) && PendingOk(r, None)
  {
    forall x | x in r.dialing
      ensures x in r.table && r.table[x] < |r.queues| && r.queues[r.table[x]].running
    { assert w.queues[w.table[x]].id == x; }
    forall k | 0 <= k < |r.queues| && r.queues[k].running
      ensures Attached(r, k) && HasLive(r, k)
    {
      assert Attached(w, k);
      LiveKept(w, r, k);
    }
    forall k | 0 <= k < |r.queues| && r.queues[k].pending != []
      ensures Attached(r, k)
      ensures r.queues[k].running || r.queues[k].id in r.waiting || r.queues[k].id in r.cold
    { assert Attached(w, k); }
  }

  lemma RemoveShortens<T>(s: seq<T>, x: T)
    ensures |Remove(s, x)| <= |s|
  {
  }

  lemma HoleIfIdle(w: World, q: nat)
    requires q < |w.queues| && Safe(w, if w.queues[q].running then None else Some(q)) && Attached(w, q)
    ensures Ready(w, TStart(q))
  {
  }

  /** The parts of the state that `add` itself leaves alone, before it starts anything. */
  ghost predicate Placed(w: World, m: World) {
    && m == w.(table := m.table, queues := m.queues, waiting := m.waiting, cold := m.cold, log := m.log)
    && w.waiting <= m.waiting
  }

  /** The cold ids stay, but for one that its priority promotes. */
  ghost predicate KeepsCold(w: World, m: World, id: PeerId, priority: int) {
    forall x :: x in w.cold && (x != id || priority > PRIORITY_HIGH) ==> x in m.cold
  }

  lemma EnqueueCold(w: World, id: PeerId, priority: int)
    requires Distinct(w.cold)
    ensures KeepsCold(w, Enqueue(w, id, priority), id, priority)
  {
    RemoveDistinct(w.cold, id);
  }

  /** The end of `add` for a peer that is not connected. */
  lemma PlaceParts(w1: World, q: nat, id: PeerId, priority: int, t2: int) returns (w3: World)
    requires q < |w1.queues| && Attached(w1, q) && w1.queues[q].id == id
    requires Safe(w1, if w1.queues[q].running then None else Some(q))
    requires !w1.queues[q].running ==> id !in w1.dialing
    requires !ColdRefused(w1, id, priority)
    ensures var (d, allowed) := IsDialAllowed(w1.queues[q], t2);
            w3 == if d.running then SetQueue(w1, q, d) else Enqueue(SetQueue(w1, q, d), id, priority)
    ensures Safe(w3, None) && Placed(w1, w3) && KeepsCold(w1, w3, id, priority)
  {
    var d := IsDialAllowed(w1.queues[q], t2).0;
    var w2 := SetQueue(w1, q, d);
    DenialKeeps(w1, q, d, w1.log, if d.running then None else Some(q));
    if d.running {
      w3 := w2;
    } else {
      EnqueueKeeps(w2, q, priority);
      EnqueueCold(w2, id, priority);
      w3 := Enqueue(w2, id, priority);
    }
  }

  /** What `add` does itself, and the call it ends with. */
  lemma AddParts(w: World, id: PeerId, req: Request, priority: int, connected: bool, t1: int, t2: int, env: Env)
    returns (m: World, t: Option<Task>)
    requires Safe(w, None) && t1 <= t2
    ensures Placed(w, m) && KeepsCold(w, m, id, priority) && (connected ==> m.cold == w.cold)
    ensures w.log <= m.log && |m.log| == |w.log| + 1 && (m.log[|w.log|].Accepted? || m.log[|w.log|].Refused?)
    ensures t.None? ==> Safe(m, None) && Add(w, id, req, priority, connected, t1, t2, env) == m
    ensures t.Some? ==> Ready(m, t.value) && Add(w, id, req, priority, connected, t1, t2, env) == Exec(m, t.value, env)
  {
    var w0 := GetQueue(w, id);
    NewQueueKeeps(w, id, None);
    GetQueueWf(w, id);
    var q := w0.table[id];
    if ColdRefused(w0, id, priority) {
      m, t := w0.(log := w0.log + [Refused(id, req, DialAborted)]), None;
      LogKeeps(w0, m.log, None);
    } else {
      var w1 := Offer(w0, q, req, t1);
      OfferKeeps(w0, q, req, t1);
      if connected {
        HoleIfIdle(w1, q);
        m, t := w1, Some(TStart(q));
      } else if !IsDialAllowed(w1.queues[q], t2).1 {
        m, t := w1, None;
      } else {
        m := PlaceParts(w1, q, id, priority, t2);
        t := Some(TRun);
      }
    }
  }

  lemma AddKeeps(w: World, id: PeerId, req: Request, priority: int, connected: bool, t1: int, t2: int, env: Env)
    requires Safe(w, None) && t1 <= t2
    ensures Safe(Add(w, id, req, priority, connected, t1, t2, env), None)
  {
    var m, t := AddParts(w, id, req, priority, connected, t1, t2, env);
    if t.Some? { ExecKeeps(m, t.value, env); }
  }

  lemma {:induction false} CleanKeeps(w: World, order: seq<PeerId>, connected: PeerId -> bool, env: Env)
    requires Safe(w, None)
    ensures Safe(Clean(w, order, connected, env), None)
    decreases |order|
  {
    if order != [] {
      var id := order[0];
      if id in w.table && Stale(w.queues[w.table[id]], connected(id)) {
        DiscardKeeps(w, id, env);
        CleanKeeps(Discard(w, id, env), order[1..], connected, env);
      } else {
        CleanKeeps(w, order[1..], connected, env);
      }
    }
  }

  lemma {:induction false} DiscardAllKeeps(w: World, order: seq<PeerId>, env: Env)
    requires Safe(w, None)
    ensures Safe(DiscardAll(w, order, env), None)
    decreases |order|
  {
    if order != [] {
      if order[0] in w.table {
        DiscardKeeps(w, order[0], env);
        DiscardAllKeeps(Discard(w, order[0], env), order[1..], env);
      } else {
        DiscardAllKeeps(w, order[1..], env);
      }
    }
  }

  // ---------------------------------------------------------------- the connections' turns

  lemma AcceptKeeps(w: World, id: PeerId)
    requires Safe(w, None)
    ensures Safe(Accept(w, id), None)
  {
    var r := w.(conns := w.conns + [Inbound(id)], tracked := w.tracked + [|w.conns|]);
    assert ConnOk(Inbound(id));
    forall c | 0 <= c < |r.conns| ensures OwnerOk(r, c) { if c < |w.conns| { assert OwnerOk(w, c); } }
    forall c | 0 <= c < |r.conns| ensures ConnOk(r.conns[c]) && (c in r.tracked <==> r.conns[c].state != Disconnected) {
      if c < |w.conns| { assert ConnOk(w.conns[c]); assert r.conns[c] == w.conns[c]; }
    }
    forall k | 0 <= k < |r.queues| && r.queues[k].running
      ensures Attached(r, k) && HasLive(r, k)
    {
      assert Attached(w, k);
      LiveKept(w, r, k);
    }
    forall k | 0 <= k < |r.queues| && r.queues[k].pending != []
      ensures Attached(r, k)
    { assert Attached(w, k); }
    ClearKeeps(r, id, None);
  }

  lemma GreetKeeps(w: World, c: nat, hole: Option<nat>)
    requires Safe(w, hole) && c < |w.conns| && w.conns[c].owner.Some? && w.conns[c].dial.Some?
    ensures var r := Greet(w, c);
            && Safe(r, hole) && |r.queues| == |w.queues|
            && forall k :: 0 <= k < |w.queues| ==> r.queues[k].running == w.queues[k].running
  {
    assert OwnerOk(w, c);
    var q := w.conns[c].owner.value;
    DenialKeeps(w, q, w.queues[q].(denials := 0), Greet(w, c).log, hole);
  }

  /**
   * `r` differs from `w` only in connections, denials, idle queues added to the table, and
   * handshakes noted in the log.
   */
  ghost predicate Beside(w: World, r: World) {
    && r == w.(table := r.table, queues := r.queues, conns := r.conns, tracked := r.tracked, log := r.log)
    && (forall id :: id in w.table ==> id in r.table && r.table[id] == w.table[id])
    && (forall id :: id in r.table && id !in w.table ==> r.table[id] >= |w.queues|)
    && |r.queues| >= |w.queues|
    && (forall k :: 0 <= k < |w.queues| ==> r.queues[k].pending == w.queues[k].pending)
    && (forall k :: |w.queues| <= k < |r.queues| ==> r.queues[k].pending == [])
    && w.log <= r.log
    && (forall i :: |w.log| <= i < |r.log| ==> r.log[i].Shaken?)
  }

  lemma BesideClear(w: World, id: PeerId)
    requires Wf(w)
    ensures Beside(w, ClearDenylist(w, id))
  {
  }

  lemma BesideGreet(w: World, c: nat)
    requires Wf(w) && c < |w.conns| && w.conns[c].owner.Some? && w.conns[c].dial.Some?
    ensures Beside(w, Greet(w, c))
  {
    assert OwnerOk(w, c);
  }

  lemma BesideTwice(w: World, m: World, r: World)
    requires Beside(w, m) && Beside(m, r)
    ensures Beside(w, r)
  {
    forall i | |w.log| <= i < |r.log| ensures r.log[i].Shaken? {
      if i < |m.log| { assert r.log[i] == m.log[i]; }
    }
  }

  lemma AnnouncedBeside(w: World, c: nat, d: Conn)
    requires Wf(w) && c < |w.conns| && d.owner == w.conns[c].owner && d.peer == w.conns[c].peer
    ensures Beside(w, Announced(w, c, d))
  {
    StoreWf(w, c, d);
    var w1 := Store(w, c, d);
    assert Beside(w, w1);
    var w2 := if d.state == Muxed then ClearDenylist(w1, d.peer) else w1;
    if d.state == Muxed { BesideClear(w1, d.peer); BesideTwice(w, w1, w2); }
    if (d.state == Muxed || d.state == Connected) && d.owner.Some? && d.dial.Some? {
      BesideGreet(w2, c);
      BesideTwice(w, w2, Greet(w2, c));
    }
  }

  /** The state in which a transition wakes the owner, or in which the turn ends. */
  lemma AdvanceParts(w: World, c: nat, d: Conn, env: Env) returns (w3: World)
    requires Safe(w, None) && c < |w.conns|
    requires ConnOk(Disarm(d)) && Further(w.conns[c], d)
    requires w.conns[c].state == Disconnected ==> d.state == Disconnected
    ensures w3 == Announced(w, c, d) && Beside(w, w3)
    ensures Wakes(d).None? ==> Safe(w3, None) && Advance(w, c, d, env) == w3
    ensures Wakes(d).Some? ==> Ready(w3, Wakes(d).value) && Advance(w, c, d, env) == Exec(w3, Wakes(d).value, env)
  {
    w3 := AnnouncedSafe(w, c, d);
    AnnouncedBeside(w, c, d);
  }

  lemma AnnouncedSafe(w: World, c: nat, d: Conn) returns (w3: World)
    requires Safe(w, None) && c < |w.conns|
    requires ConnOk(Disarm(d)) && Further(w.conns[c], d)
    requires w.conns[c].state == Disconnected ==> d.state == Disconnected
    ensures w3 == Announced(w, c, d)
    ensures if Wakes(d).None? then Safe(w3, None) else Ready(w3, Wakes(d).value)
  {
    StoreKeeps(w, c, d);
    assert OwnerOk(w, c);
    var w1 := Store(w, c, d);
    if Wakes(d).Some? {
      var q := d.owner.value;
      w3 := WelcomeKeeps(w1, c, d, if w1.queues[q].running then Some(q) else None);
    } else {
      w3 := WelcomeKeeps(w1, c, d, None);
    }
  }

  /** Clearing a denial and greeting keep the invariant around a hole. */
  lemma WelcomeKeeps(w: World, c: nat, d: Conn, hole: Option<nat>) returns (r: World)
    requires Safe(w, hole) && c < |w.conns| && d.owner == w.conns[c].owner && d.dial == w.conns[c].dial
    ensures var w2 := if d.state == Muxed then ClearDenylist(w, d.peer) else w;
            && Wf(w2) && c < |w2.conns| && w2.conns[c] == w.conns[c]
            && r == (if (d.state == Muxed || d.state == Connected) && d.owner.Some? && d.dial.Some?
                     then Greet(w2, c) else w2)
            && Safe(r, hole) && |r.queues| >= |w.queues|
            && (forall k :: 0 <= k < |w.queues| ==> r.queues[k].running == w.queues[k].running)
  {
    if d.state == Muxed { ClearKeeps(w, d.peer, hole); }
    r := if d.state == Muxed then ClearDenylist(w, d.peer) else w;
    if (d.state == Muxed || d.state == Connected) && d.owner.Some? && d.dial.Some? {
      GreetKeeps(r, c, hole);
      r := Greet(r, c);
    }
  }

  lemma AdvanceKeeps(w: World, c: nat, d: Conn, env: Env)
    requires Safe(w, None) && c < |w.conns|
    requires ConnOk(Disarm(d)) && Further(w.conns[c], d)
    requires w.conns[c].state == Disconnected ==> d.state == Disconnected
    ensures Safe(Advance(w, c, d, env), None)
  {
    var w3 := AdvanceParts(w, c, d, env);
    if Wakes(d).Some? { ExecKeeps(w3, Wakes(d).value, env); }
  }

  /** A connection whose bookkeeping of outside operations changed, and nothing else. */
  lemma OpsKeep(w: World, c: nat, o: Option<Op>)
    requires Safe(w, None) && c < |w.conns| && ConnOk(Without(w.conns[c], o))
    ensures Safe(w.(conns := w.conns[c := Without(w.conns[c], o)]), None)
  {
    assert ConnOk(w.conns[c]);
    ConnChange(w, w.(conns := w.conns[c := Without(w.conns[c], o)]), c, None);
  }

  lemma CloseWithKeeps(w: World, c: nat, err: bool, o: Option<Op>, env: Env)
    requires Safe(w, None) && c < |w.conns| && (o.Some? ==> o.value != EndOp)
    ensures Safe(CloseWith(w, c, err, o, env), None)
  {
    assert ConnOk(w.conns[c]);
    if w.conns[c].state == Disconnecting {
      OpsKeep(w, c, o);
    } else if err {
      ExecKeeps(w, TFail(c, o), env);
    } else {
      ExecKeeps(w, TClose(c, o), env);
    }
  }

  /** What a completed operation comes to: a transition, an error report, nothing more, or closing. */
  datatype Ending = Moved(d: Conn) | Reported(m: World) | Noted(m: World) | Shut(err: bool)

  /** The state in which an operation's callback has returned. */
  function Forgetting(w: World, c: nat, o: Op): World
    requires c < |w.conns|
  {
    w.(conns := w.conns[c := Without(w.conns[c], Some(o))])
  }

  /** The completion of `o` comes to `e`. */
  ghost predicate Ends(w: World, c: nat, o: Op, ok: bool, env: Env, e: Ending)
    requires Wf(w) && c < |w.conns|
  {
    match e
    case Moved(d) =>
      && ConnOk(Disarm(d)) && Further(w.conns[c], d)
      && (Closing(w.conns[c].state) ==> Closing(d.state))
      && (w.conns[c].state == Disconnected ==> d.state == Disconnected)
      && Complete(w, c, o, ok, env) == Advance(w, c, d, env)
    case Reported(m) =>
      m == Forgetting(w, c, o) && Ready(m, TError(c)) && Complete(w, c, o, ok, env) == Exec(m, TError(c), env)
    case Noted(m) =>
      m == Forgetting(w, c, o) && Safe(m, None) && Complete(w, c, o, ok, env) == m
    case Shut(err) => o != EndOp && Complete(w, c, o, ok, env) == CloseWith(w, c, err, Some(o), env)
  }

  lemma CompleteEnds(w: World, c: nat, o: Op, ok: bool, env: Env) returns (e: Ending)
    requires Safe(w, None) && c < |w.conns| && o in w.conns[c].ops
    ensures Ends(w, c, o, ok, env, e)
  {
    var k := w.conns[c];
    assert ConnOk(k);
    if Reports(o) && (ok || o == EndOp) {
      var d := DoneEnds(w, c, o, ok, env);
      e := Moved(d);
    } else if o == MuxOp {
      e := UpgradeEnds(w, c, env);
    } else if o == IdentifyOp && ok {
      assert OpAt(IdentifyOp, k.state);
      OpsKeep(w, c, Some(o));
      e := Noted(Forgetting(w, c, o));
    } else {
      e := Shut(o != MuxerCloseOp);
    }
  }

  lemma DoneEnds(w: World, c: nat, o: Op, ok: bool, env: Env) returns (d: Conn)
    requires Safe(w, None) && c < |w.conns| && o in w.conns[c].ops && Reports(o) && (ok || o == EndOp)
    ensures ConnOk(Disarm(d)) && Further(w.conns[c], d)
    ensures Closing(w.conns[c].state) ==> Closing(d.state)
    ensures w.conns[c].state == Disconnected ==> d.state == Disconnected
    ensures Complete(w, c, o, ok, env) == Advance(w, c, d, env)
  {
    assert ConnOk(w.conns[c]);
    DoneKeepsOk(w.conns[c], o, env.setup);
    d := Fire(Delivered(w.conns[c], o, env.setup), Done, env.setup).value;
  }

  lemma UpgradeEnds(w: World, c: nat, env: Env) returns (e: Ending)
    requires Safe(w, None) && c < |w.conns| && MuxOp in w.conns[c].ops
    ensures Ends(w, c, MuxOp, false, env, e)
  {
    var k := w.conns[c];
    assert ConnOk(k);
    UpgradeStopped(k, env.setup);
    if k.state == Upgrading {
      e := Moved(Fire(Without(k, Some(MuxOp)), Fsm.Stop, env.setup).value);
    } else {
      OpsKeep(w, c, Some(MuxOp));
      e := Reported(Forgetting(w, c, MuxOp));
    }
  }

  lemma CompleteKeeps(w: World, c: nat, o: Op, ok: bool, env: Env)
    requires Safe(w, None) && c < |w.conns| && o in w.conns[c].ops
    ensures Safe(Complete(w, c, o, ok, env), None)
  {
    var e := CompleteEnds(w, c, o, ok, env);
    match e
    case Moved(d) => AdvanceKeeps(w, c, d, env);
    case Reported(m) => ExecKeeps(m, TError(c), env);
    case Noted(m) =>
    case Shut(err) => CloseWithKeeps(w, c, err, Some(o), env);
  }

  lemma {:induction false} CloseEachKeeps(w: World, list: seq<nat>, env: Env)
    requires Safe(w, None) && forall i :: 0 <= i < |list| ==> list[i] < |w.conns|
    ensures Safe(CloseEach(w, list, env), None)
    decreases |list|
  {
    if list != [] {
      CloseWithKeeps(w, list[0], false, None, env);
      CloseWithGrows(w, list[0], false, None, env);
      CloseEachKeeps(CloseWith(w, list[0], false, None, env), list[1..], env);
    }
  }

  lemma IdleKeeps(w: World, r: World)
    requires Safe(w, None) && r == w.(running := r.running, waiting := r.waiting, cold := r.cold)
    requires (r.waiting == w.waiting && r.cold == w.cold)
    ensures Safe(r, None)
  {
    SameWf(w, r);
    forall k | 0 <= k < |r.queues| && r.queues[k].running
      ensures Attached(r, k) && HasLive(r, k)
    {
      assert Attached(w, k);
      LiveKept(w, r, k);
    }
    forall k | 0 <= k < |r.queues| && r.queues[k].pending != []
      ensures Attached(r, k)
    { assert Attached(w, k); }
  }
}
