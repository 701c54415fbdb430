/**
 * Conservation of requests: what a peer's queues accepted is what has left them, in the same order,
 * followed by what is still pending; and every request has exactly one fate.
 */
module Ledger {
  import opened Basics
  import opened Fsm
  import opened Connection
  import opened Scheduler
  import opened Turns
  import opened Slots
  import opened SafeTurns
  import opened Shutdown

  /** The requests of one peer in the entries that satisfy `keep`, oldest first. */
  function Select(log: seq<Entry>, id: PeerId, keep: Entry -> bool): seq<Request> {
    if log == [] then []
    else
      var e := log[|log| - 1];
      Select(log[..|log| - 1], id, keep) + if !e.Shaken? && e.id == id && keep(e) then [e.req] else []
  }

  predicate IsAccepted(e: Entry) { e.Accepted? }
  predicate IsRefused(e: Entry) { e.Refused? }
  predicate IsAborted(e: Entry) { e.AbortedDial? }
  predicate IsStarted(e: Entry) { e.Started? }
  predicate IsLeft(e: Entry) { e.AbortedDial? || e.Started? }
  predicate IsArrived(e: Entry) { e.Accepted? || e.Refused? }

  function Accepteds(log: seq<Entry>, id: PeerId): seq<Request> { Select(log, id, IsAccepted) }
  function Lefts(log: seq<Entry>, id: PeerId): seq<Request> { Select(log, id, IsLeft) }
  function Arriveds(log: seq<Entry>, id: PeerId): seq<Request> { Select(log, id, IsArrived) }

  function PendingOf(w: World, id: PeerId): seq<Request>
    requires Wf(w)
  {
    if id in w.table then w.queues[w.table[id]].pending else []
  }

  /** First in, first out, over every queue the peer has had. */
  ghost predicate Balanced(w: World) {
    Wf(w) && forall id :: Accepteds(w.log, id) == Lefts(w.log, id) + PendingOf(w, id)
  }

  lemma SelectOne(log: seq<Entry>, e: Entry, id: PeerId, keep: Entry -> bool)
    ensures Select(log + [e], id, keep) == Select(log, id, keep) +
            if !e.Shaken? && e.id == id && keep(e) then [e.req] else []
  {
    assert (log + [e])[..|log + [e]| - 1] == log;
  }

  lemma {:induction false} SelectConcat(a: seq<Entry>, b: seq<Entry>, id: PeerId, keep: Entry -> bool)
    ensures Select(a + b, id, keep) == Select(a, id, keep) + Select(b, id, keep)
  {
    if b == [] {
      assert a + b == a;
    } else {
      var n := |b| - 1;
      assert (a + b)[..|a + b| - 1] == a + b[..n];
      SelectConcat(a, b[..n], id, keep);
    }
  }

  lemma {:induction false} SelectNone(log: seq<Entry>, id: PeerId, keep: Entry -> bool)
    requires forall i :: 0 <= i < |log| ==> log[i].Shaken? || log[i].id != id || !keep(log[i])
    ensures Select(log, id, keep) == []
  {
    if log != [] { SelectNone(log[..|log| - 1], id, keep); }
  }

  /** The first entry of a log comes first in what is selected. */
  lemma SelectFirst(e: Entry, rest: seq<Entry>, id: PeerId, keep: Entry -> bool)
    ensures Select([e] + rest, id, keep) ==
            (if !e.Shaken? && e.id == id && keep(e) then [e.req] else []) + Select(rest, id, keep)
  {
    SelectConcat([e], rest, id, keep);
    SelectOne([], e, id, keep);
    assert [] + [e] == [e];
  }

  /** A drained queue's entries name its requests, in order, as having left. */
  lemma {:induction false} SelectAborts(of: PeerId, reqs: seq<Request>)
    ensures Lefts(AbortEntries(of, reqs), of) == reqs
  {
    if reqs != [] {
      var rest := AbortEntries(of, reqs[1..]);
      SelectAborts(of, reqs[1..]);
      SelectFirst(AbortedDial(of, reqs[0]), rest, of, IsLeft);
      assert [reqs[0]] + reqs[1..] == reqs;
    }
  }

  lemma SelectOtherAborts(of: PeerId, reqs: seq<Request>, id: PeerId, keep: Entry -> bool)
    requires of != id || forall e: Entry :: e.AbortedDial? ==> !keep(e)
    ensures Select(AbortEntries(of, reqs), id, keep) == []
  {
    SelectNone(AbortEntries(of, reqs), id, keep);
  }

  // ---------------------------------------------------------------- one call

  /** Nothing pending changed and nothing was said about requests. */
  lemma SameBalance(w: World, r: World)
    requires Balanced(w) && Wf(r) && r.log == w.log
    requires forall id :: PendingOf(r, id) == PendingOf(w, id)
    ensures Balanced(r)
  {
  }

  lemma BesideBalance(w: World, r: World)
    requires Balanced(w) && Wf(r) && Beside(w, r)
    ensures Balanced(r)
  {
    forall id ensures Accepteds(r.log, id) == Lefts(r.log, id) + PendingOf(r, id) {
      var more := r.log[|w.log|..];
      assert r.log == w.log + more;
      SelectConcat(w.log, more, id, IsAccepted);
      SelectConcat(w.log, more, id, IsLeft);
      SelectNone(more, id, IsAccepted);
      SelectNone(more, id, IsLeft);
      assert Accepteds(w.log, id) == Lefts(w.log, id) + PendingOf(w, id);
    }
  }

  /** What one queue's part of the log must be when requests leave it from the front. */
  ghost predicate Leaving(more: seq<Entry>, of: PeerId, gone: seq<Request>) {
    && Lefts(more, of) == gone
    && (forall id :: id != of ==> Lefts(more, id) == [])
    && (forall id :: Accepteds(more, id) == [])
  }

  /** Requests that leave a queue from the front and are logged keep the balance. */
  lemma LeaveBalance(w: World, r: World, q: nat, gone: seq<Request>, more: seq<Entry>)
    requires Balanced(w) && Wf(r) && q < |w.queues| && |r.queues| == |w.queues| && r.table == w.table
    requires gone == [] || Attached(w, q)
    requires forall k :: 0 <= k < |w.queues| && k != q ==> r.queues[k].pending == w.queues[k].pending
    requires w.queues[q].pending == gone + r.queues[q].pending
    requires r.log == w.log + more && Leaving(more, w.queues[q].id, gone)
    ensures Balanced(r)
  {
    forall id ensures Accepteds(r.log, id) == Lefts(r.log, id) + PendingOf(r, id) {
      SelectConcat(w.log, more, id, IsAccepted);
      SelectConcat(w.log, more, id, IsLeft);
      assert Accepteds(w.log, id) == Lefts(w.log, id) + PendingOf(w, id);
      assert Accepteds(more, id) == [];
      assert PendingOf(w, id) == Lefts(more, id) + PendingOf(r, id) by {
        if id != w.queues[q].id && id in w.table { assert w.table[id] != q; }
      }
      Associates(Lefts(w.log, id), Lefts(more, id), PendingOf(r, id));
    }
  }

  lemma AbortBalance(w: World, q: nat)
    requires Ready(w, TAbort(q)) && Balanced(w)
    ensures Balanced(AbortQueue(w, q).0)
  {
    var d := w.queues[q];
    var r := AbortQueue(w, q).0;
    OwnersKept(w, r);
    var more := AbortEntries(d.id, d.pending);
    AbortsLeave(d.id, d.pending);
    if d.pending != [] { assert Attached(w, q); }
    LeaveBalance(w, r, q, d.pending, more);
  }

  lemma AbortsLeave(of: PeerId, reqs: seq<Request>)
    ensures Leaving(AbortEntries(of, reqs), of, reqs)
  {
    SelectAborts(of, reqs);
    forall id | id != of ensures Lefts(AbortEntries(of, reqs), id) == [] { SelectOtherAborts(of, reqs, id, IsLeft); }
    forall id ensures Accepteds(AbortEntries(of, reqs), id) == [] { SelectOtherAborts(of, reqs, id, IsAccepted); }
  }

  lemma StartLeaves(of: PeerId, req: Request, c: nat, shaken: seq<Entry>)
    requires forall i :: 0 <= i < |shaken| ==> shaken[i].Shaken?
    ensures Leaving([Started(of, req, c)] + shaken, of, [req])
  {
    var e := Started(of, req, c);
    forall id ensures Lefts([e] + shaken, id) == (if id == of then [req] else []) && Accepteds([e] + shaken, id) == [] {
      SelectConcat([e], shaken, id, IsLeft);
      SelectConcat([e], shaken, id, IsAccepted);
      SelectNone(shaken, id, IsLeft);
      SelectNone(shaken, id, IsAccepted);
      SelectOne([], e, id, IsLeft);
      SelectOne([], e, id, IsAccepted);
      assert [] + [e] == [e];
    }
  }

  lemma NextBalance(w: World, q: nat, env: Env)
    requires Ready(w, TNext(q)) && Balanced(w)
    ensures Balanced(NextDial(w, q, env).0)
  {
    var d := w.queues[q];
    if d.running && d.pending != [] {
      assert Attached(w, q);
      var r, more := NextLog(w, q, env);
      LeaveBalance(w, r, q, [d.pending[0]], more);
    }
  }

  /** What running the next dial takes out of the queue, and what it logs. */
  lemma NextLog(w: World, q: nat, env: Env) returns (r: World, more: seq<Entry>)
    requires Wf(w) && q < |w.queues| && w.queues[q].running && w.queues[q].pending != []
    ensures var d := w.queues[q];
            && r == NextDial(w, q, env).0 && Wf(r) && r.table == w.table
            && r.queues == w.queues[q := d.(pending := d.pending[1..])]
            && r.log == w.log + more && Leaving(more, d.id, [d.pending[0]])
  {
    NextShrinks(w, q, env);
    r := NextDial(w, q, env).0;
    var d := w.queues[q];
    var req := d.pending[0];
    match FirstMuxed(w.tracked, w.conns, d.id)
    case Some(c) =>
      more := [Started(d.id, req, c)] + Shake(c, req, w.conns[c].state);
      StartLeaves(d.id, req, c, Shake(c, req, w.conns[c].state));
    case None =>
      more := [Started(d.id, req, |w.conns|)];
      StartLeaves(d.id, req, |w.conns|, []);
      assert more + [] == more;
  }

  lemma MicroBalance(w: World, t: Task, env: Env)
    requires Ready(w, t) && !t.TFail? && Balanced(w)
    ensures Balanced(Micro(w, t, env).0)
  {
    if t.TAbort? { AbortBalance(w, t.q); }
    else if t.TNext? { NextBalance(w, t.q, env); }
    else { OtherBalance(w, t, env); }
  }

  lemma OtherBalance(w: World, t: Task, env: Env)
    requires Wf(w) && TaskOk(w, t) && !t.TFail? && !t.TAbort? && !t.TNext? && Balanced(w)
    ensures Balanced(Micro(w, t, env).0)
  {
    MicroShrinks(w, t, env);
    var r := Micro(w, t, env).0;
    if t.TError? { assert OwnerOk(w, t.c); }
    assert r.log == w.log && r.table == w.table;
    assert forall q :: 0 <= q < |w.queues| ==> r.queues[q].pending == w.queues[q].pending;
    SameBalance(w, r);
  }

  lemma {:induction false} ExecBalance(w: World, t: Task, env: Env)
    requires Ready(w, t) && Balanced(w)
    ensures Balanced(Exec(w, t, env))
    decreases Backlog(w), Focus(w, t), Phase(t)
  {
    if t.TFail? {
      ExecBalance(w, TError(t.c), env);
      ExecKeeps(w, TError(t.c), env);
      ExecFrames(w, TError(t.c), env, t.c);
      var r := UnfoldFail(w, t.c, t.op, env);
      ExecBalance(r, TClose(t.c, t.op), env);
    } else {
      MicroKeeps(w, t, env);
      MicroBalance(w, t, env);
      var w1, next := Unfold(w, t, env);
      if next.Some? { ExecBalance(w1, next.value, env); }
    }
  }

  // ---------------------------------------------------------------- turns

  lemma GetQueueBalance(w: World, id: PeerId)
    requires Balanced(w)
    ensures Balanced(GetQueue(w, id))
  {
    GetQueueWf(w, id);
    SameBalance(w, GetQueue(w, id));
  }

  lemma RefuseBalance(w: World, id: PeerId, req: Request, why: Reason)
    requires Balanced(w)
    ensures Balanced(w.(log := w.log + [Refused(id, req, why)]))
  {
    var r := w.(log := w.log + [Refused(id, req, why)]);
    SameWf(w, r);
    forall x ensures Accepteds(r.log, x) == Lefts(r.log, x) + PendingOf(r, x) {
      SelectOne(w.log, Refused(id, req, why), x, IsAccepted);
      SelectOne(w.log, Refused(id, req, why), x, IsLeft);
      assert Accepteds(w.log, x) == Lefts(w.log, x) + PendingOf(w, x);
    }
  }

  lemma OfferBalance(w: World, q: nat, req: Request, now: int)
    requires Balanced(w) && q < |w.queues| && Attached(w, q)
    ensures Balanced(Offer(w, q, req, now))
  {
    OfferWf(w, q, req, now);
    if IsDialAllowed(w.queues[q], now).1 {
      var r := Offer(w, q, req, now);
      forall x ensures Accepteds(r.log, x) == Lefts(r.log, x) + PendingOf(r, x) { EnterBalance(w, r, q, req, x); }
    } else {
      RefuseBalance(w, w.queues[q].id, req, DialDenied);
    }
  }

  /** A request that is accepted at the end of its queue keeps the balance. */
  lemma EnterBalance(w: World, r: World, q: nat, req: Request, x: PeerId)
    requires Balanced(w) && Wf(r) && q < |w.queues| && Attached(w, q) && r.table == w.table && |r.queues| == |w.queues|
    requires forall k :: 0 <= k < |w.queues| && k != q ==> r.queues[k].pending == w.queues[k].pending
    requires r.queues[q].pending == w.queues[q].pending + [req] && r.log == w.log + [Accepted(w.queues[q].id, req)]
    ensures Accepteds(r.log, x) == Lefts(r.log, x) + PendingOf(r, x)
  {
    var id := w.queues[q].id;
    SelectOne(w.log, Accepted(id, req), x, IsAccepted);
    SelectOne(w.log, Accepted(id, req), x, IsLeft);
    assert Accepteds(w.log, x) == Lefts(w.log, x) + PendingOf(w, x);
    if x == id {
      Associates(Lefts(w.log, x), PendingOf(w, x), [req]);
    } else if x in w.table {
      assert w.table[x] != q;
    }
  }

  lemma AddBalance(w: World, id: PeerId, req: Request, priority: int, connected: bool, t1: int, t2: int, env: Env)
    requires Safe(w, None) && Balanced(w) && t1 <= t2
    ensures Balanced(Add(w, id, req, priority, connected, t1, t2, env))
  {
    var w0 := GetQueue(w, id);
    NewQueueKeeps(w, id, None);
    GetQueueWf(w, id);
    GetQueueBalance(w, id);
    var q := w0.table[id];
    if ColdRefused(w0, id, priority) {
      RefuseBalance(w0, id, req, DialAborted);
    } else {
      var w1 := Offer(w0, q, req, t1);
      OfferKeeps(w0, q, req, t1);
      OfferBalance(w0, q, req, t1);
      if connected {
        HoleIfIdle(w1, q);
        ExecBalance(w1, TStart(q), env);
      } else {
        PlaceBalance(w1, q, id, priority, t2, env);
      }
    }
  }

  lemma PlacedBalance(w1: World, q: nat, id: PeerId, priority: int, t2: int, w3: World)
    requires Balanced(w1) && Wf(w3) && q < |w1.queues|
    requires var d := IsDialAllowed(w1.queues[q], t2).0;
             w3 == if d.running then SetQueue(w1, q, d) else Enqueue(SetQueue(w1, q, d), id, priority)
    ensures Balanced(w3)
  {
    assert w3.log == w1.log && w3.table == w1.table;
    assert forall k :: 0 <= k < |w1.queues| ==> w3.queues[k].pending == w1.queues[k].pending;
    SameBalance(w1, w3);
  }

  lemma PlaceBalance(w1: World, q: nat, id: PeerId, priority: int, t2: int, env: Env)
    requires q < |w1.queues| && Attached(w1, q) && w1.queues[q].id == id && Balanced(w1)
    requires Safe(w1, if w1.queues[q].running then None else Some(q))
    requires !w1.queues[q].running ==> id !in w1.dialing
    requires !ColdRefused(w1, id, priority)
    ensures var d := IsDialAllowed(w1.queues[q], t2).0;
            var w3 := if d.running then SetQueue(w1, q, d) else Enqueue(SetQueue(w1, q, d), id, priority);
            Wf(w3) && Balanced(Exec(w3, TRun, env))
  {
    var w3 := PlaceParts(w1, q, id, priority, t2);
    PlacedBalance(w1, q, id, priority, t2, w3);
    ExecBalance(w3, TRun, env);
  }

  lemma DiscardBalance(w: World, id: PeerId, env: Env)
    requires Safe(w, None) && Balanced(w) && id in w.table
    ensures Balanced(Discard(w, id, env))
  {
    ExecBalance(w, TAbort(w.table[id]), env);
    AbortQuietens(w, w.table[id], env);
    var r := Exec(w, TAbort(w.table[id]), env);
    DropWf(r, id);
    SameBalance(r, Drop(r, id));
  }

  lemma {:induction false} CleanBalance(w: World, order: seq<PeerId>, connected: PeerId -> bool, env: Env)
    requires Safe(w, None) && Balanced(w)
    ensures Balanced(Clean(w, order, connected, env))
    decreases |order|
  {
    if order != [] {
      var id := order[0];
      if id in w.table && Stale(w.queues[w.table[id]], connected(id)) {
        DiscardKeeps(w, id, env);
        DiscardBalance(w, id, env);
        CleanBalance(Discard(w, id, env), order[1..], connected, env);
      } else {
        CleanBalance(w, order[1..], connected, env);
      }
    }
  }

  lemma {:induction false} DiscardAllBalance(w: World, order: seq<PeerId>, env: Env)
    requires Wf(w) && !w.running && Balanced(w) && Distinct(order)
             && forall i :: 0 <= i < |order| ==> order[i] in w.table
    ensures Balanced(DiscardAll(w, order, env))
    decreases |order|
  {
    if order != [] {
      var w1 := DiscardFirst(w, order, env);
      FirstBalance(w, w1, order[0]);
      DiscardAllBalance(w1, order[1..], env);
    }
  }

  lemma FirstBalance(w: World, w1: World, id: PeerId)
    requires Balanced(w) && Wf(w1) && id in w.table && w1.table == w.table - {id}
    requires var q := w.table[id];
             w1.queues == w.queues[q := Emptied(w.queues[q])] && w1.log == w.log + AbortEntries(id, w.queues[q].pending)
    ensures Balanced(w1)
  {
    var q := w.table[id];
    var m := w.(queues := w1.queues, log := w1.log);
    OwnersKept(w, m);
    AbortsLeave(id, w.queues[q].pending);
    LeaveBalance(w, m, q, w.queues[q].pending, AbortEntries(id, w.queues[q].pending));
    SameBalance(m, w1);
  }

  lemma AdvanceBalance(w: World, c: nat, d: Conn, env: Env)
    requires Safe(w, None) && Balanced(w) && c < |w.conns|
    requires ConnOk(Disarm(d)) && Further(w.conns[c], d)
    requires w.conns[c].state == Disconnected ==> d.state == Disconnected
    ensures Balanced(Advance(w, c, d, env))
  {
    var w3 := AdvanceParts(w, c, d, env);
    BesideBalance(w, w3);
    if Wakes(d).Some? { ExecBalance(w3, Wakes(d).value, env); }
  }

  lemma CloseWithBalance(w: World, c: nat, err: bool, o: Option<Op>, env: Env)
    requires Safe(w, None) && Balanced(w) && c < |w.conns| && (o.Some? ==> o.value != EndOp)
    ensures Balanced(CloseWith(w, c, err, o, env))
  {
    if w.conns[c].state == Disconnecting {
      SameBalance(w, CloseWith(w, c, err, o, env));
    } else if err {
      ExecBalance(w, TFail(c, o), env);
    } else {
      ExecBalance(w, TClose(c, o), env);
    }
  }

  lemma ForgettingBalance(w: World, c: nat, o: Op)
    requires Wf(w) && Balanced(w) && c < |w.conns|
    ensures Wf(Forgetting(w, c, o)) && Balanced(Forgetting(w, c, o))
  {
    SetConnWf(w, c, Without(w.conns[c], Some(o)));
    SameBalance(w, Forgetting(w, c, o));
  }

  lemma ReportedBalance(w: World, c: nat, o: Op, env: Env)
    requires Wf(w) && Balanced(w) && c < |w.conns| && Ready(Forgetting(w, c, o), TError(c))
    ensures Balanced(Exec(Forgetting(w, c, o), TError(c), env))
  {
    ForgettingBalance(w, c, o);
    ExecBalance(Forgetting(w, c, o), TError(c), env);
  }

  lemma CompleteBalance(w: World, c: nat, o: Op, ok: bool, env: Env)
    requires Safe(w, None) && Balanced(w) && c < |w.conns| && o in w.conns[c].ops
    ensures Balanced(Complete(w, c, o, ok, env))
  {
    var e := CompleteEnds(w, c, o, ok, env);
    match e
    case Moved(d) => AdvanceBalance(w, c, d, env);
    case Reported(m) => ReportedBalance(w, c, o, env);
    case Noted(m) => ForgettingBalance(w, c, o);
    case Shut(err) => CloseWithBalance(w, c, err, Some(o), env);
  }

  lemma {:induction false} CloseEachBalance(w: World, list: seq<nat>, env: Env)
    requires Safe(w, None) && Balanced(w) && forall i :: 0 <= i < |list| ==> list[i] < |w.conns|
    ensures Balanced(CloseEach(w, list, env))
    decreases |list|
  {
    if list != [] {
      CloseWithKeeps(w, list[0], false, None, env);
      CloseWithBalance(w, list[0], false, None, env);
      CloseWithGrows(w, list[0], false, None, env);
      CloseEachBalance(CloseWith(w, list[0], false, None, env), list[1..], env);
    }
  }

  lemma TurnBalance(w: World, t: Turn, env: Env)
    requires Safe(w, None) && Balanced(w) && CanTake(w, t)
    ensures Balanced(Take(w, t, env))
  {
    match t
    case DialTurn(id, req, priority, connected, t1, t2) => AddBalance(w, id, req, priority, connected, t1, t2, env);
    case CleanTurn(order, isConnected) => CleanBalance(w, order, isConnected, env);
    case StopTurn(order) =>
      var w1 := w.(running := false, waiting := [], cold := []);
      SameWf(w, w1);
      SameBalance(w, w1);
      DiscardAllBalance(w1, order, env);
    case StartTurn => SameWf(w, w.(running := true)); SameBalance(w, w.(running := true));
    case ClearTurn(id) => BesideClear(w, id); BesideBalance(w, ClearDenylist(w, id));
    case AcceptTurn(id) => AcceptBalance(w, id);
    case CompleteTurn(c, op, ok) => CompleteBalance(w, c, op, ok, env);
    case CloseTurn(c, err) => CloseWithBalance(w, c, err, None, env);
    case HangUpTurn(id) =>
      var list := OfPeer(w.tracked, w.conns, id);
      forall i | 0 <= i < |list| ensures list[i] < |w.conns| { assert list[i] in w.tracked; }
      CloseEachBalance(w, list, env);
  }

  lemma AcceptBalance(w: World, id: PeerId)
    requires Safe(w, None) && Balanced(w)
    ensures Balanced(Accept(w, id))
  {
    AcceptKeeps(w, id);
    var w1 := w.(conns := w.conns + [Inbound(id)], tracked := w.tracked + [|w.conns|]);
    forall c | 0 <= c < |w1.conns| ensures OwnerOk(w1, c) { if c < |w.conns| { assert OwnerOk(w, c); } }
    BesideClear(w1, id);
    BesideTwice(w, w1, Accept(w, id));
    BesideBalance(w, Accept(w, id));
  }
}
