/**
 * Runs: any number of turns from the freshly constructed manager, with any outside decisions. The
 * main theorems hold in every state a run can reach.
 */
module Runs {
  import opened Basics
  import opened Fsm
  import opened Connection
  import opened Scheduler
  import opened Turns
  import opened Slots
  import opened SafeTurns
  import opened Shutdown
  import opened WorkConservation
  import opened Ledger
  import opened Fates
  import opened Line
  import opened Forward
  import opened Barring

  datatype Scene = Scene(turn: Turn, env: Env)

  ghost predicate CanPlay(w: World, run: seq<Scene>)
    requires Wf(w)
    decreases |run|
  {
    run == [] || (CanTake(w, run[0].turn) && CanPlay(Take(w, run[0].turn, run[0].env), run[1..]))
  }

  ghost function Play(w: World, run: seq<Scene>): (r: World)
    requires Wf(w) && CanPlay(w, run)
    ensures Wf(r)
    decreases |run|
  {
    if run == [] then w else Play(Take(w, run[0].turn, run[0].env), run[1..])
  }

  /** A run that starts with one more turn. */
  lemma PlayFirst(w: World, s: Scene, rest: seq<Scene>)
    requires Wf(w) && CanTake(w, s.turn) && CanPlay(Take(w, s.turn, s.env), rest)
    ensures CanPlay(w, [s] + rest) && Play(w, [s] + rest) == Play(Take(w, s.turn, s.env), rest)
  {
    assert ([s] + rest)[1..] == rest;
  }

  /** A run without its first turn. */
  lemma Unplay(w: World, run: seq<Scene>) returns (m: World)
    requires Wf(w) && run != [] && CanPlay(w, run)
    ensures CanTake(w, run[0].turn) && m == Take(w, run[0].turn, run[0].env) && Wf(m)
    ensures CanPlay(m, run[1..]) && Play(w, run) == Play(m, run[1..])
  {
    m := Take(w, run[0].turn, run[0].env);
  }

  /** A run that goes on with one more turn. */
  lemma {:induction false} PlayThen(w: World, run: seq<Scene>, s: Scene)
    requires Wf(w) && CanPlay(w, run) && CanTake(Play(w, run), s.turn)
    ensures CanPlay(w, run + [s]) && Play(w, run + [s]) == Take(Play(w, run), s.turn, s.env)
    decreases |run|
  {
    if run == [] {
      PlayFirst(w, s, []);
      assert [s] + [] == [] + [s];
    } else {
      var m := Unplay(w, run);
      PlayThen(m, run[1..], s);
      PlayFirst(w, run[0], run[1..] + [s]);
      assert [run[0]] + (run[1..] + [s]) == run + [s];
    }
  }

  /** One run after another. */
  lemma {:induction false} PlayBoth(w: World, run: seq<Scene>, m: World, more: seq<Scene>)
    requires Wf(w) && CanPlay(w, run) && m == Play(w, run) && CanPlay(m, more)
    ensures CanPlay(w, run + more) && Play(w, run + more) == Play(m, more)
    decreases |run|
  {
    if run == [] {
      assert run + more == more;
    } else {
      var n := Unplay(w, run);
      PlayBoth(n, run[1..], m, more);
      Replay(w, run, more, n);
    }
  }

  lemma Replay(w: World, run: seq<Scene>, more: seq<Scene>, m: World)
    requires Wf(w) && run != [] && CanTake(w, run[0].turn) && m == Take(w, run[0].turn, run[0].env)
    requires Wf(m) && CanPlay(m, run[1..] + more)
    ensures CanPlay(w, run + more) && Play(w, run + more) == Play(m, run[1..] + more)
  {
    PlayFirst(w, run[0], run[1..] + more);
    Resume(run, more);
  }

  lemma Resume(run: seq<Scene>, more: seq<Scene>)
    requires run != []
    ensures [run[0]] + (run[1..] + more) == run + more
  {
  }

  lemma TurnKeeps(w: World, t: Turn, env: Env)
    requires Safe(w, None) && CanTake(w, t)
    ensures Safe(Take(w, t, env), None)
  {
    match t
    case DialTurn(id, req, priority, connected, t1, t2) => AddKeeps(w, id, req, priority, connected, t1, t2, env);
    case CleanTurn(order, isConnected) => CleanKeeps(w, order, isConnected, env);
    case StopTurn(order) => StopKeepsSafe(w, order, env);
    case StartTurn => IdleKeeps(w, w.(running := true));
    case ClearTurn(id) => ClearKeeps(w, id, None);
    case AcceptTurn(id) => AcceptKeeps(w, id);
    case CompleteTurn(c, op, ok) =>
      assert ConnOk(w.conns[c]);
      CompleteKeeps(w, c, op, ok, env);
    case CloseTurn(c, err) => CloseWithKeeps(w, c, err, None, env);
    case HangUpTurn(id) =>
      var list := OfPeer(w.tracked, w.conns, id);
      forall i | 0 <= i < |list| ensures list[i] < |w.conns| { assert list[i] in w.tracked; }
      CloseEachKeeps(w, list, env);
  }

  lemma {:induction false} PlayKeeps(w: World, run: seq<Scene>)
    requires Safe(w, None) && CanPlay(w, run)
    ensures Safe(Play(w, run), None)
    decreases |run|
  {
    if run != [] {
      TurnKeeps(w, run[0].turn, run[0].env);
      PlayKeeps(Take(w, run[0].turn, run[0].env), run[1..]);
    }
  }

  lemma InitSafe(cfg: Config)
    ensures Safe(Init(cfg), None) && Served(Init(cfg)) && Balanced(Init(cfg)) && AllProper(Init(cfg).log)
  {
  }

  /** The states that some run from the start ends in. */
  ghost predicate Reachable(cfg: Config, w: World)
    ensures Reachable(cfg, w) ==> Wf(w)
  {
    exists run: seq<Scene> :: CanPlay(Init(cfg), run) && Play(Init(cfg), run) == w
  }

  /** A run can go on with any turn that can happen. */
  lemma TurnReaches(cfg: Config, w: World, t: Turn, env: Env)
    requires Reachable(cfg, w) && CanTake(w, t)
    ensures Reachable(cfg, Take(w, t, env))
  {
    var run :| CanPlay(Init(cfg), run) && Play(Init(cfg), run) == w;
    PlayThen(Init(cfg), run, Scene(t, env));
  }

  /** The invariants hold in every reachable state. */
  lemma ReachableSafe(cfg: Config, w: World)
    requires Reachable(cfg, w)
    ensures Safe(w, None) && Balanced(w) && AllProper(w.log) && w.cfg == cfg && Barred(w, None)
  {
    var run :| CanPlay(Init(cfg), run) && Play(Init(cfg), run) == w;
    InitSafe(cfg);
    PlayKeeps(Init(cfg), run);
    PlayConfig(Init(cfg), run);
    PlayBalance(Init(cfg), run, PeerId(""));
    PlayBars(Init(cfg), run);
  }

  lemma {:induction false} PlayBars(w: World, run: seq<Scene>)
    requires Wf(w) && Barred(w, None) && CanPlay(w, run)
    ensures Barred(Play(w, run), None)
    decreases |run|
  {
    if run != [] {
      TurnBars(w, run[0].turn, run[0].env);
      PlayBars(Take(w, run[0].turn, run[0].env), run[1..]);
    }
  }

  lemma {:induction false} PlayConfig(w: World, run: seq<Scene>)
    requires Safe(w, None) && CanPlay(w, run)
    ensures Play(w, run).cfg == w.cfg
    decreases |run|
  {
    if run != [] {
      TurnConfig(w, run[0].turn, run[0].env);
      TurnKeeps(w, run[0].turn, run[0].env);
      PlayConfig(Take(w, run[0].turn, run[0].env), run[1..]);
    }
  }

  lemma TurnConfig(w: World, t: Turn, env: Env)
    requires Safe(w, None) && CanTake(w, t)
    ensures Take(w, t, env).cfg == w.cfg
  {
    if t.DialTurn? {
      var m, u := AddParts(w, t.id, t.req, t.priority, t.connected, t.t1, t.t2, env);
    }
  }

  /**
   * No leaked slots: in every reachable state the three id sets exclude each other and keep their
   * bounds, every slot is held by a running queue, and every running queue owns a connection in
   * flight whose `next` is armed and whose outside operation has not completed.
   */
  lemma NoLeakedSlots(cfg: Config, w: World)
    requires Reachable(cfg, w)
    ensures |w.dialing| <= cfg.maxParallelDials && |w.cold| <= cfg.maxColdCalls
    ensures Distinct(w.waiting) && Distinct(w.cold)
    ensures forall id :: id in w.waiting ==> id !in w.cold && id !in w.dialing
    ensures forall id :: id in w.cold ==> id !in w.dialing
    ensures forall id :: id in w.dialing ==> id in w.table && w.table[id] < |w.queues| && w.queues[w.table[id]].running
    ensures forall q {:trigger w.queues[q]} :: 0 <= q < |w.queues| && w.queues[q].running ==>
              exists c :: 0 <= c < |w.conns| && w.conns[c].owner == Some(q) && InFlight(w.conns[c].state)
                          && w.conns[c].nextArmed && Awaited(w.conns[c].state) in w.conns[c].ops
  {
    ReachableSafe(cfg, w);
    forall q {:trigger w.queues[q]} | 0 <= q < |w.queues| && w.queues[q].running
      ensures exists c :: 0 <= c < |w.conns| && w.conns[c].owner == Some(q) && InFlight(w.conns[c].state)
                          && w.conns[c].nextArmed && Awaited(w.conns[c].state) in w.conns[c].ops
    {
      var c: nat :| LiveFor(w, c, q);
      assert ConnOk(w.conns[c]);
    }
  }

  /**
   * No stranded request: in every reachable state a queue with requests is in the table, and it is
   * running or its id waits in one of the two waiting sets. So a queue deleted from the table has none.
   */
  lemma NoStrandedRequest(cfg: Config, w: World, q: nat)
    requires Reachable(cfg, w) && q < |w.queues| && w.queues[q].pending != []
    ensures var id := w.queues[q].id;
            id in w.table && w.table[id] == q && (w.queues[q].running || id in w.waiting || id in w.cold)
  {
    ReachableSafe(cfg, w);
    assert Attached(w, q);
  }

  /** A run in which no turn cleans away the queue of a waiting id or makes an id wait for a stopped manager. */
  ghost predicate Steady(w: World, run: seq<Scene>)
    requires Wf(w) && CanPlay(w, run)
    decreases |run|
  {
    run == [] || (!MayStrand(w, run[0].turn) && Steady(Take(w, run[0].turn, run[0].env), run[1..]))
  }

  lemma {:induction false} PlayServes(w: World, run: seq<Scene>)
    requires Safe(w, None) && Served(w) && CanPlay(w, run) && Steady(w, run)
    ensures Served(Play(w, run))
    decreases |run|
  {
    if run != [] {
      TurnServes(w, run[0].turn, run[0].env);
      TurnKeeps(w, run[0].turn, run[0].env);
      PlayServes(Take(w, run[0].turn, run[0].env), run[1..]);
    }
  }

  /** Work conservation: after every steady run, no id waits while a slot is free. */
  lemma WorkConserved(cfg: Config, run: seq<Scene>)
    requires CanPlay(Init(cfg), run) && Steady(Init(cfg), run)
    ensures var w := Play(Init(cfg), run);
            |w.dialing| < cfg.maxParallelDials ==> w.waiting == [] && w.cold == []
  {
    InitSafe(cfg);
    PlayConfig(Init(cfg), run);
    PlayServes(Init(cfg), run);
  }

  /** The requests a run hands to the manager for a peer, in order. */
  function AskedIn(run: seq<Scene>, id: PeerId): seq<Request> {
    if run == [] then [] else Asked(run[0].turn, id) + AskedIn(run[1..], id)
  }

  lemma {:induction false} PlayBalance(w: World, run: seq<Scene>, id: PeerId)
    requires Safe(w, None) && Balanced(w) && AllProper(w.log) && CanPlay(w, run)
    ensures var r := Play(w, run);
            Balanced(r) && AllProper(r.log) && Arriveds(r.log, id) == Arriveds(w.log, id) + AskedIn(run, id)
    decreases |run|
  {
    if run != [] {
      var m := Take(w, run[0].turn, run[0].env);
      TurnKeeps(w, run[0].turn, run[0].env);
      TurnBalance(w, run[0].turn, run[0].env);
      TurnNotes(w, run[0].turn, run[0].env, id);
      TurnShakes(w, run[0].turn, run[0].env);
      PlayBalance(m, run[1..], id);
      Associates(Arriveds(w.log, id), Asked(run[0].turn, id), AskedIn(run[1..], id));
    } else {
      Associates(Arriveds(w.log, id), [], []);
    }
  }

  /**
   * Conservation: the requests handed to the manager for a peer are, in every reachable state, exactly
   * those refused, aborted, started and pending, each in one place.
   */
  lemma RequestsConserved(cfg: Config, run: seq<Scene>, id: PeerId)
    requires CanPlay(Init(cfg), run)
    ensures var w := Play(Init(cfg), run);
            multiset(AskedIn(run, id)) ==
            multiset(Select(w.log, id, IsRefused)) + multiset(Select(w.log, id, IsAborted))
            + multiset(Select(w.log, id, IsStarted)) + multiset(PendingOf(w, id))
  {
    var w := Arrived(cfg, run, id);
    OneFate(w, id);
  }

  lemma Arrived(cfg: Config, run: seq<Scene>, id: PeerId) returns (w: World)
    requires CanPlay(Init(cfg), run)
    ensures w == Play(Init(cfg), run) && Balanced(w) && Arriveds(w.log, id) == AskedIn(run, id)
  {
    InitSafe(cfg);
    PlayBalance(Init(cfg), run, id);
    assert [] + AskedIn(run, id) == AskedIn(run, id);
    w := Play(Init(cfg), run);
  }

  /**
   * First in, first out: what a peer's queues accepted is what was aborted or started, in the same
   * order, followed by what is pending; this spans queues deleted and made anew.
   */
  lemma FirstInFirstOut(cfg: Config, w: World, id: PeerId)
    requires Reachable(cfg, w)
    ensures Accepteds(w.log, id) == Lefts(w.log, id) + PendingOf(w, id)
  {
    ReachableSafe(cfg, w);
  }

  /** A queue shakes a protocol only on a connection that is muxed or connected at that moment. */
  lemma ShakesOnlyWhenOpen(cfg: Config, w: World, i: nat)
    requires Reachable(cfg, w) && i < |w.log| && w.log[i].Shaken?
    ensures w.log[i].state == Muxed || w.log[i].state == Connected
  {
    ReachableSafe(cfg, w);
    assert Proper(w.log[i]);
  }

  ghost predicate NoStop(run: seq<Scene>) { forall i :: 0 <= i < |run| ==> !run[i].turn.StopTurn? }

  lemma {:induction false} PlayInLine(w: World, run: seq<Scene>)
    requires Safe(w, None) && CanPlay(w, run) && NoStop(run)
    ensures InLine(w, Play(w, run))
    decreases |run|
  {
    if run != [] {
      var m := Take(w, run[0].turn, run[0].env);
      TurnKeeps(w, run[0].turn, run[0].env);
      TurnInLine(w, run[0].turn, run[0].env);
      assert NoStop(run[1..]) by {
        forall i | 0 <= i < |run[1..]| ensures !run[1..][i].turn.StopTurn? { assert run[1..][i] == run[i + 1]; }
      }
      PlayInLine(m, run[1..]);
      InLineTwice(w, m, Play(m, run[1..]));
    }
  }

  lemma LaterInLine(cfg: Config, w: World, after: seq<Scene>) returns (r: World)
    requires Reachable(cfg, w) && CanPlay(w, after) && NoStop(after)
    ensures r == Play(w, after) && InLine(w, r)
  {
    ReachableSafe(cfg, w);
    PlayInLine(w, after);
    r := Play(w, after);
  }

  /**
   * No overtaking: an id at position k of the waiting set of any reachable state is the one popped by
   * the (k+1)th pop after it, and until then its position is k less the pops so far; adding ids,
   * adding it again and promoting cold ids never push it back. Only a stop ends this.
   */
  lemma NoOvertaking(cfg: Config, w: World, after: seq<Scene>, k: nat)
    requires Reachable(cfg, w) && CanPlay(w, after) && NoStop(after) && k < |w.waiting|
    ensures HoldsPlace(w, Play(w, after), k)
  {
    var r := LaterInLine(cfg, w, after);
    KeepsPlace(w, r, k);
  }

  ghost predicate NoPromotion(run: seq<Scene>, id: PeerId) {
    forall i :: 0 <= i < |run| ==> !Promotes(run[i].turn, id)
  }

  lemma Rests(run: seq<Scene>, id: PeerId)
    requires run != [] && NoStop(run) && NoPromotion(run, id)
    ensures NoStop(run[1..]) && NoPromotion(run[1..], id)
    ensures !run[0].turn.StopTurn? && !Promotes(run[0].turn, id)
  {
    forall i | 0 <= i < |run[1..]| ensures !run[1..][i].turn.StopTurn? && !Promotes(run[1..][i].turn, id) {
      assert run[1..][i] == run[i + 1];
    }
  }

  /** Every id that waited in the normal set has been popped. */
  ghost predicate AllPopped(w: World, r: World) {
    Entered(w) <= r.popped
  }

  lemma PoppedLater(w: World, m: World, r: World)
    requires InLine(w, m) && InLine(m, r) && (m.waiting == [] || AllPopped(m, r))
    ensures AllPopped(w, r)
  {
    if m.waiting == [] { assert Entered(m) == m.popped; }
  }

  lemma {:induction false} PlayColdLast(w: World, run: seq<Scene>, id: PeerId)
    requires Safe(w, None) && CanPlay(w, run) && NoStop(run) && NoPromotion(run, id) && id in w.cold
    ensures id in Play(w, run).cold || AllPopped(w, Play(w, run))
    decreases |run|
  {
    if run != [] {
      var m := Unplay(w, run);
      Rests(run, id);
      TurnKeeps(w, run[0].turn, run[0].env);
      TurnInLine(w, run[0].turn, run[0].env);
      TurnColdLast(w, run[0].turn, run[0].env, id);
      PlayInLine(m, run[1..]);
      if id in m.cold { PlayColdLast(m, run[1..], id); }
      if id !in m.cold || id !in Play(w, run).cold { PoppedLater(w, m, Play(w, run)); }
    }
  }

  /**
   * Cold calls come last: an id in the cold set of any reachable state is popped only after every id that
   * stands in the normal set of that state, whatever ids join the normal set meanwhile. Only a stop or a
   * dial at a high priority takes it out of the cold set earlier.
   */
  lemma ColdComesLast(cfg: Config, w: World, after: seq<Scene>, id: PeerId)
    requires Reachable(cfg, w) && CanPlay(w, after) && NoStop(after) && NoPromotion(after, id)
    requires id in w.cold && id !in Play(w, after).cold
    ensures w.popped + w.waiting <= Play(w, after).popped
  {
    ReachableSafe(cfg, w);
    PlayColdLast(w, after, id);
  }

  lemma {:induction false} PlayOnward(w: World, run: seq<Scene>)
    requires Safe(w, None) && CanPlay(w, run)
    ensures Onward(w, Play(w, run))
    decreases |run|
  {
    if run != [] {
      var m := Take(w, run[0].turn, run[0].env);
      TurnKeeps(w, run[0].turn, run[0].env);
      TurnOnward(w, run[0].turn, run[0].env);
      PlayOnward(m, run[1..]);
      OnwardTwice(w, m, Play(m, run[1..]));
    }
  }

  /**
   * Lifecycle: in every reachable state, the states a queue's connection has been through are those of
   * one straight dial, at most cut short by disconnecting; between turns it rests in a state from which
   * closing is a legal transition, never in ABORTED or ERRORED; it is tracked until it has closed.
   */
  lemma LifecycleOrder(cfg: Config, w: World, c: nat)
    requires Reachable(cfg, w) && c < |w.conns|
    ensures var k := w.conns[c];
            && (k.owner.Some? ==> Lifecycle(k.trail)) && k.trail != [] && k.trail[|k.trail| - 1] == k.state
            && AtRest(k.state) && (k.state != Disconnecting ==> Table(k.state, Disconnect).To?)
            && (c in w.tracked <==> k.state != Disconnected)
  {
    ReachableSafe(cfg, w);
    assert ConnOk(w.conns[c]);
    RestsLegally(w.conns[c]);
  }

  lemma RestsLegally(k: Conn)
    requires ConnOk(k)
    ensures k.trail != [] && k.trail[|k.trail| - 1] == k.state && AtRest(k.state)
    ensures k.state != Disconnecting ==> Table(k.state, Disconnect).To?
  {
  }

  /** Late completions never reopen a connection: once disconnected, it stays disconnected for good. */
  lemma ClosedForGood(cfg: Config, w: World, after: seq<Scene>, c: nat)
    requires Reachable(cfg, w) && CanPlay(w, after) && c < |w.conns| && w.conns[c].state == Disconnected
    ensures var r := Play(w, after);
            c < |r.conns| && r.conns[c].state == Disconnected && c !in r.tracked
  {
    ReachableSafe(cfg, w);
    PlayOnward(w, after);
    PlayKeeps(w, after);
    var r := Play(w, after);
    assert Ahead(w.conns[c], r.conns[c]);
    assert ConnOk(r.conns[c]);
  }

  /**
   * Hanging up: every connection tracked for the peer at the call is disconnecting or disconnected
   * afterwards, and stays so; once it has emitted `close`, that is, disconnected, it is not tracked.
   */
  lemma HangUpCloses(cfg: Config, w: World, id: PeerId, env: Env, after: seq<Scene>, c: nat)
    requires Reachable(cfg, w) && CanPlay(Take(w, HangUpTurn(id), env), after)
    requires c in w.tracked && c < |w.conns| && w.conns[c].peer == id
    ensures var r := Play(Take(w, HangUpTurn(id), env), after);
            c < |r.conns| && Closing(r.conns[c].state) && (c in r.tracked ==> r.conns[c].state == Disconnecting)
  {
    ReachableSafe(cfg, w);
    var m := Take(w, HangUpTurn(id), env);
    HangUpTurnCloses(w, id, env, c);
    TurnKeeps(w, HangUpTurn(id), env);
    PlayOnward(m, after);
    PlayKeeps(m, after);
    var r := Play(m, after);
    assert Ahead(m.conns[c], r.conns[c]);
    assert ConnOk(r.conns[c]);
  }

  lemma HangUpTurnCloses(w: World, id: PeerId, env: Env, c: nat)
    requires Safe(w, None) && c in w.tracked && c < |w.conns| && w.conns[c].peer == id
    ensures var m := HangUp(w, id, env); c < |m.conns| && Closing(m.conns[c].state)
  {
    var list := OfPeer(w.tracked, w.conns, id);
    forall i | 0 <= i < |list| ensures list[i] < |w.conns| { assert list[i] in w.tracked; }
    assert c in list;
    EachCloses(w, list, env, c);
  }

  lemma EachCloses(w: World, list: seq<nat>, env: Env, c: nat)
    requires Safe(w, None) && (forall i :: 0 <= i < |list| ==> list[i] < |w.conns|) && c in list
    ensures var m := CloseEach(w, list, env); c < |m.conns| && Closing(m.conns[c].state)
  {
    CloseEachCloses(w, list, env);
    var i :| 0 <= i < |list| && list[i] == c;
    assert Closing(CloseEach(w, list, env).conns[list[i]].state);
  }

  /**
   * Stopping drains everything, from every reachable state: no id, no table entry, no pending request
   * and no running queue is left, every pending request is answered with an abort and nothing else is
   * said, and no connection is made or touched.
   */
  lemma StopDrainsAlways(cfg: Config, w: World, order: seq<PeerId>, env: Env)
    requires Reachable(cfg, w) && Lists(order, w.table)
    ensures var r := Take(w, StopTurn(order), env);
            && r.waiting == [] && r.cold == [] && r.dialing == {} && r.table == map[]
            && (forall q :: 0 <= q < |r.queues| ==> Quiet(r, q))
            && r.log == w.log + AllAborted(w, order) && r.conns == w.conns
  {
    ReachableSafe(cfg, w);
    StopDrains(w, order, env);
  }
}
