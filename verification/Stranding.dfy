/**
 * Two runs that leave an id waiting next to a free slot, so that the two exceptions in the work
 * conservation theorem are needed: dialling between stop and start, and the clean timer.
 */
module Stranding {
  import opened Basics
  import opened Fsm
  import opened Connection
  import opened Scheduler
  import opened Turns
  import opened WorkConservation
  import opened Runs

  /** The state of the manager, its queues and its connections, whatever was logged. */
  ghost predicate Looks(w: World, cfg: Config, running: bool, waiting: seq<PeerId>, dialing: set<PeerId>,
                        table: map<PeerId, nat>, queues: seq<DialQueue>, conns: seq<Conn>, tracked: seq<nat>)
  {
    && w.cfg == cfg && w.running == running && w.waiting == waiting && w.cold == [] && w.dialing == dialing
    && w.table == table && w.queues == queues && w.conns == conns && w.tracked == tracked
  }

  function Idle(id: PeerId, reqs: seq<Request>): DialQueue { DialQueue(id, reqs, NotDenied, 0, false) }

  function Busy(id: PeerId): DialQueue { DialQueue(id, [], NotDenied, 0, true) }

  /** The queue that an unknown peer's request makes. */
  lemma OfferFirst(w: World, id: PeerId, req: Request) returns (w1: World)
    requires Wf(w) && id !in w.table
    ensures Wf(GetQueue(w, id)) && |GetQueue(w, id).queues| == |w.queues| + 1 && Wf(w1)
    ensures w1 == Offer(GetQueue(w, id), |w.queues|, req, 0)
    ensures w1 == w.(table := w.table[id := |w.queues|], queues := w.queues + [Idle(id, [req])],
                    log := w.log + [Accepted(id, req)])
    ensures SetQueue(w1, |w.queues|, w1.queues[|w.queues|]) == w1
  {
    GetQueueWf(w, id);
    OfferWf(GetQueue(w, id), |w.queues|, req, 0);
    w1 := Offer(GetQueue(w, id), |w.queues|, req, 0);
    assert [] + [req] == [req];
    assert w1.queues == w.queues + [Idle(id, [req])];
    assert w1.queues[|w.queues| := w1.queues[|w.queues|]] == w1.queues;
  }

  /** Dialling an unknown peer while nothing can run: its id waits. */
  lemma DialWaits(w: World, id: PeerId, req: Request, env: Env) returns (r: World)
    requires Wf(w) && id !in w.table && id !in w.waiting && w.cold == []
    requires !w.running || |w.dialing| >= w.cfg.maxParallelDials
    ensures Wf(r) && r == Take(w, DialTurn(id, req, PRIORITY_HIGH, false, 0, 0), env)
    ensures Looks(r, w.cfg, w.running, w.waiting + [id], w.dialing, w.table[id := |w.queues|],
                  w.queues + [Idle(id, [req])], w.conns, w.tracked)
  {
    var w1 := OfferFirst(w, id, req);
    EnqueueWf(w1, id, PRIORITY_HIGH);
    var m, next := Unfold(Enqueue(w1, id, PRIORITY_HIGH), TRun, env);
    AddWf(w, id, req, PRIORITY_HIGH, false, 0, 0, env);
    r := m;
  }

  // ---------------------------------------------------------------- stop, dial, start

  /** Starting the manager does not run it: what was dialled while it was stopped goes on waiting. */
  lemma RestartStrands(cfg: Config, id: PeerId, req: Request, env: Env) returns (run: seq<Scene>)
    requires cfg.maxParallelDials > 0
    ensures |run| == 3 && run[0].turn == StopTurn([]) && run[1].turn.DialTurn? && run[2].turn == StartTurn
    ensures CanPlay(Init(cfg), run)
    ensures var w := Play(Init(cfg), run); w.running && w.waiting == [id] && w.dialing == {} && !Served(w)
  {
    var stop, dial, start :=
      Scene(StopTurn([]), env), Scene(DialTurn(id, req, PRIORITY_HIGH, false, 0, 0), env), Scene(StartTurn, env);
    var w1 := Take(Init(cfg), stop.turn, env);
    assert w1 == Init(cfg).(running := false);
    var w2 := DialWaits(w1, id, req, env);
    PlayFirst(w2, start, []);
    PlayFirst(w1, dial, [start] + []);
    PlayFirst(Init(cfg), stop, [dial] + ([start] + []));
    run := [stop] + ([dial] + ([start] + []));
  }

  // ---------------------------------------------------------------- the clean timer

  /** An idle queue with one request and no open connection makes a connection. */
  lemma StartDials(w: World, q: nat, id: PeerId, req: Request, env: Env) returns (r: World)
    requires Wf(w) && q < |w.queues| && w.queues[q] == Idle(id, [req])
    requires FirstMuxed(w.tracked, w.conns, id).None? && !env.failsNow(|w.conns|)
    ensures Wf(r) && r == Exec(w, TStart(q), env)
    ensures r == w.(queues := w.queues[q := Busy(id)], conns := w.conns + [Dialled(id, q, req)],
                    tracked := w.tracked + [|w.conns|], log := r.log)
  {
    var b, t2 := Unfold(w, TStart(q), env);
    var c, t3 := Unfold(b, TNext(q), env);
    assert [req][1..] == [];
    r := c;
  }

  /** Dialling an unknown peer with a free slot and nothing waiting: its queue starts and makes a connection. */
  lemma DialStarts(w: World, id: PeerId, req: Request, env: Env) returns (r: World)
    requires Wf(w) && id !in w.table && w.waiting == [] && w.cold == [] && w.running
    requires |w.dialing| < w.cfg.maxParallelDials
    requires FirstMuxed(w.tracked, w.conns, id).None? && !env.failsNow(|w.conns|)
    ensures Wf(r) && r == Take(w, DialTurn(id, req, PRIORITY_HIGH, false, 0, 0), env)
    ensures Looks(r, w.cfg, true, [], w.dialing + {id}, w.table[id := |w.queues|], w.queues + [Busy(id)],
                  w.conns + [Dialled(id, |w.queues|, req)], w.tracked + [|w.conns|])
  {
    var w1 := OfferFirst(w, id, req);
    EnqueueWf(w1, id, PRIORITY_HIGH);
    var a, t1 := Unfold(Enqueue(w1, id, PRIORITY_HIGH), TRun, env);
    r := StartDials(a, |w.queues|, id, req, env);
    assert r.queues == w.queues + [Busy(id)];
    AddWf(w, id, req, PRIORITY_HIGH, false, 0, 0, env);
  }

  /** An inbound connection of a peer that has a queue and no denial. */
  lemma AcceptTracks(w: World, id: PeerId, env: Env) returns (r: World)
    requires Wf(w) && id in w.table && w.queues[w.table[id]].denial == NotDenied && w.queues[w.table[id]].denials == 0
    ensures Wf(r) && r == Take(w, AcceptTurn(id), env)
    ensures Looks(r.(cold := []), w.cfg, w.running, w.waiting, w.dialing, w.table, w.queues,
                  w.conns + [Inbound(id)], w.tracked + [|w.conns|]) && r.cold == w.cold
  {
    r := Accept(w, id);
    assert w.queues[w.table[id] := w.queues[w.table[id]]] == w.queues;
  }

  /** A running queue takes its next request over an open connection. */
  lemma NextOver(w: World, q: nat, env: Env) returns (r: World)
    requires Wf(w) && q < |w.queues| && w.queues[q].running && w.queues[q].pending != []
    requires FirstMuxed(w.tracked, w.conns, w.queues[q].id).Some?
    ensures Wf(r) && |r.queues| == |w.queues| && Exec(w, TNext(q), env) == Exec(r, TNext(q), env)
    ensures r == w.(queues := w.queues[q := w.queues[q].(pending := w.queues[q].pending[1..])], log := r.log)
  {
    var next;
    r, next := Unfold(w, TNext(q), env);
  }

  /** A running queue outside the slots has nothing left to do, and stops. */
  lemma NextStops(w: World, q: nat, env: Env) returns (r: World)
    requires Wf(w) && q < |w.queues| && w.queues[q].running && w.queues[q].pending == []
    requires w.queues[q].id !in w.dialing && |w.dialing| >= w.cfg.maxParallelDials
    ensures Wf(r) && Exec(w, TNext(q), env) == r && r == w.(queues := w.queues[q := w.queues[q].(running := false)])
  {
    var a, t1 := Unfold(w, TNext(q), env);
    var b, t2 := Unfold(w, TStop(q), env);
    assert w.dialing - {w.queues[q].id} == w.dialing;
    var t3;
    r, t3 := Unfold(b, TRun, env);
  }

  /** A queue with two requests runs dry over an open connection. */
  lemma RunsDry(w: World, q: nat, id: PeerId, reqs: seq<Request>, env: Env) returns (r: World)
    requires Wf(w) && q < |w.queues| && w.queues[q] == Idle(id, reqs) && |reqs| == 2
    requires id !in w.dialing && |w.dialing| >= w.cfg.maxParallelDials && FirstMuxed(w.tracked, w.conns, id).Some?
    ensures Wf(r) && r == Exec(w, TStart(q), env)
    ensures r == w.(queues := w.queues[q := Idle(id, [])], log := r.log)
  {
    var a, t := Unfold(w, TStart(q), env);
    var c := NextTwice(a, q, env);
    r := NextStops(c, q, env);
    assert r.queues == w.queues[q := Idle(id, [])];
  }

  /** Two requests, both over the open connection. */
  lemma NextTwice(w: World, q: nat, env: Env) returns (r: World)
    requires Wf(w) && q < |w.queues| && w.queues[q].running && |w.queues[q].pending| == 2
    requires FirstMuxed(w.tracked, w.conns, w.queues[q].id).Some?
    ensures Wf(r) && |r.queues| == |w.queues| && Exec(w, TNext(q), env) == Exec(r, TNext(q), env)
    ensures r == w.(queues := w.queues[q := w.queues[q].(pending := [])], log := r.log)
  {
    var m := NextOver(w, q, env);
    r := NextOver(m, q, env);
    assert w.queues[q].pending[1..][1..] == [];
  }

  /** Over an open connection a queue runs dry at once; outside the slots, it leaves its id waiting. */
  lemma DialDrains(w: World, id: PeerId, first: Request, req: Request, env: Env) returns (r: World)
    requires Wf(w) && id in w.table && w.queues[w.table[id]] == Idle(id, [first]) && w.cold == []
    requires id !in w.dialing && |w.dialing| >= w.cfg.maxParallelDials
    requires FirstMuxed(w.tracked, w.conns, id).Some?
    ensures Wf(r) && r == Take(w, DialTurn(id, req, PRIORITY_HIGH, true, 0, 0), env)
    ensures Looks(r, w.cfg, w.running, w.waiting, w.dialing, w.table, w.queues[w.table[id] := Idle(id, [])],
                  w.conns, w.tracked)
  {
    var q := w.table[id];
    OfferWf(w, q, req, 0);
    var w1 := Offer(w, q, req, 0);
    r := RunsDry(w1, q, id, [first] + [req], env);
    assert r.queues == w.queues[q := Idle(id, [])];
    AddWf(w, id, req, PRIORITY_HIGH, true, 0, 0, env);
  }

  /** Discarding a queue that is idle deletes it, and changes nothing else. */
  lemma DiscardIdle(w: World, id: PeerId, env: Env)
    requires Wf(w) && id in w.table && w.queues[w.table[id]] == Idle(id, [])
    ensures Discard(w, id, env) == Drop(w, id)
  {
    var q := w.table[id];
    var a, t1 := Unfold(w, TAbort(q), env);
    assert a.queues == w.queues && a.log == w.log;
    var b, t2 := Unfold(a, TStop(q), env);
  }

  /** The clean timer, when the one queue that is not running belongs to a peer no longer connected. */
  lemma CleanDrops(w: World, busy: PeerId, idle: PeerId, env: Env) returns (r: World)
    requires Wf(w) && busy != idle && w.table == map[busy := 0, idle := 1] && w.queues == [Busy(busy), Idle(idle, [])]
    ensures var t := CleanTurn([busy, idle], _ => false); CanTake(w, t) && Wf(r) && r == Take(w, t, env)
    ensures Looks(r.(cold := []), w.cfg, w.running, w.waiting, w.dialing, map[busy := 0], w.queues, w.conns, w.tracked)
            && r.cold == w.cold
  {
    var no: PeerId -> bool := _ => false;
    DiscardIdle(w, idle, env);
    DropWf(w, idle);
    r := Drop(w, idle);
    assert Clean(w, [busy, idle], no, env) == Clean(w, [idle], no, env) by { assert [busy, idle][1..] == [idle]; }
    assert Clean(w, [idle], no, env) == Clean(r, [], no, env) by { assert [idle][1..] == []; }
    assert w.table - {idle} == map[busy := 0];
  }

  /** The only dial in flight is closed: its queue stops, and `run` gives up at an id that has no queue. */
  lemma CloseGivesUp(w: World, busy: PeerId, gone: PeerId, req: Request, env: Env) returns (r: World)
    requires Wf(w) && w.cfg.maxParallelDials == 1 && w.running && w.dialing == {busy} && w.cold == []
    requires |w.queues| > 0 && w.queues[0] == Busy(busy) && |w.conns| > 0 && w.conns[0] == Dialled(busy, 0, req)
    requires |w.waiting| > 0 && w.waiting[0] == gone && gone !in w.table
    ensures Wf(r) && r == Take(w, CloseTurn(0, false), env)
    ensures r.running && r.cfg == w.cfg && r.waiting == w.waiting[1..] && r.dialing == {} && r.table == w.table
  {
    FireDisconnect(w.conns[0], env.setup);
    var a, t1 := Unfold(w, TClose(0, None), env);
    assert t1 == Some(TNext(0));
    r := StopGivesUp(a, env);
  }

  /** The last queue stops, and `run` gives up at an id that has no queue. */
  lemma StopGivesUp(w: World, env: Env) returns (r: World)
    requires Wf(w) && w.cfg.maxParallelDials == 1 && w.running && w.cold == []
    requires |w.queues| > 0 && w.queues[0] == Busy(w.queues[0].id) && w.dialing == {w.queues[0].id}
    requires |w.waiting| > 0 && w.waiting[0] !in w.table
    ensures Wf(r) && r == Exec(w, TNext(0), env)
    ensures r.running && r.cfg == w.cfg && r.waiting == w.waiting[1..] && r.dialing == {} && r.table == w.table
  {
    var b, t2 := Unfold(w, TNext(0), env);
    var c, t3 := Unfold(b, TStop(0), env);
    assert c.dialing == {};
    var d, t4 := Unfold(c, TRun, env);
    r := d;
  }

  /** The run plays one turn after another, and none of them stops or starts the manager. */
  ghost predicate Leads(w: World, run: seq<Scene>, r: World)
    requires Wf(w)
  {
    && (forall i :: 0 <= i < |run| ==> !run[i].turn.StopTurn? && !run[i].turn.StartTurn?)
    && CanPlay(w, run) && Play(w, run) == r
  }

  lemma ThenTurn(w: World, run: seq<Scene>, m: World, s: Scene)
    requires Wf(w) && Leads(w, run, m) && CanTake(m, s.turn) && !s.turn.StopTurn? && !s.turn.StartTurn?
    ensures Leads(w, run + [s], Take(m, s.turn, s.env))
  {
    PlayThen(w, run, s);
  }

  /** One peer holds the slot. */
  lemma FirstDial(cfg: Config, a: PeerId, req: Request, env: Env) returns (w: World)
    requires cfg.maxParallelDials == 1 && !env.failsNow(0)
    ensures Wf(w) && w == Take(Init(cfg), DialTurn(a, req, PRIORITY_HIGH, false, 0, 0), env)
    ensures Looks(w, cfg, true, [], {a}, map[a := 0], [Busy(a)], [Dialled(a, 0, req)], [0])
  {
    w := DialStarts(Init(cfg), a, req, env);
  }

  /** One peer holds the slot, and another waits for it. */
  lemma WaitsBeside(cfg: Config, a: PeerId, b: PeerId, req: Request, env: Env) returns (run: seq<Scene>, w: World)
    requires cfg.maxParallelDials == 1 && a != b && !env.failsNow(0)
    ensures Leads(Init(cfg), run, w) && Wf(w)
    ensures Looks(w, cfg, true, [b], {a}, map[a := 0, b := 1], [Busy(a), Idle(b, [req])], [Dialled(a, 0, req)], [0])
  {
    var w1 := FirstDial(cfg, a, req, env);
    ThenTurn(Init(cfg), [], Init(cfg), Scene(DialTurn(a, req, PRIORITY_HIGH, false, 0, 0), env));
    run := [] + [Scene(DialTurn(a, req, PRIORITY_HIGH, false, 0, 0), env)];
    w := DialWaits(w1, b, req, env);
    ThenTurn(Init(cfg), run, w1, Scene(DialTurn(b, req, PRIORITY_HIGH, false, 0, 0), env));
    run := run + [Scene(DialTurn(b, req, PRIORITY_HIGH, false, 0, 0), env)];
  }

  /** The waiting peer connects by itself. */
  lemma ConnectsBeside(cfg: Config, a: PeerId, b: PeerId, req: Request, env: Env) returns (run: seq<Scene>, w: World)
    requires cfg.maxParallelDials == 1 && a != b && !env.failsNow(0)
    ensures Leads(Init(cfg), run, w) && Wf(w)
    ensures Looks(w, cfg, true, [b], {a}, map[a := 0, b := 1], [Busy(a), Idle(b, [req])],
                  [Dialled(a, 0, req), Inbound(b)], [0, 1])
  {
    var before, m := WaitsBeside(cfg, a, b, req, env);
    w := AcceptTracks(m, b, env);
    ThenTurn(Init(cfg), before, m, Scene(AcceptTurn(b), env));
    run := before + [Scene(AcceptTurn(b), env)];
    assert w.tracked == [0, 1] && w.conns == [Dialled(a, 0, req), Inbound(b)];
  }

  /** The waiting peer is served over the connection of its own. */
  lemma ServedBeside(cfg: Config, a: PeerId, b: PeerId, req: Request, env: Env) returns (run: seq<Scene>, w: World)
    requires cfg.maxParallelDials == 1 && a != b && !env.failsNow(0)
    ensures Leads(Init(cfg), run, w) && Wf(w)
    ensures Looks(w, cfg, true, [b], {a}, map[a := 0, b := 1], [Busy(a), Idle(b, [])],
                  [Dialled(a, 0, req), Inbound(b)], [0, 1])
  {
    var before, m := ConnectsBeside(cfg, a, b, req, env);
    w := DialDrains(m, b, req, req, env);
    ThenTurn(Init(cfg), before, m, Scene(DialTurn(b, req, PRIORITY_HIGH, true, 0, 0), env));
    run := before + [Scene(DialTurn(b, req, PRIORITY_HIGH, true, 0, 0), env)];
  }

  /** The served peer disconnects and is cleaned away, while its id still waits. */
  lemma CleanedBeside(cfg: Config, a: PeerId, b: PeerId, req: Request, env: Env) returns (run: seq<Scene>, w: World)
    requires cfg.maxParallelDials == 1 && a != b && !env.failsNow(0)
    ensures Leads(Init(cfg), run, w) && Wf(w)
    ensures Looks(w, cfg, true, [b], {a}, map[a := 0], [Busy(a), Idle(b, [])],
                  [Dialled(a, 0, req), Inbound(b)], [0, 1])
  {
    var before, m := ServedBeside(cfg, a, b, req, env);
    w := CleanDrops(m, a, b, env);
    ThenTurn(Init(cfg), before, m, Scene(CleanTurn([a, b], _ => false), env));
    run := before + [Scene(CleanTurn([a, b], _ => false), env)];
  }

  /** A third peer waits behind the one that was cleaned away. */
  lemma WaitsBehind(cfg: Config, a: PeerId, b: PeerId, c: PeerId, req: Request, env: Env)
    returns (run: seq<Scene>, w: World)
    requires cfg.maxParallelDials == 1 && a != b && b != c && a != c && !env.failsNow(0)
    ensures Leads(Init(cfg), run, w) && Wf(w) && w.cfg == cfg && w.running && w.cold == []
    ensures w.waiting == [b, c] && w.dialing == {a} && b !in w.table && c in w.table
    ensures |w.queues| > 0 && w.queues[0] == Busy(a) && |w.conns| > 0 && w.conns[0] == Dialled(a, 0, req)
  {
    var before, m := CleanedBeside(cfg, a, b, req, env);
    w := DialWaits(m, c, req, env);
    ThenTurn(Init(cfg), before, m, Scene(DialTurn(c, req, PRIORITY_HIGH, false, 0, 0), env));
    run := before + [Scene(DialTurn(c, req, PRIORITY_HIGH, false, 0, 0), env)];
  }

  /**
   * With one slot, which a dial holds: a second peer waits for it, is served over a connection of its
   * own meanwhile, disconnects, and is cleaned away while its id still waits. When the dial ends, `run`
   * pops that id, finds no queue and gives up; a third peer goes on waiting next to the free slot. No
   * turn of this run stops or starts the manager.
   */
  lemma CleanStrands(cfg: Config, a: PeerId, b: PeerId, c: PeerId, req: Request, env: Env)
    returns (run: seq<Scene>, w: World)
    requires cfg.maxParallelDials == 1 && a != b && b != c && a != c && !env.failsNow(0)
    ensures Leads(Init(cfg), run, w)
    ensures Wf(w) && w.running && w.waiting == [c] && w.dialing == {} && c in w.table && !Served(w)
  {
    var before, m := WaitsBehind(cfg, a, b, c, req, env);
    w := CloseGivesUp(m, a, b, req, env);
    ThenTurn(Init(cfg), before, m, Scene(CloseTurn(0, false), env));
    run := before + [Scene(CloseTurn(0, false), env)];
  }
}
