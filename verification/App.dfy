/** app/server/server.go: the process, its objects and its consumer.  Every action of the
    transition system is carried out by the objects, so every run is, restarts included. */
module Application {
  import opened Types
  import opened Store
  import opened Queue
  import opened Listener
  import opened Protocol
  import opened Coordination

  /** Something that happens: an action, or a channel closing for its own reasons. */
  datatype Happening = Does(action: Action) | Closes(ch: ChannelId)

  function ActionsOf(hs: seq<Happening>): seq<Action>
    decreases |hs|
  {
    if hs == [] then []
    else ActionsOf(hs[..|hs| - 1]) + if hs[|hs| - 1].Does? then [hs[|hs| - 1].action] else []
  }

  /** The channels that are closed afterwards; a restart has new ones. */
  function ClosedAfter(closed: set<ChannelId>, h: Happening): set<ChannelId> {
    match h
    case Closes(ch) => closed + {ch}
    case Does(a) => if a.Restart? then {} else closed
  }

  function ClosedAfterAll(closed: set<ChannelId>, hs: seq<Happening>): set<ChannelId>
    decreases |hs|
  {
    if hs == [] then closed else ClosedAfter(ClosedAfterAll(closed, hs[..|hs| - 1]), hs[|hs| - 1])
  }

  /** A push succeeds exactly on a channel that is not closed. */
  predicate Fits(closed: set<ChannelId>, h: Happening) {
    h.Does? && h.action.Deliver? ==> h.action.pushed == (h.action.target !in closed)
  }

  predicate Consistent(closed: set<ChannelId>, hs: seq<Happening>) {
    forall i :: 0 <= i < |hs| ==> Fits(ClosedAfterAll(closed, hs[..i]), hs[i])
  }

  class AppServer {
    const coord: Coordinator
    var clock: Instant
    var consuming: bool
    var inHand: Option<SubmitEvent>

    /** The objects stand for the abstract state. */
    ghost predicate Simulates(s: State)
      reads this, coord, coord.sessions.Values, coord.store, coord.mq, coord.srv
    {
      coord.Abstracts(s) && clock == s.clock && consuming == s.consumer.running && inHand == s.consumer.inHand
    }

    /** A new process on the store of the one before, at the instant of its start. */
    constructor (cfg: Config, store: MemoryStore, told: map<ChannelId, seq<Job>>, now: Instant, ghost s: State)
      requires store.View() == s.store && told == s.log.told && now == s.clock
      ensures coord.cfg == cfg && coord.store == store && coord.srv.closed == {}
      ensures fresh(coord) && fresh(coord.sessions.Values) && fresh(coord.mq) && fresh(coord.srv)
      ensures Simulates(AfterRestart(cfg, s))
    {
      var srv := new Pusher(told);
      var mq := new MemoryQueue(cfg.queueSize);
      coord := new Coordinator(cfg, srv, store, mq);
      clock, consuming, inHand := now, true, None;
      new;
      assert coord.sessions == map[];
    }

    // ----- the coordinator's loop -----

    method PerformLoop(ghost s: State, a: Action)
      requires Simulates(s) && Enabled(coord.cfg, s, a)
      requires a.RestoreLatest? || a.RestoreHistory? || a.Rotate? || a.SaveJob? || a.Snapshot? || a.EndBroadcast?
      modifies coord`jobId, coord`serverNonce, coord`history, coord.store
      ensures Simulates(Apply(coord.cfg, s, a)) && coord.sessions == old(coord.sessions)
    {
      match a
      case RestoreLatest => coord.RestoreLatestJob(s);
      case RestoreHistory => coord.RestoreWindow(s, clock);
      case Rotate(nonce) => coord.Mint(s, nonce, clock);
      case SaveJob => coord.SaveCurrent(s, clock);
      case _ =>
    }

    /** The turn of one session in the broadcast; one that has gone is only pushed to. */
    method PerformDeliver(ghost s: State, ch: ChannelId, ghost pushed: bool)
      requires Simulates(s) && s.phase.Broadcasting? && pushed == (ch !in coord.srv.closed)
      modifies coord.srv`told, coord.sessions.Values
      ensures Simulates(AfterDeliver(s, ch, pushed)) && coord.sessions == old(coord.sessions)
    {
      var job := Job(coord.jobId, coord.serverNonce);
      if ch in coord.sessions {
        assert coord.sessions[ch] in coord.sessions.Values;
        var ok := coord.DeliverTo(s, ch, job);
        SameDelivery(s, ch, ok, pushed);
      } else {
        var ok := coord.srv.Push(ch, job);
      }
    }

    // ----- connections -----

    method PerformRegister(ghost s: State, ch: ChannelId, user: string)
      requires Simulates(s)
      modifies coord`sessions
      ensures Simulates(AfterRegister(s, ch, user)) && fresh(coord.sessions.Values - old(coord.sessions.Values))
    {
      coord.RegisterSession(s, ch, user);
    }

    method PerformRestoreUser(ghost s: State, ch: ChannelId)
      requires Simulates(s)
      modifies coord.sessions.Values
      ensures Simulates(AfterRestoreUser(s, ch)) && coord.sessions == old(coord.sessions)
    {
      if ch in coord.sessions {
        assert coord.sessions[ch] in coord.sessions.Values;
        coord.RestoreUserState(s, ch, coord.sessions[ch].username);
      }
    }

    /** The lookup in the channel map and, if the identifier is new there, the entry. */
    method AddChannel(ghost s: State, ch: ChannelId) returns (repeated: bool)
      requires Simulates(s)
      modifies coord.srv`channels
      ensures repeated == (ch in s.channels) && Simulates(AfterAddChannel(s, ch))
    {
      repeated := ch in coord.srv.channels;
      if !repeated {
        coord.srv.channels := coord.srv.channels + {ch};
      }
    }

    method RemoveChannel(ghost s: State, ch: ChannelId)
      requires Simulates(s)
      modifies coord.srv`channels
      ensures Simulates(AfterRemoveChannel(s, ch))
    {
      coord.srv.channels := coord.srv.channels - {ch};
    }

    method CloseChannel(ghost s: State, ch: ChannelId)
      requires Simulates(s)
      modifies coord.srv`closed
      ensures Simulates(s) && coord.srv.closed == old(coord.srv.closed) + {ch}
    {
      coord.srv.closed := coord.srv.closed + {ch};
    }

    method PerformDisconnect(ghost s: State, ch: ChannelId)
      requires Simulates(s)
      modifies coord`sessions
      ensures Simulates(AfterDisconnect(s, ch)) && coord.sessions == old(coord.sessions) - {ch}
      ensures coord.sessions.Values <= old(coord.sessions.Values)
    {
      coord.UnregisterSession(s, ch);
    }

    /** A request reaches the listener, which reads the clock twice. */
    method PerformRequest(ghost s: State, ch: ChannelId, req: Request, t1: Instant, t2: Instant) returns (reply: Option<Response>)
      requires Simulates(s) && AsWritten(coord.cfg)
      modifies this`clock, coord.sessions.Values, coord.store, coord.mq
      ensures Simulates(AfterRequest(coord.cfg, s, ch, req, t1, t2)) && coord.sessions == old(coord.sessions)
      ensures reply == ReplyTo(coord.cfg, s, ch, req, t1, t2)
    {
      assert ch in coord.sessions ==> coord.sessions[ch] in coord.sessions.Values;
      reply := coord.Receive(s, ch, req, t1, t2);
      if Submits(req) {
        clock := t2;
      }
    }

    method PerformSubmit(ghost s: State, ch: ChannelId, p: SubmitParams, t1: Instant, t2: Instant) returns (v: Verdict)
      requires Simulates(s) && AsWritten(coord.cfg)
      modifies this`clock, coord.sessions.Values, coord.store, coord.mq
      ensures Simulates(AfterSubmit(coord.cfg, s, ch, p, t1, t2)) && coord.sessions == old(coord.sessions)
      ensures v == VerdictOn(coord.cfg, s, ch, p, t1, t2)
    {
      assert ch in coord.sessions ==> coord.sessions[ch] in coord.sessions.Values;
      v := coord.HandleSubmit(s, ch, p, t1, t2);
      clock := t2;
    }

    /** What the goroutine of some connection does. */
    method PerformConnection(ghost s: State, a: Action) returns (v: Option<Verdict>)
      requires Simulates(s) && AsWritten(coord.cfg) && Enabled(coord.cfg, s, a) && OfConnection(a)
      modifies this`clock, coord`sessions, coord.sessions.Values, coord.store, coord.mq, coord.srv`channels
      ensures Simulates(Apply(coord.cfg, s, a)) && fresh(coord.sessions.Values - old(coord.sessions.Values))
      ensures v == VerdictOf(coord.cfg, s, a)
    {
      v := None;
      match a
      case Register(ch, user) => PerformRegister(s, ch, user);
      case RestoreUser(ch) => PerformRestoreUser(s, ch);
      case AddChannel(ch) => var repeated := AddChannel(s, ch);
      case RemoveChannel(ch) => RemoveChannel(s, ch);
      case Disconnect(ch) => PerformDisconnect(s, ch);
      case Submit(ch, p, t1, t2) =>
        var verdict := PerformSubmit(s, ch, p, t1, t2);
        v := Some(verdict);
    }

    // ----- the consumer -----

    method PerformReceive(ghost s: State)
      requires Simulates(s) && CanReceive(s.queue)
      modifies this`inHand, coord.mq
      ensures Simulates(AfterReceive(s))
    {
      var r := coord.mq.Receive();
      inHand := Some(r.event);
    }

    method PerformCount(ghost s: State)
      requires Simulates(s) && s.consumer.inHand.Some?
      modifies this`inHand, coord.store
      ensures Simulates(AfterCount(s))
    {
      coord.store.Increment(inHand.value.username, inHand.value.time);
      inHand := None;
    }

    method PerformClose(ghost s: State)
      requires Simulates(s)
      modifies coord.mq
      ensures Simulates(s.(queue := Closed(s.queue)))
    {
      coord.mq.Close();
    }

    method PerformConsumer(ghost s: State, a: Action)
      requires Simulates(s) && Enabled(coord.cfg, s, a)
      requires a.Tick? || a.ConsumerReceive? || a.ConsumerCount? || a.StopConsumer? || a.CloseQueue?
      modifies this, coord.store, coord.mq
      ensures Simulates(Apply(coord.cfg, s, a))
    {
      match a
      case Tick(now) => clock := now;
      case ConsumerReceive => PerformReceive(s);
      case ConsumerCount => PerformCount(s);
      case StopConsumer => consuming := false;
      case CloseQueue => PerformClose(s);
    }

    // ----- whole runs -----

    /** Any action, but for the restart, which ends the process. */
    method Perform(ghost s: State, a: Action) returns (v: Option<Verdict>)
      requires Simulates(s) && AsWritten(coord.cfg) && Enabled(coord.cfg, s, a) && !a.Restart?
      requires Fits(coord.srv.closed, Does(a))
      modifies this, coord, coord.sessions.Values, coord.store, coord.mq, coord.srv
      ensures Simulates(Apply(coord.cfg, s, a)) && coord.srv.closed == old(coord.srv.closed)
      ensures fresh(coord.sessions.Values - old(coord.sessions.Values))
      ensures v == VerdictOf(coord.cfg, s, a)
    {
      v := None;
      if OfConnection(a) {
        v := PerformConnection(s, a);
      } else if a.Deliver? {
        PerformDeliver(s, a.target, a.pushed);
      } else {
        PerformBackground(s, a);
      }
    }

    /** What happens beside the connections. */
    method PerformBackground(ghost s: State, a: Action)
      requires Simulates(s) && Enabled(coord.cfg, s, a) && Background(a)
      modifies this, coord`jobId, coord`serverNonce, coord`history, coord.store, coord.mq
      ensures Simulates(Apply(coord.cfg, s, a)) && coord.sessions == old(coord.sessions)
    {
      if a.Tick? || a.ConsumerReceive? || a.ConsumerCount? || a.StopConsumer? || a.CloseQueue? {
        PerformConsumer(s, a);
      } else {
        PerformLoop(s, a);
      }
    }

    method Happen(ghost s: State, h: Happening) returns (v: Option<Verdict>)
      requires Simulates(s) && AsWritten(coord.cfg) && Fits(coord.srv.closed, h)
      requires h.Does? ==> Enabled(coord.cfg, s, h.action) && !h.action.Restart?
      modifies this, coord, coord.sessions.Values, coord.store, coord.mq, coord.srv
      ensures Simulates(AfterHappening(coord.cfg, s, h)) && coord.srv.closed == ClosedAfter(old(coord.srv.closed), h)
      ensures fresh(coord.sessions.Values - old(coord.sessions.Values))
      ensures v == if h.Does? then VerdictOf(coord.cfg, s, h.action) else None
    {
      v := None;
      match h
      case Does(a) => v := Perform(s, a);
      case Closes(ch) => CloseChannel(s, ch);
    }
  }

  predicate OfConnection(a: Action) {
    a.Register? || a.RestoreUser? || a.AddChannel? || a.RemoveChannel? || a.Disconnect? || a.Submit?
  }

  function VerdictOf(cfg: Config, s: State, a: Action): Option<Verdict> {
    if a.Submit? then Some(VerdictOn(cfg, s, a.ch, a.params, a.t1, a.t2)) else None
  }

  function AfterHappening(cfg: Config, s: State, h: Happening): State
    requires h.Does? ==> Enabled(cfg, s, h.action)
  {
    if h.Does? then Apply(cfg, s, h.action) else s
  }

  /** The verdicts given along a run, in order. */
  function VerdictsIn(cfg: Config, s: State, acts: seq<Action>): seq<Verdict>
    decreases |acts|
  {
    if acts == [] then []
    else
      var before := ExecFrom(cfg, s, acts[..|acts| - 1]);
      var v := if before.Some? then VerdictOf(cfg, before.value, acts[|acts| - 1]) else None;
      VerdictsIn(cfg, s, acts[..|acts| - 1]) + if v.Some? then [v.value] else []
  }

  /** The next of the happenings is possible, and what it comes to. */
  lemma NextHappening(cfg: Config, s: State, hs: seq<Happening>, i: nat)
    requires i < |hs| && ExecFrom(cfg, s, ActionsOf(hs)).Some?
    ensures ExecFrom(cfg, s, ActionsOf(hs[..i])).Some?
    ensures
      var m := ExecFrom(cfg, s, ActionsOf(hs[..i])).value;
      && (hs[i].Does? ==> Enabled(cfg, m, hs[i].action))
      && ExecFrom(cfg, s, ActionsOf(hs[..i + 1])) == Some(AfterHappening(cfg, m, hs[i]))
      && VerdictsIn(cfg, s, ActionsOf(hs[..i + 1])) == VerdictsIn(cfg, s, ActionsOf(hs[..i]))
         + (if hs[i].Does? && hs[i].action.Submit? then [VerdictOf(cfg, m, hs[i].action).value] else [])
  {
    RunsUpTo(cfg, s, hs, i + 1);
    assert hs[..i + 1][..i] == hs[..i];
    if hs[i].Does? {
      var acts := ActionsOf(hs[..i + 1]);
      assert acts[..|acts| - 1] == ActionsOf(hs[..i]) && acts[|acts| - 1] == hs[i].action;
    } else {
      assert ActionsOf(hs[..i + 1]) == ActionsOf(hs[..i]);
    }
  }

  lemma {:induction false} RunsUpTo(cfg: Config, s: State, hs: seq<Happening>, i: nat)
    requires i <= |hs| && ExecFrom(cfg, s, ActionsOf(hs)).Some?
    ensures ExecFrom(cfg, s, ActionsOf(hs[..i])).Some?
    decreases |hs|
  {
    if i == |hs| {
      assert hs[..i] == hs;
    } else {
      var front := hs[..|hs| - 1];
      if hs[|hs| - 1].Does? {
        assert ActionsOf(hs)[..|ActionsOf(hs)| - 1] == ActionsOf(front);
      } else {
        assert ActionsOf(hs) == ActionsOf(front);
      }
      RunsUpTo(cfg, s, front, i);
      assert front[..i] == hs[..i];
    }
  }

  /** The next process, on the store of this one. */
  method Restarted(app: AppServer, ghost s: State) returns (app': AppServer)
    requires app.Simulates(s)
    ensures fresh(app') && fresh(app'.coord) && fresh(app'.coord.sessions.Values)
    ensures fresh(app'.coord.mq) && fresh(app'.coord.srv) && app'.coord.store == app.coord.store
    ensures app'.coord.cfg == app.coord.cfg && app'.coord.srv.closed == {}
    ensures app'.Simulates(AfterRestart(app.coord.cfg, s))
  {
    app' := new AppServer(app.coord.cfg, app.coord.store, app.coord.srv.told, app.clock, s);
  }

  /** Every run of the transition system, over any number of restarts, is carried out by the
      objects: they end up standing for its last state, and have given its verdicts. */
  method Run(cfg: Config, hs: seq<Happening>) returns (app: AppServer, verdicts: seq<Verdict>)
    requires AsWritten(cfg) && Exec(cfg, ActionsOf(hs)).Some? && Consistent({}, hs)
    ensures app.Simulates(Exec(cfg, ActionsOf(hs)).value)
    ensures verdicts == VerdictsIn(cfg, Init(cfg), ActionsOf(hs))
  {
    var store := new MemoryStore();
    app := new AppServer(cfg, store, map[], 1, Init(cfg));
    verdicts := [];
    ghost var s := Init(cfg);
    assert AfterRestart(cfg, s) == s by {
      assert s.log.lost + InHand(s) + Outstanding(s.queue) == s.log.lost;
    }
    for i := 0 to |hs|
      invariant fresh(app) && fresh(app.coord) && fresh(app.coord.sessions.Values)
      invariant fresh(app.coord.store) && fresh(app.coord.mq) && fresh(app.coord.srv) && app.coord.cfg == cfg
      invariant ExecFrom(cfg, Init(cfg), ActionsOf(hs[..i])) == Some(s) && app.Simulates(s)
      invariant app.coord.srv.closed == ClosedAfterAll({}, hs[..i])
      invariant verdicts == VerdictsIn(cfg, Init(cfg), ActionsOf(hs[..i]))
    {
      NextHappening(cfg, Init(cfg), hs, i);
      assert hs[..i + 1][..i] == hs[..i];
      if hs[i] == Does(Restart) {
        app := Restarted(app, s);
      } else {
        var v := app.Happen(s, hs[i]);
        if v.Some? {
          verdicts := verdicts + [v.value];
        }
      }
      s := AfterHappening(cfg, s, hs[i]);
    }
    assert hs[..|hs|] == hs;
  }

  lemma SameDelivery(s: State, ch: ChannelId, ok: bool, pushed: bool)
    requires s.phase.Broadcasting? && (ch in s.channels ==> ok == pushed)
    ensures AfterDeliver(s, ch, ok) == AfterDeliver(s, ch, pushed)
  {
  }
}
